/**
 The choice of a Docker subnet from the configured address pool.

 A network is a CIDR block (section 3.1 of RFC 4632): an aligned range of a power of two of addresses.
 */
module Subnets {
  import opened Counting
  import opened Wrappers
  import opened Multiples

  const WIDTH: nat := 32

  datatype Block = Block(base: nat, prefix: nat) {

    function Size(): nat
      requires prefix <= WIDTH
    {
      Pow2(WIDTH - prefix)
    }

    /** A host address is written with no bits beyond the prefix, and fits the address space. */
    predicate Valid() {
      prefix <= WIDTH && IsMultiple(base, Size()) && base + Size() <= Pow2(WIDTH)
    }

    predicate Contains(a: nat)
      requires prefix <= WIDTH
    {
      base <= a < base + Size()
    }

    function Broadcast(): nat
      requires prefix <= WIDTH
    {
      base + Size() - 1
    }
  }

  type Network = n: Block | n.Valid() witness Block(0, 0)

  /** The overlap test of the address library: an end of one lies in the other. */
  predicate Overlaps(m: Network, n: Network) {
    m.Contains(n.base) || m.Contains(n.Broadcast()) || n.Contains(m.base) || n.Contains(m.Broadcast())
  }

  predicate Within(inner: Network, outer: Network) {
    outer.base <= inner.base && inner.base + inner.Size() <= outer.base + outer.Size()
  }

  /** The number of blocks of one prefix in a pool, as the source computes it for its error. */
  function Limit(pool: Network, prefix: nat): nat
    requires prefix <= WIDTH
  {
    Quotient(pool.Size(), Pow2(WIDTH - prefix))
  }

  // ---- Arithmetic of blocks ----------------------------------------------------------------------

  /** A block starts at, and spans, a multiple of any smaller block size. */
  lemma {:induction false} AlignedTo(n: Network, prefix: nat) returns (k: nat, c: nat)
    requires n.prefix <= prefix <= WIDTH
    ensures c == Pow2(prefix - n.prefix)
    ensures n.base == k * Pow2(WIDTH - prefix) && n.Size() == c * Pow2(WIDTH - prefix)
  {
    hide Pow2, IsMultiple, Quotient;
    c := Pow2(prefix - n.prefix);
    Pow2Sum(prefix - n.prefix, WIDTH - prefix);
    MultipleHasQuotient(n.base, n.Size());
    var q := Quotient(n.base, n.Size());
    k := q * c;
    Associate(q, c, Pow2(WIDTH - prefix));
  }

  /** The library's test says exactly that some address lies in both. */
  lemma {:induction false} OverlapMeansSharedAddress(m: Network, n: Network)
    ensures Overlaps(m, n) <==> exists a: nat :: m.Contains(a) && n.Contains(a)
  {
    if Overlaps(m, n) {
      assert m.Contains(n.base) ==> n.Contains(n.base);
      assert m.Contains(n.Broadcast()) ==> n.Contains(n.Broadcast());
      assert n.Contains(m.base) ==> m.Contains(m.base);
      assert n.Contains(m.Broadcast()) ==> m.Contains(m.Broadcast());
    }
  }

  /** Two blocks overlap exactly when the one with the longer prefix lies within the other. */
  lemma {:induction false} NestedOrDisjoint(outer: Network, inner: Network)
    requires outer.prefix <= inner.prefix
    ensures Overlaps(outer, inner) <==> Within(inner, outer)
  {
    hide Pow2, IsMultiple;
    if Overlaps(outer, inner) {
      var size := inner.Size();
      var k, c := AlignedTo(outer, inner.prefix);
      var b, one := AlignedTo(inner, inner.prefix);
      Distribute(k, c, size);
      Distribute(b, 1, size);
      MulLess(b, k + c, size);
      MulLess(k, b + 1, size);
      MulMono(k, b, size);
      MulMono(b + 1, k + c, size);
    }
  }

  lemma {:induction false} SamePrefixOverlap(m: Network, n: Network)
    requires m.prefix == n.prefix
    ensures Overlaps(m, n) <==> m == n
  {
    NestedOrDisjoint(m, n);
  }

  // ---- The blocks of a pool ------------------------------------------------------------------------

  predicate IsChoice(pool: Network, prefix: nat, n: Network) {
    n.prefix == prefix && Within(n, pool)
  }

  lemma {:induction false} ChoiceIsBlock(pool: Network, prefix: nat, i: nat)
    requires pool.prefix <= prefix <= WIDTH && i < Limit(pool, prefix)
    ensures
      var n := Block(pool.base + Product(i, Pow2(WIDTH - prefix)), prefix);
      n.Valid() && IsChoice(pool, prefix, n)
  {
    hide Pow2, IsMultiple, Quotient, Limit;
    LimitIsPower(pool, prefix);
    var size := Pow2(WIDTH - prefix);
    var k, c := AlignedTo(pool, prefix);
    Distribute(k, i, size);
    ProductIsMultiple(k + i, size);
    MulMono(i + 1, c, size);
    Distribute(i, 1, size);
  }

  lemma {:induction false} LimitIsPower(pool: Network, prefix: nat)
    requires pool.prefix <= prefix <= WIDTH
    ensures Limit(pool, prefix) == Pow2(prefix - pool.prefix)
  {
    hide Pow2, IsMultiple, Quotient;
    var k, c := AlignedTo(pool, prefix);
    ProductIsMultiple(c, Pow2(WIDTH - prefix));
  }

  /** The i-th block of the pool, in the order the source tries them. */
  function Choice(pool: Network, prefix: nat, i: nat): (n: Network)
    requires pool.prefix <= prefix <= WIDTH && i < Limit(pool, prefix)
    ensures IsChoice(pool, prefix, n)
  {
    ChoiceIsBlock(pool, prefix, i);
    Block(pool.base + Product(i, Pow2(WIDTH - prefix)), prefix)
  }

  /** Every aligned block of the prefix inside the pool is among the candidates. */
  lemma {:induction false} ChoicesAreExhaustive(pool: Network, prefix: nat, n: Network) returns (i: nat)
    requires pool.prefix <= prefix <= WIDTH && IsChoice(pool, prefix, n)
    ensures i < Limit(pool, prefix) && n == Choice(pool, prefix, i)
  {
    hide Pow2, IsMultiple, Quotient;
    var size := Pow2(WIDTH - prefix);
    var k, c := AlignedTo(pool, prefix);
    var b, one := AlignedTo(n, prefix);
    Distribute(b, 1, size);
    Distribute(k, c, size);
    MulLess(k, b + 1, size);
    MulLess(b, k + c, size);
    i := b - k;
    LimitIsPower(pool, prefix);
    Distribute(k, i, size);
  }

  function Choices(pool: Network, prefix: nat): set<Network>
    requires pool.prefix <= prefix <= WIDTH
  {
    set i: nat | i < Limit(pool, prefix) :: Choice(pool, prefix, i)
  }

  lemma {:induction false} CountFirst(pool: Network, prefix: nat, k: nat)
    requires pool.prefix <= prefix <= WIDTH && k <= Limit(pool, prefix)
    ensures |set i: nat | i < k :: Choice(pool, prefix, i)| == k
  {
    hide Choice, IsChoice, Pow2, Limit;
    var first := set i: nat | i < k :: Choice(pool, prefix, i);
    if k == 0 {
      assert first == {};
    } else {
      CountFirst(pool, prefix, k - 1);
      var before := set i: nat | i < k - 1 :: Choice(pool, prefix, i);
      var last := Choice(pool, prefix, k - 1);
      forall i: nat | i < k - 1 ensures Choice(pool, prefix, i) != last {
        ChoicesDiffer(pool, prefix, i, k - 1);
      }
      assert first == before + {last};
    }
  }

  lemma {:induction false} ChoicesDiffer(pool: Network, prefix: nat, i: nat, j: nat)
    requires pool.prefix <= prefix <= WIDTH && i < j < Limit(pool, prefix)
    ensures Choice(pool, prefix, i) != Choice(pool, prefix, j)
  {
    MulMono(i + 1, j, Pow2(WIDTH - prefix));
    Distribute(i, 1, Pow2(WIDTH - prefix));
  }

  lemma {:induction false} ChoicesCounted(pool: Network, prefix: nat)
    requires pool.prefix <= prefix <= WIDTH
    ensures |Choices(pool, prefix)| == Limit(pool, prefix) == Pow2(prefix - pool.prefix)
    ensures forall n: Network :: n in Choices(pool, prefix) <==> IsChoice(pool, prefix, n)
  {
    CountFirst(pool, prefix, Limit(pool, prefix));
    assert Choices(pool, prefix) == set i: nat | i < Limit(pool, prefix) :: Choice(pool, prefix, i);
    LimitIsPower(pool, prefix);
    forall n: Network | IsChoice(pool, prefix, n) ensures n in Choices(pool, prefix) {
      var i := ChoicesAreExhaustive(pool, prefix, n);
    }
  }

  // ---- Choosing a subnet ---------------------------------------------------------------------------

  /** The candidate shares an address with something in use or already refused. */
  ghost predicate Taken(n: Network, unavailable: set<Network>) {
    exists u :: u in unavailable && Overlaps(n, u)
  }

  /**
   The first block of the pool that overlaps nothing unavailable.  A capacity error carries the
   number of blocks in the pool and means that every one of them is taken.
   */
  method NextNetworkSubnet(pool: Network, prefix: nat, unavailable: set<Network>)
    returns (chosen: Result<Network, nat>)
    requires pool.prefix <= prefix <= WIDTH
    ensures chosen.Success? ==>
      && IsChoice(pool, prefix, chosen.value)
      && !Taken(chosen.value, unavailable)
      && forall n: Network :: IsChoice(pool, prefix, n) && n.base < chosen.value.base ==> Taken(n, unavailable)
    ensures chosen.Failure? ==>
      && chosen.error == Pow2(prefix - pool.prefix)
      && forall n: Network :: IsChoice(pool, prefix, n) ==> Taken(n, unavailable)
  {
    LimitIsPower(pool, prefix);
    var i := 0;
    while i < Limit(pool, prefix)
      invariant i <= Limit(pool, prefix)
      invariant forall j: nat :: j < i ==> Taken(Choice(pool, prefix, j), unavailable)
    {
      var candidate := Choice(pool, prefix, i);
      if candidate in unavailable {
        SamePrefixOverlap(candidate, candidate);
      } else {
        var clash := OverlapsAny(candidate, unavailable);
        if !clash {
          forall n: Network | IsChoice(pool, prefix, n) && n.base < candidate.base ensures Taken(n, unavailable) {
            var j := ChoicesAreExhaustive(pool, prefix, n);
            MulLess(j, i, Pow2(WIDTH - prefix));
          }
          return Success(candidate);
        }
      }
      i := i + 1;
    }
    forall n: Network | IsChoice(pool, prefix, n) ensures Taken(n, unavailable) {
      var j := ChoicesAreExhaustive(pool, prefix, n);
    }
    return Failure(Limit(pool, prefix));
  }

  method OverlapsAny(candidate: Network, unavailable: set<Network>) returns (clash: bool)
    ensures clash <==> Taken(candidate, unavailable)
  {
    var rest := unavailable;
    while rest != {}
      invariant rest <= unavailable
      invariant forall u :: u in unavailable && u !in rest ==> !Overlaps(candidate, u)
    {
      var u :| u in rest;
      if Overlaps(candidate, u) {
        return true;
      }
      rest := rest - {u};
    }
    return false;
  }

  /** If nothing but whole blocks of the pool is unavailable, a capacity error counts them exactly. */
  lemma {:induction false} CapacityErrorIsExact(pool: Network, prefix: nat, unavailable: set<Network>)
    requires pool.prefix <= prefix <= WIDTH
    requires forall u :: u in unavailable ==> IsChoice(pool, prefix, u)
    requires forall n: Network :: IsChoice(pool, prefix, n) ==> Taken(n, unavailable)
    ensures unavailable == Choices(pool, prefix)
    ensures |unavailable| == Pow2(prefix - pool.prefix)
  {
    ChoicesCounted(pool, prefix);
    forall n: Network | IsChoice(pool, prefix, n) ensures n in unavailable {
      var u :| u in unavailable && Overlaps(n, u);
      SamePrefixOverlap(n, u);
    }
    assert unavailable == Choices(pool, prefix);
  }

  // ---- Retrying when another process takes the subnet ------------------------------------------------

  datatype Reply = Created | AllocationConflict | Broken(message: string)

  datatype Host = Host(inUse: nat -> set<Network>, reply: (nat, Network) -> Reply)

  /** In one of the first attempts the host listed nothing in the way of the block and still refused it. */
  ghost predicate WasRefused(n: Network, host: Host, attempts: nat) {
    exists k: nat :: k < attempts && host.reply(k, n) == AllocationConflict && !Taken(n, host.inUse(k))
  }

  datatype Outcome = Allocated(subnet: Network) | Capacity(limit: nat) | Raised(message: string)

  /** The refused blocks are distinct blocks of the pool, one for each attempt counted. */
  ghost predicate AllRefused(pool: Network, prefix: nat, host: Host, refused: set<Network>, attempts: nat) {
    && |refused| == attempts
    && forall n :: n in refused ==> IsChoice(pool, prefix, n) && WasRefused(n, host, attempts)
  }

  /** What each outcome says about the host and about the blocks refused before it. */
  ghost predicate Explains(
      outcome: Outcome, pool: Network, prefix: nat, host: Host, refused: set<Network>, attempts: nat)
    requires pool.prefix <= prefix <= WIDTH
  {
    match outcome
    case Allocated(n) =>
      && attempts == |refused| + 1 && AllRefused(pool, prefix, host, refused, attempts - 1)
      && IsChoice(pool, prefix, n) && !Taken(n, host.inUse(attempts - 1) + refused)
      && host.reply(attempts - 1, n) == Created
    case Capacity(limit) =>
      && AllRefused(pool, prefix, host, refused, attempts)
      && limit == Pow2(prefix - pool.prefix)
      && forall n: Network :: IsChoice(pool, prefix, n) ==> Taken(n, host.inUse(attempts) + refused)
    case Raised(message) =>
      && attempts == |refused| + 1 && AllRefused(pool, prefix, host, refused, attempts - 1)
      && exists n: Network :: IsChoice(pool, prefix, n) && host.reply(attempts - 1, n) == Broken(message)
  }

  /**
   `host.inUse(k)` is what the Docker host reports at the k-th attempt and `host.reply(k, n)` its
   answer to the creation of n.  However they change from attempt to attempt, the loop stops after at
   most one attempt per block of the pool.
   */
  method CreateNetwork(pool: Network, prefix: nat, host: Host)
    returns (outcome: Outcome, attempts: nat, refused: set<Network>)
    requires pool.prefix <= prefix <= WIDTH
    ensures attempts <= Pow2(prefix - pool.prefix)
    ensures Explains(outcome, pool, prefix, host, refused, attempts)
  {
    hide Pow2, Taken, IsChoice, WasRefused;
    attempts, refused := 0, {};
    while true
      invariant AllRefused(pool, prefix, host, refused, attempts)
      invariant attempts <= Pow2(prefix - pool.prefix)
      decreases Pow2(prefix - pool.prefix) - attempts
    {
      var chosen := NextNetworkSubnet(pool, prefix, host.inUse(attempts) + refused);
      if chosen.Failure? {
        outcome := Capacity(chosen.error);
        return;
      }
      var subnet := chosen.value;
      RoomForOneMore(pool, prefix, host, refused, attempts, subnet);
      var answer := host.reply(attempts, subnet);
      attempts := attempts + 1;
      match answer {
        case Created =>
          outcome := Allocated(subnet);
          return;
        case Broken(message) =>
          outcome := Raised(message);
          return;
        case AllocationConflict =>
          RefuseOneMore(pool, prefix, host, refused, attempts - 1, subnet);
          refused := refused + {subnet};
      }
    }
  }

  lemma {:induction false} RoomForOneMore(pool: Network, prefix: nat, host: Host, refused: set<Network>, attempts: nat, n: Network)
    requires pool.prefix <= prefix <= WIDTH
    requires AllRefused(pool, prefix, host, refused, attempts)
    requires IsChoice(pool, prefix, n) && !Taken(n, host.inUse(attempts) + refused)
    ensures n !in refused && attempts + 1 <= Pow2(prefix - pool.prefix)
  {
    FewerTaken(n, refused, host.inUse(attempts));
    SamePrefixOverlap(n, n);
    hide Pow2, IsMultiple, Quotient, IsChoice;
    ChoicesCounted(pool, prefix);
    SubsetCount(refused + {n}, Choices(pool, prefix));
  }

  lemma {:induction false} RefuseOneMore(pool: Network, prefix: nat, host: Host, refused: set<Network>, attempts: nat, n: Network)
    requires AllRefused(pool, prefix, host, refused, attempts) && n !in refused
    requires IsChoice(pool, prefix, n) && !Taken(n, host.inUse(attempts) + refused)
    requires host.reply(attempts, n) == AllocationConflict
    ensures AllRefused(pool, prefix, host, refused + {n}, attempts + 1)
  {
    FewerTaken(n, host.inUse(attempts), refused);
    hide Taken, IsChoice;
    assert WasRefused(n, host, attempts + 1);
    forall m | m in refused ensures WasRefused(m, host, attempts + 1) {
      var k: nat :| k < attempts && host.reply(k, m) == AllocationConflict && !Taken(m, host.inUse(k));
    }
  }

  lemma {:induction false} FewerTaken(n: Network, a: set<Network>, b: set<Network>)
    requires !Taken(n, a + b) || !Taken(n, b + a)
    ensures !Taken(n, a)
  {
    assert a + b == b + a;
    forall u | u in a ensures !Overlaps(n, u) {
      assert u in a + b;
    }
  }
}
