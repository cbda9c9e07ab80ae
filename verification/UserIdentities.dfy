/**
 Stable identities across companies: what sign-on reads back from an identity, when two companies can
 give out the same one, and that a plan for one company never stands in the way of a plan for another.
 */
module UserIdentities {
  import opened Stripping
  import opened UserPlan
  import opened UserReplay
  import opened Wrappers

  // ---- Reading an identity back -----------------------------------------------------------------------

  /** The parts of a text between the separators. */
  function SplitOn(s: string, separator: char): (parts: seq<string>)
    ensures |parts| > 0
  {
    if s == "" then [""]
    else
      var rest := SplitOn(s[1..], separator);
      if s[0] == separator then [""] + rest else [[s[0]] + rest[0]] + rest[1..]
  }

  lemma {:induction false} SplitWhole(s: string, separator: char)
    requires separator !in s
    ensures SplitOn(s, separator) == [s]
  {
    if s != "" {
      SplitWhole(s[1..], separator);
      assert [s[0]] + s[1..] == s;
    }
  }

  lemma {:induction false} SplitFirst(s: string, separator: char, rest: string)
    requires separator !in s
    ensures SplitOn(s + [separator] + rest, separator) == [s] + SplitOn(rest, separator)
  {
    var whole := s + [separator] + rest;
    if s == "" {
      assert whole[1..] == rest;
    } else {
      SplitFirst(s[1..], separator, rest);
      assert whole[1..] == s[1..] + [separator] + rest;
      assert [s[0]] + s[1..] == s;
    }
  }

  /** Split at the colons an identity is `oa`, the company and the account, if neither holds a colon. */
  lemma {:induction false} UidDecodes(company: string, account: string)
    requires ':' !in Strip(company) && ':' !in Strip(account)
    ensures SplitOn(BuildOaUid(company, account), ':') == ["oa", Strip(company), Strip(account)]
  {
    var c, a := Strip(company), Strip(account);
    assert BuildOaUid(company, account) == "oa" + [':'] + (c + [':'] + a);
    SplitFirst("oa", ':', c + [':'] + a);
    SplitFirst(c, ':', a);
    SplitWhole(a, ':');
    hide SplitOn;
  }

  // ---- Two companies ----------------------------------------------------------------------------------

  /** One company code goes on, after a colon, where the other ends. */
  predicate Extends(company: string, longer: string) {
    var c, d := Strip(company), Strip(longer);
    c + ":" <= d && (|d| == |c| + 1 || !IsSpace(d[|c| + 1]))
  }

  lemma {:induction false} ExtendsIfShorter(c: string, d: string, a: string, b: string)
    requires BuildOaUid(c, a) == BuildOaUid(d, b) && |Strip(c)| < |Strip(d)|
    ensures Extends(c, d)
  {
    var left, right := Strip(c) + ":" + Strip(a), Strip(d) + ":" + Strip(b);
    assert BuildOaUid(c, a)[3..] == left && BuildOaUid(d, b)[3..] == right;
    assert right[..|Strip(c)| + 1] == Strip(c) + ":";
    assert Strip(a) == left[|Strip(c)| + 1..];
    StripIsIdempotent(a);
    assert |Strip(d)| > |Strip(c)| + 1 ==> right[|Strip(c)| + 1] == Strip(d)[|Strip(c)| + 1] == Strip(a)[0];
  }

  lemma {:induction false} SameIfAsLong(c: string, d: string, a: string, b: string)
    requires BuildOaUid(c, a) == BuildOaUid(d, b) && |Strip(c)| == |Strip(d)|
    ensures Strip(c) == Strip(d) && Strip(a) == Strip(b)
  {
    var left, right := Strip(c) + ":" + Strip(a), Strip(d) + ":" + Strip(b);
    assert BuildOaUid(c, a)[3..] == left && BuildOaUid(d, b)[3..] == right;
    assert left[..|Strip(c)|] == Strip(c) && right[..|Strip(c)|] == Strip(d);
    assert left[|Strip(c)| + 1..] == Strip(a) && right[|Strip(c)| + 1..] == Strip(b);
  }

  /** Unless one company code extends the other, an identity tells company and account. */
  lemma {:induction false} UidTellsCompanyAndAccount(c: string, d: string, a: string, b: string)
    requires !Extends(c, d) && !Extends(d, c)
    ensures BuildOaUid(c, a) == BuildOaUid(d, b) <==> Strip(c) == Strip(d) && Strip(a) == Strip(b)
  {
    if BuildOaUid(c, a) == BuildOaUid(d, b) {
      if |Strip(c)| < |Strip(d)| {
        ExtendsIfShorter(c, d, a, b);
      } else if |Strip(d)| < |Strip(c)| {
        ExtendsIfShorter(d, c, b, a);
      } else {
        SameIfAsLong(c, d, a, b);
      }
    }
    hide Strip, Extends;
  }

  /** So it does for all companies without a colon in their codes, whatever the accounts. */
  lemma {:induction false} PlainCompaniesAreTold(c: string, d: string, a: string, b: string)
    requires ':' !in Strip(c) && ':' !in Strip(d)
    ensures BuildOaUid(c, a) == BuildOaUid(d, b) <==> Strip(c) == Strip(d) && Strip(a) == Strip(b)
  {
    if Extends(c, d) {
      ExtendedHasColon(c, d);
    } else if Extends(d, c) {
      ExtendedHasColon(d, c);
    } else {
      UidTellsCompanyAndAccount(c, d, a, b);
    }
    hide Extends, BuildOaUid;
  }

  lemma {:induction false} ExtendedHasColon(company: string, longer: string)
    requires Extends(company, longer)
    ensures ':' in Strip(longer)
  {
    assert Strip(longer)[|Strip(company)|] == ':';
  }

  /** Two different companies give out a common identity for some accounts exactly if one code extends the other. */
  lemma {:induction false} CompaniesClashIff(c: string, d: string)
    requires Strip(c) != Strip(d)
    ensures (exists a, b :: BuildOaUid(c, a) == BuildOaUid(d, b)) <==> Extends(c, d) || Extends(d, c)
  {
    if Extends(c, d) {
      var a, b := ClashingAccounts(c, d);
    } else if Extends(d, c) {
      var b, a := ClashingAccounts(d, c);
      assert BuildOaUid(c, a) == BuildOaUid(d, b);
    } else {
      forall a, b ensures BuildOaUid(c, a) != BuildOaUid(d, b) {
        UidTellsCompanyAndAccount(c, d, a, b);
      }
    }
    hide Extends, BuildOaUid;
  }

  lemma {:induction false} ClashingAccounts(c: string, d: string) returns (a: string, b: string)
    requires Extends(c, d)
    ensures BuildOaUid(c, a) == BuildOaUid(d, b)
  {
    var tail := Strip(d)[|Strip(c)| + 1..];
    a, b := tail + ":x", "x";
    StripIsIdempotent(a);
    StripIsIdempotent(b);
    assert IsStripped(a);
    assert Strip(d) == Strip(c) + ":" + tail;
    assert "oa:" + (Strip(c) + ":" + tail) + ":" + "x" == "oa:" + Strip(c) + ":" + (tail + ":x");
  }

  // ---- What a plan leaves behind ----------------------------------------------------------------------

  /** After a plan every accepted user has a row whose identity reads back as the company and the account. */
  lemma {:induction false} PlacedUsersDecode(input: Input, existing: seq<UserEntry>, t: UserTable, i: nat)
    returns (id: int)
    requires SoundUsers(t) && Lists(existing, t) && ConflictFree(input.Actions(existing))
    requires Applied(t, input.Actions(existing)).Success?
    requires i < |input.users| && input.Accepted(i) && ':' !in Strip(input.company) && ':' !in input.Account(i)
    ensures
      var rows := Applied(t, input.Actions(existing)).value.rows;
      && id in rows && !rows[id].deleted && rows[id].username == input.Account(i)
      && SplitOn(rows[id].uid, ':') == ["oa", Strip(input.company), input.Account(i)]
  {
    EveryUserIsPlaced(input, existing, t);
    AccountIsStripped(input, i);
    UidDecodes(input.company, input.Account(i));
    var t' := Applied(t, input.Actions(existing)).value;
    assert HasRow(input, i, t');
    id :| id in t'.rows && input.IsWanted(i, t'.rows[id]);
    hide BuildOaUid, SplitOn, Applied, Input.Accepted, Input.Actions, Input.Account, SoundUsers, Lists, ConflictFree;
  }

  /** Users accepted for two companies never share an identity, unless one company code extends the other. */
  lemma {:induction false} CompaniesShareNobody(input: Input, other: Input, i: nat, j: nat)
    requires i < |input.users| && input.Accepted(i) && j < |other.users| && other.Accepted(j)
    requires Strip(input.company) != Strip(other.company)
    requires !Extends(input.company, other.company) && !Extends(other.company, input.company)
    ensures input.Wanted(i).uid != other.Wanted(j).uid
  {
    UidTellsCompanyAndAccount(input.company, other.company, input.Account(i), other.Account(j));
    hide Input.Account, Input.Accepted, Extends, BuildOaUid;
  }

  /** A conflict in a plan for a second company comes from a row that the first company's plan left as it was. */
  lemma {:induction false} ConflictsAreNotAcrossCompanies(
      input: Input, existing: seq<UserEntry>, t: UserTable, other: Input, existing': seq<UserEntry>, j: nat)
    returns (id: int)
    requires SoundUsers(t) && Lists(existing, t) && ConflictFree(input.Actions(existing))
    requires Applied(t, input.Actions(existing)).Success?
    requires Lists(existing', Applied(t, input.Actions(existing)).value)
    requires Strip(input.company) != Strip(other.company)
    requires !Extends(input.company, other.company) && !Extends(other.company, input.company)
    requires j < |other.users| && other.Actions(existing')[j].kind == Conflict
    ensures other.Accepted(j) && id in t.rows && t.rows[id].uid == other.Wanted(j).uid
    ensures
      var rows := Applied(t, input.Actions(existing)).value.rows;
      id in rows && rows[id] == t.rows[id] && !rows[id].deleted && rows[id].username != other.Account(j)
  {
    hide Applied, Input.Accepted, Input.Actions, Input.Account, Input.Wanted, SoundUsers, Lists, ConflictFree, Extends,
         Strip, IsFor;
    var t' := Applied(t, input.Actions(existing)).value;
    EveryUserIsPlaced(input, existing, t);
    ConflictIffTaken(other, existing', t', j);
    id :| id in t'.rows && !t'.rows[id].deleted && t'.rows[id].uid == other.Wanted(j).uid
          && t'.rows[id].username != other.Account(j);
    assert Explained(input, |input.users|, t, id, t'.rows[id]);
    if i :| 0 <= i < |input.users| && IsFor(input, i, t, id, t'.rows[id]) {
      WantedByOne(input, other, i, j, t, id, t'.rows[id]);
    }
  }

  lemma {:induction false} WantedByOne(
      input: Input, other: Input, i: nat, j: nat, t: UserTable, id: int, row: UserRow)
    requires i < |input.users| && j < |other.users| && other.Accepted(j) && IsFor(input, i, t, id, row)
    requires Strip(input.company) != Strip(other.company)
    requires !Extends(input.company, other.company) && !Extends(other.company, input.company)
    ensures row.uid != other.Wanted(j).uid
  {
    CompaniesShareNobody(input, other, i, j);
    hide Input.Account, Input.Accepted, Input.Wanted, Extends, Strip;
  }
}
