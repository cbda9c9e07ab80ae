/** Stripping of surrounding white space, as Python's `str.strip` does it. */
module Stripping {
  predicate IsSpace(c: char) {
    var n := c as int;
    || 0x09 <= n <= 0x0d
    || 0x1c <= n <= 0x20
    || n in {0x85, 0xa0, 0x1680, 0x2028, 0x2029, 0x202f, 0x205f, 0x3000}
    || 0x2000 <= n <= 0x200a
  }

  function StripLeft(s: string): (r: string)
    ensures r == "" || !IsSpace(r[0])
    ensures |s| > 0 && !IsSpace(s[|s| - 1]) ==> r != "" && r[|r| - 1] == s[|s| - 1]
  {
    if s != "" && IsSpace(s[0]) then StripLeft(s[1..]) else s
  }

  function StripRight(s: string): (r: string)
    ensures r <= s && (r == "" || !IsSpace(r[|r| - 1]))
  {
    if s != "" && IsSpace(s[|s| - 1]) then StripRight(s[..|s| - 1]) else s
  }

  function Strip(s: string): string {
    StripRight(StripLeft(s))
  }

  predicate IsStripped(s: string) {
    s != "" ==> !IsSpace(s[0]) && !IsSpace(s[|s| - 1])
  }

  /** Stripping removes everything it could remove, and nothing from a text that has nothing to remove. */
  lemma {:induction false} StripIsIdempotent(s: string)
    ensures IsStripped(Strip(s)) && Strip(Strip(s)) == Strip(s)
    ensures IsStripped(s) <==> Strip(s) == s
  {
    var left := StripLeft(s);
    assert Strip(s) != "" ==> Strip(s)[0] == left[0];
  }
}
