/** Python's `str.strip`, over the code points `str.isspace` accepts. */
module TextTools {
  predicate IsSpace(c: char) {
    var n := c as int;
    || 0x09 <= n <= 0x0D || 0x1C <= n <= 0x20 || n == 0x85 || n == 0xA0 || n == 0x1680
    || 0x2000 <= n <= 0x200A || n == 0x2028 || n == 0x2029 || n == 0x202F || n == 0x205F || n == 0x3000
  }

  function StripLeft(s: string): (r: string)
    ensures |r| <= |s| && r == s[|s| - |r|..]
    ensures r != "" ==> !IsSpace(r[0])
    ensures forall i :: 0 <= i < |s| - |r| ==> IsSpace(s[i])
  {
    if s != "" && IsSpace(s[0]) then StripLeft(s[1..]) else s
  }

  function StripRight(s: string): (r: string)
    ensures |r| <= |s| && r == s[..|r|]
    ensures r != "" ==> !IsSpace(r[|r| - 1])
    ensures forall i :: |r| <= i < |s| ==> IsSpace(s[i])
  {
    if s != "" && IsSpace(s[|s| - 1]) then StripRight(s[..|s| - 1]) else s
  }

  function Strip(s: string): string {
    StripRight(StripLeft(s))
  }

  ghost predicate Blank(s: string) {
    forall i :: 0 <= i < |s| ==> IsSpace(s[i])
  }

  predicate Trimmed(s: string) {
    s != "" && !IsSpace(s[0]) && !IsSpace(s[|s| - 1])
  }

  /** `core` is what is left of `s` between `a` and `b`, and the rest of `s` is white space. */
  ghost predicate IsCore(s: string, core: string, a: nat, b: nat) {
    && a <= b <= |s| && core == s[a..b]
    && forall i :: 0 <= i < |s| && !(a <= i < b) ==> IsSpace(s[i])
  }

  /** `core` is `s` without the white space at its ends, and something is left. */
  ghost predicate IsStripped(s: string, core: string) {
    Trimmed(core) && exists a: nat, b: nat :: IsCore(s, core, a, b)
  }

  /** What is left after cutting white space off the left and then off the right. */
  lemma CutIsCore(s: string, t: string, r: string)
    requires |t| <= |s| && t == s[|s| - |t|..] && forall i :: 0 <= i < |s| - |t| ==> IsSpace(s[i])
    requires |r| <= |t| && r == t[..|r|] && forall i :: |r| <= i < |t| ==> IsSpace(t[i])
    ensures IsCore(s, r, |s| - |t|, |s| - |t| + |r|)
  {
    var a := |s| - |t|;
    forall i | a + |r| <= i < |s|
      ensures IsSpace(s[i])
    {
      assert s[i] == t[i - a];
    }
  }

  lemma StripIsCore(s: string) returns (a: nat, b: nat)
    ensures IsCore(s, Strip(s), a, b)
  {
    var t := StripLeft(s);
    var r := StripRight(t);
    CutIsCore(s, t, r);
    a, b := |s| - |t|, |s| - |t| + |r|;
  }

  lemma StripEnds(s: string)
    ensures Strip(s) == "" || Trimmed(Strip(s))
  {
    var t := StripLeft(s);
    var r := StripRight(t);
    if r != "" {
      assert r[0] == t[0];
    }
  }

  /** Stripping gives a trimmed text or nothing; it drops white space only, and is idempotent. */
  lemma StripTrims(s: string)
    ensures Strip(s) == "" || Trimmed(Strip(s))
    ensures Strip(s) == "" <==> Blank(s)
    ensures exists a: nat, b: nat :: IsCore(s, Strip(s), a, b)
  {
    StripEnds(s);
    var a, b := StripIsCore(s);
    CoreIsEmptyIff(s, Strip(s), a, b);
  }

  lemma CoreIsEmptyIff(s: string, core: string, a: nat, b: nat)
    requires IsCore(s, core, a, b) && (core == "" || Trimmed(core))
    ensures core == "" <==> Blank(s)
  {
    if core != "" {
      assert s[a] == core[0];
    }
  }

  lemma StripKeepsTrimmed(s: string)
    requires Trimmed(s)
    ensures Strip(s) == s
  {
  }
}
