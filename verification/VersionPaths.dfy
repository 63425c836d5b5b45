/** The path that names a version (versionSource, parseVersionSource in internal/evolve/skill_packages.go). */
module VersionPaths {
  import opened Options

  const MAX_INT: int := 0x7fff_ffff_ffff_ffff

  function Digit(d: nat): char
    requires d < 10
  {
    ('0' as int + d) as char
  }

  predicate IsDigit(c: char) {
    '0' <= c <= '9'
  }

  /** Decimal, no leading zeros. */
  function Itoa(n: nat): string {
    if n < 10 then [Digit(n)] else Itoa(n / 10) + [Digit(n % 10)]
  }

  function Value(digits: string): nat
    requires forall i :: 0 <= i < |digits| ==> IsDigit(digits[i])
  {
    if digits == [] then 0
    else
      var last := digits[|digits| - 1];
      assert IsDigit(last);
      Value(digits[..|digits| - 1]) * 10 + (last as int - '0' as int)
  }

  /** A sign is accepted; anything but digits after it is not, nor a value past 64 bits. */
  function Atoi(s: string): Option<int> {
    var digits := if s != "" && (s[0] == '+' || s[0] == '-') then s[1..] else s;
    if digits == "" || exists i :: 0 <= i < |digits| && !IsDigit(digits[i]) then None
    else
      var n: int := Value(digits);
      var v: int := if s[0] == '-' then -n else n;
      if -MAX_INT - 1 <= v <= MAX_INT then Some(v) else None
  }

  function Stem(skill: string): string {
    "skills/" + skill + "/versions/v"
  }

  const LEAF := "/SKILL.md"

  function VersionSource(skill: string, version: nat): string {
    Stem(skill) + Itoa(version) + LEAF
  }

  predicate HasPrefix(s: string, p: string) {
    |p| <= |s| && s[..|p|] == p
  }

  predicate HasSuffix(s: string, p: string) {
    |p| <= |s| && s[|s| - |p|..] == p
  }

  function TrimPrefix(s: string, p: string): string {
    if HasPrefix(s, p) then s[|p|..] else s
  }

  function TrimSuffix(s: string, p: string): string {
    if HasSuffix(s, p) then s[..|s| - |p|] else s
  }

  function ParseVersionSource(skill: string, source: string): Option<nat> {
    if !HasPrefix(source, Stem(skill)) || !HasSuffix(source, LEAF) then None
    else
      var raw := TrimSuffix(TrimPrefix(source, Stem(skill)), LEAF);
      if raw == "" || (|raw| > 1 && raw[0] == '0') then None
      else
        var version := Atoi(raw);
        if version.None? || version.value < 1 || VersionSource(skill, version.value) != source then None
        else Some(version.value)
  }

  lemma {:induction false} ItoaIsDecimal(n: nat)
    ensures Itoa(n) != "" && forall i :: 0 <= i < |Itoa(n)| ==> IsDigit(Itoa(n)[i])
    ensures Value(Itoa(n)) == n && (n > 0 ==> Itoa(n)[0] != '0')
  {
    if n < 10 {
      assert [Digit(n)][..0] == "";
    } else {
      ItoaIsDecimal(n / 10);
      assert Itoa(n)[..|Itoa(n)| - 1] == Itoa(n / 10);
    }
  }

  lemma AtoiOfItoa(n: nat)
    requires n <= MAX_INT
    ensures Atoi(Itoa(n)) == Some(n)
  {
    ItoaIsDecimal(n);
  }

  lemma TrimsToTheNumber(skill: string, digits: string)
    ensures var source := Stem(skill) + digits + LEAF;
            HasPrefix(source, Stem(skill)) && HasSuffix(source, LEAF)
            && TrimSuffix(TrimPrefix(source, Stem(skill)), LEAF) == digits
  {
  }

  /** Parsing accepts exactly the paths the writer produces, and gives back the version. */
  lemma ParsesExactlyWhatIsWritten(skill: string, source: string, version: nat)
    ensures ParseVersionSource(skill, source) == Some(version) <==>
              1 <= version <= MAX_INT && source == VersionSource(skill, version)
  {
    if 1 <= version <= MAX_INT && source == VersionSource(skill, version) {
      TrimsToTheNumber(skill, Itoa(version));
      ItoaIsDecimal(version);
      AtoiOfItoa(version);
    }
  }

  /** No two versions of any skills share a path - even when an identifier holds separators. */
  lemma PathsAreDistinct(a: string, v: nat, b: string, w: nat)
    requires VersionSource(a, v) == VersionSource(b, w)
    ensures a == b && v == w
  {
    var x, y := Stem(a) + Itoa(v), Stem(b) + Itoa(w);
    assert x == VersionSource(a, v)[..|VersionSource(a, v)| - |LEAF|];
    assert y == VersionSource(b, w)[..|VersionSource(b, w)| - |LEAF|];
    ItoaIsDecimal(v);
    ItoaIsDecimal(w);
    if |Itoa(v)| < |Itoa(w)| {
      NotShorterNumber(a, Itoa(v), b, Itoa(w));
    } else if |Itoa(w)| < |Itoa(v)| {
      NotShorterNumber(b, Itoa(w), a, Itoa(v));
    }
    assert Itoa(v) == x[|x| - |Itoa(v)|..] && Itoa(w) == y[|y| - |Itoa(w)|..];
    assert Stem(a) == x[..|x| - |Itoa(v)|] && Stem(b) == y[..|y| - |Itoa(w)|];
    assert a == Stem(a)[7..|Stem(a)| - 11] && b == Stem(b)[7..|Stem(b)| - 11];
  }

  /** The letter before the shorter number would be a digit of the longer one. */
  lemma NotShorterNumber(a: string, m: string, b: string, n: string)
    requires forall i :: 0 <= i < |n| ==> IsDigit(n[i])
    requires Stem(a) + m == Stem(b) + n
    ensures |m| >= |n|
  {
    var s, t := Stem(a) + m, Stem(b) + n;
    var k := |Stem(a)| - 1;
    assert s[k] == 'v';
    assert forall i :: |Stem(b)| <= i < |t| ==> IsDigit(t[i]);
  }
}
