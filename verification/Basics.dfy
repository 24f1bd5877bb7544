/** Option, and the ASCII/Unicode string operations of Rust's standard library that the
    control plane relies on. */
module Basics {

  datatype Option<+T> = None | Some(value: T) {
    function GetOr(default: T): T {
      match this
      case Some(v) => v
      case None => default
    }
  }

  // `to_ascii_lowercase`: only A-Z change.
  function LowerChar(c: char): char {
    if 'A' <= c <= 'Z' then ((c as int) + 32) as char else c
  }

  function Lower(s: string): string {
    seq(|s|, i requires 0 <= i < |s| => LowerChar(s[i]))
  }

  predicate EqIgnoreCase(a: string, b: string) {
    Lower(a) == Lower(b)
  }

  predicate IsLower(s: string) {
    forall i :: 0 <= i < |s| ==> !('A' <= s[i] <= 'Z')
  }

  lemma LowerIsLower(s: string)
    ensures IsLower(Lower(s))
    ensures IsLower(s) ==> Lower(s) == s
    ensures Lower(Lower(s)) == Lower(s)
  {
    assert forall i :: 0 <= i < |s| ==> LowerChar(LowerChar(s[i])) == LowerChar(s[i]);
    if IsLower(s) {
      assert forall i :: 0 <= i < |s| ==> LowerChar(s[i]) == s[i];
    }
  }

  const UPPER := "ABCDEFGHIJKLMNOPQRSTUVWXYZ"
  const LOWER := "abcdefghijklmnopqrstuvwxyz"

  // The character is letter `k` of the alphabet, in either case.
  predicate IsLetter(c: char, k: nat)
    requires k < 26
  {
    c == UPPER[k] || c == LOWER[k]
  }

  // The two characters are the same letter in either case, or the same character.
  predicate SameLetter(a: char, b: char) {
    a == b || exists k :: 0 <= k < 26 && IsLetter(a, k) && IsLetter(b, k)
  }

  lemma LetterAt(k: nat)
    requires k < 26
    ensures UPPER[k] as int == 65 + k && LOWER[k] as int == 97 + k
  {
  }

  lemma LetterExactly(c: char, k: nat)
    requires k < 26
    ensures IsLetter(c, k) <==> c as int == 65 + k || c as int == 97 + k
  {
    LetterAt(k);
  }

  lemma SameLetterExactly(a: char, b: char)
    ensures LowerChar(a) == LowerChar(b) <==> SameLetter(a, b)
  {
    if a != b && LowerChar(a) == LowerChar(b) {
      var k := LowerChar(a) as int - 97;
      LetterExactly(a, k);
      LetterExactly(b, k);
    } else if k :| 0 <= k < 26 && IsLetter(a, k) && IsLetter(b, k) {
      LetterExactly(a, k);
      LetterExactly(b, k);
    }
  }

  /** Texts are equal up to case exactly when they agree letter by letter; no other characters are
      identified. */
  lemma EqualUpToCase(a: string, b: string)
    ensures EqIgnoreCase(a, b) <==> |a| == |b| && forall i :: 0 <= i < |a| ==> SameLetter(a[i], b[i])
  {
    forall i | 0 <= i < |a| && i < |b|
      ensures Lower(a)[i] == Lower(b)[i] <==> SameLetter(a[i], b[i])
    {
      SameLetterExactly(a[i], b[i]);
    }
    if |a| == |b| && forall i :: 0 <= i < |a| ==> SameLetter(a[i], b[i]) {
      assert forall i :: 0 <= i < |a| ==> Lower(a)[i] == Lower(b)[i];
    }
    if EqIgnoreCase(a, b) {
      assert |Lower(a)| == |a| && |Lower(b)| == |b|;
    }
  }

  /** Lower-casing spells the same text without capitals. */
  lemma LowerSpells(s: string)
    ensures EqIgnoreCase(s, Lower(s))
    ensures forall c :: c in Lower(s) ==> c !in UPPER
  {
    LowerIsLower(s);
    forall c | c in Lower(s)
      ensures c !in UPPER
    {
      var i :| 0 <= i < |s| && Lower(s)[i] == c;
      assert !('A' <= c <= 'Z');
    }
  }

  // The White_Space property of Unicode, which `trim` strips.
  predicate IsSpace(c: char) {
    var n := c as int;
    || 0x09 <= n <= 0x0D || n == 0x20 || n == 0x85 || n == 0xA0 || n == 0x1680
    || 0x2000 <= n <= 0x200A || n == 0x2028 || n == 0x2029 || n == 0x202F
    || n == 0x205F || n == 0x3000
  }

  // Drop the characters satisfying `p` from both ends (`trim_matches`).
  function TrimLeft(s: string, p: char -> bool): string {
    if |s| > 0 && p(s[0]) then TrimLeft(s[1..], p) else s
  }

  function TrimRight(s: string, p: char -> bool): string {
    if |s| > 0 && p(s[|s| - 1]) then TrimRight(s[..|s| - 1], p) else s
  }

  function TrimMatches(s: string, p: char -> bool): string {
    TrimRight(TrimLeft(s, p), p)
  }

  function Trim(s: string): string {
    TrimMatches(s, IsSpace)
  }

  predicate IsBlank(s: string) {
    Trim(s) == ""
  }

  // Code points with the White_Space property.
  const SPACES := {9, 10, 11, 12, 13, 0x20, 0x85, 0xA0, 0x1680, 0x2000, 0x2001, 0x2002, 0x2003, 0x2004, 0x2005, 0x2006,
                   0x2007, 0x2008, 0x2009, 0x200A, 0x2028, 0x2029, 0x202F, 0x205F, 0x3000}

  lemma SpaceExactly(c: char)
    ensures IsSpace(c) <==> c as int in SPACES
  {
  }

  /** `core` is `s` without the characters of `p` at its ends. */
  ghost predicate IsCore(core: string, s: string, p: char -> bool) {
    exists l: string, r: string ::
      && s == l + core + r && (forall c :: c in l + r ==> p(c))
      && (core != "" ==> !p(core[0]) && !p(core[|core| - 1]))
  }

  lemma {:induction false} LeftTrimmed(s: string, p: char -> bool) returns (l: string)
    ensures s == l + TrimLeft(s, p) && forall c :: c in l ==> p(c)
    ensures TrimLeft(s, p) != "" ==> !p(TrimLeft(s, p)[0])
  {
    l := "";
    if |s| > 0 && p(s[0]) {
      l := LeftTrimmed(s[1..], p);
      l := [s[0]] + l;
      assert s == [s[0]] + s[1..];
    }
  }

  lemma {:induction false} RightTrimmed(s: string, p: char -> bool) returns (r: string)
    ensures s == TrimRight(s, p) + r && forall c :: c in r ==> p(c)
    ensures TrimRight(s, p) != "" ==> !p(TrimRight(s, p)[|TrimRight(s, p)| - 1]) && TrimRight(s, p)[0] == s[0]
  {
    r := "";
    if |s| > 0 && p(s[|s| - 1]) {
      r := RightTrimmed(s[..|s| - 1], p);
      r := r + [s[|s| - 1]];
      assert s == s[..|s| - 1] + [s[|s| - 1]];
    }
  }

  /** Trimming leaves what stands between the characters to be trimmed. */
  lemma TrimmedExactly(s: string, p: char -> bool)
    ensures IsCore(TrimMatches(s, p), s, p)
  {
    var l := LeftTrimmed(s, p);
    var middle := TrimLeft(s, p);
    var r := RightTrimmed(middle, p);
    assert s == l + TrimMatches(s, p) + r;
  }

  lemma OnlyOneCore(x: string, y: string, s: string, p: char -> bool)
    requires IsCore(x, s, p) && IsCore(y, s, p)
    ensures x == y
  {
    var i, j := CoreBounds(x, s, p);
    var k, l := CoreBounds(y, s, p);
  }

  // Where the core stands: no character before `i` or from `j` on remains, those at its ends do.
  lemma CoreBounds(core: string, s: string, p: char -> bool) returns (i: nat, j: nat)
    requires IsCore(core, s, p)
    ensures i <= j <= |s| && core == s[i..j]
    ensures forall k :: 0 <= k < i || j <= k < |s| ==> p(s[k])
    ensures i < j ==> !p(s[i]) && !p(s[j - 1])
  {
    var l, r :| s == l + core + r && (forall c :: c in l + r ==> p(c)) && (core != "" ==> !p(core[0]) && !p(core[|core| - 1]));
    i, j := |l|, |l| + |core|;
    forall k | 0 <= k < i || j <= k < |s|
      ensures p(s[k])
    {
      assert s[k] in l + r by {
        assert s[k] == (if k < i then (l + r)[k] else (l + r)[k - |core|]);
      }
    }
  }

  /** A text is blank exactly when it holds nothing but white space. */
  lemma BlankExactly(s: string)
    ensures IsBlank(s) <==> forall i :: 0 <= i < |s| ==> s[i] as int in SPACES
  {
    TrimmedExactly(s, IsSpace);
    if forall i :: 0 <= i < |s| ==> s[i] as int in SPACES {
      forall c | c in s + ""
        ensures IsSpace(c)
      {
        SpaceExactly(c);
      }
      assert s == s + "" + "";
      assert IsCore("", s, IsSpace);
      OnlyOneCore(Trim(s), "", s, IsSpace);
    }
    if IsBlank(s) {
      var l, r :| s == l + "" + r && forall c :: c in l + r ==> IsSpace(c);
      forall i | 0 <= i < |s|
        ensures s[i] as int in SPACES
      {
        assert s[i] in l + r;
        SpaceExactly(s[i]);
      }
    }
  }

  lemma AffixesExactly(s: string, affix: string)
    ensures StartsWith(s, affix) <==> exists rest :: s == affix + rest
    ensures EndsWith(s, affix) <==> exists front :: s == front + affix
  {
    if StartsWith(s, affix) {
      assert s == affix + s[|affix|..];
    }
    if EndsWith(s, affix) {
      assert s == s[..|s| - |affix|] + affix;
    }
  }

  predicate StartsWith(s: string, prefix: string) {
    prefix <= s
  }

  predicate EndsWith(s: string, suffix: string) {
    |suffix| <= |s| && s[|s| - |suffix|..] == suffix
  }
}
