/**
 * The few java.lang.String / commons-io operations the plugin relies on, written out
 * over `seq<char>`: prefix and suffix tests, `split(" ")`, `trim()`,
 * `FilenameUtils.removeExtension` and decimal rendering of a number.
 */
module Text {

  /** `s.startsWith(prefix)` */
  predicate StartsWith(s: string, prefix: string) {
    |prefix| <= |s| && s[..|prefix|] == prefix
  }

  /** `s.endsWith(suffix)` */
  predicate EndsWith(s: string, suffix: string) {
    |suffix| <= |s| && s[|s| - |suffix|..] == suffix
  }

  /** A longer prefix implies every prefix of it. */
  lemma StartsWithPrefixOfPrefix(s: string, longer: string, shorter: string)
    requires StartsWith(s, longer) && StartsWith(longer, shorter)
    ensures StartsWith(s, shorter)
  {
    assert s[..|shorter|] == longer[..|shorter|];
  }

  /** Prefixes that differ in their first character exclude each other. */
  lemma PrefixesExclusive(s: string, p: string, q: string)
    requires |p| > 0 && |q| > 0 && p[0] != q[0]
    ensures !(StartsWith(s, p) && StartsWith(s, q))
  {
    StartsWithFirstChar(s, p);
    StartsWithFirstChar(s, q);
  }

  /** A prefix of `a` is a prefix of every extension of `a`. */
  lemma StartsWithAppend(a: string, b: string, prefix: string)
    requires StartsWith(a, prefix)
    ensures StartsWith(a + b, prefix)
  {
    assert (a + b)[..|prefix|] == a[..|prefix|];
  }

  /** A suffix of `b` is a suffix of everything that ends with `b`. */
  lemma EndsWithPrepend(a: string, b: string, suffix: string)
    requires EndsWith(b, suffix)
    ensures EndsWith(a + b, suffix)
  {
    assert (a + b)[|a + b| - |suffix|..] == b[|b| - |suffix|..];
  }

  lemma StartsWithConcat(a: string, b: string)
    ensures StartsWith(a + b, a)
  {
    assert (a + b)[..|a|] == a;
  }

  lemma EndsWithConcat(a: string, b: string)
    ensures EndsWith(a + b, b)
  {
    assert (a + b)[|a + b| - |b|..] == b;
  }

  /** Of two suffixes of one string, the shorter is a suffix of the longer. */
  lemma EndsWithBoth(s: string, x: string, y: string)
    requires EndsWith(s, x) && EndsWith(s, y) && |y| <= |x|
    ensures EndsWith(x, y)
  {
    assert x[|x| - |y|..] == s[|s| - |y|..];
  }

  /** A string cannot end with two suffixes when the shorter is not a suffix of the longer. */
  lemma EndsWithDisagree(s: string, x: string, y: string)
    requires |y| <= |x| && x[|x| - |y|..] != y
    ensures !(EndsWith(s, x) && EndsWith(s, y))
  {
    if EndsWith(s, x) && EndsWith(s, y) {
      EndsWithBoth(s, x, y);
    }
  }

  /** Two suffixes of the same length of one string are equal. */
  lemma EndsWithSameLength(s: string, x: string, y: string)
    requires EndsWith(s, x) && EndsWith(s, y) && |x| == |y|
    ensures x == y
  {
  }

  lemma StartsWithFirstChar(s: string, p: string)
    requires |p| > 0
    ensures StartsWith(s, p) ==> |s| > 0 && s[0] == p[0]
  {
    if StartsWith(s, p) {
      assert s[..|p|][0] == s[0];
    }
  }

  /** Every piece between occurrences of `c`, empty pieces included (one more piece than there are separators). */
  function SplitOn(s: string, c: char): (r: seq<string>)
    ensures |r| >= 1
    ensures forall i :: 0 <= i < |r| ==> c !in r[i]
  {
    if s == [] then [""]
    else
      var rest := SplitOn(s[1..], c);
      if s[0] == c then [""] + rest
      else [[s[0]] + rest[0]] + rest[1..]
  }

  /** The pieces glued back together with `c` between them. */
  function Join(parts: seq<string>, c: char): string {
    if parts == [] then ""
    else if |parts| == 1 then parts[0]
    else parts[0] + [c] + Join(parts[1..], c)
  }

  /** Splitting on `c` loses nothing: joining the pieces with `c` gives the input back. */
  lemma {:induction false} SplitOnJoin(s: string, c: char)
    ensures Join(SplitOn(s, c), c) == s
  {
    if s != [] {
      var rest := SplitOn(s[1..], c);
      SplitOnJoin(s[1..], c);
      if s[0] == c {
        assert SplitOn(s, c) == [""] + rest;
        assert ([""] + rest)[1..] == rest;
      } else {
        var r := SplitOn(s, c);
        assert r == [[s[0]] + rest[0]] + rest[1..];
        if |rest| == 1 {
          assert r == [[s[0]] + rest[0]];
        } else {
          assert r[1..] == rest[1..];
          assert Join(rest, c) == rest[0] + [c] + Join(rest[1..], c);
        }
      }
    }
  }

  /** The pieces with every trailing empty piece removed. */
  function DropTrailingEmpty(parts: seq<string>): (r: seq<string>)
    ensures |r| <= |parts| && r == parts[..|r|]
    ensures r != [] ==> r[|r| - 1] != ""
    ensures forall i :: |r| <= i < |parts| ==> parts[i] == ""
  {
    if parts == [] then []
    else if parts[|parts| - 1] == "" then DropTrailingEmpty(parts[..|parts| - 1])
    else parts
  }

  /**
   * `s.split(String.valueOf(c))` for a single, non-special character: the input itself
   * when `c` does not occur, otherwise every piece with trailing empty pieces removed
   * (leading and inner empty pieces are kept).
   */
  function JavaSplit(s: string, c: char): (r: seq<string>)
    ensures c !in s ==> r == [s]
    ensures c in s ==> |r| <= |SplitOn(s, c)| && r == SplitOn(s, c)[..|r|] && (r != [] ==> r[|r| - 1] != "")
    ensures c in s ==> forall i :: |r| <= i < |SplitOn(s, c)| ==> SplitOn(s, c)[i] == ""
    ensures forall i :: 0 <= i < |r| ==> c !in r[i]
  {
    if c !in s then [s] else DropTrailingEmpty(SplitOn(s, c))
  }

  /** Joining nothing but empty pieces gives nothing but separators. */
  lemma {:induction false} JoinEmptyPieces(parts: seq<string>, c: char)
    requires forall i :: 0 <= i < |parts| ==> parts[i] == ""
    ensures forall k :: 0 <= k < |Join(parts, c)| ==> Join(parts, c)[k] == c
  {
    if |parts| > 1 {
      JoinEmptyPieces(parts[1..], c);
      assert Join(parts, c) == [c] + Join(parts[1..], c);
    }
  }

  /** A string holding some character other than the separator splits into at least one piece. */
  lemma JavaSplitHasPiece(s: string, c: char, k: nat)
    requires k < |s| && s[k] != c
    ensures JavaSplit(s, c) != []
  {
    if c in s && JavaSplit(s, c) == [] {
      var parts := SplitOn(s, c);
      SplitOnJoin(s, c);
      JoinEmptyPieces(parts, c);
    }
  }

  /** A string that is not blank splits on spaces into at least one piece. */
  lemma JavaSplitNonBlank(s: string)
    requires Trim(s) != ""
    ensures JavaSplit(s, ' ') != []
  {
    TrimEmptyIffBlank(s);
    var k :| 0 <= k < |s| && s[k] > ' ';
    JavaSplitHasPiece(s, ' ', k);
  }

  /** `String.trim()` removes every leading and trailing character up to U+0020. */
  function TrimStart(s: string): (r: string)
    ensures |r| <= |s| && r == s[|s| - |r|..]
    ensures r != [] ==> r[0] > ' '
    ensures forall i :: 0 <= i < |s| - |r| ==> s[i] <= ' '
  {
    if s != [] && s[0] <= ' ' then TrimStart(s[1..]) else s
  }

  function TrimEnd(s: string): (r: string)
    ensures |r| <= |s| && r == s[..|r|]
    ensures r != [] ==> r[|r| - 1] > ' '
    ensures forall i :: |r| <= i < |s| ==> s[i] <= ' '
  {
    if s != [] && s[|s| - 1] <= ' ' then TrimEnd(s[..|s| - 1]) else s
  }

  function Trim(s: string): string {
    TrimEnd(TrimStart(s))
  }

  /** `s.trim().isEmpty()` holds exactly when every character of `s` is at most U+0020. */
  lemma TrimEmptyIffBlank(s: string)
    ensures Trim(s) == "" <==> forall i :: 0 <= i < |s| ==> s[i] <= ' '
  {
    var t := TrimStart(s);
    if Trim(s) == "" && t != [] {
      assert false;
    }
    if forall i :: 0 <= i < |s| ==> s[i] <= ' ' {
      if t != [] {
        assert false;
      }
    }
  }

  /**
   * `FilenameUtils.removeExtension` for a bare file name (no directory separator):
   * everything before the last '.', or the name itself when it has no '.'.
   */
  function RemoveExtension(name: string): (r: string)
    ensures '.' !in name ==> r == name
    ensures '.' in name ==> |r| < |name| && name[..|r|] == r && name[|r|] == '.' && '.' !in name[|r| + 1..]
  {
    if name == [] then []
    else if name[|name| - 1] == '.' then name[..|name| - 1]
    else if '.' in name[..|name| - 1] then
      var r := RemoveExtension(name[..|name| - 1]);
      assert name[|r| + 1..] == name[..|name| - 1][|r| + 1..] + [name[|name| - 1]];
      r
    else
      assert name == name[..|name| - 1] + [name[|name| - 1]];
      name
  }

  function DigitChar(d: nat): (c: char)
    requires d < 10
    ensures '0' <= c <= '9'
    ensures c as int - '0' as int == d
  {
    ('0' as int + d) as char
  }

  /** The number a string of decimal digits denotes. */
  function DigitsValue(s: string): nat
    requires forall i :: 0 <= i < |s| ==> '0' <= s[i] <= '9'
  {
    if s == [] then 0 else DigitsValue(s[..|s| - 1]) * 10 + (s[|s| - 1] as int - '0' as int)
  }

  /** `String.valueOf(n)` for a non-negative number: its decimal digits, no sign and no leading zero. */
  function NatToString(n: nat): (r: string)
    ensures |r| > 0
    ensures forall i :: 0 <= i < |r| ==> '0' <= r[i] <= '9'
    ensures |r| > 1 ==> r[0] != '0'
  {
    if n < 10 then [DigitChar(n)] else NatToString(n / 10) + [DigitChar(n % 10)]
  }

  /** `String.valueOf(n)` denotes `n`: reading its digits back gives the number. */
  lemma {:induction false} NatToStringValue(n: nat)
    ensures DigitsValue(NatToString(n)) == n
  {
    var s := NatToString(n);
    if n < 10 {
      assert s[..|s| - 1] == [];
    } else {
      NatToStringValue(n / 10);
      assert s[..|s| - 1] == NatToString(n / 10);
    }
  }
}
