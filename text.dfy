/**
 * The string operations the server and the client rely on: Python's
 * `str.strip`, `in` on strings, `str.split`, `str(int)`, and the ASCII case
 * folding SQLite applies in `LIKE`.  Strings are sequences of Unicode scalar
 * values.
 */
module Text {
  import opened Common

  /** Python's `str.isspace` for one character (the characters `str.strip()` removes). */
  predicate IsSpace(c: char) {
    c == ' ' || ('\t' <= c <= '\r') || ('\U{1C}' <= c <= '\U{1F}') ||
    c == '\U{85}' || c == '\U{A0}' || c == '\U{1680}' ||
    ('\U{2000}' <= c <= '\U{200A}') || c == '\U{2028}' || c == '\U{2029}' ||
    c == '\U{202F}' || c == '\U{205F}' || c == '\U{3000}'
  }

  predicate AllSpace(s: string) {
    forall i :: 0 <= i < |s| ==> IsSpace(s[i])
  }

  /** Number of whitespace characters at the front of `s`. */
  function LeadingSpaces(s: string): (k: nat)
    ensures k <= |s|
    ensures forall i :: 0 <= i < k ==> IsSpace(s[i])
    ensures k < |s| ==> !IsSpace(s[k])
  {
    if |s| == 0 || !IsSpace(s[0]) then 0 else 1 + LeadingSpaces(s[1..])
  }

  /** Number of whitespace characters at the back of `s`. */
  function TrailingSpaces(s: string): (k: nat)
    ensures k <= |s|
    ensures forall i :: |s| - k <= i < |s| ==> IsSpace(s[i])
    ensures k < |s| ==> !IsSpace(s[|s| - 1 - k])
  {
    if |s| == 0 || !IsSpace(s[|s| - 1]) then 0 else 1 + TrailingSpaces(s[..|s| - 1])
  }

  /** Python's `s.strip()` with no argument. */
  function Strip(s: string): (r: string)
    ensures r == [] <==> AllSpace(s)
    ensures r != [] ==> !IsSpace(r[0]) && !IsSpace(r[|r| - 1])
    ensures r != [] ==> r == s[LeadingSpaces(s)..|s| - TrailingSpaces(s)]
  {
    var a := LeadingSpaces(s);
    if a == |s| then []
    else
      var b := TrailingSpaces(s);
      assert !IsSpace(s[a]);
      s[a..|s| - b]
  }

  /** Text that starts and ends with a non-space character, in two parts, is its own `strip()`. */
  lemma StripConcatUnchanged(prefix: string, x: string)
    requires prefix != [] && !IsSpace(prefix[0])
    requires x == [] ==> !IsSpace(prefix[|prefix| - 1])
    requires x != [] ==> !IsSpace(x[|x| - 1])
    ensures prefix + x != [] && Strip(prefix + x) == prefix + x
  {
    var s := prefix + x;
    assert s[0] == prefix[0];
    assert s[|s| - 1] == if x == [] then prefix[|prefix| - 1] else x[|x| - 1];
    StripUnchanged(s);
  }

  /** `sub` occurs in `s` starting at index `i`. */
  predicate OccursAt(s: string, sub: string, i: nat) {
    i + |sub| <= |s| && s[i..i + |sub|] == sub
  }

  /** Python's `sub in s`. */
  predicate Contains(s: string, sub: string) {
    exists i: nat | i <= |s| :: OccursAt(s, sub, i)
  }

  /** The first occurrence of `sep` in `s` at or after index `from`. */
  function FindFrom(s: string, sep: string, from: nat): (r: Option<nat>)
    requires from <= |s|
    decreases |s| - from
    ensures r.Some? ==> from <= r.value && OccursAt(s, sep, r.value)
    ensures r.Some? ==> forall j: nat :: from <= j < r.value ==> !OccursAt(s, sep, j)
    ensures r.None? ==> forall j: nat :: from <= j <= |s| ==> !OccursAt(s, sep, j)
  {
    if OccursAt(s, sep, from) then Some(from)
    else if from == |s| then None
    else FindFrom(s, sep, from + 1)
  }

  /** Python's `s.split(sep)` for a non-empty separator. */
  function Split(s: string, sep: string): (pieces: seq<string>)
    requires |sep| > 0
    decreases |s|
    ensures |pieces| >= 1
  {
    match FindFrom(s, sep, 0)
    case None => [s]
    case Some(i) => [s[..i]] + Split(s[i + |sep|..], sep)
  }

  /** Python's `sep.join(pieces)`. */
  function Join(pieces: seq<string>, sep: string): string
    requires |pieces| >= 1
  {
    if |pieces| == 1 then pieces[0] else pieces[0] + sep + Join(pieces[1..], sep)
  }

  lemma OccursInPrefix(s: string, sub: string, i: nat, j: nat)
    requires i <= |s| && OccursAt(s[..i], sub, j)
    ensures OccursAt(s, sub, j)
  {
    assert s[..i][j..j + |sub|] == s[j..j + |sub|];
  }

  lemma OccursInSuffix(s: string, sub: string, i: nat, j: nat)
    requires i <= |s| && OccursAt(s[i..], sub, j)
    ensures OccursAt(s, sub, i + j)
  {
    assert s[i..][j..j + |sub|] == s[i + j..i + j + |sub|];
  }

  /** One step of `Split`: the piece before the first separator, then the split of the rest. */
  lemma SplitStep(s: string, sep: string, i: nat)
    requires |sep| > 0 && FindFrom(s, sep, 0) == Some(i)
    ensures s == s[..i] + sep + s[i + |sep|..]
    ensures Split(s, sep) == [s[..i]] + Split(s[i + |sep|..], sep)
    ensures !Contains(s[..i], sep)
  {
    SplitUnfold(s, sep, i);
    Reassemble(s, sep, i);
    FirstPieceFree(s, sep, i);
  }

  lemma SplitUnfold(s: string, sep: string, i: nat)
    requires |sep| > 0 && FindFrom(s, sep, 0) == Some(i)
    ensures Split(s, sep) == [s[..i]] + Split(s[i + |sep|..], sep)
  {
  }

  lemma Reassemble(s: string, sep: string, i: nat)
    requires OccursAt(s, sep, i)
    ensures s == s[..i] + sep + s[i + |sep|..]
  {
    assert s == s[..i] + s[i..i + |sep|] + s[i + |sep|..];
  }

  lemma FirstPieceFree(s: string, sep: string, i: nat)
    requires |sep| > 0 && FindFrom(s, sep, 0) == Some(i)
    ensures !Contains(s[..i], sep)
  {
    var prefix := s[..i];
    forall j: nat | j <= i ensures !OccursAt(prefix, sep, j) {
      if j + |sep| <= i {
        assert j < i;
        assert !OccursAt(s, sep, j);
        assert prefix[j..j + |sep|] == s[j..j + |sep|];
      }
    }
  }

  /** When `sep` does not occur, the split is the whole string. */
  lemma SplitNone(s: string, sep: string)
    requires |sep| > 0 && !Contains(s, sep)
    ensures Split(s, sep) == [s]
  {
  }

  /** Splitting and joining again gives back the string. */
  lemma {:induction false} SplitJoin(s: string, sep: string)
    requires |sep| > 0
    decreases |s|
    ensures Join(Split(s, sep), sep) == s
  {
    match FindFrom(s, sep, 0)
    case None =>
    case Some(i) =>
      SplitStep(s, sep, i);
      SplitJoin(s[i + |sep|..], sep);
  }

  /** No piece of a split holds the separator. */
  lemma {:induction false} SplitPiecesFree(s: string, sep: string)
    requires |sep| > 0
    decreases |s|
    ensures forall k :: 0 <= k < |Split(s, sep)| ==> !Contains(Split(s, sep)[k], sep)
  {
    match FindFrom(s, sep, 0)
    case None =>
      if Contains(s, sep) {
        var j: nat :| j <= |s| && OccursAt(s, sep, j);
      }
    case Some(i) =>
      var rest := s[i + |sep|..];
      SplitStep(s, sep, i);
      SplitPiecesFree(rest, sep);
      var ps := Split(s, sep);
      forall k | 0 <= k < |ps| ensures !Contains(ps[k], sep) {
        if k > 0 { assert ps[k] == Split(rest, sep)[k - 1]; }
      }
  }

  /** `r` is what follows the last occurrence of `sep` in `s`. */
  predicate FollowsLastSeparator(s: string, sep: string, r: string) {
    |r| + |sep| <= |s| && r == s[|s| - |r|..] && OccursAt(s, sep, |s| - |r| - |sep|) &&
    !Contains(r, sep)
  }

  /** The last piece of `s.split(sep)` follows an occurrence of `sep` and holds no further one. */
  lemma {:induction false} LastPieceFollowsLastSeparator(s: string, sep: string)
    requires |sep| > 0 && Contains(s, sep)
    decreases |s|
    ensures FollowsLastSeparator(s, sep, Last(Split(s, sep)))
  {
    FoundWhenContained(s, sep);
    var i := FindFrom(s, sep, 0).value;
    var rest := s[i + |sep|..];
    SplitUnfold(s, sep, i);
    assert Last(Split(s, sep)) == Last(Split(rest, sep));
    if Contains(rest, sep) {
      LastPieceFollowsLastSeparator(rest, sep);
      LastPieceStep(s, sep, i, Last(Split(rest, sep)));
    } else {
      LastPieceBase(s, sep, i);
    }
  }

  lemma FoundWhenContained(s: string, sep: string)
    requires Contains(s, sep)
    ensures FindFrom(s, sep, 0).Some?
  {
    var j: nat :| j <= |s| && OccursAt(s, sep, j);
  }

  lemma LastPieceBase(s: string, sep: string, i: nat)
    requires |sep| > 0 && i + |sep| <= |s| && OccursAt(s, sep, i)
    requires !Contains(s[i + |sep|..], sep)
    ensures Split(s[i + |sep|..], sep) == [s[i + |sep|..]]
    ensures FollowsLastSeparator(s, sep, s[i + |sep|..])
  {
    SplitNone(s[i + |sep|..], sep);
  }

  lemma LastPieceStep(s: string, sep: string, i: nat, r: string)
    requires |sep| > 0 && i + |sep| <= |s|
    requires FollowsLastSeparator(s[i + |sep|..], sep, r)
    ensures FollowsLastSeparator(s, sep, r)
  {
    var rest := s[i + |sep|..];
    assert rest[|rest| - |r|..] == s[|s| - |r|..];
    OccursInSuffix(s, sep, i + |sep|, |rest| - |r| - |sep|);
  }

  /** With a one-character separator, the text after the last separator is unique. */
  lemma LastSeparatorUnique(s: string, sep: string, x: string, y: string)
    requires |sep| == 1 && FollowsLastSeparator(s, sep, x) && FollowsLastSeparator(s, sep, y)
    ensures x == y
  {
    SeparatorInsideLonger(s, sep, x, y);
    SeparatorInsideLonger(s, sep, y, x);
  }

  /** A suffix longer than `x` reaches back over the separator in front of `x`. */
  lemma SeparatorInsideLonger(s: string, sep: string, x: string, y: string)
    requires |sep| == 1 && FollowsLastSeparator(s, sep, x) && |y| <= |s| && y == s[|s| - |y|..]
    ensures |y| > |x| ==> Contains(y, sep)
  {
    if |y| > |x| {
      var i := |y| - |x| - 1;
      assert y[i..i + 1] == s[|s| - |x| - 1..|s| - |x|];
      assert OccursAt(y, sep, i);
    }
  }

  function Last<T>(xs: seq<T>): T
    requires |xs| > 0
  {
    xs[|xs| - 1]
  }

  /** The decimal digit for `d`. */
  function Digit(d: nat): char
    requires d < 10
  {
    "0123456789"[d]
  }

  /** Python's `str(n)` for a natural number. */
  function NatToString(n: nat): (r: string)
    ensures |r| >= 1
    ensures n >= 10 ==> |r| >= 2
  {
    if n < 10 then [Digit(n)] else NatToString(n / 10) + [Digit(n % 10)]
  }

  /** The digit character for `d` stands for `d`. */
  lemma DigitValue(d: nat)
    requires d < 10
    ensures '0' <= Digit(d) <= '9' && Digit(d) as int - '0' as int == d
  {
    assert d == 0 || d == 1 || d == 2 || d == 3 || d == 4 || d == 5 || d == 6 || d == 7 || d == 8 || d == 9;
  }

  /** Every character `NatToString` prints is an ASCII digit. */
  lemma {:induction false} NatToStringDigits(n: nat)
    ensures forall i :: 0 <= i < |NatToString(n)| ==> '0' <= NatToString(n)[i] <= '9'
  {
    DigitValue(n % 10);
    if n >= 10 {
      NatToStringDigits(n / 10);
    }
  }

  /** Python's `str(i)` for an integer. */
  function IntToString(i: int): string {
    if i < 0 then "-" + NatToString(-i) else NatToString(i)
  }

  lemma DigitInjective(a: nat, b: nat)
    requires a < 10 && b < 10 && Digit(a) == Digit(b)
    ensures a == b
  {
  }

  /** Distinct naturals print differently. */
  lemma {:induction false} NatToStringInjective(a: nat, b: nat)
    requires NatToString(a) == NatToString(b)
    ensures a == b
  {
    var sa, sb := NatToString(a), NatToString(b);
    if a < 10 && b < 10 {
      DigitInjective(a, b);
    } else if a >= 10 && b >= 10 {
      assert sa[|sa| - 1] == Digit(a % 10) && sb[|sb| - 1] == Digit(b % 10);
      DigitInjective(a % 10, b % 10);
      assert sa[..|sa| - 1] == NatToString(a / 10);
      assert sb[..|sb| - 1] == NatToString(b / 10);
      NatToStringInjective(a / 10, b / 10);
    }
  }

  /** Distinct integers print differently. */
  lemma IntToStringInjective(a: int, b: int)
    requires IntToString(a) == IntToString(b)
    ensures a == b
  {
    var sa, sb := IntToString(a), IntToString(b);
    if a < 0 && b < 0 {
      assert sa[1..] == NatToString(-a) && sb[1..] == NatToString(-b);
      NatToStringInjective(-a, -b);
    } else if a >= 0 && b >= 0 {
      NatToStringInjective(a, b);
    } else if a < 0 {
      // Only the left side starts with '-', which no digit string does.
      assert sa[0] == '-';
      NatToStringNoMinus(b);
    } else {
      assert sb[0] == '-';
      NatToStringNoMinus(a);
    }
  }

  /** `str(i)` prints only ASCII digits and a leading minus sign. */
  lemma IntToStringChars(i: int)
    ensures forall k :: 0 <= k < |IntToString(i)| ==> ('0' <= IntToString(i)[k] <= '9') || IntToString(i)[k] == '-'
  {
    if i < 0 {
      NatToStringDigits(-i);
      assert forall k :: 1 <= k < |IntToString(i)| ==> IntToString(i)[k] == NatToString(-i)[k - 1];
    } else {
      NatToStringDigits(i);
    }
  }

  lemma {:induction false} NatToStringNoMinus(n: nat)
    ensures forall i :: 0 <= i < |NatToString(n)| ==> NatToString(n)[i] != '-'
  {
    if n >= 10 { NatToStringNoMinus(n / 10); }
  }

  /** ASCII-only lower-casing, which is what SQLite's `LIKE` folds. */
  function AsciiLower(c: char): (r: char)
    ensures 'A' <= c <= 'Z' ==> 'a' <= r <= 'z'
    ensures !('A' <= c <= 'Z') ==> r == c
  {
    if 'A' <= c <= 'Z' then (c as int + 32) as char else c
  }

  function AsciiLowerString(s: string): (r: string)
    ensures |r| == |s|
    ensures forall i :: 0 <= i < |s| ==> r[i] == AsciiLower(s[i])
  {
    if s == [] then [] else [AsciiLower(s[0])] + AsciiLowerString(s[1..])
  }

  /** Lower-casing never turns a character into whitespace. */
  lemma AsciiLowerKeepsNonSpace(c: char)
    requires !IsSpace(c)
    ensures !IsSpace(AsciiLower(c))
  {
  }

  /** Lower-casing twice is lower-casing once. */
  lemma AsciiLowerIdempotent(s: string)
    ensures AsciiLowerString(AsciiLowerString(s)) == AsciiLowerString(s)
  {
    var l := AsciiLowerString(s);
    assert forall i :: 0 <= i < |l| ==> AsciiLower(l[i]) == l[i];
  }

  /** Lower-casing neither creates nor removes an `@`. */
  lemma AsciiLowerKeepsAt(s: string)
    ensures Contains(AsciiLowerString(s), "@") ==> Contains(s, "@")
  {
    var l := AsciiLowerString(s);
    if Contains(l, "@") {
      var i: nat :| i <= |l| && OccursAt(l, "@", i);
      assert l[i] == l[i..i + 1][0] == '@';
      assert AsciiLower(s[i]) == '@';
      assert s[i..i + 1] == [s[i]] == "@";
      assert OccursAt(s, "@", i);
    }
  }

  /** A text that starts and ends with a non-space character is its own `strip()`. */
  lemma StripUnchanged(s: string)
    requires s != [] && !IsSpace(s[0]) && !IsSpace(s[|s| - 1])
    ensures Strip(s) == s
  {
    assert LeadingSpaces(s) == 0;
    assert TrailingSpaces(s) == 0;
  }

  /** Django's `field__icontains=q` on SQLite: case-insensitive for ASCII letters only. */
  predicate IContains(field: string, q: string) {
    Contains(AsciiLowerString(field), AsciiLowerString(q))
  }
}
