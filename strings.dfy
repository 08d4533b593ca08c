/**
 * The parts of Ruby's String class that the modelled code relies on:
 * `strip`, `split` with a one-character separator, `join`, `Integer#to_s`
 * and `gsub` with a literal pattern.  Strings are sequences of characters.
 */
module Strings {

  /** Characters `String#lstrip` removes (ASCII whitespace). */
  predicate IsSpace(c: char) {
    c == ' ' || c == '\t' || c == '\n' || c == '\U{000B}' || c == '\U{000C}' || c == '\r'
  }

  /** Characters `String#rstrip` removes: whitespace and NUL. */
  predicate IsTrailingSpace(c: char) {
    IsSpace(c) || c == '\0'
  }

  /** `s` occurs in `t` starting at index `i`. */
  predicate OccursAt(t: string, s: string, i: nat) {
    i + |s| <= |t| && t[i..i + |s|] == s
  }

  predicate Contains(t: string, s: string) {
    exists i: nat | i <= |t| :: OccursAt(t, s, i)
  }

  function TrimLeft(s: string): (r: string)
    ensures |r| <= |s|
    ensures r == [] || !IsSpace(r[0])
  {
    if |s| > 0 && IsSpace(s[0]) then TrimLeft(s[1..]) else s
  }

  function TrimRight(s: string): (r: string)
    ensures |r| <= |s|
    ensures r == [] || (r[0] == s[0] && !IsTrailingSpace(r[|r| - 1]))
  {
    if |s| > 0 && IsTrailingSpace(s[|s| - 1]) then TrimRight(s[..|s| - 1]) else s
  }

  /** `lstrip` drops exactly the leading whitespace. */
  lemma {:induction false} TrimLeftDrops(s: string)
    ensures TrimLeft(s) == s[|s| - |TrimLeft(s)|..]
    ensures forall i :: 0 <= i < |s| - |TrimLeft(s)| ==> IsSpace(s[i])
  {
    if |s| > 0 && IsSpace(s[0]) {
      TrimLeftDrops(s[1..]);
    }
  }

  /** `rstrip` drops exactly the trailing whitespace and NULs. */
  lemma {:induction false} TrimRightTakes(s: string)
    ensures TrimRight(s) == s[..|TrimRight(s)|]
    ensures forall i :: |TrimRight(s)| <= i < |s| ==> IsTrailingSpace(s[i])
  {
    if |s| > 0 && IsTrailingSpace(s[|s| - 1]) {
      TrimRightTakes(s[..|s| - 1]);
    }
  }

  /** `String#strip`: the longest infix that neither starts with whitespace nor ends with whitespace or NUL. */
  function Strip(s: string): (r: string)
    ensures |r| <= |s|
    ensures r == [] || (!IsSpace(r[0]) && !IsTrailingSpace(r[|r| - 1]))
  {
    TrimRight(TrimLeft(s))
  }

  /** What `strip` keeps is one infix of the string. */
  lemma StripInfix(s: string) returns (i: nat, j: nat)
    ensures i <= j <= |s| && Strip(s) == s[i..j]
  {
    var l := TrimLeft(s);
    var r := TrimRight(l);
    TrimLeftDrops(s);
    TrimRightTakes(l);
    i, j := |s| - |l|, |s| - |l| + |r|;
  }

  /** A string with nothing to strip at either end is its own `strip`. */
  lemma StripUnpadded(s: string)
    requires s == [] || (!IsSpace(s[0]) && !IsTrailingSpace(s[|s| - 1]))
    ensures Strip(s) == s
  {
    assert TrimLeft(s) == s;
  }

  lemma StripIdempotent(s: string)
    ensures Strip(Strip(s)) == Strip(s)
  {
    StripUnpadded(Strip(s));
  }

  /** `parts` joined with `sep` between neighbours (`Array#join`). */
  function Join(parts: seq<string>, sep: string): string
  {
    if |parts| == 0 then ""
    else if |parts| == 1 then parts[0]
    else parts[0] + sep + Join(parts[1..], sep)
  }

  lemma JoinConsFirst(a: string, b: string, rest: seq<string>, sep: string)
    ensures Join([a + b] + rest, sep) == a + Join([b] + rest, sep)
  {
    if |rest| > 0 {
      assert ([a + b] + rest)[1..] == rest;
      assert ([b] + rest)[1..] == rest;
    }
  }

  /** Every field between occurrences of `c`, empty ones included. */
  function SplitAll(s: string, c: char): (r: seq<string>)
    ensures |r| >= 1
    ensures forall k :: 0 <= k < |r| ==> c !in r[k]
    ensures Join(r, [c]) == s
  {
    if |s| == 0 then [""]
    else
      var rest := SplitAll(s[1..], c);
      if s[0] == c then
        assert [""] + rest == [""] + rest;
        assert ([""] + rest)[1..] == rest;
        [""] + rest
      else
        JoinConsFirst([s[0]], rest[0], rest[1..], [c]);
        assert [rest[0]] + rest[1..] == rest;
        [[s[0]] + rest[0]] + rest[1..]
  }

  /** `parts` without its trailing empty strings. */
  function DropTrailingEmpty(parts: seq<string>): (r: seq<string>)
    ensures |r| <= |parts| && r == parts[..|r|]
    ensures r == [] || r[|r| - 1] != ""
    ensures forall k :: |r| <= k < |parts| ==> parts[k] == ""
  {
    if |parts| > 0 && parts[|parts| - 1] == "" then DropTrailingEmpty(parts[..|parts| - 1]) else parts
  }

  /** `String#split` with a one-character string separator other than a space. */
  function Split(s: string, c: char): (r: seq<string>)
    requires c != ' '
  {
    DropTrailingEmpty(SplitAll(s, c))
  }

  lemma {:induction false} SplitRoundTrip(s: string, c: char)
    requires c != ' '
    ensures forall k :: 0 <= k < |Split(s, c)| ==> c !in Split(s, c)[k]
    ensures Join(Split(s, c), [c]) <= s
    ensures forall k :: |Join(Split(s, c), [c])| <= k < |s| ==> s[k] == c
  {
    var all := SplitAll(s, c);
    var kept := Split(s, c);
    if |kept| == 0 {
      assert all[0] == "";
      JoinDropped(all, 0, [c]);
      RepeatOnly(c, |all| - 1);
    } else {
      JoinDropped(all, |kept|, [c]);
      assert all[..|kept|] == kept;
      RepeatOnly(c, |all| - |kept|);
    }
  }

  lemma {:induction false} RepeatOnly(c: char, n: nat)
    ensures |Repeat([c], n)| == n
    ensures forall k :: 0 <= k < n ==> Repeat([c], n)[k] == c
  {
    if n > 0 { RepeatOnly(c, n - 1); }
  }

  function Repeat(s: string, n: nat): string
  {
    if n == 0 then "" else s + Repeat(s, n - 1)
  }

  /** Joining a list whose tail from `n` on is empty strings leaves one separator per dropped field. */
  lemma {:induction false} JoinDropped(parts: seq<string>, n: nat, sep: string)
    requires 0 < n <= |parts| || (n == 0 && |parts| >= 1 && parts[0] == "")
    requires forall k :: n <= k < |parts| ==> parts[k] == ""
    ensures n > 0 ==> Join(parts[..n], sep) + Repeat(sep, |parts| - n) == Join(parts, sep)
    ensures n == 0 ==> Repeat(sep, |parts| - 1) == Join(parts, sep)
    decreases |parts|
  {
    if |parts| == 1 {
    } else if n == 0 {
      JoinDropped(parts[1..], 0, sep);
    } else if n == 1 {
      JoinDropped(parts[1..], 0, sep);
      assert parts[..1] == [parts[0]];
    } else {
      JoinDropped(parts[1..], n - 1, sep);
      assert parts[..n][1..] == parts[1..][..n - 1];
    }
  }

  /** The last component of a path (`File.basename` of a path with no trailing '/'). */
  function Basename(path: string): (r: string)
    ensures |r| <= |path| && r == path[|path| - |r|..]
    ensures forall i :: 0 <= i < |r| ==> r[i] != '/'
    decreases |path|
  {
    if path == [] || path[|path| - 1] == '/' then ""
    else Basename(path[..|path| - 1]) + [path[|path| - 1]]
  }

  function DigitChar(d: nat): (c: char)
    requires d < 10
  {
    ['0', '1', '2', '3', '4', '5', '6', '7', '8', '9'][d]
  }

  predicate IsDigit(c: char) { '0' <= c <= '9' }

  function DigitValue(c: char): nat
    requires IsDigit(c)
  {
    (c as int - '0' as int) as nat
  }

  /** The number a string of decimal digits denotes. */
  function DecimalValue(s: string): nat
    requires forall k :: 0 <= k < |s| ==> IsDigit(s[k])
  {
    if |s| == 0 then 0 else 10 * DecimalValue(s[..|s| - 1]) + DigitValue(s[|s| - 1])
  }

  /** `Integer#to_s` for a non-negative integer. */
  function NatToString(n: nat): (r: string)
    ensures |r| >= 1
    ensures forall k :: 0 <= k < |r| ==> IsDigit(r[k])
    ensures r[0] == '0' ==> n == 0
  {
    if n < 10 then [DigitChar(n)] else NatToString(n / 10) + [DigitChar(n % 10)]
  }

  /** `to_s` of any integer, with a minus sign for negatives. */
  function IntToString(i: int): string
  {
    if i < 0 then "-" + NatToString(-i) else NatToString(i)
  }

  lemma {:induction false} NatToStringRoundTrip(n: nat)
    ensures DecimalValue(NatToString(n)) == n
  {
    if n >= 10 {
      NatToStringRoundTrip(n / 10);
      var s := NatToString(n);
      assert s[..|s| - 1] == NatToString(n / 10);
    }
  }

  /**
   * `gsub` with a literal, non-empty pattern: the matches are found left to right
   * and do not overlap.
   */
  function ReplaceAll(s: string, pat: string, rep: string): string
    requires |pat| > 0
    decreases |s|
  {
    if |s| < |pat| then s
    else if s[..|pat|] == pat then rep + ReplaceAll(s[|pat|..], pat, rep)
    else [s[0]] + ReplaceAll(s[1..], pat, rep)
  }

  /**
   * The text between the matches `gsub` finds: `s` cut at the leftmost
   * non-overlapping occurrences of `pat`.
   */
  function Pieces(s: string, pat: string): (r: seq<string>)
    requires |pat| > 0
    ensures |r| >= 1
    ensures Join(r, pat) == s
    ensures forall k :: 0 <= k < |r| ==> !Contains(r[k], pat)
    decreases |s|
  {
    if |s| < |pat| then
      NoRoomNoOccurrence(s, pat);
      [s]
    else if s[..|pat|] == pat then
      var rest := Pieces(s[|pat|..], pat);
      assert ([""] + rest)[1..] == rest;
      assert !Contains("", pat) by { NoRoomNoOccurrence("", pat); }
      [""] + rest
    else
      var rest := Pieces(s[1..], pat);
      JoinConsFirst([s[0]], rest[0], rest[1..], pat);
      assert [rest[0]] + rest[1..] == rest;
      var first := [s[0]] + rest[0];
      FirstPieceFree(s, pat, rest);
      [first] + rest[1..]
  }

  lemma NoRoomNoOccurrence(s: string, pat: string)
    requires |s| < |pat|
    ensures !Contains(s, pat)
  {
  }

  /** The cons step of `Pieces`: a piece that starts where `pat` does not occur holds no occurrence. */
  lemma FirstPieceFree(s: string, pat: string, rest: seq<string>)
    requires |pat| > 0 && |s| >= |pat| && s[..|pat|] != pat
    requires |rest| >= 1 && Join(rest, pat) == s[1..]
    requires !Contains(rest[0], pat)
    ensures !Contains([s[0]] + rest[0], pat)
  {
    var first := [s[0]] + rest[0];
    JoinPrefix(rest, pat);
    assert rest[0] <= s[1..];
    assert first <= s;
    forall i: nat | OccursAt(first, pat, i)
      ensures false
    {
      if i > 0 {
        assert first[i..i + |pat|] == rest[0][i - 1..i - 1 + |pat|];
        assert OccursAt(rest[0], pat, i - 1);
      }
    }
  }

  lemma JoinPrefix(parts: seq<string>, sep: string)
    requires |parts| >= 1
    ensures parts[0] <= Join(parts, sep)
  {
  }

  lemma {:induction false} ReplaceAllJoinsPieces(s: string, pat: string, rep: string)
    requires |pat| > 0
    ensures ReplaceAll(s, pat, rep) == Join(Pieces(s, pat), rep)
    decreases |s|
  {
    if |s| < |pat| {
    } else if s[..|pat|] == pat {
      ReplaceAllJoinsPieces(s[|pat|..], pat, rep);
      var rest := Pieces(s[|pat|..], pat);
      assert ([""] + rest)[1..] == rest;
    } else {
      ReplaceAllJoinsPieces(s[1..], pat, rep);
      var rest := Pieces(s[1..], pat);
      JoinConsFirst([s[0]], rest[0], rest[1..], rep);
      assert [rest[0]] + rest[1..] == rest;
    }
  }

  /** With no occurrence of the pattern, `gsub` leaves the text as it is. */
  lemma ReplaceAllWithoutMatch(s: string, pat: string, rep: string)
    requires |pat| > 0 && !Contains(s, pat)
    ensures ReplaceAll(s, pat, rep) == s
  {
    ReplaceAllJoinsPieces(s, pat, rep);
    var p := Pieces(s, pat);
    if |p| > 1 {
      JoinPrefix(p, pat);
      assert Join(p, pat) == p[0] + pat + Join(p[1..], pat);
      assert OccursAt(s, pat, |p[0]|);
    }
  }

  /** A Ruby `String` object that `<<` appends to in place. */
  class Buffer {
    var text: string

    constructor (s: string)
      ensures text == s
    {
      text := s;
    }

    /** `self << s` */
    method Append(s: string)
      modifies this
      ensures text == old(text) + s
    {
      text := text + s;
    }
  }
}
