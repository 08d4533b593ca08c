/**
 * `BoxGrinder::OptionParser`: the post-processing of the parsed command-line
 * options.  Plugin configuration strings such as `k1:v1,k2:{a:b,c:d}` are
 * cut at commas outside brace-delimited values and then at the first
 * unescaped colon; the option hash is then validated and normalised in place.
 *
 * `Trollop::die` ends the program with a message: it is an `OptionError`.
 * The option hash maps option names (the symbols, as strings) to `OptValue`s.
 */
module OptionParser {
  import opened Wrappers
  import opened Strings

  datatype OptionError =
    | BraceImbalance(text: string)           // "Brace imbalance in '<str>'"
    | NoKeyBeforeBrace                       // find_key gave nil, so `nil - 1` raises
    | InvalidFormat(name: string)            // "Invalid format. Use key1:value1,key2:value2. ..."
    | MissingDependency(tail: string, head: string)   // "without specifying a <head> plugin"
    | NotAnArray(name: string)               // `join` on a value that is not an array

  // ---------------------------------------------------------------------
  // The brace scan of `parse_json`, and an independent description of it
  // ---------------------------------------------------------------------

  /** How many times `c` occurs in `s`. */
  function Count(s: string, c: char): nat {
    if s == [] then 0 else Count(s[..|s| - 1], c) + (if s[|s| - 1] == c then 1 else 0)
  }

  lemma {:induction false} CountPositive(s: string, c: char)
    ensures Count(s, c) > 0 <==> c in s
  {
    if s != [] {
      CountPositive(s[..|s| - 1], c);
      assert s == s[..|s| - 1] + [s[|s| - 1]];
    }
  }

  /** The scan's counter after the characters of `s`: nil before any brace, else opens minus closes. */
  function AccOf(s: string): Option<int> {
    if Count(s, '{') + Count(s, '}') == 0 then None else Some(Count(s, '{') - Count(s, '}'))
  }

  /** The first `n` characters hold at least one brace and as many '{' as '}'. */
  predicate Balanced(str: string, n: nat)
    requires n <= |str|
  {
    AccOf(str[..n]) == Some(0)
  }

  function FirstIndex(s: string, c: char): (r: Option<nat>)
    ensures r.None? <==> c !in s
    ensures r.Some? ==> r.value < |s| && s[r.value] == c && forall j :: 0 <= j < r.value ==> s[j] != c
  {
    if s == [] then None
    else
      var init := s[..|s| - 1];
      assert s == init + [s[|s| - 1]];
      var f := FirstIndex(init, c);
      if f.Some? then f
      else if s[|s| - 1] == c then Some(|s| - 1)
      else None
  }

  function LastIndex(s: string, c: char): (r: Option<nat>)
    ensures r.None? <==> c !in s
    ensures r.Some? ==> r.value < |s| && s[r.value] == c && forall j :: r.value < j < |s| ==> s[j] != c
  {
    if s == [] then None
    else if s[|s| - 1] == c then Some(|s| - 1)
    else
      var init := s[..|s| - 1];
      assert s == init + [s[|s| - 1]];
      var f := LastIndex(init, c);
      if f.Some? then f
      else None
  }

  function ScanLengthFrom(str: string, n: nat): (r: nat)
    requires n >= 1
    ensures r <= |str| && (r >= n || r == |str|)
    ensures forall m :: n <= m < r ==> !Balanced(str, m)
    ensures r == |str| || Balanced(str, r)
    decreases |str| + 1 - n
  {
    if n > |str| then |str|
    else if Balanced(str, n) then n
    else ScanLengthFrom(str, n + 1)
  }

  /** How many characters the scan reads: up to the first balanced prefix, else all of them. */
  function ScanLength(str: string): (r: nat)
    ensures r <= |str| && (r >= 1 || |str| == 0)
    ensures forall m :: 1 <= m < r ==> !Balanced(str, m)
    ensures r == |str| || Balanced(str, r)
  {
    ScanLengthFrom(str, 1)
  }

  lemma ScanLengthIs(str: string, n: nat)
    requires n <= |str| && (n >= 1 || |str| == 0)
    requires forall m :: 1 <= m < n ==> !Balanced(str, m)
    requires n == |str| || Balanced(str, n)
    ensures ScanLength(str) == n
  {
  }

  /** What the scan leaves behind: the counter, the first '{' and the last '}' it read. */
  datatype Scan = Scan(balancer: Option<int>, left: Option<nat>, right: Option<nat>)

  /** The scan state after reading the prefix `p`, described by counting over it. */
  function ScanOf(p: string): Scan {
    Scan(AccOf(p), FirstIndex(p, '{'), LastIndex(p, '}'))
  }

  /** The block of the `inject`: the character at `index` moves the counter and the brace indices. */
  function Consume(sc: Scan, c: char, index: nat): Scan {
    if c == '{' then Scan(Some(sc.balancer.GetOr(0) + 1), if sc.left.None? then Some(index) else sc.left, sc.right)
    else if c == '}' then Scan(Some(sc.balancer.GetOr(0) - 1), sc.left, Some(index))
    else sc
  }

  /** Reading one more character is one step of the block. */
  lemma PrefixStep(str: string, i: nat)
    requires i < |str|
    ensures ScanOf(str[..i + 1]) == Consume(ScanOf(str[..i]), str[i], i)
  {
    assert str[..i + 1][..i] == str[..i];
  }

  /** The scan's outcome: the state after the prefix it reads. */
  function BraceScan(str: string): (sc: Scan)
    ensures sc.left.Some? ==> sc.left.value < |str| && str[sc.left.value] == '{'
    ensures sc.right.Some? ==> sc.right.value < |str| && str[sc.right.value] == '}'
  {
    var n := ScanLength(str);
    var sc := ScanOf(str[..n]);
    assert sc.left.Some? ==> str[..n][sc.left.value] == str[sc.left.value];
    assert sc.right.Some? ==> str[..n][sc.right.value] == str[sc.right.value];
    sc
  }

  /** The state after the first `n` characters, when the scan stops there. */
  lemma ScanStopsAt(str: string, n: nat)
    requires n <= |str| && (n >= 1 || |str| == 0)
    requires forall m :: 1 <= m < n ==> !Balanced(str, m)
    requires n == |str| || Balanced(str, n)
    ensures ScanOf(str[..n]) == BraceScan(str)
  {
    ScanLengthIs(str, n);
  }

  /**
   * The `inject` of `parse_json`: count braces until the count first returns
   * to zero, noting the first '{' and the last '}' seen.
   */
  method ScanBraces(str: string) returns (sc: Scan)
    ensures sc == BraceScan(str)
  {
    sc := Scan(None, None, None);
    var i := 0;
    assert str[..0] == [];
    while i < |str|
      invariant 0 <= i <= |str|
      invariant sc == ScanOf(str[..i])
      invariant forall m :: 1 <= m <= i ==> !Balanced(str, m)
    {
      PrefixStep(str, i);
      sc := Consume(sc, str[i], i);
      if sc.balancer == Some(0) {
        ScanStopsAt(str, i + 1);
        return;
      }
      i := i + 1;
    }
    assert str[..i] == str;
    ScanStopsAt(str, i);
  }

  // ---------------------------------------------------------------------
  // parse_json and find_key
  // ---------------------------------------------------------------------

  function FindKeyFrom(str: string, i: nat): (r: Option<nat>)
    requires i < |str|
    ensures r.Some? ==> 1 <= r.value <= i + 1 && str[r.value - 1] == ','
    ensures r.Some? ==> forall j :: r.value <= j <= i ==> str[j] != ','
    ensures r.None? ==> forall j :: 0 <= j <= i ==> str[j] != ','
  {
    if str[i] == ',' then Some(i + 1)
    else if i == 0 then None
    else FindKeyFrom(str, i - 1)
  }

  /** `find_key`: one past the last ',' at or before `braceLeftIdx`, or nil. */
  function FindKey(str: string, braceLeftIdx: nat): (r: Option<nat>)
    requires braceLeftIdx < |str|
    ensures r.Some? ==> 1 <= r.value <= braceLeftIdx + 1 && str[r.value - 1] == ','
    ensures r.Some? ==> forall j :: r.value <= j <= braceLeftIdx ==> str[j] != ','
    ensures r.None? <==> forall j :: 0 <= j <= braceLeftIdx ==> str[j] != ','
  {
    FindKeyFrom(str, braceLeftIdx)
  }

  /**
   * `parse_json`: `[str]` when a brace kind is missing, else the text up to
   * and including the comma before the first '{', the braced value, and the rest.
   */
  function ParseJson(str: string): (r: Result<seq<string>, OptionError>)
    ensures r.Success? ==> |r.value| == 1 || |r.value| == 3
    ensures r.Success? && |r.value| == 1 ==> r.value[0] == str
    ensures r.Success? && |r.value| == 3 ==> |r.value[2]| < |str|
  {
    Cut(str, BraceScan(str))
  }

  /** The slicing `parse_json` does once the scan is over. */
  function Cut(str: string, sc: Scan): (r: Result<seq<string>, OptionError>)
    requires sc.left.Some? ==> sc.left.value < |str|
    requires sc.right.Some? ==> sc.right.value < |str|
    ensures r.Success? ==> |r.value| == 1 || |r.value| == 3
    ensures r.Success? && |r.value| == 1 ==> r.value[0] == str
    ensures r.Success? && |r.value| == 3 ==> |r.value[2]| < |str|
  {
    if sc.left.None? || sc.right.None? then Success([str])
    else if sc.balancer != Some(0) then Failure(BraceImbalance(str))
    else match FindKey(str, sc.left.value)
      case None => Failure(NoKeyBeforeBrace)
      case Some(k) =>
        var r := sc.right.value;
        Success([str[..k], if r >= k then str[k..r + 1] else "", str[r + 1..]])
  }

  /** `parse_json` computed with the scan. */
  method RunParseJson(str: string) returns (r: Result<seq<string>, OptionError>)
    ensures r == ParseJson(str)
  {
    var sc := ScanBraces(str);
    if sc.left.None? || sc.right.None? {
      return Success([str]);
    }
    if sc.balancer != Some(0) {
      return Failure(BraceImbalance(str));
    }
    var key := FindKey(str, sc.left.value);
    if key.None? {
      return Failure(NoKeyBeforeBrace);
    }
    var k, rb := key.value, sc.right.value;
    var middle := if rb >= k then str[k..rb + 1] else "";
    return Success([str[..k], middle, str[rb + 1..]]);
  }

  /** When the scan stops early, the prefix it read already holds both brace kinds. */
  lemma BalancedHoldsBoth(str: string, n: nat)
    requires n <= |str| && Balanced(str, n)
    ensures '{' in str[..n] && '}' in str[..n]
  {
    CountPositive(str[..n], '{');
    CountPositive(str[..n], '}');
  }

  /** `[str]` comes back exactly when `str` lacks '{' or lacks '}', balanced or not. */
  lemma ParseJsonWhole(str: string)
    ensures ParseJson(str) == Success([str]) <==> ('{' !in str || '}' !in str)
  {
    var n := ScanLength(str);
    if n < |str| {
      BalancedHoldsBoth(str, n);
      assert str[..n] <= str;
    } else {
      assert str[..n] == str;
    }
    if '{' !in str {
      assert '{' !in str[..n];
    }
    if '}' !in str {
      assert '}' !in str[..n];
    }
  }

  /** With both brace kinds present, parsing dies of imbalance exactly when no prefix balances. */
  lemma ParseJsonImbalance(str: string)
    requires '{' in str && '}' in str
    ensures ParseJson(str) == Failure(BraceImbalance(str)) <==>
      forall m :: 1 <= m <= |str| ==> !Balanced(str, m)
  {
    var n := ScanLength(str);
    ParseJsonWhole(str);
    var left := FirstIndex(str[..n], '{');
    var right := LastIndex(str[..n], '}');
    assert left.Some? && right.Some?;
    if n < |str| {
      assert Balanced(str, n);
      assert ParseJson(str).Success? || ParseJson(str) == Failure(NoKeyBeforeBrace);
    } else {
      assert str[..n] == str;
      if forall m :: 1 <= m <= |str| ==> !Balanced(str, m) {
        assert !Balanced(str, n);
        assert ParseJson(str) == Failure(BraceImbalance(str));
      } else {
        var m :| 1 <= m <= |str| && Balanced(str, m);
        assert m == n;
        assert AccOf(str[..n]) == Some(0);
      }
    }
  }

  /** The first occurrence in a prefix that holds one is the first occurrence overall. */
  lemma FirstIndexOfPrefix(s: string, n: nat, c: char)
    requires n <= |s| && c in s[..n]
    ensures FirstIndex(s[..n], c) == FirstIndex(s, c)
  {
    var a := FirstIndex(s[..n], c).value;
    var b := FirstIndex(s, c).value;
    assert s[..n][..a] == s[..a];
  }

  /** When some prefix balances, the scan stops at the first that does. */
  lemma ScanEndsBalanced(str: string)
    requires exists m :: 1 <= m <= |str| && Balanced(str, m)
    ensures 1 <= ScanLength(str) <= |str| && Balanced(str, ScanLength(str))
  {
    var m :| 1 <= m <= |str| && Balanced(str, m);
    var n := ScanLength(str);
    if n < m {
      assert n < |str|;
    } else {
      assert n == m;
    }
  }

  /** When some prefix balances, the scan ends balanced, its '{' is the first of the text and it read a '}'. */
  lemma BalancedScan(str: string)
    requires exists m :: 1 <= m <= |str| && Balanced(str, m)
    ensures BraceScan(str).balancer == Some(0)
    ensures BraceScan(str).left == FirstIndex(str, '{') && BraceScan(str).right.Some?
  {
    var n := ScanLength(str);
    ScanEndsBalanced(str);
    var prefix := str[..n];
    assert BraceScan(str) == ScanOf(prefix);
    assert '{' in prefix && '}' in prefix by {
      BalancedHoldsBoth(str, n);
    }
    assert FirstIndex(prefix, '{') == FirstIndex(str, '{') by {
      FirstIndexOfPrefix(str, n, '{');
    }
  }

  /** A balanced braced value with no comma before it makes `find_key` return nil, and parsing fail. */
  lemma ParseJsonNeedsComma(str: string)
    requires '{' in str && '}' in str
    requires exists m :: 1 <= m <= |str| && Balanced(str, m)
    requires forall j :: 0 <= j <= FirstIndex(str, '{').value ==> str[j] != ','
    ensures ParseJson(str) == Failure(NoKeyBeforeBrace)
  {
    BalancedScan(str);
    var sc := BraceScan(str);
    assert FindKey(str, sc.left.value).None?;
  }

  /** The cut points of a three-piece `parse_json` result. */
  lemma ParseJsonCuts(str: string) returns (k: nat, l: nat, r: nat)
    requires ParseJson(str).Success? && |ParseJson(str).value| == 3
    ensures 1 <= k <= l < |str| && r < |str|
    ensures FirstIndex(str, '{') == Some(l) && str[r] == '}'
    ensures str[k - 1] == ',' && forall j :: k <= j <= l ==> str[j] != ','
    ensures ParseJson(str).value == [str[..k], if r >= k then str[k..r + 1] else "", str[r + 1..]]
  {
    var n := ScanLength(str);
    l := FirstIndex(str[..n], '{').value;
    r := LastIndex(str[..n], '}').value;
    k := FindKey(str, l).value;
    FirstIndexOfPrefix(str, n, '{');
    assert str[..n][r] == '}';
  }

  /**
   * Three pieces that put back together give `str`: a key part ending with
   * the comma, then a braced value that starts after it and ends with '}'.
   */
  predicate RebuildsKeyValue(p: seq<string>, str: string) {
    && |p| == 3
    && p[0] + p[1] + p[2] == str
    && |p[0]| >= 1 && p[0][|p[0]| - 1] == ','
    && |p[1]| >= 2 && p[1][0] != ',' && p[1][|p[1]| - 1] == '}'
  }

  /** When no '}' precedes the first '{', `parse_json`'s three pieces rebuild the text around the comma and the braced value. */
  lemma ParseJsonRoundTrip(str: string)
    requires ParseJson(str).Success? && |ParseJson(str).value| == 3
    requires '{' in str && forall j :: 0 <= j < FirstIndex(str, '{').value ==> str[j] != '}'
    ensures RebuildsKeyValue(ParseJson(str).value, str)
  {
    var k, l, r := ParseJsonCuts(str);
    CutsRebuild(str, k, l, r);
  }

  lemma CutsRebuild(str: string, k: nat, l: nat, r: nat)
    requires 1 <= k <= l < |str| && r < |str|
    requires str[l] == '{' && str[r] == '}' && forall j :: 0 <= j < l ==> str[j] != '}'
    requires str[k - 1] == ',' && forall j :: k <= j <= l ==> str[j] != ','
    ensures r >= k
    ensures RebuildsKeyValue([str[..k], if r >= k then str[k..r + 1] else "", str[r + 1..]], str)
  {
    assert str[k..l + 1][0] == str[k];
    assert r >= k;
    var p := [str[..k], str[k..r + 1], str[r + 1..]];
    assert p[0] + p[1] + p[2] == str;
  }

  /** When a '}' comes first, the value is dropped: the pieces no longer rebuild the text. */
  lemma ParseJsonLosesText()
    ensures ParseJson("a}b,{c}") == Success(["a}b,", "", "b,{c}"])
  {
    var str := "a}b,{c}";
    assert str[..0] == [];
    PrefixStep(str, 0);
    assert ScanOf(str[..1]) == Scan(None, None, None);
    PrefixStep(str, 1);
    assert ScanOf(str[..2]) == Scan(Some(-1), None, Some(1));
    PrefixStep(str, 2);
    assert ScanOf(str[..3]) == Scan(Some(-1), None, Some(1));
    PrefixStep(str, 3);
    assert ScanOf(str[..4]) == Scan(Some(-1), None, Some(1));
    PrefixStep(str, 4);
    assert ScanOf(str[..5]) == Scan(Some(0), Some(4), Some(1));
    ScanStopsAt(str, 5);
    assert FindKey(str, 4) == Some(4);
    assert str[..4] == "a}b," && str[2..] == "b,{c}";
  }

  // ---------------------------------------------------------------------
  // split_arguments
  // ---------------------------------------------------------------------

  function StripAll(xs: seq<string>): (r: seq<string>)
    ensures |r| == |xs| && forall i :: 0 <= i < |r| ==> r[i] == Strip(xs[i])
  {
    seq(|xs|, i requires 0 <= i < |xs| => Strip(xs[i]))
  }

  /** `reject { |r| r.empty? }`. */
  function NonEmpty(xs: seq<string>): (r: seq<string>)
    ensures forall i :: 0 <= i < |r| ==> r[i] != "" && r[i] in xs
    ensures forall x :: x in xs && x != "" ==> x in r
  {
    if xs == [] then []
    else if xs[0] == "" then NonEmpty(xs[1..])
    else [xs[0]] + NonEmpty(xs[1..])
  }

  /** The flattened `args` of `split_arguments`, before the empty ones are dropped. */
  function RawArguments(str: string): Result<seq<string>, OptionError>
    decreases |str|
  {
    match ParseJson(str)
    case Failure(e) => Failure(e)
    case Success(parts) =>
      var head := StripAll(Split(parts[0], ','));
      if |parts| == 1 then Success(head)
      else match RawArguments(parts[2])
        case Failure(e) => Failure(e)
        case Success(rest) => Success(head + [parts[1]] + rest)
  }

  /** `split_arguments(str, name)`. */
  function SplitArguments(str: string): Result<seq<string>, OptionError> {
    match RawArguments(str)
    case Failure(e) => Failure(e)
    case Success(args) => Success(NonEmpty(args))
  }

  /** One level of `split_arguments`: the fields before the braced value, the value, then the rest. */
  lemma RawArgumentsUnfold(str: string)
    ensures ParseJson(str).Failure? ==> RawArguments(str) == Failure(ParseJson(str).error)
    ensures ParseJson(str).Success? && |ParseJson(str).value| == 1 ==>
      RawArguments(str) == Success(StripAll(Split(str, ',')))
    ensures ParseJson(str).Success? && |ParseJson(str).value| == 3 ==>
      var p := ParseJson(str).value;
      RawArguments(str) == Prepend(StripAll(Split(p[0], ',')) + [p[1]], RawArguments(p[2]))
  {
  }

  /** `split_arguments`, its recursion on the remaining text run as a loop pushing onto `args`. */
  method CollectArguments(str: string) returns (r: Result<seq<string>, OptionError>)
    ensures r == SplitArguments(str)
  {
    var args: seq<string> := [];
    var cur := str;
    PrependNothing(RawArguments(str));
    while true
      invariant Prepend(args, RawArguments(cur)) == RawArguments(str)
      decreases |cur|
    {
      var parts := RunParseJson(cur);
      RawArgumentsUnfold(cur);
      if parts.Failure? {
        return Failure(parts.error);
      }
      var head := StripAll(Split(parts.value[0], ','));
      if |parts.value| == 1 {
        args := args + head;
        return Success(NonEmpty(args));
      }
      PrependPrepend(args, head + [parts.value[1]], RawArguments(parts.value[2]));
      args := args + (head + [parts.value[1]]);
      cur := parts.value[2];
    }
  }

  /** An argument is a stripped comma-free field or a braced value ending in '}'. */
  predicate WellFormedArgument(a: string) {
    (',' !in a && (a == [] || (!IsSpace(a[0]) && !IsTrailingSpace(a[|a| - 1]))))
    || (|a| > 0 && a[|a| - 1] == '}')
  }

  /** The stripped comma-split fields are well-formed arguments. */
  lemma FieldsWellFormed(s: string)
    ensures forall i :: 0 <= i < |StripAll(Split(s, ','))| ==> WellFormedArgument(StripAll(Split(s, ','))[i])
  {
    var fields := Split(s, ',');
    SplitRoundTrip(s, ',');
    var head := StripAll(fields);
    forall i | 0 <= i < |head| ensures WellFormedArgument(head[i]) {
      var a, b := StripInfix(fields[i]);
      assert head[i] == fields[i][a..b];
      assert ',' !in fields[i];
      assert forall x :: x in head[i] ==> x in fields[i];
    }
  }

  /** The braced piece of a three-piece `parse_json` result is empty or ends with '}'. */
  lemma BracedPieceEnds(str: string)
    requires ParseJson(str).Success? && |ParseJson(str).value| == 3
    ensures var v := ParseJson(str).value[1]; v == "" || v[|v| - 1] == '}'
  {
    CutPieceEnds(str, BraceScan(str));
  }

  lemma CutPieceEnds(str: string, sc: Scan)
    requires sc.left.Some? ==> sc.left.value < |str|
    requires sc.right.Some? ==> sc.right.value < |str| && str[sc.right.value] == '}'
    requires Cut(str, sc).Success? && |Cut(str, sc).value| == 3
    ensures var v := Cut(str, sc).value[1]; v == "" || v[|v| - 1] == '}'
  {
    var k := FindKey(str, sc.left.value).value;
    var r := sc.right.value;
    if r >= k {
      assert str[k..r + 1][r - k] == str[r];
    }
  }

  predicate AllWellFormed(args: seq<string>) {
    forall i :: 0 <= i < |args| ==> WellFormedArgument(args[i])
  }

  lemma ConcatWellFormed(head: seq<string>, mid: string, rest: seq<string>)
    requires AllWellFormed(head) && WellFormedArgument(mid) && AllWellFormed(rest)
    ensures AllWellFormed(head + [mid] + rest)
  {
    var all := head + [mid] + rest;
    forall i | 0 <= i < |all| ensures WellFormedArgument(all[i]) {
      if i < |head| {
        assert all[i] == head[i];
      } else if i > |head| {
        assert all[i] == rest[i - |head| - 1];
      }
    }
  }

  lemma {:induction false} RawArgumentsWellFormed(str: string)
    requires RawArguments(str).Success?
    ensures AllWellFormed(RawArguments(str).value)
    decreases |str|
  {
    RawArgumentsUnfold(str);
    var parts := ParseJson(str).value;
    FieldsWellFormed(parts[0]);
    if |parts| == 3 {
      RawArgumentsWellFormed(parts[2]);
      BracedPieceEnds(str);
      assert WellFormedArgument(parts[1]);
      ConcatWellFormed(StripAll(Split(parts[0], ',')), parts[1], RawArguments(parts[2]).value);
    }
  }

  /** Every argument `split_arguments` yields is non-empty and a stripped field or a braced value. */
  lemma SplitArgumentsShape(str: string)
    requires SplitArguments(str).Success?
    ensures forall i :: 0 <= i < |SplitArguments(str).value| ==>
      SplitArguments(str).value[i] != "" && WellFormedArgument(SplitArguments(str).value[i])
  {
    RawArgumentsWellFormed(str);
  }

  /** Without a '{', `split_arguments` is the comma split, stripped, empties dropped. */
  lemma SplitArgumentsPlain(str: string)
    requires '{' !in str
    ensures SplitArguments(str) == Success(NonEmpty(StripAll(Split(str, ','))))
  {
    ParseJsonWhole(str);
  }

  // ---------------------------------------------------------------------
  // split_pairs
  // ---------------------------------------------------------------------

  /** A ':' at `i` that is not escaped by a preceding '\'. */
  predicate AssignColonAt(s: string, i: nat)
    requires i < |s|
  {
    s[i] == ':' && (i == 0 || s[i - 1] != '\\')
  }

  function AssignColonFrom(s: string, from: nat): (r: Option<nat>)
    ensures r.Some? ==> from <= r.value < |s| && AssignColonAt(s, r.value)
    ensures r.Some? ==> forall j :: from <= j < r.value ==> !AssignColonAt(s, j)
    ensures r.None? ==> forall j :: from <= j < |s| ==> !AssignColonAt(s, j)
    decreases |s| - from
  {
    if from >= |s| then None
    else if AssignColonAt(s, from) then Some(from)
    else AssignColonFrom(s, from + 1)
  }

  /**
   * `SPLIT_ASSIGN.match(pair)`: the lazy key runs to the first ':' not
   * preceded by '\', the value is the rest (lines without newlines).
   */
  function SplitAssign(s: string): (r: Option<(string, string)>)
    ensures r.Some? ==> r.value.0 + ":" + r.value.1 == s
    ensures r.Some? ==> forall j :: 0 <= j < |r.value.0| ==> !AssignColonAt(s, j)
    ensures r.None? <==> forall j :: 0 <= j < |s| ==> !AssignColonAt(s, j)
  {
    match AssignColonFrom(s, 0)
    case None => None
    case Some(i) =>
      assert s[..i] + ":" + s[i + 1..] == s by {
        assert s == s[..i] + [s[i]] + s[i + 1..];
      }
      Some((s[..i], s[i + 1..]))
  }

  /** The split happens at the first unescaped ':', whichever it is. */
  lemma SplitAssignAt(s: string, i: nat)
    requires i < |s| && AssignColonAt(s, i)
    requires forall j :: 0 <= j < i ==> !AssignColonAt(s, j)
    ensures SplitAssign(s) == Some((s[..i], s[i + 1..]))
  {
    var r := AssignColonFrom(s, 0);
    assert r.Some?;
  }

  /** A key without ':' and not ending in '\\', joined to any value by ':', splits back into the two. */
  lemma SplitAssignJoin(key: string, value: string)
    requires ':' !in key && (key == [] || key[|key| - 1] != '\\')
    ensures SplitAssign(key + ":" + value) == Some((key, value))
  {
    var s := key + ":" + value;
    assert s[|key|] == ':';
    assert forall j :: 0 <= j < |key| ==> s[j] == key[j];
    SplitAssignAt(s, |key|);
    assert s[..|key|] == key && s[|key| + 1..] == value;
  }

  /** A plain pair, and a pair whose URL value keeps its own ':' after the first. */
  lemma SplitAssignExamples()
    ensures SplitAssign("format:qcow2") == Some(("format", "qcow2"))
    ensures SplitAssign("url:http://x") == Some(("url", "http://x"))
  {
    var p := "format:qcow2";
    SplitAssignAt(p, 6);
    assert p[..6] == "format" && p[7..] == "qcow2";
    var u := "url:http://x";
    SplitAssignAt(u, 3);
    assert u[..3] == "url" && u[4..] == "http://x";
  }

  /** A ':' escaped by '\' belongs to the key; a pair with only escaped colons does not split. */
  lemma SplitAssignEscaped()
    ensures SplitAssign("a\\:b:c") == Some(("a\\:b", "c"))
    ensures SplitAssign("a\\:b") == None
  {
    var s := "a\\:b:c";
    SplitAssignAt(s, 4);
    assert s[..4] == "a\\:b" && s[5..] == "c";
  }

  predicate AllAssign(pairs: seq<string>) {
    forall i :: 0 <= i < |pairs| ==> SplitAssign(pairs[i]).Some?
  }

  function KeyOf(pair: string): string
    requires SplitAssign(pair).Some?
  {
    Strip(SplitAssign(pair).value.0)
  }

  function ValueOf(pair: string): string
    requires SplitAssign(pair).Some?
  {
    Strip(SplitAssign(pair).value.1)
  }

  /** `split_pairs(opts, name)`: `reduce({})` with `accum.update(key.strip => value.strip)`. */
  function SplitPairs(name: string, pairs: seq<string>): Result<map<string, string>, OptionError>
    decreases |pairs|
  {
    if pairs == [] then Success(map[])
    else match SplitPairs(name, pairs[..|pairs| - 1])
      case Failure(e) => Failure(e)
      case Success(m) =>
        match SplitAssign(pairs[|pairs| - 1])
        case None => Failure(InvalidFormat(name))
        case Some(kv) => Success(m[Strip(kv.0) := Strip(kv.1)])
  }

  /** `split_pairs` succeeds exactly when every element has an unescaped ':', and otherwise dies of the format. */
  lemma {:induction false} SplitPairsSucceeds(name: string, pairs: seq<string>)
    ensures SplitPairs(name, pairs).Success? <==> AllAssign(pairs)
    ensures SplitPairs(name, pairs).Failure? ==> SplitPairs(name, pairs).error == InvalidFormat(name)
    decreases |pairs|
  {
    if pairs != [] {
      var init := pairs[..|pairs| - 1];
      SplitPairsSucceeds(name, init);
      AllAssignSnoc(pairs);
    }
  }

  lemma AllAssignSnoc(pairs: seq<string>)
    requires pairs != []
    ensures AllAssign(pairs) <==> AllAssign(pairs[..|pairs| - 1]) && SplitAssign(pairs[|pairs| - 1]).Some?
  {
    var init := pairs[..|pairs| - 1];
    assert forall i :: 0 <= i < |init| ==> init[i] == pairs[i];
  }

  /**
   * When `split_pairs` succeeds its keys are the stripped keys, and each maps
   * to the stripped value of its last occurrence.
   */
  lemma SplitPairsMeaning(name: string, pairs: seq<string>)
    requires AllAssign(pairs)
    ensures SplitPairs(name, pairs).Success?
    ensures var m := SplitPairs(name, pairs).value;
      && (forall k :: k in m <==> exists i :: 0 <= i < |pairs| && KeyOf(pairs[i]) == k)
      && (forall i :: 0 <= i < |pairs| && LastOfKey(pairs, i) ==> m[KeyOf(pairs[i])] == ValueOf(pairs[i]))
  {
    SplitPairsKeys(name, pairs);
    SplitPairsLastWins(name, pairs);
  }

  lemma {:induction false} SplitPairsKeys(name: string, pairs: seq<string>)
    requires AllAssign(pairs)
    ensures SplitPairs(name, pairs).Success?
    ensures forall k :: k in SplitPairs(name, pairs).value <==> exists i :: 0 <= i < |pairs| && KeyOf(pairs[i]) == k
    decreases |pairs|
  {
    SplitPairsSucceeds(name, pairs);
    if pairs != [] {
      var init := pairs[..|pairs| - 1];
      var last := pairs[|pairs| - 1];
      SplitPairsSnoc(name, pairs);
      SplitPairsKeys(name, init);
      var m := SplitPairs(name, pairs).value;
      forall k ensures k in m <==> exists i :: 0 <= i < |pairs| && KeyOf(pairs[i]) == k {
        if k in m && k != KeyOf(last) {
          var i :| 0 <= i < |init| && KeyOf(init[i]) == k;
          assert KeyOf(pairs[i]) == k;
        }
        if k == KeyOf(last) {
          assert KeyOf(pairs[|pairs| - 1]) == k;
        }
        if exists i :: 0 <= i < |pairs| && KeyOf(pairs[i]) == k {
          var i :| 0 <= i < |pairs| && KeyOf(pairs[i]) == k;
          if i < |init| {
            assert KeyOf(init[i]) == k;
          }
        }
      }
    }
  }

  /** No pair after the `i`th one has the same key. */
  predicate LastOfKey(pairs: seq<string>, i: nat)
    requires AllAssign(pairs) && i < |pairs|
  {
    forall j :: i < j < |pairs| ==> KeyOf(pairs[j]) != KeyOf(pairs[i])
  }

  /** The stripped key/value of each pair, in order. */
  function KeyValues(pairs: seq<string>): (r: seq<(string, string)>)
    requires AllAssign(pairs)
    ensures |r| == |pairs| && forall i :: 0 <= i < |pairs| ==> r[i] == (KeyOf(pairs[i]), ValueOf(pairs[i]))
  {
    seq(|pairs|, i requires 0 <= i < |pairs| => (KeyOf(pairs[i]), ValueOf(pairs[i])))
  }

  /** Successive hash updates with `kvs`, left to right. */
  function Updated(kvs: seq<(string, string)>): map<string, string> {
    if kvs == [] then map[] else Updated(kvs[..|kvs| - 1])[kvs[|kvs| - 1].0 := kvs[|kvs| - 1].1]
  }

  lemma {:induction false} UpdatedLastWins(kvs: seq<(string, string)>, i: nat)
    requires i < |kvs| && forall j :: i < j < |kvs| ==> kvs[j].0 != kvs[i].0
    ensures kvs[i].0 in Updated(kvs) && Updated(kvs)[kvs[i].0] == kvs[i].1
    decreases |kvs|
  {
    if i < |kvs| - 1 {
      var init := kvs[..|kvs| - 1];
      assert init[i] == kvs[i];
      assert forall j :: i < j < |init| ==> init[j] == kvs[j];
      UpdatedLastWins(init, i);
    }
  }

  lemma {:induction false} SplitPairsUpdates(name: string, pairs: seq<string>)
    requires AllAssign(pairs)
    ensures SplitPairs(name, pairs) == Success(Updated(KeyValues(pairs)))
    decreases |pairs|
  {
    if pairs != [] {
      SplitPairsSnoc(name, pairs);
      var init := pairs[..|pairs| - 1];
      var last := pairs[|pairs| - 1];
      SplitPairsUpdates(name, init);
      var kvs := KeyValues(pairs);
      KeyValuesInit(pairs);
      assert kvs[|kvs| - 1] == (KeyOf(last), ValueOf(last));
      assert Updated(kvs) == Updated(KeyValues(init))[KeyOf(last) := ValueOf(last)];
    }
  }

  lemma KeyValuesInit(pairs: seq<string>)
    requires pairs != [] && AllAssign(pairs)
    ensures AllAssign(pairs[..|pairs| - 1])
    ensures KeyValues(pairs)[..|pairs| - 1] == KeyValues(pairs[..|pairs| - 1])
  {
    AllAssignSnoc(pairs);
  }

  lemma SplitPairsLastWins(name: string, pairs: seq<string>)
    requires AllAssign(pairs)
    ensures SplitPairs(name, pairs).Success?
    ensures forall i :: 0 <= i < |pairs| && LastOfKey(pairs, i) ==>
      (KeyOf(pairs[i]) in SplitPairs(name, pairs).value
       && SplitPairs(name, pairs).value[KeyOf(pairs[i])] == ValueOf(pairs[i]))
  {
    SplitPairsUpdates(name, pairs);
    var kvs := KeyValues(pairs);
    forall i | 0 <= i < |pairs| && LastOfKey(pairs, i)
      ensures KeyOf(pairs[i]) in Updated(kvs) && Updated(kvs)[KeyOf(pairs[i])] == ValueOf(pairs[i])
    {
      UpdatedLastWins(kvs, i);
    }
  }

  /** The last pair of a well-formed list is written over what the ones before it built. */
  lemma SplitPairsSnoc(name: string, pairs: seq<string>)
    requires pairs != [] && AllAssign(pairs)
    ensures AllAssign(pairs[..|pairs| - 1])
    ensures forall i :: 0 <= i < |pairs| - 1 ==> pairs[..|pairs| - 1][i] == pairs[i]
    ensures SplitPairs(name, pairs[..|pairs| - 1]).Success? && SplitPairs(name, pairs).Success?
    ensures SplitPairs(name, pairs).value
      == SplitPairs(name, pairs[..|pairs| - 1]).value[KeyOf(pairs[|pairs| - 1]) := ValueOf(pairs[|pairs| - 1])]
  {
    AllAssignSnoc(pairs);
    SplitPairsSucceeds(name, pairs[..|pairs| - 1]);
  }

  /** A later pair with the same key overrides an earlier one. */
  lemma SplitPairsLaterKeyWins(name: string, p1: string, p2: string, key: string, v1: string, v2: string)
    requires SplitAssign(p1) == Some((key, v1)) && SplitAssign(p2) == Some((key, v2))
    requires Strip(key) == key && Strip(v1) == v1 && Strip(v2) == v2
    ensures SplitPairs(name, [p1, p2]) == Success(map[key := v2])
  {
    assert [p1, p2][..1] == [p1] && [p1][..0] == [];
    assert SplitPairs(name, [p1]) == Success(map[key := v1]);
    assert SplitPairs(name, [p1, p2]) == Success(map[key := v1][key := v2]);
    assert map[key := v1][key := v2] == map[key := v2];
  }

  lemma SplitPairsFormatExample()
    ensures SplitPairs("os_config", ["format:qcow2", "format:raw"]) == Success(map["format" := "raw"])
  {
    FormatWordsStripped();
    FormatPairsSplit();
    SplitPairsLaterKeyWins("os_config", "format:qcow2", "format:raw", "format", "qcow2", "raw");
  }

  lemma FormatWordsStripped()
    ensures Strip("format") == "format" && Strip("qcow2") == "qcow2" && Strip("raw") == "raw"
  {
    StripUnpadded("format");
    StripUnpadded("qcow2");
    StripUnpadded("raw");
  }

  lemma FormatPairsSplit()
    ensures SplitAssign("format:qcow2") == Some(("format", "qcow2"))
    ensures SplitAssign("format:raw") == Some(("format", "raw"))
  {
    SplitAssignJoin("format", "qcow2");
    SplitAssignJoin("format", "raw");
    assert "format" + ":" + "qcow2" == "format:qcow2" && "format" + ":" + "raw" == "format:raw";
  }

  /** A pair without ':' makes `split_pairs` die, whatever came before it. */
  lemma SplitPairsRejectsBareWord()
    ensures SplitPairs("os_config", ["format:qcow2", "noformat"]) == Failure(InvalidFormat("os_config"))
  {
    var bad := ["format:qcow2", "noformat"];
    assert !AllAssign(bad) by {
      assert SplitAssign(bad[1]).None?;
    }
    SplitPairsSucceeds("os_config", bad);
  }

  // ---------------------------------------------------------------------
  // The option hash and its in-place validation and normalisation
  // ---------------------------------------------------------------------

  datatype OptValue =
    | NilV
    | BoolV(b: bool)
    | StrV(s: string)
    | SymV(name: string)
    | ArrayV(items: seq<string>)
    | HashV(pairs: map<string, string>)

  predicate Truthy(v: OptValue) {
    !v.NilV? && v != BoolV(false)
  }

  /** `opts[k]`: nil for an absent key. */
  function Lookup(m: map<string, OptValue>, k: string): OptValue {
    if k in m then m[k] else NilV
  }

  const LogLevels: seq<string> := ["debug", "trace"]
  const SubconfigNames: seq<string> := ["os_config", "platform_config", "delivery_config"]
  /** The `tail => head` pairs `parse_opts` passes to `validate_directed_dependencies`. */
  const Dependencies: seq<(string, string)> := [("platform_config", "platform"), ("delivery_config", "delivery")]

  /** `validate_directed_dependencies`: the first `tail` given without its `head` dies. */
  function DirectedDependencies(m: map<string, OptValue>, deps: seq<(string, string)>): Outcome<OptionError>
    decreases |deps|
  {
    if deps == [] then Pass
    else if Truthy(Lookup(m, deps[0].0)) && !Truthy(Lookup(m, deps[0].1)) then
      Fail(MissingDependency(deps[0].0, deps[0].1))
    else DirectedDependencies(m, deps[1..])
  }

  lemma {:induction false} DirectedDependenciesMeaning(m: map<string, OptValue>, deps: seq<(string, string)>)
    ensures DirectedDependencies(m, deps).Pass? <==>
      forall i :: 0 <= i < |deps| && Truthy(Lookup(m, deps[i].0)) ==> Truthy(Lookup(m, deps[i].1))
    ensures DirectedDependencies(m, deps).Fail? ==>
      exists i :: 0 <= i < |deps| && DirectedDependencies(m, deps).error == MissingDependency(deps[i].0, deps[i].1)
        && Truthy(Lookup(m, deps[i].0)) && !Truthy(Lookup(m, deps[i].1))
        && forall j :: 0 <= j < i && Truthy(Lookup(m, deps[j].0)) ==> Truthy(Lookup(m, deps[j].1))
    decreases |deps|
  {
    if deps != [] {
      DirectedDependenciesMeaning(m, deps[1..]);
      assert forall i :: 1 <= i < |deps| ==> deps[i] == deps[1..][i - 1];
      if DirectedDependencies(m, deps).Fail? && !(Truthy(Lookup(m, deps[0].0)) && !Truthy(Lookup(m, deps[0].1))) {
        var i :| 0 <= i < |deps[1..]| && DirectedDependencies(m, deps[1..]).error == MissingDependency(deps[1..][i].0, deps[1..][i].1)
          && Truthy(Lookup(m, deps[1..][i].0)) && !Truthy(Lookup(m, deps[1..][i].1))
          && forall j :: 0 <= j < i && Truthy(Lookup(m, deps[1..][j].0)) ==> Truthy(Lookup(m, deps[1..][j].1));
        assert deps[i + 1] == deps[1..][i];
      }
    }
  }

  /** `validate_logging` over `levels`: each set level writes `:log_level`, so the last one wins. */
  function SetLogLevel(m: map<string, OptValue>, levels: seq<string>): map<string, OptValue>
    decreases |levels|
  {
    if levels == [] then m
    else SetLogLevel(if Truthy(Lookup(m, levels[0])) then m["log_level" := SymV(levels[0])] else m, levels[1..])
  }

  /** `--trace` wins over `--debug`; without either the hash is unchanged. */
  lemma LogLevelChoice(m: map<string, OptValue>)
    ensures var r := SetLogLevel(m, LogLevels);
      && (Truthy(Lookup(m, "trace")) ==> r == m["log_level" := SymV("trace")])
      && (!Truthy(Lookup(m, "trace")) && Truthy(Lookup(m, "debug")) ==> r == m["log_level" := SymV("debug")])
      && (!Truthy(Lookup(m, "trace")) && !Truthy(Lookup(m, "debug")) ==> r == m)
  {
    var m1 := if Truthy(Lookup(m, "debug")) then m["log_level" := SymV("debug")] else m;
    assert Lookup(m1, "trace") == Lookup(m, "trace");
    assert LogLevels[1..] == ["trace"];
    if Truthy(Lookup(m, "trace")) {
      assert m1["log_level" := SymV("trace")] == m["log_level" := SymV("trace")];
    }
  }

  /** One configuration option: joined, split into arguments, then into a key/value hash. */
  function ParseSubconfig(m: map<string, OptValue>, config: string): Result<map<string, OptValue>, OptionError> {
    if !Truthy(Lookup(m, config)) then Success(m)
    else match m[config]
      case ArrayV(items) =>
        (match SplitArguments(Join(items, ""))
         case Failure(e) => Failure(e)
         case Success(args) =>
           match SplitPairs(config, args)
           case Failure(e) => Failure(e)
           case Success(pairs) => Success(m[config := HashV(pairs)]))
      case _ => Failure(NotAnArray(config))
  }

  /** The outcome of `ParseSubconfig`, case by case, in the order the checks are made. */
  lemma ParseSubconfigCases(m: map<string, OptValue>, config: string, args: Result<seq<string>, OptionError>)
    requires Truthy(Lookup(m, config)) && m[config].ArrayV? && args == SplitArguments(Join(m[config].items, ""))
    ensures args.Failure? ==> ParseSubconfig(m, config) == Failure(args.error)
    ensures args.Success? && SplitPairs(config, args.value).Failure? ==>
      ParseSubconfig(m, config) == Failure(SplitPairs(config, args.value).error)
    ensures args.Success? && SplitPairs(config, args.value).Success? ==>
      ParseSubconfig(m, config) == Success(m[config := HashV(SplitPairs(config, args.value).value)])
  {
  }

  /**
   * One option parsed: the keys stay the same, only that option's value can
   * change, a set option becomes a hash and an unset one is left alone.
   */
  lemma ParseSubconfigFrame(m: map<string, OptValue>, config: string)
    requires ParseSubconfig(m, config).Success?
    ensures var r := ParseSubconfig(m, config).value;
      && r.Keys == m.Keys
      && (forall k :: k in m && k != config ==> r[k] == m[k])
      && (Truthy(Lookup(m, config)) ==> r[config].HashV?)
      && (!Truthy(Lookup(m, config)) ==> r == m)
  {
  }

  /** `validate_subconfig` over `configs`, in order, dying at the first failure. */
  function Subconfigs(m: map<string, OptValue>, configs: seq<string>): Result<map<string, OptValue>, OptionError>
    decreases |configs|
  {
    if configs == [] then Success(m)
    else match ParseSubconfig(m, configs[0])
      case Failure(e) => Failure(e)
      case Success(m1) => Subconfigs(m1, configs[1..])
  }

  /** After `validate_subconfig`, each given configuration is a hash and nothing else changed. */
  lemma {:induction false} SubconfigsMeaning(m: map<string, OptValue>, configs: seq<string>)
    requires Subconfigs(m, configs).Success?
    ensures var r := Subconfigs(m, configs).value;
      && r.Keys == m.Keys
      && (forall c :: c in configs && Truthy(Lookup(m, c)) ==> r[c].HashV?)
      && (forall k :: k in m && k !in configs ==> r[k] == m[k])
      && (forall c :: c in configs && !Truthy(Lookup(m, c)) ==> Lookup(r, c) == Lookup(m, c))
    decreases |configs|
  {
    if configs != [] {
      var m1 := ParseSubconfig(m, configs[0]).value;
      ParseSubconfigFrame(m, configs[0]);
      SubconfigsMeaning(m1, configs[1..]);
      var r := Subconfigs(m, configs).value;
      forall c | c in configs && Truthy(Lookup(m, c)) ensures r[c].HashV? {
        if c != configs[0] {
          assert c in configs[1..];
          assert Lookup(m1, c) == Lookup(m, c);
        } else if c in configs[1..] {
          assert Truthy(Lookup(m1, c));
        }
      }
      forall c | c in configs && !Truthy(Lookup(m, c)) ensures Lookup(r, c) == Lookup(m, c) {
        if c != configs[0] {
          assert c in configs[1..];
        }
      }
    }
  }

  /** The blocks `cast` is called with. */
  datatype CastKind = HashDefault | ArrayDefault | SymbolCast

  /** The block of `default_hash` (`v || {}`), `default_array` (`v || []`) or `as_symbol` (`v && v.to_sym`). */
  function CastBlock(kind: CastKind, v: OptValue): OptValue {
    match kind
    case HashDefault => if Truthy(v) then v else HashV(map[])
    case ArrayDefault => if Truthy(v) then v else ArrayV([])
    case SymbolCast =>
      if !Truthy(v) then v
      else match v
        case StrV(s) => SymV(s)
        case _ => v
  }

  /**
   * `cast` as written: the block parameter `(k, v)` destructures a bare
   * symbol, so `v` is always nil and the block never sees the stored value.
   */
  function CastAsWritten(m: map<string, OptValue>, params: seq<string>, kind: CastKind): map<string, OptValue>
    decreases |params|
  {
    if params == [] then m
    else CastAsWritten(m[params[0] := CastBlock(kind, NilV)], params[1..], kind)
  }

  /** `cast` as intended: the block sees `opts[k]`. */
  function CastIntended(m: map<string, OptValue>, params: seq<string>, kind: CastKind): map<string, OptValue>
    decreases |params|
  {
    if params == [] then m
    else CastIntended(m[params[0] := CastBlock(kind, Lookup(m, params[0]))], params[1..], kind)
  }

  /** As written, every listed key ends up `{}`, `[]` or nil, whatever it held. */
  lemma {:induction false} CastAsWrittenWipes(m: map<string, OptValue>, params: seq<string>, kind: CastKind)
    ensures var r := CastAsWritten(m, params, kind);
      && (forall k :: k in params ==> k in r && r[k] == CastBlock(kind, NilV))
      && (forall k :: k !in params ==> (k in r <==> k in m) && (k in m ==> r[k] == m[k]))
    decreases |params|
  {
    if params != [] {
      CastAsWrittenWipes(m[params[0] := CastBlock(kind, NilV)], params[1..], kind);
    }
  }

  /** A parsed `--os-config` hash is replaced by `{}` by `default_hash` as written. */
  lemma CastAsWrittenLosesConfig()
    ensures var m := map["os_config" := HashV(map["format" := "qcow2"])];
      CastAsWritten(m, SubconfigNames, HashDefault)["os_config"] == HashV(map[])
  {
    var m := map["os_config" := HashV(map["format" := "qcow2"])];
    CastAsWrittenWipes(m, SubconfigNames, HashDefault);
  }

  lemma CastBlockIdempotent(kind: CastKind, v: OptValue)
    ensures CastBlock(kind, CastBlock(kind, v)) == CastBlock(kind, v)
  {
  }

  /** As intended, each listed key keeps a set value and only unset ones get the default. */
  lemma {:induction false} CastIntendedKeeps(m: map<string, OptValue>, params: seq<string>, kind: CastKind)
    ensures var r := CastIntended(m, params, kind);
      && (forall k :: k in params ==> k in r && r[k] == CastBlock(kind, Lookup(m, k)))
      && (forall k :: k !in params ==> (k in r <==> k in m) && (k in m ==> r[k] == m[k]))
    decreases |params|
  {
    if params != [] {
      var k0 := params[0];
      var m1 := m[k0 := CastBlock(kind, Lookup(m, k0))];
      CastIntendedKeeps(m1, params[1..], kind);
      forall k | k in params ensures k in CastIntended(m, params, kind)
        && CastIntended(m, params, kind)[k] == CastBlock(kind, Lookup(m, k)) {
        if k == k0 && k in params[1..] {
          CastBlockIdempotent(kind, Lookup(m, k0));
        }
      }
    }
  }

  /** As intended, a parsed `--os-config` hash survives `default_hash`. */
  lemma CastIntendedKeepsConfig()
    ensures var m := map["os_config" := HashV(map["format" := "qcow2"])];
      CastIntended(m, SubconfigNames, HashDefault)["os_config"] == HashV(map["format" := "qcow2"])
  {
    var m := map["os_config" := HashV(map["format" := "qcow2"])];
    CastIntendedKeeps(m, SubconfigNames, HashDefault);
  }

  /** `internal_rename` with one alias: `hash[to] = hash[from]; hash.delete(from)`. */
  function Renamed(m: map<string, OptValue>, from: string, to: string): map<string, OptValue> {
    m[to := Lookup(m, from)] - {from}
  }

  /** The value moves to the new name and the old name disappears; renaming a key to itself deletes it. */
  lemma RenameMoves(m: map<string, OptValue>, from: string, to: string)
    ensures from !in Renamed(m, from, to)
    ensures from != to ==> to in Renamed(m, from, to) && Renamed(m, from, to)[to] == Lookup(m, from)
    ensures forall k :: k != from && k != to ==> Lookup(Renamed(m, from, to), k) == Lookup(m, k)
  {
  }

  /** The option hash `parse_opts` builds and rewrites in place. */
  class Options {
    var entries: map<string, OptValue>

    constructor (entries: map<string, OptValue>)
      ensures this.entries == entries
    {
      this.entries := entries;
    }

    /** `validate_logging(opts)`. */
    method ValidateLogging()
      modifies this
      ensures entries == SetLogLevel(old(entries), LogLevels)
    {
      var i := 0;
      while i < |LogLevels|
        invariant 0 <= i <= |LogLevels|
        invariant SetLogLevel(old(entries), LogLevels) == SetLogLevel(entries, LogLevels[i..])
      {
        var l := LogLevels[i];
        assert LogLevels[i..][1..] == LogLevels[i + 1..];
        if Truthy(Lookup(entries, l)) {
          entries := entries["log_level" := SymV(l)];
        }
        i := i + 1;
      }
    }

    /** `validate_subconfig(opts)`: a die ends the program, so the hash is then not described. */
    method ValidateSubconfig() returns (out: Outcome<OptionError>)
      modifies this
      ensures out.Pass? <==> Subconfigs(old(entries), SubconfigNames).Success?
      ensures out.Pass? ==> entries == Subconfigs(old(entries), SubconfigNames).value
    {
      out := ValidateConfigs(SubconfigNames);
    }

    /** The loop of `validate_subconfig`, over the configuration options `configs`. */
    method ValidateConfigs(configs: seq<string>) returns (out: Outcome<OptionError>)
      modifies this
      ensures out.Pass? <==> Subconfigs(old(entries), configs).Success?
      ensures out.Pass? ==> entries == Subconfigs(old(entries), configs).value
    {
      var i := 0;
      while i < |configs|
        invariant 0 <= i <= |configs|
        invariant Subconfigs(old(entries), configs) == Subconfigs(entries, configs[i..])
      {
        assert configs[i..][0] == configs[i] && configs[i..][1..] == configs[i + 1..];
        out := ParseConfig(configs[i]);
        if out.Fail? {
          return;
        }
        i := i + 1;
      }
      return Pass;
    }

    /** The body of that loop for one option: a set value must be an array, whose text is split into arguments and then into pairs. */
    method ParseConfig(config: string) returns (out: Outcome<OptionError>)
      modifies this
      ensures out.Pass? <==> ParseSubconfig(old(entries), config).Success?
      ensures out.Pass? ==> entries == ParseSubconfig(old(entries), config).value
    {
      var value := Lookup(entries, config);
      if !Truthy(value) {
        return Pass;
      }
      if !value.ArrayV? {
        return Fail(NotAnArray(config));
      }
      out := ParseArray(config);
    }

    /** A set array value: its joined text is split into arguments, stored, then split into pairs and stored. */
    method ParseArray(config: string) returns (out: Outcome<OptionError>)
      requires Truthy(Lookup(entries, config)) && entries[config].ArrayV?
      modifies this
      ensures out.Pass? <==> ParseSubconfig(old(entries), config).Success?
      ensures out.Pass? ==> entries == ParseSubconfig(old(entries), config).value
    {
      var args := CollectArguments(Join(entries[config].items, ""));
      ParseSubconfigCases(entries, config, args);
      if args.Failure? {
        return Fail(args.error);
      }
      out := StorePairs(config, args.value);
    }

    /** The arguments are stored under the key, then replaced by their pairs when those split. */
    method StorePairs(config: string, args: seq<string>) returns (out: Outcome<OptionError>)
      modifies this
      ensures out.Pass? <==> SplitPairs(config, args).Success?
      ensures out.Fail? ==> out.error == SplitPairs(config, args).error
      ensures out.Pass? ==> entries == old(entries)[config := HashV(SplitPairs(config, args).value)]
    {
      entries := entries[config := ArrayV(args)];
      var pairs := SplitPairs(config, args);
      if pairs.Failure? {
        return Fail(pairs.error);
      }
      entries := entries[config := HashV(pairs.value)];
      return Pass;
    }

    /**
     * `cast(params, opts) { ... }` for the block `kind`, with the block given
     * the stored value `opts[k]` as evidently intended; `CastAsWritten` is
     * what the source's destructuring does instead.
     */
    method Cast(params: seq<string>, kind: CastKind)
      modifies this
      ensures entries == CastIntended(old(entries), params, kind)
    {
      var i := 0;
      while i < |params|
        invariant 0 <= i <= |params|
        invariant CastIntended(old(entries), params, kind) == CastIntended(entries, params[i..], kind)
      {
        assert params[i..][1..] == params[i + 1..];
        var v := Lookup(entries, params[i]);
        entries := entries[params[i] := CastBlock(kind, v)];
        i := i + 1;
      }
    }

    method DefaultHash(params: seq<string>)
      modifies this
      ensures entries == CastIntended(old(entries), params, HashDefault)
    {
      Cast(params, HashDefault);
    }

    method DefaultArray(params: seq<string>)
      modifies this
      ensures entries == CastIntended(old(entries), params, ArrayDefault)
    {
      Cast(params, ArrayDefault);
    }

    method AsSymbol(params: seq<string>)
      modifies this
      ensures entries == CastIntended(old(entries), params, SymbolCast)
    {
      Cast(params, SymbolCast);
    }

    /** `internal_rename(opts, from => to)`. */
    method InternalRename(from: string, to: string)
      modifies this
      ensures entries == Renamed(old(entries), from, to)
    {
      entries := entries[to := Lookup(entries, from)];
      entries := entries - {from};
    }
  }
}
