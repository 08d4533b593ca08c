/**
 * `CommandHelper`: turns an option hash into command-line flags
 * (`hash_to_command`, `build_substr`) and parses an `a=b&c=d` argument string
 * back into a hash (`command_to_hash`, `build_submap`).
 *
 * Hash keys are modelled by their `to_s` form.  `Escape::shell_single_word`
 * belongs to a library outside this model and is the parameter `quote`.
 */
module CommandHelper {
  import opened Wrappers
  import opened Strings

  /** A value in an option hash: nil, true, any other object (by its `to_s`), or a nested hash in order. */
  datatype CmdValue = Nil | True | Scalar(text: string) | Hash(entries: seq<(string, CmdValue)>)

  /** `ArgumentError "Depth exhausted subdivider/splitter characters."` */
  datatype CmdError = DepthExhausted

  /** The contents of the two delimiter arrays, which every nested hash shifts. */
  datatype Delims = Delims(eqls: seq<string>, subdivs: seq<string>)

  /** The number of nested hashes a fresh call can still render. */
  function Depth(d: Delims): nat {
    if |d.eqls| <= |d.subdivs| then |d.eqls| else |d.subdivs|
  }

  /** The arrays after `n` shifts. */
  function Shift(d: Delims, n: nat): Delims
    requires n <= Depth(d)
  {
    Delims(d.eqls[n..], d.subdivs[n..])
  }

  /** The flag for a key: one dash for a one-character key, two otherwise. */
  function Flag(key: string): string {
    if |key| == 1 then " -" + key else " --" + key
  }

  lemma FlagDashes(key: string)
    ensures Flag(key) == " -" + key <==> |key| == 1
    ensures Flag(key) == " --" + key <==> |key| != 1
    ensures Flag(key)[|Flag(key)| - |key|..] == key
  {
    if |key| != 1 {
      assert |" --" + key| != |" -" + key|;
    } else {
      assert |" --" + key| != |" -" + key|;
    }
  }

  /** What `build_substr` produced (nil for no text) and the arrays after it, which it may have shifted before raising. */
  datatype Sub = Sub(out: Result<Option<string>, CmdError>, after: Delims)

  /** The rendered entries of a nested hash and the arrays after them. */
  datatype Pieces = Pieces(out: Result<seq<string>, CmdError>, after: Delims)

  function Width(v: CmdValue): nat {
    if v.Hash? then |v.entries| + 1 else 0
  }

  /**
   * `build_substr("", value, eqls, subdivs)`: nil and true give no text,
   * a scalar gives its quoted form, and a hash shifts one delimiter pair and
   * joins its rendered entries with the subdivider.
   */
  function Substr(v: CmdValue, d: Delims, quote: string -> string): Sub
    decreases v, Width(v)
  {
    match v
    case Nil => Sub(Success(None), d)
    case True => Sub(Success(None), d)
    case Scalar(t) => Sub(Success(Some(quote(t))), d)
    case Hash(entries) =>
      if d.eqls == [] || d.subdivs == [] then Sub(Failure(DepthExhausted), d)
      else
        var p := Entries(v, 0, d.eqls[0], Delims(d.eqls[1..], d.subdivs[1..]), quote);
        match p.out
        case Failure(e) => Sub(Failure(e), p.after)
        case Success(pieces) => Sub(Success(Some(Join(pieces, d.subdivs[0]))), p.after)
  }

  /** The entries of hash `h` from index `i` on, each "k<eql><text>" or, without text, "k". */
  function Entries(h: CmdValue, i: nat, eql: string, d: Delims, quote: string -> string): Pieces
    requires h.Hash? && i <= |h.entries|
    decreases h, |h.entries| - i
  {
    if i == |h.entries| then Pieces(Success([]), d)
    else
      var s := Substr(h.entries[i].1, d, quote);
      match s.out
      case Failure(e) => Pieces(Failure(e), s.after)
      case Success(text) =>
        var piece := if text.Some? then h.entries[i].0 + eql + text.value else h.entries[i].0;
        PrependPieces([piece], Entries(h, i + 1, eql, s.after, quote))
  }

  /** `pieces` in front of the entries `p` renders, if it renders them. */
  function PrependPieces(pieces: seq<string>, p: Pieces): Pieces {
    Pieces(Prepend(pieces, p.out), p.after)
  }

  /** The number of hashes in a value, itself included: how many delimiter pairs rendering it shifts. */
  function HashCount(v: CmdValue): nat
    decreases v, Width(v)
  {
    if v.Hash? then 1 + EntriesHashCount(v, 0) else 0
  }

  function EntriesHashCount(h: CmdValue, i: nat): nat
    requires h.Hash? && i <= |h.entries|
    decreases h, |h.entries| - i
  {
    if i == |h.entries| then 0 else HashCount(h.entries[i].1) + EntriesHashCount(h, i + 1)
  }

  /**
   * A value renders iff it holds no more hashes than there are delimiter
   * pairs left, and rendering it shifts exactly one pair per hash.
   */
  lemma {:induction false} SubstrShifts(v: CmdValue, d: Delims, quote: string -> string)
    ensures Substr(v, d, quote).out.Success? <==> HashCount(v) <= Depth(d)
    ensures Substr(v, d, quote).out.Success? ==> Substr(v, d, quote).after == Shift(d, HashCount(v))
    decreases v, Width(v)
  {
    if v.Hash? && d.eqls != [] && d.subdivs != [] {
      var rest := Delims(d.eqls[1..], d.subdivs[1..]);
      EntriesShift(v, 0, d.eqls[0], rest, quote);
      assert Depth(rest) == Depth(d) - 1;
      if HashCount(v) <= Depth(d) {
        assert rest.eqls[EntriesHashCount(v, 0)..] == d.eqls[HashCount(v)..];
        assert rest.subdivs[EntriesHashCount(v, 0)..] == d.subdivs[HashCount(v)..];
      }
    }
  }

  lemma {:induction false} EntriesShift(h: CmdValue, i: nat, eql: string, d: Delims, quote: string -> string)
    requires h.Hash? && i <= |h.entries|
    ensures Entries(h, i, eql, d, quote).out.Success? <==> EntriesHashCount(h, i) <= Depth(d)
    ensures Entries(h, i, eql, d, quote).out.Success? ==>
              Entries(h, i, eql, d, quote).after == Shift(d, EntriesHashCount(h, i))
    decreases h, |h.entries| - i
  {
    if i < |h.entries| {
      var v := h.entries[i].1;
      SubstrShifts(v, d, quote);
      var s := Substr(v, d, quote);
      if s.out.Success? {
        var n := HashCount(v);
        assert Depth(s.after) == Depth(d) - n;
        EntriesShift(h, i + 1, eql, s.after, quote);
        var m := EntriesHashCount(h, i + 1);
        if m <= Depth(s.after) {
          assert s.after.eqls[m..] == d.eqls[n + m..];
          assert s.after.subdivs[m..] == d.subdivs[n + m..];
        }
      }
    }
  }

  /** What `hash_to_command` appends (up to the raise, if any), the error it raises, and the arrays after it. */
  datatype Rendered = Rendered(text: string, error: Option<CmdError>, after: Delims)

  /**
   * The text `hash_to_command` appends for `args`, in hash order: each key's
   * flag, then, when the value renders to text, a space and that text.
   */
  function Render(args: seq<(string, CmdValue)>, d: Delims, quote: string -> string): Rendered
    decreases |args|
  {
    if args == [] then Rendered("", None, d)
    else
      var flag := Flag(args[0].0);
      var s := Substr(args[0].1, d, quote);
      match s.out
      case Failure(e) => Rendered(flag, Some(e), s.after)
      case Success(text) =>
        Then(flag + Tail(text), Render(args[1..], s.after, quote))
  }

  /** The delimiter arrays `hash_to_command` uses by default. */
  const CommandDelims: Delims := Delims([":", "="], [",", "&"])

  /** A nil or true value contributes its flag alone; any other scalar a space and its quoted text. */
  lemma RenderScalars(key: string, t: string, d: Delims, quote: string -> string)
    ensures Render([(key, Nil)], d, quote) == Rendered(Flag(key), None, d)
    ensures Render([(key, True)], d, quote) == Rendered(Flag(key), None, d)
    ensures Render([(key, Scalar(t))], d, quote) == Rendered(Flag(key) + " " + quote(t), None, d)
  {
    assert [(key, Nil)][1..] == [];
    assert [(key, True)][1..] == [];
    assert [(key, Scalar(t))][1..] == [];
  }

  /** The entries of a flat hash with a scalar and a nil value, rendered with ':' and the arrays left alone. */
  lemma FlatHashEntries(k1: string, t: string, k2: string, d: Delims, quote: string -> string)
    ensures Entries(Hash([(k1, Scalar(t)), (k2, Nil)]), 0, ":", d, quote)
         == Pieces(Success([k1 + ":" + quote(t), k2]), d)
  {
    var h := Hash([(k1, Scalar(t)), (k2, Nil)]);
    assert Entries(h, 2, ":", d, quote) == Pieces(Success([]), d);
    assert [k2] + [] == [k2];
    assert Entries(h, 1, ":", d, quote) == Pieces(Success([k2]), d);
    assert [k1 + ":" + quote(t)] + [k2] == [k1 + ":" + quote(t), k2];
  }

  /** A flat hash value takes ',' and ':' first: "k1:<quoted v>,k2" for a scalar and a nil entry. */
  lemma RenderFlatHash(key: string, k1: string, t: string, k2: string, quote: string -> string)
    ensures Render([(key, Hash([(k1, Scalar(t)), (k2, Nil)]))], CommandDelims, quote)
         == Rendered(Flag(key) + " " + k1 + ":" + quote(t) + "," + k2, None, Delims(["="], ["&"]))
  {
    var h := Hash([(k1, Scalar(t)), (k2, Nil)]);
    var rest := Delims(["="], ["&"]);
    FlatHashEntries(k1, t, k2, rest, quote);
    assert Join([k1 + ":" + quote(t), k2], ",") == k1 + ":" + quote(t) + "," + k2;
    assert Substr(h, CommandDelims, quote) == Sub(Success(Some(k1 + ":" + quote(t) + "," + k2)), rest);
    assert [(key, h)][1..] == [];
  }

  /** An empty hash renders as "" and takes one delimiter pair; with none left it raises. */
  lemma EmptyHashSubstr(d: Delims, quote: string -> string)
    ensures d.eqls != [] && d.subdivs != [] ==>
      Substr(Hash([]), d, quote) == Sub(Success(Some("")), Delims(d.eqls[1..], d.subdivs[1..]))
    ensures d.eqls == [] || d.subdivs == [] ==> Substr(Hash([]), d, quote) == Sub(Failure(DepthExhausted), d)
  {
    if d.eqls != [] && d.subdivs != [] {
      var rest := Delims(d.eqls[1..], d.subdivs[1..]);
      assert Entries(Hash([]), 0, d.eqls[0], rest, quote) == Pieces(Success([]), rest);
    }
  }

  /** A leading empty-hash value adds its flag and a space, and the rest renders with one pair fewer. */
  lemma RenderEmptyHashFirst(key: string, rest: seq<(string, CmdValue)>, d: Delims, quote: string -> string)
    requires d.eqls != [] && d.subdivs != []
    ensures Render([(key, Hash([]))] + rest, d, quote)
         == Then(Flag(key) + " ", Render(rest, Delims(d.eqls[1..], d.subdivs[1..]), quote))
  {
    EmptyHashSubstr(d, quote);
    assert ([(key, Hash([]))] + rest)[1..] == rest;
  }

  /** A lone empty-hash value with no delimiter pair left adds its flag and raises. */
  lemma RenderEmptyHashExhausted(key: string, quote: string -> string)
    ensures Render([(key, Hash([]))], Delims([], []), quote) == Rendered(Flag(key), Some(DepthExhausted), Delims([], []))
  {
    EmptyHashSubstr(Delims([], []), quote);
    assert [(key, Hash([]))][1..] == [];
  }

  /** With two delimiter pairs, two leading empty-hash values take one each and leave none for the rest. */
  lemma RenderTwoEmptyHashes(k1: string, k2: string, rest: seq<(string, CmdValue)>, d: Delims, quote: string -> string)
    requires |d.eqls| == 2 && |d.subdivs| == 2
    ensures Render([(k1, Hash([]))] + ([(k2, Hash([]))] + rest), d, quote)
         == Then(Flag(k1) + " ", Then(Flag(k2) + " ", Render(rest, Delims([], []), quote)))
  {
    var d1 := Delims(d.eqls[1..], d.subdivs[1..]);
    var second := [(k2, Hash([]))] + rest;
    assert Render(second, d1, quote) == Then(Flag(k2) + " ", Render(rest, Delims([], []), quote)) by {
      assert Delims(d1.eqls[1..], d1.subdivs[1..]) == Delims([], []);
      RenderEmptyHashFirst(k2, rest, d1, quote);
    }
    RenderEmptyHashFirst(k1, second, d, quote);
  }

  /**
   * The delimiter arrays are shared by the whole call: with the default two
   * pairs, the first two hash-valued arguments add their flags and a third
   * finds no pair left, adds its flag and raises.
   */
  lemma ThirdHashRaises(k1: string, k2: string, k3: string, quote: string -> string)
    ensures Render([(k1, Hash([])), (k2, Hash([])), (k3, Hash([]))], CommandDelims, quote)
         == Then(Flag(k1) + " ", Then(Flag(k2) + " ", Rendered(Flag(k3), Some(DepthExhausted), Delims([], []))))
  {
    assert [(k1, Hash([])), (k2, Hash([])), (k3, Hash([]))] == [(k1, Hash([]))] + ([(k2, Hash([]))] + [(k3, Hash([]))]);
    RenderTwoEmptyHashes(k1, k2, [(k3, Hash([]))], CommandDelims, quote);
    RenderEmptyHashExhausted(k3, quote);
  }

  /** The contents of a `Delimiters` object as a value. */
  class Delimiters {
    var eqls: seq<string>
    var subdivs: seq<string>

    function D(): Delims
      reads this
    {
      Delims(eqls, subdivs)
    }

    constructor (eqls: seq<string>, subdivs: seq<string>)
      ensures D() == Delims(eqls, subdivs)
    {
      this.eqls := eqls;
      this.subdivs := subdivs;
    }

    /** `build_substr("", value, eqls, subdivs)`, shifting the arrays in place. */
    method BuildSubstr(value: CmdValue, quote: string -> string) returns (r: Result<Option<string>, CmdError>)
      modifies this
      ensures r == Substr(value, old(D()), quote).out
      ensures D() == Substr(value, old(D()), quote).after
      decreases value, Width(value)
    {
      match value {
        case Nil => r := Success(None);
        case True => r := Success(None);
        case Scalar(t) => r := Success(Some(quote(t)));
        case Hash(entries) =>
          if eqls == [] || subdivs == [] {
            return Failure(DepthExhausted);
          }
          var cSub, cEql := subdivs[0], eqls[0];
          subdivs, eqls := subdivs[1..], eqls[1..];
          ghost var start := D();
          var nested: seq<string> := [];
          var i := 0;
          PrependNothing(Entries(value, 0, cEql, start, quote).out);
          while i < |entries|
            invariant 0 <= i <= |entries|
            invariant Entries(value, 0, cEql, start, quote) == PrependPieces(nested, Entries(value, i, cEql, D(), quote))
          {
            var key := entries[i].0;
            var sub := BuildSubstr(entries[i].1, quote);
            if sub.Failure? {
              return Failure(sub.error);
            }
            var piece := if sub.value.Some? then key + cEql + sub.value.value else key;
            PrependPrepend(nested, [piece], Entries(value, i + 1, cEql, D(), quote).out);
            nested := nested + [piece];
            i := i + 1;
          }
          assert nested + [] == nested;
          r := Success(Some(Join(nested, cSub)));
      }
    }
  }

  /** `text` in front of what `r` appends. */
  function Then(text: string, r: Rendered): Rendered {
    Rendered(text + r.text, r.error, r.after)
  }

  /** The text a rendered value adds after its flag. */
  function Tail(text: Option<string>): string {
    if text.Some? then " " + text.value else ""
  }

  lemma RenderAt(args: seq<(string, CmdValue)>, i: nat, d: Delims, quote: string -> string)
    requires i < |args|
    ensures var s := Substr(args[i].1, d, quote);
      && (s.out.Failure? ==> Render(args[i..], d, quote) == Rendered(Flag(args[i].0), Some(s.out.error), s.after))
      && (s.out.Success? ==>
            Render(args[i..], d, quote) == Then(Flag(args[i].0) + Tail(s.out.value), Render(args[i + 1..], s.after, quote)))
  {
    assert args[i..][1..] == args[i + 1..];
  }

  function ErrorOf<T>(r: Result<T, CmdError>): Option<CmdError> {
    if r.Failure? then Some(r.error) else None
  }

  lemma ThenThen(a: string, b: string, r: Rendered)
    ensures Then(a, Then(b, r)) == Then(a + b, r)
  {
    assert a + (b + r.text) == (a + b) + r.text;
  }

  /** One step of the reduce in `hash_to_command`: the flag, then the value's text if it has one. */
  method AppendEntry(base: Buffer, key: string, value: CmdValue, delims: Delimiters, quote: string -> string)
    returns (sub: Result<Option<string>, CmdError>)
    modifies base, delims
    ensures sub == Substr(value, old(delims.D()), quote).out
    ensures delims.D() == Substr(value, old(delims.D()), quote).after
    ensures base.text == old(base.text) + Flag(key) + (if sub.Success? then Tail(sub.value) else "")
  {
    base.Append(Flag(key));
    sub := delims.BuildSubstr(value, quote);
    if sub.Success? {
      base.Append(Tail(sub.value));
    } else {
      assert base.text == base.text + "";
    }
  }

  /**
   * `hash_to_command(base, args, eqls, subdivs)`: appends to `base` in place
   * and returns it, so the old text is a prefix of the new; a hash value
   * beyond the delimiters raises after its flag is appended.
   */
  method HashToCommand(base: Buffer, args: seq<(string, CmdValue)>, delims: Delimiters, quote: string -> string)
    returns (r: Result<Buffer, CmdError>)
    modifies base, delims
    ensures Then(old(base.text), Render(args, old(delims.D()), quote)) == Rendered(base.text, ErrorOf(r), delims.D())
    ensures r.Success? ==> r.value == base
  {
    ghost var goal := Then(base.text, Render(args, delims.D(), quote));
    var i := 0;
    assert args[0..] == args;
    while i < |args|
      invariant 0 <= i <= |args|
      invariant goal == Then(base.text, Render(args[i..], delims.D(), quote))
    {
      ghost var before := base.text;
      RenderAt(args, i, delims.D(), quote);
      var sub := AppendEntry(base, args[i].0, args[i].1, delims, quote);
      if sub.Failure? {
        assert base.text == before + Flag(args[i].0);
        return Failure(sub.error);
      }
      ThenThen(before, Flag(args[i].0) + Tail(sub.value), Render(args[i + 1..], delims.D(), quote));
      i := i + 1;
    }
    assert base.text + "" == base.text;
    r := Success(base);
  }

  // ---- command_to_hash / build_submap ----

  /** What `build_submap` stored under a key: the nested call's string (or nil), or the map itself. */
  datatype SubValue = Text(s: Option<string>) | SelfMap

  /** What `build_submap` returned: its input, untouched, or the shared map. */
  datatype Built = Unchanged(input: Option<string>) | TheMap

  /** The shared map and the two delimiter arrays (one-character delimiters). */
  datatype SubState = SubState(entries: map<Option<string>, SubValue>, eqls: seq<char>, subdivs: seq<char>)

  predicate NoSpace(cs: seq<char>) {
    forall i :: 0 <= i < |cs| ==> cs[i] != ' '
  }

  predicate Splittable(st: SubState) {
    NoSpace(st.eqls) && NoSpace(st.subdivs)
  }

  /** `var, value = s_pair.split(equals)`: the first field (nil if none) ... */
  function KeyOfPair(pair: string, eq: char): Option<string>
    requires eq != ' '
  {
    var parts := Split(pair, eq);
    if |parts| > 0 then Some(parts[0]) else None
  }

  /** ... and the second field (nil if none); later fields are dropped. */
  function ValueOfPair(pair: string, eq: char): Option<string>
    requires eq != ' '
  {
    var parts := Split(pair, eq);
    if |parts| > 1 then Some(parts[1]) else None
  }

  function Stored(b: Built): SubValue {
    match b
    case Unchanged(s) => Text(s)
    case TheMap => SelfMap
  }

  /**
   * `build_submap(map, str, eqls, subdivs)`: the input back when it is nil or
   * empty or a delimiter array is empty; otherwise one shift of each array,
   * then every subdivider-separated pair stored into the shared map.
   */
  function BuildSpec(st: SubState, str: Option<string>): (r: (SubState, Built))
    requires Splittable(st)
    ensures Splittable(r.0) && |r.0.eqls| <= |st.eqls|
    ensures r.1.Unchanged? ==> r.0 == st && r.1.input == str
    decreases |st.eqls|, 1, 0
  {
    if str.None? || str.value == [] || st.eqls == [] || st.subdivs == [] then (st, Unchanged(str))
    else
      var st1 := SubState(st.entries, st.eqls[1..], st.subdivs[1..]);
      (PairsSpec(st1, Split(str.value, st.subdivs[0]), st.eqls[0]), TheMap)
  }

  function PairsSpec(st: SubState, pairs: seq<string>, eq: char): (r: SubState)
    requires Splittable(st) && eq != ' '
    ensures Splittable(r) && |r.eqls| <= |st.eqls|
    decreases |st.eqls| + 1, 0, |pairs|
  {
    if pairs == [] then st
    else
      var b := BuildSpec(st, ValueOfPair(pairs[0], eq));
      var st2 := b.0.(entries := b.0.entries[KeyOfPair(pairs[0], eq) := Stored(b.1)]);
      PairsSpec(st2, pairs[1..], eq)
  }

  /** What `command_to_hash` returns: its input, or the filled map. */
  datatype Parsed = Returned(input: Option<string>) | Filled(m: map<Option<string>, SubValue>)

  function CommandToHash(str: Option<string>, eqls: seq<char>, subdivs: seq<char>): (r: Parsed)
    requires NoSpace(eqls) && NoSpace(subdivs)
    ensures r.Returned? ==> r.input == str
  {
    var b := BuildSpec(SubState(map[], eqls, subdivs), str);
    if b.1.Unchanged? then Returned(b.1.input) else Filled(b.0.entries)
  }

  /** The pairs folded into a map, later keys overwriting earlier ones, with no delimiters left for nesting. */
  function Fold(m: map<Option<string>, SubValue>, pairs: seq<string>, eq: char): map<Option<string>, SubValue>
    requires eq != ' '
    decreases |pairs|
  {
    if pairs == [] then m
    else Fold(m[KeyOfPair(pairs[0], eq) := Text(ValueOfPair(pairs[0], eq))], pairs[1..], eq)
  }

  /** Once the arrays are empty, nested calls hand back the value string and the pairs just fold. */
  lemma {:induction false} PairsFlat(m: map<Option<string>, SubValue>, pairs: seq<string>, eq: char)
    requires eq != ' '
    ensures PairsSpec(SubState(m, [], []), pairs, eq) == SubState(Fold(m, pairs, eq), [], [])
    decreases |pairs|
  {
    if pairs != [] {
      PairsFlat(m[KeyOfPair(pairs[0], eq) := Text(ValueOfPair(pairs[0], eq))], pairs[1..], eq);
    }
  }

  /** A key that no pair carries keeps its earlier entry, or stays absent. */
  lemma {:induction false} FoldUntouched(m: map<Option<string>, SubValue>, pairs: seq<string>, eq: char, k: Option<string>)
    requires eq != ' '
    requires forall j :: 0 <= j < |pairs| ==> KeyOfPair(pairs[j], eq) != k
    ensures k in Fold(m, pairs, eq) <==> k in m
    ensures k in m ==> Fold(m, pairs, eq)[k] == m[k]
    decreases |pairs|
  {
    if pairs != [] {
      assert KeyOfPair(pairs[0], eq) != k;
      FoldUntouched(m[KeyOfPair(pairs[0], eq) := Text(ValueOfPair(pairs[0], eq))], pairs[1..], eq, k);
    }
  }

  /** The last pair with a key decides its value. */
  lemma {:induction false} FoldLastWins(m: map<Option<string>, SubValue>, pairs: seq<string>, eq: char, j: nat)
    requires eq != ' ' && j < |pairs|
    requires forall j' :: j < j' < |pairs| ==> KeyOfPair(pairs[j'], eq) != KeyOfPair(pairs[j], eq)
    ensures KeyOfPair(pairs[j], eq) in Fold(m, pairs, eq)
    ensures Fold(m, pairs, eq)[KeyOfPair(pairs[j], eq)] == Text(ValueOfPair(pairs[j], eq))
    decreases |pairs|
  {
    var k := KeyOfPair(pairs[j], eq);
    var m1 := m[KeyOfPair(pairs[0], eq) := Text(ValueOfPair(pairs[0], eq))];
    if j == 0 {
      forall j' | 0 <= j' < |pairs[1..]|
        ensures KeyOfPair(pairs[1..][j'], eq) != k
      {
        assert pairs[1..][j'] == pairs[j' + 1];
      }
      FoldUntouched(m1, pairs[1..], eq, k);
    } else {
      forall j' | j - 1 < j' < |pairs[1..]|
        ensures KeyOfPair(pairs[1..][j'], eq) != KeyOfPair(pairs[1..][j - 1], eq)
      {
        assert pairs[1..][j'] == pairs[j' + 1];
      }
      FoldLastWins(m1, pairs[1..], eq, j - 1);
    }
  }

  /** Every key of the folded map comes from some pair, or was there before. */
  lemma {:induction false} FoldKeys(m: map<Option<string>, SubValue>, pairs: seq<string>, eq: char, k: Option<string>)
    requires eq != ' '
    ensures k in Fold(m, pairs, eq) <==> k in m || exists j :: 0 <= j < |pairs| && KeyOfPair(pairs[j], eq) == k
    decreases |pairs|
  {
    if pairs != [] {
      var m1 := m[KeyOfPair(pairs[0], eq) := Text(ValueOfPair(pairs[0], eq))];
      FoldKeys(m1, pairs[1..], eq, k);
      if exists j :: 0 <= j < |pairs[1..]| && KeyOfPair(pairs[1..][j], eq) == k {
        var j :| 0 <= j < |pairs[1..]| && KeyOfPair(pairs[1..][j], eq) == k;
        assert pairs[j + 1] == pairs[1..][j];
      }
      if exists j :: 0 <= j < |pairs| && KeyOfPair(pairs[j], eq) == k {
        var j :| 0 <= j < |pairs| && KeyOfPair(pairs[j], eq) == k;
        if j > 0 {
          assert pairs[1..][j - 1] == pairs[j];
        }
      }
    }
  }

  /** The delimiters `command_to_hash` uses by default. */
  const EqualsDefault: seq<char> := ['=']
  const SubdivDefault: seq<char> := ['&']

  /** With the defaults, nil and "" come back unchanged and any other string gives a map. */
  lemma DefaultsReturnInput(str: Option<string>)
    ensures CommandToHash(str, EqualsDefault, SubdivDefault).Returned? <==> (str.None? || str.value == [])
  {
  }

  /** With the defaults, a non-empty string splits on '&' and each piece's first '=' field maps to its second. */
  lemma DefaultsFold(s: string)
    requires s != []
    ensures CommandToHash(Some(s), EqualsDefault, SubdivDefault) == Filled(Fold(map[], Split(s, '&'), '='))
  {
    assert EqualsDefault[1..] == [] && SubdivDefault[1..] == [];
    PairsFlat(map[], Split(s, '&'), '=');
  }

  /** With the defaults, the keys are exactly the pieces' first fields, and the last piece with a key wins. */
  lemma DefaultsLastWins(s: string, j: nat)
    requires s != [] && j < |Split(s, '&')|
    requires forall j' :: j < j' < |Split(s, '&')| ==> KeyOfPair(Split(s, '&')[j'], '=') != KeyOfPair(Split(s, '&')[j], '=')
    ensures CommandToHash(Some(s), EqualsDefault, SubdivDefault).Filled?
    ensures KeyOfPair(Split(s, '&')[j], '=') in CommandToHash(Some(s), EqualsDefault, SubdivDefault).m
    ensures CommandToHash(Some(s), EqualsDefault, SubdivDefault).m[KeyOfPair(Split(s, '&')[j], '=')]
         == Text(ValueOfPair(Split(s, '&')[j], '='))
  {
    DefaultsFold(s);
    FoldLastWins(map[], Split(s, '&'), '=', j);
  }

  lemma DefaultsKeys(s: string, k: Option<string>)
    requires s != []
    ensures CommandToHash(Some(s), EqualsDefault, SubdivDefault).Filled?
    ensures k in CommandToHash(Some(s), EqualsDefault, SubdivDefault).m
        <==> exists j :: 0 <= j < |Split(s, '&')| && KeyOfPair(Split(s, '&')[j], '=') == k
  {
    DefaultsFold(s);
    FoldKeys(map[], Split(s, '&'), '=', k);
  }

  /** The shared map and delimiter arrays of one `command_to_hash` call. */
  class Submap {
    var entries: map<Option<string>, SubValue>
    var eqls: seq<char>
    var subdivs: seq<char>

    function St(): SubState
      reads this
    {
      SubState(entries, eqls, subdivs)
    }

    constructor (eqls: seq<char>, subdivs: seq<char>)
      ensures St() == SubState(map[], eqls, subdivs)
    {
      entries := map[];
      this.eqls := eqls;
      this.subdivs := subdivs;
    }

    /** `build_submap(map, str, eqls, subdivs)` on the shared map and arrays. */
    method Build(str: Option<string>) returns (r: Built)
      requires Splittable(St())
      modifies this
      ensures (St(), r) == BuildSpec(old(St()), str)
      decreases |eqls|
    {
      if str.None? || str.value == [] || eqls == [] || subdivs == [] {
        return Unchanged(str);
      }
      var subdiv, equals := subdivs[0], eqls[0];
      subdivs, eqls := subdivs[1..], eqls[1..];
      ghost var start := St();
      var pairs := Split(str.value, subdiv);
      var i := 0;
      while i < |pairs|
        invariant 0 <= i <= |pairs| && Splittable(St()) && |eqls| < |old(eqls)|
        invariant PairsSpec(start, pairs, equals) == PairsSpec(St(), pairs[i..], equals)
      {
        assert pairs[i..][1..] == pairs[i + 1..];
        var key := KeyOfPair(pairs[i], equals);
        var nested := Build(ValueOfPair(pairs[i], equals));
        entries := entries[key := Stored(nested)];
        i := i + 1;
      }
      r := TheMap;
    }
  }

  /** `command_to_hash(argument_string, eqls, subdivs)` on a fresh map. */
  method CommandToHashCall(str: Option<string>, eqls: seq<char>, subdivs: seq<char>) returns (r: Parsed)
    requires NoSpace(eqls) && NoSpace(subdivs)
    ensures r == CommandToHash(str, eqls, subdivs)
  {
    var sm := new Submap(eqls, subdivs);
    var b := sm.Build(str);
    r := if b.Unchanged? then Returned(b.input) else Filled(sm.entries);
  }
}
