/**
 * A delivery plugin's configuration hash (`@plugin_config`), filled with
 * defaults and checked for required keys before the plugin runs.  The two
 * helpers come from the plugins' base class: a default is stored only where
 * the key holds nil, and validation fails on the first required key that
 * holds nil.
 */
module PluginConfig {
  import opened Wrappers

  /** A configuration value as the plugins read it. */
  datatype Value = Nil | Bool(b: bool) | Int(i: int) | Str(s: string)

  /** Ruby truthiness: everything but nil and false. */
  predicate Truthy(v: Value) {
    !v.Nil? && v != Bool(false)
  }

  /** `a || b` */
  function Or(a: Value, b: Value): (r: Value)
    ensures Truthy(r) <==> Truthy(a) || Truthy(b)
    ensures r == a || r == b
  {
    if Truthy(a) then a else b
  }

  /** `hash[key]`: nil for a missing key. */
  function Get(values: map<string, Value>, key: string): Value {
    if key in values then values[key] else Nil
  }

  /** `set_default_config_value(key, v)`: store `v` when the key holds nil. */
  function WithDefault(values: map<string, Value>, key: string, v: Value): map<string, Value> {
    if Get(values, key).Nil? then values[key := v] else values
  }

  /** A list of defaults applied in order. */
  function Defaulted(values: map<string, Value>, defaults: seq<(string, Value)>): map<string, Value>
    decreases |defaults|
  {
    if defaults == [] then values
    else Defaulted(WithDefault(values, defaults[0].0, defaults[0].1), defaults[1..])
  }

  /** The first default listed for a key. */
  function DefaultFor(defaults: seq<(string, Value)>, key: string): Option<Value> {
    if defaults == [] then None
    else if defaults[0].0 == key then Some(defaults[0].1)
    else DefaultFor(defaults[1..], key)
  }

  /**
   * After the defaults, a key that held a value keeps it, a key that held nil
   * gets its first listed default, and a key with no default is untouched.
   */
  lemma {:induction false} DefaultedMeaning(values: map<string, Value>, defaults: seq<(string, Value)>, key: string)
    requires forall k :: 0 <= k < |defaults| ==> !defaults[k].1.Nil?
    ensures !Get(values, key).Nil? ==> Get(Defaulted(values, defaults), key) == Get(values, key)
    ensures Get(values, key).Nil? && DefaultFor(defaults, key).Some? ==>
      Get(Defaulted(values, defaults), key) == DefaultFor(defaults, key).value
    ensures DefaultFor(defaults, key).None? ==> Get(Defaulted(values, defaults), key) == Get(values, key)
    decreases |defaults|
  {
    if defaults != [] {
      var next := WithDefault(values, defaults[0].0, defaults[0].1);
      DefaultedMeaning(next, defaults[1..], key);
      if defaults[0].0 == key {
        assert !Get(next, key).Nil?;
      } else {
        assert Get(next, key) == Get(values, key);
      }
    }
  }

  /** The first default listed for a key named first at index `k` is the `k`-th. */
  lemma {:induction false} DefaultForAt(defaults: seq<(string, Value)>, k: nat)
    requires k < |defaults|
    requires forall j :: 0 <= j < k ==> defaults[j].0 != defaults[k].0
    ensures DefaultFor(defaults, defaults[k].0) == Some(defaults[k].1)
    decreases k
  {
    if k > 0 {
      assert defaults[0].0 != defaults[k].0;
      assert forall j :: 0 <= j < k - 1 ==> defaults[1..][j] == defaults[j + 1];
      DefaultForAt(defaults[1..], k - 1);
    }
  }

  /** The key named first at index `k` holds its configured value, or the `k`-th default when it held nil. */
  lemma DefaultedAt(values: map<string, Value>, defaults: seq<(string, Value)>, k: nat)
    requires k < |defaults|
    requires forall j :: 0 <= j < |defaults| ==> !defaults[j].1.Nil?
    requires forall j :: 0 <= j < k ==> defaults[j].0 != defaults[k].0
    ensures Get(Defaulted(values, defaults), defaults[k].0) ==
      if Get(values, defaults[k].0).Nil? then defaults[k].1 else Get(values, defaults[k].0)
  {
    DefaultForAt(defaults, k);
    DefaultedMeaning(values, defaults, defaults[k].0);
  }

  /** A key no default names is left as it was. */
  lemma {:induction false} DefaultedOther(values: map<string, Value>, defaults: seq<(string, Value)>, key: string)
    requires forall k :: 0 <= k < |defaults| ==> defaults[k].0 != key
    ensures Get(Defaulted(values, defaults), key) == Get(values, key)
    decreases |defaults|
  {
    if defaults != [] {
      assert defaults[0].0 != key;
      assert forall k :: 0 <= k < |defaults[1..]| ==> defaults[1..][k] == defaults[k + 1];
      DefaultedOther(WithDefault(values, defaults[0].0, defaults[0].1), defaults[1..], key);
    }
  }

  /** With no nil default, every key that has a default holds a value afterwards. */
  lemma {:induction false} DefaultedCovers(values: map<string, Value>, defaults: seq<(string, Value)>)
    requires forall k :: 0 <= k < |defaults| ==> !defaults[k].1.Nil?
    ensures forall k :: 0 <= k < |defaults| ==> !Get(Defaulted(values, defaults), defaults[k].0).Nil?
    decreases |defaults|
  {
    if defaults != [] {
      var next := WithDefault(values, defaults[0].0, defaults[0].1);
      assert forall k :: 0 <= k < |defaults[1..]| ==> defaults[1..][k] == defaults[k + 1];
      DefaultedCovers(next, defaults[1..]);
      DefaultedMeaning(next, defaults[1..], defaults[0].0);
      assert !Get(next, defaults[0].0).Nil?;
      forall k | 0 <= k < |defaults|
        ensures !Get(Defaulted(values, defaults), defaults[k].0).Nil?
      {
        if k > 0 {
          assert defaults[k] == defaults[1..][k - 1];
        }
      }
    }
  }

  /** Where every key with a default already holds a value, the defaults change nothing. */
  lemma {:induction false} DefaultedSettled(values: map<string, Value>, defaults: seq<(string, Value)>)
    requires forall k :: 0 <= k < |defaults| ==> !Get(values, defaults[k].0).Nil?
    ensures Defaulted(values, defaults) == values
    decreases |defaults|
  {
    if defaults != [] {
      assert !Get(values, defaults[0].0).Nil?;
      assert forall k :: 0 <= k < |defaults[1..]| ==> defaults[1..][k] == defaults[k + 1];
      DefaultedSettled(values, defaults[1..]);
    }
  }

  /** Applying the defaults a second time changes nothing. */
  lemma DefaultedIdempotent(values: map<string, Value>, defaults: seq<(string, Value)>)
    requires forall k :: 0 <= k < |defaults| ==> !defaults[k].1.Nil?
    ensures Defaulted(Defaulted(values, defaults), defaults) == Defaulted(values, defaults)
  {
    DefaultedCovers(values, defaults);
    DefaultedSettled(Defaulted(values, defaults), defaults);
  }

  /** The first required key that holds nil, if any. */
  function FirstMissing(values: map<string, Value>, fields: seq<string>): Option<string> {
    if fields == [] then None
    else if Get(values, fields[0]).Nil? then Some(fields[0])
    else FirstMissing(values, fields[1..])
  }

  /** Validation passes iff every required key holds a value; otherwise it names the first that does not. */
  lemma {:induction false} FirstMissingMeaning(values: map<string, Value>, fields: seq<string>)
    ensures FirstMissing(values, fields).None? <==> forall k :: 0 <= k < |fields| ==> !Get(values, fields[k]).Nil?
    ensures FirstMissing(values, fields).Some? ==>
      exists k :: 0 <= k < |fields| && fields[k] == FirstMissing(values, fields).value
        && Get(values, fields[k]).Nil? && forall j :: 0 <= j < k ==> !Get(values, fields[j]).Nil?
  {
    if fields != [] {
      FirstMissingMeaning(values, fields[1..]);
      if !Get(values, fields[0]).Nil? && FirstMissing(values, fields).Some? {
        var k :| 0 <= k < |fields[1..]| && fields[1..][k] == FirstMissing(values, fields).value
          && Get(values, fields[1..][k]).Nil? && forall j :: 0 <= j < k ==> !Get(values, fields[1..][j]).Nil?;
        assert fields[k + 1] == FirstMissing(values, fields).value;
      }
      if !Get(values, fields[0]).Nil? && FirstMissing(values, fields).None? {
        assert forall k :: 1 <= k < |fields| ==> fields[k] == fields[1..][k - 1];
      }
    }
  }

  datatype ValidationError = MissingKey(key: string)

  /** `@plugin_config`, updated in place by the plugins. */
  class Config {
    var values: map<string, Value>

    constructor (values: map<string, Value>)
      ensures this.values == values
    {
      this.values := values;
    }

    /** `set_default_config_value` for each listed key, in order. */
    method SetDefaults(defaults: seq<(string, Value)>)
      modifies this
      ensures values == Defaulted(old(values), defaults)
    {
      var i := 0;
      while i < |defaults|
        invariant 0 <= i <= |defaults|
        invariant Defaulted(old(values), defaults) == Defaulted(values, defaults[i..])
      {
        assert defaults[i..][1..] == defaults[i + 1..];
        if Get(values, defaults[i].0).Nil? {
          values := values[defaults[i].0 := defaults[i].1];
        }
        i := i + 1;
      }
    }

    /** `validate_plugin_config(fields)`: raises on the first required key that holds nil. */
    method ValidateFields(fields: seq<string>) returns (r: Outcome<ValidationError>)
      ensures r.Pass? <==> FirstMissing(values, fields).None?
      ensures r.Fail? ==> r.error == MissingKey(FirstMissing(values, fields).value)
    {
      var i := 0;
      while i < |fields|
        invariant 0 <= i <= |fields|
        invariant FirstMissing(values, fields) == FirstMissing(values, fields[i..])
      {
        assert fields[i..][1..] == fields[i + 1..];
        if Get(values, fields[i]).Nil? {
          return Fail(MissingKey(fields[i]));
        }
        i := i + 1;
      }
      return Pass;
    }
  }
}
