/**
 * `Transfer::TransferPlugin` as defined in its own file: the class-level
 * `@@plugins` registry mapping URI schemes to plugin classes, `register`, and
 * the `lookup` of that file, whose test is inverted.
 */
module TransferPlugin {
  import opened Wrappers

  /** The plugin classes that register themselves. */
  datatype PluginClass = CopyClass | SftpClass | OtherClass(name: string)

  datatype TransferError = UnsupportedProtocol(message: string)

  /** The message of `UnsupportedProtocol` for a URI. */
  function Unsupported(uri: string): TransferError {
    UnsupportedProtocol("Protocol '" + uri + "' not supported.")
  }

  predicate IsAlpha(c: char) { 'a' <= c <= 'z' || 'A' <= c <= 'Z' }

  /** `ALPHA / DIGIT / "+" / "-" / "."`, the characters after the first of a scheme (section 3.1 of RFC 3986). */
  predicate IsSchemeChar(c: char) { IsAlpha(c) || '0' <= c <= '9' || c == '+' || c == '-' || c == '.' }

  /** The first index at or after `i` that does not hold a scheme character. */
  function SchemeEnd(uri: string, i: nat): (k: nat)
    requires i <= |uri|
    ensures i <= k <= |uri|
    ensures forall j :: i <= j < k ==> IsSchemeChar(uri[j])
    ensures k < |uri| ==> !IsSchemeChar(uri[k])
    decreases |uri| - i
  {
    if i == |uri| || !IsSchemeChar(uri[i]) then i else SchemeEnd(uri, i + 1)
  }

  /** `URI.parse(uri).scheme`: a letter and scheme characters, ended by ':'; nil otherwise. */
  function Scheme(uri: string): (r: Option<string>)
    ensures r.Some? ==> |r.value| >= 1 && IsAlpha(r.value[0]) && r.value + ":" <= uri
    ensures r.Some? ==> forall j :: 0 <= j < |r.value| ==> IsSchemeChar(r.value[j])
  {
    if |uri| == 0 || !IsAlpha(uri[0]) then None
    else
      var k := SchemeEnd(uri, 1);
      if k < |uri| && uri[k] == ':' then
        assert uri[..k] + ":" == uri[..k + 1];
        Some(uri[..k])
      else None
  }

  /** A URI with no ':' at all, such as a plain file path, has no scheme. */
  lemma NoColonNoScheme(uri: string)
    requires forall j :: 0 <= j < |uri| ==> uri[j] != ':'
    ensures Scheme(uri) == None
  {
  }

  /** "sftp://…" has the scheme "sftp". */
  lemma SftpScheme(rest: string)
    ensures Scheme("sftp://" + rest) == Some("sftp")
  {
    var u := "sftp://" + rest;
    assert u[..4] == "sftp" && u[4] == ':';
    assert SchemeEnd(u, 4) == 4;
  }

  /** `names.each { |n| @@plugins[n] = cls }` */
  function Registered(plugins: map<string, PluginClass>, cls: PluginClass, names: seq<string>): map<string, PluginClass>
    decreases |names|
  {
    if names == [] then plugins else Registered(plugins[names[0] := cls], cls, names[1..])
  }

  /** Every given name maps to the registering class afterwards (replacing any earlier class); every other entry stays. */
  lemma {:induction false} RegisteredMeaning(plugins: map<string, PluginClass>, cls: PluginClass, names: seq<string>, n: string)
    ensures n in names ==> n in Registered(plugins, cls, names) && Registered(plugins, cls, names)[n] == cls
    ensures n !in names ==> (n in Registered(plugins, cls, names) <==> n in plugins)
    ensures n !in names && n in plugins ==> Registered(plugins, cls, names)[n] == plugins[n]
    decreases |names|
  {
    if names != [] {
      RegisteredMeaning(plugins[names[0] := cls], cls, names[1..], n);
      if n in names && n !in names[1..] {
        assert n == names[0];
        RegisteredKeeps(plugins[names[0] := cls], cls, names[1..], n);
      }
    }
  }

  lemma {:induction false} RegisteredKeeps(plugins: map<string, PluginClass>, cls: PluginClass, names: seq<string>, n: string)
    requires n in plugins && plugins[n] == cls
    ensures n in Registered(plugins, cls, names) && Registered(plugins, cls, names)[n] == cls
    decreases |names|
  {
    if names != [] {
      RegisteredKeeps(plugins[names[0] := cls], cls, names[1..], n);
    }
  }

  /** `lookup` as this file writes it: the class test is inverted. */
  function LegacyLookup(plugins: map<string, PluginClass>, uri: string): Result<Option<PluginClass>, TransferError> {
    match Scheme(uri)
    case None => Success(if "copy" in plugins then Some(plugins["copy"]) else None)
    case Some(s) => if s in plugins then Failure(Unsupported(uri)) else Success(None)
  }

  /** With the inverted test a registered scheme raises, and an unknown one yields nil. */
  lemma LegacyLookupInverted(plugins: map<string, PluginClass>, uri: string)
    requires Scheme(uri).Some?
    ensures Scheme(uri).value in plugins ==> LegacyLookup(plugins, uri) == Failure(Unsupported(uri))
    ensures Scheme(uri).value !in plugins ==> LegacyLookup(plugins, uri) == Success(None)
  {
  }

  /** Which definition of `lookup` is in force: Ruby keeps the one defined last. */
  datatype LookupDefinition = InvertedLookup | SchemeLookup

  /** The class variables of `TransferPlugin`. */
  class Registry {
    var plugins: map<string, PluginClass>
    var lookupDef: LookupDefinition

    /** Evaluating this file's class body: the registry starts empty and its `lookup` is defined. */
    constructor ()
      ensures plugins == map[] && lookupDef == InvertedLookup
    {
      plugins := map[];
      lookupDef := InvertedLookup;
    }

    /** Re-evaluating this file's class body empties the registry and redefines `lookup`. */
    method LoadBody()
      modifies this
      ensures plugins == map[] && lookupDef == InvertedLookup
    {
      plugins := map[];
      lookupDef := InvertedLookup;
    }

    /** `cls.register(*names)` */
    method Register(cls: PluginClass, names: seq<string>)
      modifies this
      ensures plugins == Registered(old(plugins), cls, names)
      ensures lookupDef == old(lookupDef)
    {
      var i := 0;
      while i < |names|
        invariant 0 <= i <= |names|
        invariant Registered(old(plugins), cls, names) == Registered(plugins, cls, names[i..])
        invariant lookupDef == old(lookupDef)
      {
        assert names[i..][1..] == names[i + 1..];
        plugins := plugins[names[i] := cls];
        i := i + 1;
      }
    }
  }
}
