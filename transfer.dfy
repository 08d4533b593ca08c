/**
 * `BoxGrinder::Transfer`: loading the transfer plugins, the scheme `lookup`
 * that replaces the inverted one of `TransferPlugin`'s own file, and
 * `Transfer.open`, which brackets a block between the plugin's `open` and
 * `close`.
 */
module Transfer {
  import opened Wrappers
  import opened TransferPlugin
  import TransferCopy

  /** `lookup`: no scheme means the "copy" plugin; a registered scheme its plugin; any other raises. */
  function Lookup(plugins: map<string, PluginClass>, uri: string): Result<Option<PluginClass>, TransferError> {
    match Scheme(uri)
    case None => Success(if "copy" in plugins then Some(plugins["copy"]) else None)
    case Some(s) => if s in plugins then Success(Some(plugins[s])) else Failure(Unsupported(uri))
  }

  /** A URI with a scheme finds the plugin registered for that scheme, or raises; it never yields nil. */
  lemma LookupScheme(plugins: map<string, PluginClass>, uri: string)
    requires Scheme(uri).Some?
    ensures Lookup(plugins, uri).Success? <==> Scheme(uri).value in plugins
    ensures Lookup(plugins, uri).Success? ==> Lookup(plugins, uri).value == Some(plugins[Scheme(uri).value])
    ensures Lookup(plugins, uri).Failure? ==> Lookup(plugins, uri).error == Unsupported(uri)
  {
  }

  /** The two definitions agree on URIs without a scheme and are opposite on every URI with one. */
  lemma LookupCorrectsLegacy(plugins: map<string, PluginClass>, uri: string)
    ensures Scheme(uri).None? ==> Lookup(plugins, uri) == LegacyLookup(plugins, uri)
    ensures Scheme(uri).Some? ==> (Lookup(plugins, uri).Success? <==> LegacyLookup(plugins, uri).Failure?)
  {
  }

  /** The `lookup` in force for a registry. */
  function InForce(reg: Registry, uri: string): Result<Option<PluginClass>, TransferError>
    reads reg
  {
    if reg.lookupDef == SchemeLookup then Lookup(reg.plugins, uri) else LegacyLookup(reg.plugins, uri)
  }

  /** The registry once every file under transfer/ has registered its names. */
  function StandardPlugins(): map<string, PluginClass> {
    Registered(Registered(map[], CopyClass, TransferCopy.Names), SftpClass, ["sftp"])
  }

  lemma StandardPluginsContents()
    ensures StandardPlugins() == map["cp" := CopyClass, "copy" := CopyClass, "sftp" := SftpClass]
  {
    assert TransferCopy.Names == ["cp", "copy"];
    assert ["cp", "copy"][1..] == ["copy"];
  }

  /** The files the glob of transfer.rb:6 requires from the transfer directory, in the order it lists them. */
  datatype SourceFile = CopyRb | SftpRb | TransferPluginRb

  /**
   * The registry after one more file: a load of transfer-plugin.rb runs its
   * `@@plugins = {}` again, and copy.rb and sftp.rb register their names.
   */
  function Loading(plugins: map<string, PluginClass>, f: SourceFile): map<string, PluginClass> {
    match f
    case TransferPluginRb => map[]
    case CopyRb => Registered(plugins, CopyClass, TransferCopy.Names)
    case SftpRb => Registered(plugins, SftpClass, ["sftp"])
  }

  /** The registry that requiring transfer.rb leaves when the glob lists `order`. */
  function LoadedPlugins(order: seq<SourceFile>): map<string, PluginClass> {
    if order == [] then map[] else Loading(LoadedPlugins(order[..|order| - 1]), order[|order| - 1])
  }

  /**
   * Requiring transfer.rb under Ruby 1.8: its class body empties the registry,
   * then the glob requires each file in `order` (the directory's listing
   * order).  copy.rb and sftp.rb first require TransferPlugin's file as
   * 'boxgrinder-build/util/transfer/transfer-plugin', which loads it only the
   * first time, and then register their names.  The glob requires the same
   * file under its own path, a different feature name, so that load always
   * runs and empties the registry again.  Last, the scheme `lookup` of
   * transfer.rb replaces the inverted one.
   */
  method Load(reg: Registry, order: seq<SourceFile>)
    modifies reg
    ensures reg.plugins == LoadedPlugins(order)
    ensures reg.lookupDef == SchemeLookup
  {
    reg.plugins := map[];
    var featureLoaded := false;
    var i := 0;
    while i < |order|
      invariant 0 <= i <= |order|
      invariant reg.plugins == LoadedPlugins(order[..i])
      invariant !featureLoaded ==> reg.plugins == map[]
    {
      assert order[..i + 1][..i] == order[..i];
      match order[i] {
        case TransferPluginRb =>
          reg.LoadBody();
        case CopyRb =>
          if !featureLoaded {
            reg.LoadBody();
            featureLoaded := true;
          }
          reg.Register(CopyClass, TransferCopy.Names);
        case SftpRb =>
          if !featureLoaded {
            reg.LoadBody();
            featureLoaded := true;
          }
          reg.Register(SftpClass, ["sftp"]);
      }
      i := i + 1;
    }
    assert order[..|order|] == order;
    reg.lookupDef := SchemeLookup;
  }

  /** The glob's own load of transfer-plugin.rb coming last leaves nothing registered. */
  lemma PluginFileLastEmpties(order: seq<SourceFile>)
    ensures LoadedPlugins(order + [TransferPluginRb]) == map[]
  {
  }

  /** Listed first, it leaves every plugin registered. */
  lemma PluginFileFirstRegistersAll()
    ensures LoadedPlugins([TransferPluginRb, CopyRb, SftpRb]) == StandardPlugins()
  {
    var a := [TransferPluginRb, CopyRb, SftpRb];
    assert a[..2] == [TransferPluginRb, CopyRb];
    assert a[..2][..1] == [TransferPluginRb];
  }

  /** Listed first with sftp.rb before copy.rb, the registry is the same. */
  lemma PluginFileFirstSftpFirst()
    ensures LoadedPlugins([TransferPluginRb, SftpRb, CopyRb]) == StandardPlugins()
  {
    var b := [TransferPluginRb, SftpRb, CopyRb];
    assert b[..2] == [TransferPluginRb, SftpRb];
    assert b[..2][..1] == [TransferPluginRb];
    var m := Registered(map[], SftpClass, ["sftp"]);
    assert m == map["sftp" := SftpClass];
    assert TransferCopy.Names == ["cp", "copy"];
    assert ["cp", "copy"][1..] == ["copy"];
    StandardPluginsContents();
  }

  /** Listed between the two, only the later plugin's names survive. */
  lemma PluginFileBetween()
    ensures LoadedPlugins([CopyRb, TransferPluginRb, SftpRb]) == map["sftp" := SftpClass]
    ensures LoadedPlugins([SftpRb, TransferPluginRb, CopyRb]) == map["cp" := CopyClass, "copy" := CopyClass]
  {
    var a := [CopyRb, TransferPluginRb, SftpRb];
    assert a[..2][1] == TransferPluginRb;
    var b := [SftpRb, TransferPluginRb, CopyRb];
    assert b[..2][1] == TransferPluginRb;
    assert TransferCopy.Names == ["cp", "copy"];
    assert ["cp", "copy"][1..] == ["copy"];
  }

  /** In alphabetical order a plain path finds no plugin, so `Transfer.open` fails at `nil.new`. */
  lemma AlphabeticalLoadFindsNoCopy()
    ensures Lookup(LoadedPlugins([CopyRb, SftpRb, TransferPluginRb]), "/tmp/disk.raw") == Success(None)
  {
    PluginFileLastEmpties([CopyRb, SftpRb]);
    assert [CopyRb, SftpRb] + [TransferPluginRb] == [CopyRb, SftpRb, TransferPluginRb];
    NoColonNoScheme("/tmp/disk.raw");
  }

  /** After loading, a plain path goes to Copy, "sftp://…" to SFTP, and an unknown scheme raises. */
  lemma LoadedLookups(rest: string)
    ensures Lookup(StandardPlugins(), "/tmp/disk.raw") == Success(Some(CopyClass))
    ensures Lookup(StandardPlugins(), "sftp://" + rest) == Success(Some(SftpClass))
    ensures Lookup(StandardPlugins(), "http://" + rest) == Failure(Unsupported("http://" + rest))
  {
    StandardPluginsContents();
    NoColonNoScheme("/tmp/disk.raw");
    SftpScheme(rest);
    var u := "http://" + rest;
    assert u[..4] == "http" && u[4] == ':';
    assert SchemeEnd(u, 4) == 4;
  }

  /** What `Transfer.open` does with the plugin, in order. */
  datatype Step = Instantiate(cls: PluginClass) | PluginOpen(uri: string) | Yield | PluginClose

  /** Which call inside the bracket raises, if any. */
  datatype Raising = NoRaise | OpenRaises | BlockRaises

  datatype OpenError =
    | LookupFailed(e: TransferError)
    | NilPlugin                // `nil.new`: no plugin is registered for "copy"
    | OpenFailed
    | BlockFailed

  /** `Transfer.open(uri, opts, &blk)` */
  method Open(reg: Registry, uri: string, hasBlock: bool, raising: Raising)
    returns (r: Result<PluginClass, OpenError>, steps: seq<Step>)
    ensures InForce(reg, uri).Failure? ==> r == Failure(LookupFailed(InForce(reg, uri).error)) && steps == []
    ensures InForce(reg, uri) == Success(None) ==> r == Failure(NilPlugin) && steps == []
    ensures InForce(reg, uri).Success? && InForce(reg, uri).value.Some? ==>
      var cls := InForce(reg, uri).value.value;
      && |steps| >= 1 && steps[0] == Instantiate(cls)
      && (!hasBlock ==> steps == [Instantiate(cls)] && r == Success(cls))
      && (hasBlock ==>
            && steps[|steps| - 1] == PluginClose
            && PluginOpen(uri) in steps
            && (Yield in steps <==> raising != OpenRaises)
            && (r.Success? <==> raising == NoRaise)
            && (r.Success? ==> r.value == cls)
            && steps == [Instantiate(cls), PluginOpen(uri)] + (if raising == OpenRaises then [] else [Yield]) + [PluginClose]
            && (raising == OpenRaises ==> r == Failure(OpenFailed))
            && (raising == BlockRaises ==> r == Failure(BlockFailed)))
  {
    var found := InForce(reg, uri);
    if found.Failure? {
      return Failure(LookupFailed(found.error)), [];
    }
    if found.value.None? {
      return Failure(NilPlugin), [];
    }
    var plugin := found.value.value;
    steps := [Instantiate(plugin)];
    r := Success(plugin);
    if hasBlock {
      steps := steps + [PluginOpen(uri)];
      if raising == OpenRaises {
        r := Failure(OpenFailed);
      } else {
        steps := steps + [Yield];
        if raising == BlockRaises {
          r := Failure(BlockFailed);
        }
      }
      steps := steps + [PluginClose];
    }
  }
}
