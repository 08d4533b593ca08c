/**
 * `BoxGrinder::Version`: the version string and `plugin_info`, which folds the
 * registered plugins of each type into one listing.
 */
module Version {
  import opened Strings

  const VersionString := "0.11.0"

  datatype PluginType = Os | Platform | Delivery

  /** The order in which `plugin_info` lists the types. */
  const ListedTypes := [Os, Platform, Delivery]

  function TypeName(t: PluginType): string {
    match t
    case Os => "os"
    case Platform => "platform"
    case Delivery => "delivery"
  }

  /** A registered plugin: its name and full name. */
  type Plugin = (string, string)

  /** The plugin manager's registry: the plugins of each type in registration order. */
  datatype Registry = Registry(os: seq<Plugin>, platform: seq<Plugin>, delivery: seq<Plugin>) {
    function Of(t: PluginType): seq<Plugin> {
      match t
      case Os => os
      case Platform => platform
      case Delivery => delivery
    }
  }

  function Header(t: PluginType): string {
    "Available " + TypeName(t) + " plugins:"
  }

  function Entry(p: Plugin): string {
    " - " + p.0 + " plugin for " + p.1
  }

  /** The entries of a type, appended one after another. */
  function Entries(ps: seq<Plugin>): string {
    if ps == [] then "" else Entries(ps[..|ps| - 1]) + Entry(ps[|ps| - 1])
  }

  function Section(t: PluginType, ps: seq<Plugin>): string {
    Header(t) + Entries(ps)
  }

  /** The sections of the given types, one after another. */
  function Sections(ts: seq<PluginType>, reg: Registry): string {
    if ts == [] then "" else Sections(ts[..|ts| - 1], reg) + Section(ts[|ts| - 1], reg.Of(ts[|ts| - 1]))
  }

  /** The listing: the record separator, then each type's header and entries with nothing in between. */
  function Info(sep: string, reg: Registry): string {
    sep + Sections(ListedTypes, reg)
  }

  lemma SectionsSnoc(ts: seq<PluginType>, i: nat, reg: Registry)
    requires i < |ts|
    ensures Sections(ts[..i + 1], reg) == Sections(ts[..i], reg) + Section(ts[i], reg.Of(ts[i]))
  {
    assert ts[..i + 1][..i] == ts[..i];
  }

  /** The entries of one type, appended one after another. */
  method EntriesText(ps: seq<Plugin>) returns (text: string)
    ensures text == Entries(ps)
  {
    text := "";
    var j := 0;
    while j < |ps|
      invariant 0 <= j <= |ps|
      invariant text == Entries(ps[..j])
    {
      assert ps[..j + 1][..j] == ps[..j];
      text := text + Entry(ps[j]);
      j := j + 1;
    }
    assert ps[..j] == ps;
  }

  /** The sections of the given types, each a header followed by that type's entries. */
  method SectionsText(ts: seq<PluginType>, reg: Registry) returns (text: string)
    ensures text == Sections(ts, reg)
  {
    text := "";
    var i := 0;
    while i < |ts|
      invariant 0 <= i <= |ts|
      invariant text == Sections(ts[..i], reg)
    {
      var entries := EntriesText(reg.Of(ts[i]));
      text := text + Header(ts[i]) + entries;
      SectionsSnoc(ts, i, reg);
      i := i + 1;
    }
    assert ts[..i] == ts;
  }

  /**
   * `plugin_info`, with `$/` passed as `sep`: `inject` over the types, each
   * step appending a header and then the type's entries to the accumulator.
   */
  method PluginInfo(sep: string, reg: Registry) returns (accum: string)
    ensures accum == Info(sep, reg)
  {
    var sections := SectionsText(ListedTypes, reg);
    accum := sep + sections;
  }

  /** No name or full name of the plugins holds a line break. */
  predicate Unbroken(ps: seq<Plugin>) {
    forall k :: 0 <= k < |ps| ==> '\n' !in ps[k].0 && '\n' !in ps[k].1
  }

  predicate RegistryUnbroken(reg: Registry) {
    Unbroken(reg.os) && Unbroken(reg.platform) && Unbroken(reg.delivery)
  }

  /** Only a listed name or full name can hold a newline: none is put between sections or entries. */
  lemma {:induction false} EntriesNoNewline(ps: seq<Plugin>)
    requires Unbroken(ps)
    ensures '\n' !in Entries(ps)
  {
    if ps != [] {
      EntriesNoNewline(ps[..|ps| - 1]);
      var e := Entry(ps[|ps| - 1]);
      assert e == " - " + ps[|ps| - 1].0 + " plugin for " + ps[|ps| - 1].1;
      assert '\n' !in e;
    }
  }

  lemma HeaderNoNewline(t: PluginType)
    ensures '\n' !in Header(t)
  {
    var n := TypeName(t);
    assert n == "os" || n == "platform" || n == "delivery";
    assert '\n' !in n;
  }

  lemma {:induction false} SectionsNoNewline(ts: seq<PluginType>, reg: Registry)
    requires RegistryUnbroken(reg)
    ensures '\n' !in Sections(ts, reg)
  {
    if ts != [] {
      SectionsNoNewline(ts[..|ts| - 1], reg);
      var t := ts[|ts| - 1];
      assert Unbroken(reg.Of(t)) by {
        assert reg.Of(t) == reg.os || reg.Of(t) == reg.platform || reg.Of(t) == reg.delivery;
      }
      EntriesNoNewline(reg.Of(t));
      HeaderNoNewline(t);
    }
  }

  /** The listing is the separator followed by one line with no break in it. */
  lemma InfoSingleLine(sep: string, reg: Registry)
    requires RegistryUnbroken(reg)
    ensures Info(sep, reg)[..|sep|] == sep
    ensures '\n' !in Info(sep, reg)[|sep|..]
  {
    SectionsNoNewline(ListedTypes, reg);
    assert Info(sep, reg)[|sep|..] == Sections(ListedTypes, reg);
  }

  /** Every registered plugin is listed, after its type's header. */
  lemma {:induction false} EntryListed(ps: seq<Plugin>, k: nat)
    requires k < |ps|
    ensures Contains(Entries(ps), Entry(ps[k]))
    decreases |ps|
  {
    var init := ps[..|ps| - 1];
    if k == |ps| - 1 {
      assert OccursAt(Entries(ps), Entry(ps[k]), |Entries(init)|);
    } else {
      EntryListed(init, k);
      var i: nat :| i <= |Entries(init)| && OccursAt(Entries(init), Entry(ps[k]), i);
      assert Entries(ps)[i..i + |Entry(ps[k])|] == Entries(init)[i..i + |Entry(ps[k])|];
      assert OccursAt(Entries(ps), Entry(ps[k]), i);
    }
  }

  /** The headers of the given types, one after another. */
  function Headers(ts: seq<PluginType>): string {
    if ts == [] then "" else Headers(ts[..|ts| - 1]) + Header(ts[|ts| - 1])
  }

  /** With nothing registered, each section is its header alone. */
  lemma {:induction false} EmptySections(ts: seq<PluginType>)
    ensures Sections(ts, Registry([], [], [])) == Headers(ts)
  {
    if ts != [] {
      EmptySections(ts[..|ts| - 1]);
      var t := ts[|ts| - 1];
      assert Registry([], [], []).Of(t) == [];
    }
  }

  /** With nothing registered, the listing is the separator and the three headers. */
  lemma EmptyRegistryInfo(sep: string)
    ensures Info(sep, Registry([], [], [])) == sep + Header(Os) + Header(Platform) + Header(Delivery)
  {
    EmptySections(ListedTypes);
    var ts := ListedTypes;
    assert ts[..2][..1] == [Os] && ts[..1][..0] == [] && ts[..2] == [Os, Platform];
    assert Headers([Os]) == Header(Os);
  }
}
