/**
 * The libvirt delivery plugin: how `validate` derives its settings from the
 * configuration (and writes some back into it), which way `execute` delivers
 * the disk, the domain description `build_xml` produces, and the policy of
 * `determine_remotely` towards a domain that already has the appliance's
 * name.  Connections, domains and capability probing are parameters; the
 * effects on the hypervisor are recorded in order.
 */
module LibvirtPlugin {
  import opened Wrappers
  import opened Strings
  import opened PluginConfig
  import TransferPlugin
  import SftpHelper

  const LibvirtDefaults: seq<(string, Value)> := [
    ("script", Bool(false)),
    ("image_delivery_uri", Str("/var/lib/libvirt/images/")),
    ("graphics", Str("none")),
    ("no_auto_console", Bool(true)),
    ("network", Str("default")),
    ("remote_no_verify", Bool(true)),
    ("bus", Bool(false)),
    ("overwrite", Bool(false)),
    ("default_permissions", Int(0x1A4)),
    ("dump_xml", Bool(false)),
    ("domain_type", Bool(false)),
    ("virt_type", Bool(false)),
    ("undefine_existing", Bool(false))
  ]

  const RequiredKeys := ["libvirt_hypervisor_uri"]

  // ---------------------------------------------------------------- URIs

  /** The first index at or after `i` holding one of `stops`, or the end. */
  function IndexOfAny(s: string, stops: set<char>, i: nat): (k: nat)
    requires i <= |s|
    ensures i <= k <= |s|
    ensures forall j :: i <= j < k ==> s[j] !in stops
    ensures k < |s| ==> s[k] in stops
    decreases |s| - i
  {
    if i == |s| || s[i] in stops then i else IndexOfAny(s, stops, i + 1)
  }

  /** What `URI.parse` yields that the plugin reads. */
  datatype ParsedUri = ParsedUri(scheme: Option<string>, path: Option<string>)

  /**
   * `URI.parse(s)`, per the generic syntax of section 3 of RFC 3986: a
   * scheme if there is one; the path after the authority when "//" follows
   * the scheme, the absolute path when a single '/' follows it ("file:/x"),
   * the whole reference up to any query or fragment when there is no scheme,
   * and no path for an opaque URI such as "mailto:x".
   */
  function ParseUri(s: string): (u: ParsedUri)
    ensures u.scheme == TransferPlugin.Scheme(s)
    ensures u.scheme.None? ==> u.path.Some? && u.path.value <= s
    ensures u.path.Some? ==> '?' !in u.path.value && '#' !in u.path.value
    ensures u.scheme.Some? ==> (u.path.Some? <==> |s| > |u.scheme.value| + 1 && s[|u.scheme.value| + 1] == '/')
  {
    match TransferPlugin.Scheme(s)
    case None =>
      var e := IndexOfAny(s, {'?', '#'}, 0);
      assert forall j :: 0 <= j < e ==> s[..e][j] == s[j];
      ParsedUri(None, Some(s[..e]))
    case Some(sc) =>
      var rest := s[|sc| + 1..];
      if |rest| >= 2 && rest[..2] == "//" then
        var a := IndexOfAny(rest, {'/', '?', '#'}, 2);
        var e := IndexOfAny(rest, {'?', '#'}, a);
        assert forall j :: 0 <= j < e - a ==> rest[a..e][j] == rest[a + j];
        ParsedUri(Some(sc), Some(rest[a..e]))
      else if |rest| >= 1 && rest[0] == '/' then
        var e := IndexOfAny(rest, {'?', '#'}, 0);
        assert forall j :: 0 <= j < e ==> rest[..e][j] == rest[j];
        ParsedUri(Some(sc), Some(rest[..e]))
      else ParsedUri(Some(sc), None)
  }

  /** A scheme followed by a single '/' has that absolute path, as in "file:/var/lib/libvirt/images". */
  lemma SchemeAbsolutePath(s: string, sc: string)
    requires TransferPlugin.Scheme(s) == Some(sc)
    requires |s| > |sc| + 1 && s[|sc| + 1] == '/'
    requires |s| == |sc| + 2 || s[|sc| + 2] != '/'
    requires forall j :: |sc| + 1 <= j < |s| ==> s[j] != '?' && s[j] != '#'
    ensures ParseUri(s) == ParsedUri(Some(sc), Some(s[|sc| + 1..]))
  {
    var rest := s[|sc| + 1..];
    assert !(|rest| >= 2 && rest[..2] == "//") by {
      if |rest| >= 2 { assert rest[..2][1] == s[|sc| + 2]; }
    }
    var e := IndexOfAny(rest, {'?', '#'}, 0);
    assert e == |rest|;
    assert rest[..e] == rest;
  }

  /** The `image_delivery_uri` "file:/var/lib/libvirt/images" is delivered to "/var/lib/libvirt/images". */
  /** A `file:` URI followed by an absolute path, with no query or fragment, has that path. */
  lemma FileSchemePath(s: string)
    requires |s| >= 6 && s[..5] == "file:" && s[5] == '/' && (|s| == 6 || s[6] != '/')
    requires forall j :: 5 <= j < |s| ==> s[j] != '?' && s[j] != '#'
    ensures ParseUri(s) == ParsedUri(Some("file"), Some(s[5..]))
  {
    assert s[1] == s[..5][1] && s[2] == s[..5][2] && s[3] == s[..5][3] && s[4] == s[..5][4];
    assert TransferPlugin.SchemeEnd(s, 4) == 4;
    assert TransferPlugin.SchemeEnd(s, 1) == 4;
    assert s[..4] == s[..5][..4] == "file";
    SchemeAbsolutePath(s, "file");
  }

  lemma FileUriPath()
    ensures ParseUri("file:/var/lib/libvirt/images") == ParsedUri(Some("file"), Some("/var/lib/libvirt/images"))
  {
    var s := "file:/var/lib/libvirt/images";
    FileSchemePath(s);
  }

  /** A local directory such as the default delivery URI is its own path. */
  lemma LocalPathIsPath(s: string)
    requires |s| >= 1 && s[0] == '/'
    requires forall j :: 0 <= j < |s| ==> s[j] != '?' && s[j] != '#'
    ensures ParseUri(s) == ParsedUri(None, Some(s))
  {
    assert TransferPlugin.Scheme(s) == None;
    var e := IndexOfAny(s, {'?', '#'}, 0);
    assert e == |s|;
    assert s[..e] == s;
  }

  // ---------------------------------------------------------------- validate

  /** The appliance definition fields the plugin reads. */
  datatype Appliance = Appliance(name: string, version: string, release: string, osName: string, osVersion: string,
                                 arch: string, summary: string, memory: int, cpus: int, pae: bool)

  /** `"#{name}-#{version}.#{release}-#{os.name}-#{os.version}-#{arch}-#{platform}"` */
  function ApplianceName(a: Appliance, platform: string): string {
    a.name + "-" + a.version + "." + a.release + "-" + a.osName + "-" + a.osVersion + "-" + a.arch + "-" + platform
  }

  datatype Settings = Settings(
    script: Value,
    deliveryUri: ParsedUri,
    dumpXml: Value,
    imageUri: Value,
    network: Value,
    domainType: Value,
    virtType: Value,
    undefineExisting: Value,
    noVerify: nat,
    hypervisorUri: string,
    bus: Value,
    applianceName: string)

  datatype LibvirtError =
    | Invalid(e: ValidationError)
    | UnparsableUri            // the delivery URI is not a string
    | CannotAppend             // the hypervisor URI is not a string, so `<<` raises

  /** `@remote_no_verify`: 1 when the setting is truthy, else 0. */
  function NoVerify(v: Value): nat {
    if Truthy(v) then 1 else 0
  }

  function NoVerifySuffix(n: nat): string {
    "?no_verify=" + NatToString(n)
  }

  /** `plugin_config['libvirt_image_uri'] ||= uri.path`: keeps a truthy value, else stores the delivery URI's path. */
  function WithImageUri(values: map<string, Value>, u: ParsedUri): map<string, Value> {
    if Truthy(Get(values, "libvirt_image_uri")) then values
    else values["libvirt_image_uri" := if u.path.Some? then Str(u.path.value) else Nil]
  }

  /**
   * `validate` after the defaults are in place: the configuration it leaves
   * behind, and the settings it derives or why it raised.
   */
  function Derive(d: map<string, Value>, a: Appliance, platform: string): (map<string, Value>, Result<Settings, LibvirtError>) {
    if FirstMissing(d, RequiredKeys).Some? then (d, Failure(Invalid(MissingKey(FirstMissing(d, RequiredKeys).value))))
    else if !Get(d, "image_delivery_uri").Str? then (d, Failure(UnparsableUri))
    else
      var u := ParseUri(Get(d, "image_delivery_uri").s);
      var withImage := WithImageUri(d, u);
      var hv := Get(withImage, "libvirt_hypervisor_uri");
      if !hv.Str? then (withImage, Failure(CannotAppend))
      else
        var n := NoVerify(Get(withImage, "remote_no_verify"));
        var hypervisor := hv.s + NoVerifySuffix(n);
        var final := withImage["libvirt_hypervisor_uri" := Str(hypervisor)];
        (final, Success(SettingsOf(final, u, n, hypervisor, ApplianceName(a, platform))))
  }

  /** The instance variables `validate` sets, read from the final configuration. */
  function SettingsOf(values: map<string, Value>, u: ParsedUri, n: nat, hypervisor: string, name: string): (s: Settings)
    ensures s.deliveryUri == u && s.noVerify == n && s.hypervisorUri == hypervisor && s.applianceName == name
    ensures s.imageUri == Get(values, "libvirt_image_uri")
  {
    Settings(
      Get(values, "script"), u, Get(values, "dump_xml"), Get(values, "libvirt_image_uri"), Get(values, "network"),
      Get(values, "domain_type"), Get(values, "virt_type"), Get(values, "undefine_existing"), n, hypervisor,
      Get(values, "bus"), name)
  }

  /** `set_defaults` followed by `validate`. */
  function Validated(values: map<string, Value>, a: Appliance, platform: string): (map<string, Value>, Result<Settings, LibvirtError>) {
    Derive(Defaulted(values, LibvirtDefaults), a, platform)
  }

  /** `validate` (with `set_defaults`), changing the configuration in place. */
  method Validate(config: Config, a: Appliance, platform: string) returns (r: Result<Settings, LibvirtError>)
    modifies config
    ensures (config.values, r) == Validated(old(config.values), a, platform)
  {
    config.SetDefaults(LibvirtDefaults);
    var checked := config.ValidateFields(RequiredKeys);
    if checked.Fail? {
      return Failure(Invalid(checked.error));
    }
    var delivery := Get(config.values, "image_delivery_uri");
    if !delivery.Str? {
      return Failure(UnparsableUri);
    }
    var u := ParseUri(delivery.s);
    if !Truthy(Get(config.values, "libvirt_image_uri")) {
      config.values := config.values["libvirt_image_uri" := if u.path.Some? then Str(u.path.value) else Nil];
    }
    var hv := Get(config.values, "libvirt_hypervisor_uri");
    if !hv.Str? {
      return Failure(CannotAppend);
    }
    var n := NoVerify(Get(config.values, "remote_no_verify"));
    config.values := config.values["libvirt_hypervisor_uri" := Str(hv.s + NoVerifySuffix(n))];
    r := Success(SettingsOf(config.values, u, n, hv.s + NoVerifySuffix(n), ApplianceName(a, platform)));
  }

  lemma NoNilDefaults()
    ensures forall k :: 0 <= k < |LibvirtDefaults| ==> !LibvirtDefaults[k].1.Nil?
  {
  }

  /** Neither of the keys `validate` writes has a default. */
  lemma WrittenKeysUndefaulted()
    ensures forall k :: 0 <= k < |LibvirtDefaults| ==>
      LibvirtDefaults[k].0 != "libvirt_image_uri" && LibvirtDefaults[k].0 != "libvirt_hypervisor_uri"
  {
  }

  /**
   * What a successful derivation writes: the hypervisor URI with the suffix
   * appended and possibly the image URI; every other key is as it was.
   */
  lemma DeriveWrites(d: map<string, Value>, a: Appliance, platform: string, key: string)
    requires Derive(d, a, platform).1.Success?
    ensures Get(d, "libvirt_hypervisor_uri").Str?
    ensures Get(Derive(d, a, platform).0, "libvirt_hypervisor_uri") == Str(Derive(d, a, platform).1.value.hypervisorUri)
    ensures Derive(d, a, platform).1.value.noVerify == NoVerify(Get(d, "remote_no_verify"))
    ensures Derive(d, a, platform).1.value.hypervisorUri == Get(d, "libvirt_hypervisor_uri").s + NoVerifySuffix(Derive(d, a, platform).1.value.noVerify)
    ensures key != "libvirt_image_uri" && key != "libvirt_hypervisor_uri" ==> Get(Derive(d, a, platform).0, key) == Get(d, key)
  {
  }

  /**
   * The suffix is appended to the configured string itself: a second
   * `validate` on the same configuration appends it a second time.
   */
  lemma NoVerifyAppendsAgain(values: map<string, Value>, a: Appliance, platform: string)
    requires Validated(values, a, platform).1.Success?
    ensures Get(values, "libvirt_hypervisor_uri").Str?
    ensures Validated(values, a, platform).1.value.hypervisorUri ==
      Get(values, "libvirt_hypervisor_uri").s + NoVerifySuffix(Validated(values, a, platform).1.value.noVerify)
    ensures Validated(Validated(values, a, platform).0, a, platform).1.Success?
    ensures Validated(Validated(values, a, platform).0, a, platform).1.value.hypervisorUri ==
      Validated(values, a, platform).1.value.hypervisorUri + NoVerifySuffix(Validated(values, a, platform).1.value.noVerify)
  {
    var d := Defaulted(values, LibvirtDefaults);
    HypervisorUndefaulted(values);
    DeriveWrites(d, a, platform, "libvirt_hypervisor_uri");
    SettledAfterValidate(values, a, platform);
    ValidatedSettled(Derive(d, a, platform).0, a, platform);
    DeriveTwice(d, a, platform);
  }

  lemma HypervisorUndefaulted(values: map<string, Value>)
    ensures Get(Defaulted(values, LibvirtDefaults), "libvirt_hypervisor_uri") == Get(values, "libvirt_hypervisor_uri")
  {
    WrittenKeysUndefaulted();
    DefaultedOther(values, LibvirtDefaults, "libvirt_hypervisor_uri");
  }

  /** `validate` raises for the required key exactly when no hypervisor URI is configured. */
  lemma MissingHypervisorFails(values: map<string, Value>, a: Appliance, platform: string)
    ensures Validated(values, a, platform).1 == Failure(Invalid(MissingKey("libvirt_hypervisor_uri"))) <==>
      Get(values, "libvirt_hypervisor_uri").Nil?
  {
    HypervisorUndefaulted(values);
    DeriveMissing(Defaulted(values, LibvirtDefaults), a, platform);
  }

  lemma DeriveMissing(d: map<string, Value>, a: Appliance, platform: string)
    ensures Derive(d, a, platform).1 == Failure(Invalid(MissingKey("libvirt_hypervisor_uri"))) <==>
      Get(d, "libvirt_hypervisor_uri").Nil?
  {
    assert RequiredKeys[1..] == [];
    assert FirstMissing(d, RequiredKeys[1..]) == None;
    if Get(d, "libvirt_hypervisor_uri").Nil? {
      assert FirstMissing(d, RequiredKeys) == Some("libvirt_hypervisor_uri");
    } else {
      assert FirstMissing(d, RequiredKeys) == None;
    }
  }

  /**
   * The settings `validate` derives: the appliance name, and the network,
   * certificate check, dump flag and undefine policy as configured or, when
   * not configured, as defaulted; an unconfigured delivery URI is the local
   * image directory.
   */
  lemma ValidatedSettings(values: map<string, Value>, a: Appliance, platform: string)
    requires Validated(values, a, platform).1.Success?
    ensures var s := Validated(values, a, platform).1.value;
      && s.applianceName == a.name + "-" + a.version + "." + a.release + "-" + a.osName + "-" + a.osVersion + "-" + a.arch + "-" + platform
      && s.network == (if Get(values, "network").Nil? then Str("default") else Get(values, "network"))
      && s.noVerify == (if Get(values, "remote_no_verify").Nil? || Truthy(Get(values, "remote_no_verify")) then 1 else 0)
      && s.dumpXml == (if Get(values, "dump_xml").Nil? then Bool(false) else Get(values, "dump_xml"))
      && s.undefineExisting == (if Get(values, "undefine_existing").Nil? then Bool(false) else Get(values, "undefine_existing"))
      && (Get(values, "image_delivery_uri").Nil? ==> s.deliveryUri == ParsedUri(None, Some("/var/lib/libvirt/images/")))
  {
    DefaultedSettings(values);
    DeriveSettings(Defaulted(values, LibvirtDefaults), a, platform);
    DefaultDeliveryIsLocal();
  }

  /** The defaults of the keys the settings read. */
  lemma DefaultedSettings(values: map<string, Value>)
    ensures var d := Defaulted(values, LibvirtDefaults);
      && Get(d, "image_delivery_uri") == (if Get(values, "image_delivery_uri").Nil? then Str("/var/lib/libvirt/images/") else Get(values, "image_delivery_uri"))
      && Get(d, "network") == (if Get(values, "network").Nil? then Str("default") else Get(values, "network"))
      && Get(d, "remote_no_verify") == (if Get(values, "remote_no_verify").Nil? then Bool(true) else Get(values, "remote_no_verify"))
      && Get(d, "dump_xml") == (if Get(values, "dump_xml").Nil? then Bool(false) else Get(values, "dump_xml"))
      && Get(d, "undefine_existing") == (if Get(values, "undefine_existing").Nil? then Bool(false) else Get(values, "undefine_existing"))
  {
    DefaultedDeliveryUri(values);
    DefaultedNetwork(values);
    DefaultedNoVerify(values);
    DefaultedDumpXml(values);
    DefaultedUndefineExisting(values);
  }

  lemma DefaultedDeliveryUri(values: map<string, Value>)
    ensures Get(Defaulted(values, LibvirtDefaults), "image_delivery_uri") == (if Get(values, "image_delivery_uri").Nil? then Str("/var/lib/libvirt/images/") else Get(values, "image_delivery_uri"))
  {
    NoNilDefaults();
    DefaultedAt(values, LibvirtDefaults, 1);
  }

  lemma DefaultedNetwork(values: map<string, Value>)
    ensures Get(Defaulted(values, LibvirtDefaults), "network") == (if Get(values, "network").Nil? then Str("default") else Get(values, "network"))
  {
    NoNilDefaults();
    DefaultedAt(values, LibvirtDefaults, 4);
  }

  lemma DefaultedNoVerify(values: map<string, Value>)
    ensures Get(Defaulted(values, LibvirtDefaults), "remote_no_verify") == (if Get(values, "remote_no_verify").Nil? then Bool(true) else Get(values, "remote_no_verify"))
  {
    NoNilDefaults();
    DefaultedAt(values, LibvirtDefaults, 5);
  }

  lemma DefaultedDumpXml(values: map<string, Value>)
    ensures Get(Defaulted(values, LibvirtDefaults), "dump_xml") == (if Get(values, "dump_xml").Nil? then Bool(false) else Get(values, "dump_xml"))
  {
    NoNilDefaults();
    DefaultedAt(values, LibvirtDefaults, 9);
  }

  lemma DefaultedUndefineExisting(values: map<string, Value>)
    ensures Get(Defaulted(values, LibvirtDefaults), "undefine_existing") == (if Get(values, "undefine_existing").Nil? then Bool(false) else Get(values, "undefine_existing"))
  {
    NoNilDefaults();
    DefaultedAt(values, LibvirtDefaults, 12);
  }

  lemma DeriveSettings(d: map<string, Value>, a: Appliance, platform: string)
    requires Derive(d, a, platform).1.Success?
    ensures var s := Derive(d, a, platform).1.value;
      && s.applianceName == ApplianceName(a, platform)
      && s.network == Get(d, "network")
      && s.noVerify == NoVerify(Get(d, "remote_no_verify"))
      && s.dumpXml == Get(d, "dump_xml")
      && s.undefineExisting == Get(d, "undefine_existing")
      && Get(d, "image_delivery_uri").Str? && s.deliveryUri == ParseUri(Get(d, "image_delivery_uri").s)
  {
  }

  /** On a configuration the defaults leave alone, `validate` is the derivation alone. */
  lemma ValidatedSettled(m: map<string, Value>, a: Appliance, platform: string)
    requires Defaulted(m, LibvirtDefaults) == m
    ensures Validated(m, a, platform) == Derive(m, a, platform)
  {
  }

  /** The defaults leave a validated configuration as it is. */
  lemma SettledAfterValidate(values: map<string, Value>, a: Appliance, platform: string)
    requires Validated(values, a, platform).1.Success?
    ensures Defaulted(Validated(values, a, platform).0, LibvirtDefaults) == Validated(values, a, platform).0
  {
    NoNilDefaults();
    DefaultedCovers(values, LibvirtDefaults);
    SettledAfterDerive(Defaulted(values, LibvirtDefaults), a, platform);
  }

  /** Every key with a default still holds a value after the derivation, so the defaults leave its result alone. */
  lemma SettledAfterDerive(d: map<string, Value>, a: Appliance, platform: string)
    requires Derive(d, a, platform).1.Success?
    requires forall k :: 0 <= k < |LibvirtDefaults| ==> !Get(d, LibvirtDefaults[k].0).Nil?
    ensures Defaulted(Derive(d, a, platform).0, LibvirtDefaults) == Derive(d, a, platform).0
  {
    var first := Derive(d, a, platform).0;
    forall k | 0 <= k < |LibvirtDefaults|
      ensures !Get(first, LibvirtDefaults[k].0).Nil?
    {
      DeriveWrites(d, a, platform, LibvirtDefaults[k].0);
    }
    DefaultedSettled(first, LibvirtDefaults);
  }

  /** Deriving again from the derived configuration appends the same suffix once more. */
  lemma DeriveTwice(d: map<string, Value>, a: Appliance, platform: string)
    requires Derive(d, a, platform).1.Success?
    ensures
      var first := Derive(d, a, platform);
      var second := Derive(first.0, a, platform);
      && second.1.Success?
      && second.1.value.hypervisorUri == first.1.value.hypervisorUri + NoVerifySuffix(first.1.value.noVerify)
  {
    var first := Derive(d, a, platform);
    DeriveWrites(d, a, platform, "remote_no_verify");
    DeriveWrites(d, a, platform, "image_delivery_uri");
    assert FirstMissing(first.0, RequiredKeys).None?;
    DeriveWrites(first.0, a, platform, "remote_no_verify");
  }

  /**
   * With no `libvirt_image_uri` configured, the image URI is the delivery
   * URI's path, and that value is written back into the configuration.
   */
  lemma ImageUriDefaultsToDeliveryPath(values: map<string, Value>, a: Appliance, platform: string)
    requires Validated(values, a, platform).1.Success?
    requires !Truthy(Get(values, "libvirt_image_uri"))
    ensures
      var r := Validated(values, a, platform);
      var p := r.1.value.deliveryUri.path;
      && r.1.value.imageUri == (if p.Some? then Str(p.value) else Nil)
      && Get(r.0, "libvirt_image_uri") == r.1.value.imageUri
  {
    var d := Defaulted(values, LibvirtDefaults);
    WrittenKeysUndefaulted();
    DefaultedOther(values, LibvirtDefaults, "libvirt_image_uri");
    DeriveImageUri(d, a, platform);
  }

  lemma DeriveImageUri(d: map<string, Value>, a: Appliance, platform: string)
    requires Derive(d, a, platform).1.Success?
    requires !Truthy(Get(d, "libvirt_image_uri"))
    ensures
      var r := Derive(d, a, platform);
      var p := r.1.value.deliveryUri.path;
      && r.1.value.imageUri == (if p.Some? then Str(p.value) else Nil)
      && Get(r.0, "libvirt_image_uri") == r.1.value.imageUri
  {
  }

  // ---------------------------------------------------------------- execute

  datatype Delivery = Upload | LocalCopy

  /** `@image_delivery_uri.scheme =~ /(sftp|scp)/`: "sftp" or "scp" anywhere in the scheme means upload. */
  function DeliveryMode(scheme: Option<string>): (d: Delivery)
    ensures d == Upload <==> scheme.Some? && (Contains(scheme.value, "sftp") || Contains(scheme.value, "scp"))
  {
    if scheme.Some? && (Contains(scheme.value, "sftp") || Contains(scheme.value, "scp")) then Upload else LocalCopy
  }

  datatype XmlSource = Locally | Remotely

  /** What `execute` does, in order: deliver the disk, produce the description, write it to "<appliance name>.xml". */
  datatype ExecutePlan = ExecutePlan(delivery: Delivery, xml: XmlSource, file: string)

  function Execute(s: Settings): (p: ExecutePlan)
    ensures p.delivery == DeliveryMode(s.deliveryUri.scheme)
    ensures p.xml == Locally <==> Truthy(s.dumpXml)
    ensures p.file == s.applianceName + ".xml"
  {
    ExecutePlan(DeliveryMode(s.deliveryUri.scheme), if Truthy(s.dumpXml) then Locally else Remotely, s.applianceName + ".xml")
  }

  /** The default delivery directory is copied to locally, and the description comes from the hypervisor. */
  lemma DefaultDeliveryIsLocal()
    ensures ParseUri("/var/lib/libvirt/images/") == ParsedUri(None, Some("/var/lib/libvirt/images/"))
    ensures DeliveryMode(ParseUri("/var/lib/libvirt/images/").scheme) == LocalCopy
  {
    LocalPathIsPath("/var/lib/libvirt/images/");
  }

  /** An "sftp://" delivery URI is uploaded to. */
  lemma SftpDeliveryUploads(rest: string)
    ensures DeliveryMode(ParseUri("sftp://" + rest).scheme) == Upload
  {
    TransferPlugin.SftpScheme(rest);
    assert OccursAt("sftp", "sftp", 0);
  }

  /**
   * With neither a delivery URI nor dump_xml configured, `execute` copies the
   * disk to the local image directory, asks the hypervisor for the
   * description and writes it to "<appliance name>.xml".
   */
  lemma DefaultExecution(values: map<string, Value>, a: Appliance, platform: string)
    requires Validated(values, a, platform).1.Success?
    requires Get(values, "image_delivery_uri").Nil? && Get(values, "dump_xml").Nil?
    ensures Execute(Validated(values, a, platform).1.value) == ExecutePlan(LocalCopy, Remotely, ApplianceName(a, platform) + ".xml")
  {
    ValidatedSettings(values, a, platform);
    DefaultDeliveryIsLocal();
  }

  /**
   * `upload_image`: a fresh SFTP client connects, uploads the one disk file
   * under its base name into the delivery path, and is disconnected on the
   * way out when it is connected.  `connects` says whether `connect`
   * succeeds; `None` stands for its exception.
   */
  method UploadImage(s: Settings, overwrite: Value, disk: string, connects: bool, size: string -> nat, env: SftpHelper.Remote)
    returns (run: Option<SftpHelper.Run>, disconnected: bool)
    ensures connects ==> disconnected
    ensures connects ==> run == Some(SftpHelper.Upload(true, s.deliveryUri.path.GetOr(""), [(Basename(disk), disk)], Truthy(overwrite), size, env))
    ensures !connects ==> run == None && !disconnected
  {
    var uploader := new SftpHelper.SshClient();
    if connects {
      uploader.Connect();
      var r := uploader.UploadFiles(s.deliveryUri.path.GetOr(""), [(Basename(disk), disk)], Truthy(overwrite), size, env);
      run := Some(r);
    } else {
      run := None;
    }
    disconnected := false;
    if uploader.Connected() {
      disconnected := uploader.Disconnect();
    }
  }

  // ---------------------------------------------------------------- build_xml

  /** What the capabilities offer for the guest. */
  datatype Guest = Guest(domainType: Value, osType: Value, bus: Value)

  /** The domain description `_build_xml` writes, field by field. */
  datatype DomainXml = DomainXml(
    domainType: string, name: string, description: string, memoryBytes: int, vcpu: int,
    osType: string, arch: string, diskSource: string, diskBus: string, network: Value, pae: bool)

  /** `to_s` of a configuration value. */
  function ToS(v: Value): string {
    match v
    case Nil => ""
    case Bool(b) => if b then "true" else "false"
    case Int(i) => IntToString(i)
    case Str(s) => s
  }

  /**
   * `build_xml(guest)`: each of domain type, OS type and bus comes from the
   * configured override when it is truthy, else from the guest.  The defaults
   * hash `_build_xml` builds first is discarded, so the previous plugin's name
   * never reaches the description.
   */
  function BuildXml(s: Settings, a: Appliance, guest: Guest, disk: string): (x: DomainXml)
    ensures x.domainType == ToS(if Truthy(s.domainType) then s.domainType else guest.domainType)
    ensures x.osType == ToS(if Truthy(s.virtType) then s.virtType else guest.osType)
    ensures x.diskBus == ToS(if Truthy(s.bus) then s.bus else guest.bus)
    ensures x.memoryBytes == a.memory * 1048576
    ensures x.diskSource == ToS(s.imageUri) + "/" + Basename(disk)
  {
    DomainXml(
      ToS(Or(s.domainType, guest.domainType)), s.applianceName, a.summary, a.memory * (1024 * 1024), a.cpus,
      ToS(Or(s.virtType, guest.osType)), a.arch, ToS(s.imageUri) + "/" + Basename(disk),
      ToS(Or(s.bus, guest.bus)), s.network, a.pae)
  }

  // ---------------------------------------------------------------- determine_remotely

  datatype DomainState = NoState | Running | Blocked | Paused | Shutdown | Shutoff | Crashed

  datatype Domain = Domain(name: string, state: DomainState)

  /** `conn.lookup_domain_by_name(name)`: a domain, or a libvirt error with its code. */
  datatype DomainLookup = Found(dom: Domain) | LookupError(code: int)

  /** The libvirt code for "domain not found". */
  const NoDomain := 42

  /** `get_existing_domain`: the domain, nil for code 42, any other code re-raised. */
  function ExistingDomain(l: DomainLookup): (r: Result<Option<Domain>, int>)
    ensures r == Success(None) <==> l == LookupError(NoDomain)
    ensures r.Failure? <==> l.LookupError? && l.code != NoDomain
    ensures r.Failure? ==> r.error == l.code
    ensures l.Found? ==> r == Success(Some(l.dom))
  {
    match l
    case Found(d) => Success(Some(d))
    case LookupError(c) => if c == NoDomain then Success(None) else Failure(c)
  }

  /** What `determine_remotely` does on the hypervisor, in order. */
  datatype Effect = OpenConnection(uri: string) | Destroy(name: string) | Undefine(name: string) | Define(xml: DomainXml) | CloseConnection

  /** `undefine_domain`: a running, paused or blocked domain is destroyed first; every domain is undefined. */
  function UndefineDomain(d: Domain): (e: seq<Effect>)
    ensures |e| >= 1 && e[|e| - 1] == Undefine(d.name)
    ensures Destroy(d.name) in e <==> d.state in {Running, Paused, Blocked}
    ensures forall k :: 0 <= k < |e| ==> e[k] == Destroy(d.name) || e[k] == Undefine(d.name)
  {
    match d.state
    case Running => [Destroy(d.name), Undefine(d.name)]
    case Paused => [Destroy(d.name), Undefine(d.name)]
    case Blocked => [Destroy(d.name), Undefine(d.name)]
    case _ => [Undefine(d.name)]
  }

  /** The domain of the same name is replaced only when `undefine_existing` lets it be. */
  function Replacing(lookup: DomainLookup): seq<Effect> {
    if lookup.Found? then UndefineDomain(lookup.dom) else []
  }

  /** In a trace `[open] + undo + tail`, destroy and undefine steps can only come from `undo`. */
  lemma ReplacementInside(e: seq<Effect>, open: Effect, undo: seq<Effect>, tail: seq<Effect>)
    requires e == [open] + undo + tail
    requires !open.Destroy? && !open.Undefine?
    requires forall x :: x in tail ==> !x.Destroy? && !x.Undefine?
    ensures e[1..1 + |undo|] == undo
    ensures forall k :: 0 <= k < |e| && (e[k].Destroy? || e[k].Undefine?) ==> 1 <= k < 1 + |undo| && e[k] == undo[k - 1]
  {
  }

  datatype RemoteError =
    | ConnectFailed
    | LibvirtCode(code: int)
    | DomainExists(name: string)   // "Domain '<name>' already exists"
    | NoViableGuest               // "Remote libvirt machine offered no viable guests!"

  /**
   * The connection part of `determine_remotely`: open the connection; deal
   * with a domain of the same name; define `define`, the description built
   * for the guest the hypervisor offers (none when it offers no viable
   * guest).  The connection, once open, is closed on every way out.
   */
  method RemoteSession(s: Settings, opens: bool, lookup: DomainLookup, define: Option<DomainXml>)
    returns (r: Result<DomainXml, RemoteError>, effects: seq<Effect>)
    ensures !opens ==> r == Failure(ConnectFailed) && effects == []
    ensures opens ==> |effects| >= 2 && effects[0] == OpenConnection(s.hypervisorUri) && effects[|effects| - 1] == CloseConnection
    ensures opens && ExistingDomain(lookup).Failure? ==>
      r == Failure(LibvirtCode(lookup.code)) && effects == [OpenConnection(s.hypervisorUri), CloseConnection]
    ensures opens && lookup.Found? && !Truthy(s.undefineExisting) ==>
      r == Failure(DomainExists(s.applianceName)) && effects == [OpenConnection(s.hypervisorUri), CloseConnection]
    ensures opens && lookup.Found? && Truthy(s.undefineExisting) ==>
      |effects| >= 2 + |UndefineDomain(lookup.dom)| && effects[1..1 + |UndefineDomain(lookup.dom)|] == UndefineDomain(lookup.dom)
    ensures r.Success? <==> opens && ExistingDomain(lookup).Success? && (lookup.Found? ==> Truthy(s.undefineExisting)) && define.Some?
    ensures r.Success? ==> r.value == define.value && effects[|effects| - 2] == Define(r.value)
    ensures forall k :: 0 <= k < |effects| && (effects[k].Destroy? || effects[k].Undefine?) ==> lookup.Found? && Truthy(s.undefineExisting)
    ensures opens && ExistingDomain(lookup).Success? && (lookup.Found? ==> Truthy(s.undefineExisting)) && define.None? ==>
      r == Failure(NoViableGuest)
    ensures r == Failure(NoViableGuest) ==> effects == [OpenConnection(s.hypervisorUri)] + Replacing(lookup) + [CloseConnection]
    ensures r.Success? ==> effects == [OpenConnection(s.hypervisorUri)] + Replacing(lookup) + [Define(r.value), CloseConnection]
  {
    if !opens {
      return Failure(ConnectFailed), [];
    }
    var open := OpenConnection(s.hypervisorUri);
    var existing := ExistingDomain(lookup);
    if existing.Failure? {
      return Failure(LibvirtCode(existing.error)), [open, CloseConnection];
    }
    var undo: seq<Effect> := [];
    if existing.value.Some? {
      if !Truthy(s.undefineExisting) {
        return Failure(DomainExists(s.applianceName)), [open, CloseConnection];
      }
      undo := UndefineDomain(existing.value.value);
    }
    assert undo == Replacing(lookup);
    if define.None? {
      effects := [open] + undo + [CloseConnection];
      ReplacementInside(effects, open, undo, [CloseConnection]);
      return Failure(NoViableGuest), effects;
    }
    effects := [open] + undo + [Define(define.value), CloseConnection];
    ReplacementInside(effects, open, undo, [Define(define.value), CloseConnection]);
    r := Success(define.value);
  }

  /**
   * `determine_remotely`: the session above, defining the description
   * `build_xml` gives for the offered guest.
   */
  method DetermineRemotely(s: Settings, a: Appliance, disk: string, opens: bool, lookup: DomainLookup, guest: Option<Guest>)
    returns (r: Result<DomainXml, RemoteError>, effects: seq<Effect>)
    ensures !opens ==> r == Failure(ConnectFailed) && effects == []
    ensures opens ==> |effects| >= 2 && effects[0] == OpenConnection(s.hypervisorUri) && effects[|effects| - 1] == CloseConnection
    ensures opens && ExistingDomain(lookup).Failure? ==>
      r == Failure(LibvirtCode(lookup.code)) && effects == [OpenConnection(s.hypervisorUri), CloseConnection]
    ensures opens && lookup.Found? && !Truthy(s.undefineExisting) ==>
      r == Failure(DomainExists(s.applianceName)) && effects == [OpenConnection(s.hypervisorUri), CloseConnection]
    ensures r.Success? <==> opens && ExistingDomain(lookup).Success? && (lookup.Found? ==> Truthy(s.undefineExisting)) && guest.Some?
    ensures opens && lookup.Found? && Truthy(s.undefineExisting) ==>
      |effects| >= 2 + |UndefineDomain(lookup.dom)| && effects[1..1 + |UndefineDomain(lookup.dom)|] == UndefineDomain(lookup.dom)
    ensures r.Success? ==> r.value == BuildXml(s, a, guest.value, disk) && effects[|effects| - 2] == Define(r.value)
    ensures forall k :: 0 <= k < |effects| && (effects[k].Destroy? || effects[k].Undefine?) ==> lookup.Found? && Truthy(s.undefineExisting)
    ensures opens && ExistingDomain(lookup).Success? && (lookup.Found? ==> Truthy(s.undefineExisting)) && guest.None? ==>
      r == Failure(NoViableGuest)
    ensures r == Failure(NoViableGuest) ==> effects == [OpenConnection(s.hypervisorUri)] + Replacing(lookup) + [CloseConnection]
    ensures r.Success? ==> effects == [OpenConnection(s.hypervisorUri)] + Replacing(lookup) + [Define(r.value), CloseConnection]
  {
    var define := if guest.Some? then Some(BuildXml(s, a, guest.value, disk)) else None;
    r, effects := RemoteSession(s, opens, lookup, define);
  }
}
