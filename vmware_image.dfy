/**
 * `VMwareImage`: the disk geometry and the values written into the VMware
 * `.vmdk` descriptor and `.vmx` configuration templates, and the rule that
 * decides when the raw disk is linked or copied again.
 */
module VmwareImage {
  import opened Strings

  /** Sectors in one GiB (512-byte sectors). */
  const GbSectors: int := 2097152

  /** `[c, h, s, total_sectors]` */
  datatype Chs = Chs(cylinders: int, heads: int, sectors: int, totalSectors: int)

  /**
   * `generate_scsi_chs(disk_size)` for a size in GB, in Ruby's integer
   * arithmetic (floor division, which agrees with Dafny's for the positive
   * divisors here).
   */
  function GenerateScsiChs(gb: int): (r: Chs)
    ensures (r.heads, r.sectors) == (if gb == 1 then (128, 32) else (255, 63))
    ensures r.totalSectors == gb * GbSectors
    ensures r.cylinders * (r.heads * r.sectors) <= r.totalSectors < (r.cylinders + 1) * (r.heads * r.sectors)
  {
    var diskSize := gb * 1024;
    var h := if diskSize == 1024 then 128 else 255;
    var s := if diskSize == 1024 then 32 else 63;
    var c := diskSize / 1024 * GbSectors / (h * s);
    var total := GbSectors * diskSize / 1024;
    assert diskSize / 1024 == gb;
    assert total == gb * GbSectors;
    Chs(c, h, s, total)
  }

  /** The three disk sizes the image's own examples check. */
  lemma ChsExamples()
    ensures GenerateScsiChs(1) == Chs(512, 128, 32, 2097152)
    ensures GenerateScsiChs(40) == Chs(5221, 255, 63, 83886080)
    ensures GenerateScsiChs(160) == Chs(20886, 255, 63, 335544320)
  {
    assert 1 * 1024 / 1024 * GbSectors / (128 * 32) == 512;
    assert 40 * 1024 / 1024 * GbSectors / (255 * 63) == 5221;
    assert 160 * 1024 / 1024 * GbSectors / (255 * 63) == 20886;
  }

  /** The sum of the partition sizes. */
  function Sum(sizes: seq<int>): int
    decreases |sizes|
  {
    if sizes == [] then 0 else Sum(sizes[..|sizes| - 1]) + sizes[|sizes| - 1]
  }

  /** The disk size `change_vmdk_values` accumulates over the partitions, in order. */
  method DiskSize(sizes: seq<int>) returns (total: int)
    ensures total == Sum(sizes)
  {
    total := 0;
    var i := 0;
    while i < |sizes|
      invariant 0 <= i <= |sizes|
      invariant total == Sum(sizes[..i])
    {
      assert sizes[..i + 1][..i] == sizes[..i];
      total := total + sizes[i];
      i := i + 1;
    }
    assert sizes[..i] == sizes;
  }

  /** Sizes that are none of them negative add up to at least each one. */
  lemma {:induction false} SumBounds(sizes: seq<int>, k: nat)
    requires forall j :: 0 <= j < |sizes| ==> sizes[j] >= 0
    requires k < |sizes|
    ensures Sum(sizes) >= sizes[k]
    decreases |sizes|
  {
    var last := |sizes| - 1;
    if k < last {
      SumBounds(sizes[..last], k);
      SumNonNegative(sizes[..last]);
    } else {
      SumNonNegative(sizes[..last]);
    }
  }

  lemma {:induction false} SumNonNegative(sizes: seq<int>)
    requires forall j :: 0 <= j < |sizes| ==> sizes[j] >= 0
    ensures Sum(sizes) >= 0
    decreases |sizes|
  {
    if sizes != [] {
      SumNonNegative(sizes[..|sizes| - 1]);
    }
  }

  /** EXTENT_TYPE, NUMBER and HW_VERSION for a disk type. */
  datatype DiskFlavour = DiskFlavour(extentType: string, number: string, hwVersion: string)

  function Flavour(diskType: string): DiskFlavour {
    if diskType == "vmfs" then DiskFlavour("VMFS", "", "4") else DiskFlavour("FLAT", "0", "3")
  }

  /** Only the "vmfs" type gets the enterprise (ESX) values; every other type the flat ones. */
  lemma FlavourChoice(diskType: string)
    ensures Flavour(diskType).extentType == "VMFS" <==> diskType == "vmfs"
    ensures Flavour(diskType).hwVersion == "4" <==> diskType == "vmfs"
    ensures Flavour(diskType).number == "" <==> diskType == "vmfs"
    ensures diskType != "vmfs" ==> Flavour(diskType) == Flavour("monolithicFlat")
  {
  }

  /** A placeholder and its replacement. */
  type Sub = (string, string)

  predicate Placeholders(subs: seq<Sub>) {
    forall i :: 0 <= i < |subs| ==> |subs[i].0| > 0
  }

  /** One `gsub!` after another, in order. */
  function Substitute(s: string, subs: seq<Sub>): string
    requires Placeholders(subs)
    decreases |subs|
  {
    if subs == [] then s else Substitute(ReplaceAll(s, subs[0].0, subs[0].1), subs[1..])
  }

  /** A template that holds none of the placeholders comes back unchanged. */
  lemma {:induction false} SubstituteUntouched(s: string, subs: seq<Sub>)
    requires Placeholders(subs)
    requires forall i :: 0 <= i < |subs| ==> !Contains(s, subs[i].0)
    ensures Substitute(s, subs) == s
    decreases |subs|
  {
    if subs != [] {
      ReplaceAllWithoutMatch(s, subs[0].0, subs[0].1);
      SubstituteUntouched(s, subs[1..]);
    }
  }

  /** One more `gsub!` moves the next substitution into the text. */
  lemma SubstituteStep(s: string, subs: seq<Sub>, k: nat)
    requires Placeholders(subs) && k < |subs|
    ensures Substitute(s, subs[k..]) == Substitute(ReplaceAll(s, subs[k].0, subs[k].1), subs[k + 1..])
  {
    assert subs[k..][1..] == subs[k + 1..];
  }

  /** `data.gsub!(pat, rep)` as the `k`-th of the substitutions `subs`. */
  method GsubNext(data: string, ghost subs: seq<Sub>, ghost k: nat, pat: string, rep: string) returns (r: string)
    requires Placeholders(subs) && k < |subs| && subs[k] == (pat, rep)
    ensures Substitute(r, subs[k + 1..]) == Substitute(data, subs[k..])
  {
    r := ReplaceAll(data, pat, rep);
    SubstituteStep(data, subs, k);
  }

  /** Applying two lists of substitutions one after the other is applying their concatenation. */
  lemma {:induction false} SubstituteConcat(s: string, a: seq<Sub>, b: seq<Sub>)
    requires Placeholders(a) && Placeholders(b)
    ensures Placeholders(a + b)
    ensures Substitute(s, a + b) == Substitute(Substitute(s, a), b)
    decreases |a|
  {
    assert forall i :: 0 <= i < |a + b| ==> (a + b)[i] == if i < |a| then a[i] else b[i - |a|];
    if a != [] {
      assert (a + b)[1..] == a[1..] + b;
      SubstituteConcat(ReplaceAll(s, a[0].0, a[0].1), a[1..], b);
    } else {
      assert a + b == b;
    }
  }

  /** The descriptor's name and type substitutions, in the order `change_vmdk_values` applies them. */
  function TypeSubs(name: string, diskType: string): (r: seq<Sub>)
    ensures Placeholders(r) && |r| == 5
  {
    var f := Flavour(diskType);
    [ ("#NAME#", name), ("#TYPE#", diskType), ("#EXTENT_TYPE#", f.extentType),
      ("#NUMBER#", f.number), ("#HW_VERSION#", f.hwVersion) ]
  }

  /** The descriptor's geometry substitutions, which follow. */
  function GeometrySubs(chs: Chs): (r: seq<Sub>)
    ensures Placeholders(r) && |r| == 4
  {
    [ ("#CYLINDERS#", IntToString(chs.cylinders)), ("#HEADS#", IntToString(chs.heads)),
      ("#SECTORS#", IntToString(chs.sectors)), ("#TOTAL_SECTORS#", IntToString(chs.totalSectors)) ]
  }

  /** All nine descriptor substitutions. */
  function VmdkSubs(name: string, diskType: string, chs: Chs): (r: seq<Sub>)
    ensures Placeholders(r) && |r| == 9
  {
    SubstituteConcat("", TypeSubs(name, diskType), GeometrySubs(chs));
    TypeSubs(name, diskType) + GeometrySubs(chs)
  }

  /** For a 1 GB disk the descriptor gets 512 cylinders, 128 heads, 32 sectors and 2097152 sectors in all. */
  lemma VmdkOneGb()
    ensures GeometrySubs(GenerateScsiChs(1)) ==
      [("#CYLINDERS#", "512"), ("#HEADS#", "128"), ("#SECTORS#", "32"), ("#TOTAL_SECTORS#", "2097152")]
  {
    ChsExamples();
    GeometryDigits();
  }

  lemma GeometryDigits()
    ensures NatToString(512) == "512" && NatToString(128) == "128" && NatToString(32) == "32"
    ensures NatToString(2097152) == "2097152"
  {
    assert NatToString(2) == "2";
    assert NatToString(20) == "20";
    assert NatToString(209) == "209";
    assert NatToString(2097) == "2097";
    assert NatToString(20971) == "20971";
    assert NatToString(209715) == "209715";
  }

  /** The appliance settings the templates draw on, each by its `to_s`. */
  datatype Appliance = Appliance(
    name: string, version: string, release: string, summary: string,
    arch: string, memory: int, cpus: int)

  /** `#GUESTOS#` */
  function GuestOs(arch: string): (r: string)
    ensures r == "otherlinux-64" <==> arch == "x86_64"
    ensures r != "otherlinux-64" ==> r == "linux"
  {
    if arch == "x86_64" then "otherlinux-64" else "linux"
  }

  /** The `.vmx` substitutions, in the order `change_common_vmx_values` applies them; `builder` is "name version-release" of the tool. */
  function VmxSubs(a: Appliance, builder: string): (r: seq<Sub>)
    ensures Placeholders(r) && |r| == 7
    ensures r[0] == ("#VERSION#", a.version + "." + a.release)
  {
    [ ("#VERSION#", a.version + "." + a.release), ("#BUILDER#", builder), ("#NAME#", a.name),
      ("#SUMMARY#", a.summary), ("#GUESTOS#", GuestOs(a.arch)),
      ("#MEM_SIZE#", IntToString(a.memory)), ("#VCPU#", IntToString(a.cpus)) ]
  }

  /** `change_vmdk_values(type)`: sums the partitions, derives the geometry and fills the descriptor, one `gsub!` per placeholder. */
  method ChangeVmdkValues(template: string, name: string, diskType: string, partitionSizes: seq<int>)
    returns (vmdk: string)
    ensures vmdk == Substitute(template, VmdkSubs(name, diskType, GenerateScsiChs(Sum(partitionSizes))))
  {
    var diskSize := DiskSize(partitionSizes);
    var chs := GenerateScsiChs(diskSize);
    var data := FillType(template, name, diskType);
    vmdk := FillGeometry(data, chs);
    SubstituteConcat(template, TypeSubs(name, diskType), GeometrySubs(chs));
  }

  /** The first five `gsub!` calls of `change_vmdk_values`. */
  method FillType(template: string, name: string, diskType: string) returns (data: string)
    ensures data == Substitute(template, TypeSubs(name, diskType))
  {
    var isEnterprise := diskType == "vmfs";
    ghost var subs := TypeSubs(name, diskType);
    data := template;
    assert subs[0..] == subs;
    data := GsubNext(data, subs, 0, "#NAME#", name);
    data := GsubNext(data, subs, 1, "#TYPE#", diskType);
    data := GsubNext(data, subs, 2, "#EXTENT_TYPE#", if isEnterprise then "VMFS" else "FLAT");
    data := GsubNext(data, subs, 3, "#NUMBER#", if isEnterprise then "" else "0");
    data := GsubNext(data, subs, 4, "#HW_VERSION#", if isEnterprise then "4" else "3");
    assert subs[5..] == [];
  }

  /** The last four `gsub!` calls of `change_vmdk_values`. */
  method FillGeometry(template: string, chs: Chs) returns (data: string)
    ensures data == Substitute(template, GeometrySubs(chs))
  {
    ghost var subs := GeometrySubs(chs);
    data := template;
    assert subs[0..] == subs;
    data := GsubNext(data, subs, 0, "#CYLINDERS#", IntToString(chs.cylinders));
    data := GsubNext(data, subs, 1, "#HEADS#", IntToString(chs.heads));
    data := GsubNext(data, subs, 2, "#SECTORS#", IntToString(chs.sectors));
    data := GsubNext(data, subs, 3, "#TOTAL_SECTORS#", IntToString(chs.totalSectors));
    assert subs[4..] == [];
  }

  /** `change_common_vmx_values`: fills the `.vmx` template, one `gsub!` per placeholder. */
  method ChangeCommonVmxValues(template: string, a: Appliance, builder: string) returns (vmx: string)
    ensures vmx == Substitute(template, VmxSubs(a, builder))
  {
    ghost var subs := VmxSubs(a, builder);
    var data := template;
    assert subs[0..] == subs;
    data := GsubNext(data, subs, 0, "#VERSION#", a.version + "." + a.release);
    data := GsubNext(data, subs, 1, "#BUILDER#", builder);
    data := GsubNext(data, subs, 2, "#NAME#", a.name);
    data := GsubNext(data, subs, 3, "#SUMMARY#", a.summary);
    data := GsubNext(data, subs, 4, "#GUESTOS#", if a.arch == "x86_64" then "otherlinux-64" else "linux");
    data := GsubNext(data, subs, 5, "#MEM_SIZE#", IntToString(a.memory));
    data := GsubNext(data, subs, 6, "#VCPU#", IntToString(a.cpus));
    vmx := data;
    assert subs[7..] == [];
  }

  /** The ESX default: a "NAT" network becomes "VM Network"; any other name stays. */
  function EnterpriseNetwork(network: string): (r: string)
    ensures network == "NAT" ==> r == "VM Network"
    ensures network != "NAT" ==> r == network
  {
    if network == "NAT" then "VM Network" else network
  }

  lemma EnterpriseNetworkIdempotent(network: string)
    ensures EnterpriseNetwork(EnterpriseNetwork(network)) == EnterpriseNetwork(network)
    ensures EnterpriseNetwork(network) != "NAT"
  {
  }

  /** The line appended to the enterprise `.vmx`, with no line break after it. */
  function NetworkLine(network: string): string {
    "ethernet0.networkName = \"" + network + "\""
  }

  /**
   * The raw disk is linked (personal, enterprise) or copied (conversion) only
   * when the destination is missing or older than the raw disk.
   */
  predicate NeedsRefresh(destExists: bool, rawMtime: int, destMtime: int) {
    !destExists || rawMtime > destMtime
  }

  /** A destination at least as new as the raw disk is left alone. */
  lemma UpToDateKept(rawMtime: int, destMtime: int)
    requires destMtime >= rawMtime
    ensures !NeedsRefresh(true, rawMtime, destMtime)
    ensures NeedsRefresh(false, rawMtime, destMtime)
  {
  }

  /** The hardware settings of the appliance configuration, which the enterprise build rewrites in place. */
  class Hardware {
    var network: string

    constructor (network: string)
      ensures this.network == network
    {
      this.network := network;
    }

    /**
     * The `.vmx` text of `build_vmware_enterprise`: the common values, then the
     * network line; the "NAT" rewrite stays in the configuration afterwards.
     */
    method EnterpriseVmx(template: string, a: Appliance, builder: string) returns (vmx: string)
      modifies this
      ensures network == EnterpriseNetwork(old(network))
      ensures vmx == Substitute(template, VmxSubs(a, builder)) + NetworkLine(network)
    {
      if network == "NAT" {
        network := "VM Network";
      }
      var common := ChangeCommonVmxValues(template, a, builder);
      vmx := common + "ethernet0.networkName = \"" + network + "\"";
    }
  }
}
