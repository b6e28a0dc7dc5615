/** Building the VirtualMachine of a KubevirtMachine in place. The template hangs off the KubevirtMachine as a
    structure of maps, slices and pointers, and the builder writes through such references; only its copies keep
    those writes away from the template. */
module VmBuilder {
  import opened Common
  import opened DataVolumes

  class StringMap {
    var entries: Labels

    constructor ()
      ensures entries == map[]
    {
      entries := map[];
    }
  }

  /** A volume with the sources it points to: whoever shares the pointers shares the names in them. */
  class Volume {
    const name: string
    var claim: Option<string>
    var dataVolume: Option<string>
    const userData: Option<string>

    constructor (v: VolumeSpec)
      ensures Value() == v
    {
      name, claim, dataVolume, userData := v.name, v.claim, v.dataVolume, v.userData;
    }

    function Value(): VolumeSpec
      reads this
    {
      VolumeSpec(name, claim, dataVolume, userData)
    }
  }

  ghost function Entries(m: StringMap?): Labels
    reads m
  {
    if m == null then map[] else m.entries
  }

  ghost function Holding(m: StringMap?): set<object> {
    if m == null then {} else {m}
  }

  ghost function Values(vs: seq<Volume>): seq<VolumeSpec>
    reads vs
  {
    seq(|vs|, i requires 0 <= i < |vs| reads vs => vs[i].Value())
  }

  /** No two volumes of a VM are the same object. */
  predicate Unshared(vs: seq<Volume>) {
    forall i, j :: 0 <= i < j < |vs| ==> vs[i] != vs[j]
  }

  /** A VirtualMachine, or the template of one in a KubevirtMachine's spec; absent maps are null. */
  class VirtualMachine {
    var labels: StringMap?
    var annotations: StringMap?
    var instanceLabels: StringMap?
    var instanceAnnotations: StringMap?
    var dvTemplates: array<DvTemplate>
    var volumes: seq<Volume>
    var disks: seq<string>

    constructor (labels: StringMap?, annotations: StringMap?, instanceLabels: StringMap?,
                 instanceAnnotations: StringMap?, dvTemplates: array<DvTemplate>, volumes: seq<Volume>,
                 disks: seq<string>)
      ensures this.labels == labels && this.annotations == annotations
      ensures this.instanceLabels == instanceLabels && this.instanceAnnotations == instanceAnnotations
      ensures this.dvTemplates == dvTemplates && this.volumes == volumes && this.disks == disks
    {
      this.labels, this.annotations := labels, annotations;
      this.instanceLabels, this.instanceAnnotations := instanceLabels, instanceAnnotations;
      this.dvTemplates, this.volumes, this.disks := dvTemplates, volumes, disks;
    }

    /** The four maps are there and are four objects. */
    predicate OwnsMaps()
      reads this
    {
      && labels != null && annotations != null && instanceLabels != null && instanceAnnotations != null
      && labels != annotations && labels != instanceLabels && labels != instanceAnnotations
      && instanceLabels != annotations && instanceLabels != instanceAnnotations
    }

    /** Everything the machine is made of. */
    ghost function Footprint(): set<object>
      reads this
    {
      {this, dvTemplates} + (set v | v in volumes) +
      Holding(labels) + Holding(annotations) + Holding(instanceLabels) + Holding(instanceAnnotations)
    }

    ghost function Contents(): VmSpec
      reads this, Footprint()
    {
      VmSpec(Entries(labels), Entries(annotations), Entries(instanceLabels), Entries(instanceAnnotations),
             dvTemplates[..], Values(volumes), disks)
    }
  }

  // ---------- Copies ----------

  method MapCopy(src: StringMap?) returns (dst: StringMap)
    ensures fresh(dst) && dst.entries == Entries(src)
  {
    dst := new StringMap();
    if src == null {
      return;
    }
    var todo := src.entries.Keys;
    while todo != {}
      invariant todo <= src.entries.Keys
      invariant dst.entries.Keys == src.entries.Keys - todo
      invariant forall k :: k in dst.entries ==> dst.entries[k] == src.entries[k]
      decreases todo
    {
      var k :| k in todo;
      dst.entries := dst.entries[k := src.entries[k]];
      todo := todo - {k};
    }
  }

  method CopyTemplates(src: array<DvTemplate>) returns (dst: array<DvTemplate>)
    ensures fresh(dst) && dst[..] == src[..]
  {
    dst := new DvTemplate[src.Length](i requires 0 <= i < src.Length reads src => src[i]);
  }

  /** A deep copy of a volume slice: no volume of the copy is a volume of the original. */
  method CopyVolumes(src: seq<Volume>) returns (dst: seq<Volume>)
    ensures (forall i :: 0 <= i < |dst| ==> fresh(dst[i])) && Unshared(dst)
    ensures Values(dst) == old(Values(src))
  {
    dst := [];
    for i := 0 to |src|
      invariant |dst| == i
      invariant forall k :: 0 <= k < i ==> fresh(dst[k]) && dst[k].Value() == old(src[k].Value())
      invariant Unshared(dst)
    {
      var v := new Volume(src[i].Value());
      dst := dst + [v];
    }
  }

  // ---------- The renaming ----------

  /** Renames the templates in their slice and returns the new names by the old ones. */
  method PrefixTemplates(ts: array<DvTemplate>, prefix: string) returns (names: map<string, string>)
    modifies ts
    ensures ts[..] == RenameTemplates(prefix, old(ts[..]))
    ensures forall n :: n in names <==> Named(old(ts[..]), n)
    ensures forall n :: n in names ==> names[n] == Prefixed(prefix, n)
  {
    ghost var before := ts[..];
    names := map[];
    for i := 0 to ts.Length
      invariant forall k :: 0 <= k < i ==> ts[k] == RenameTemplate(prefix, before[k])
      invariant forall k :: i <= k < ts.Length ==> ts[k] == before[k]
      invariant forall n :: n in names <==> exists k | 0 <= k < i :: before[k].name == n
      invariant forall n :: n in names ==> names[n] == Prefixed(prefix, n)
    {
      var prefixedName := Prefixed(prefix, ts[i].name);
      names := names[ts[i].name := prefixedName];
      ts[i] := ts[i].(name := prefixedName);
    }
  }

  /** Rewrites the names volumes refer to, through the pointers to their sources. */
  method PrefixReferences(vs: seq<Volume>, names: map<string, string>, ghost ts: seq<DvTemplate>, ghost prefix: string)
    requires Unshared(vs)
    requires forall n :: n in names <==> Named(ts, n)
    requires forall n :: n in names ==> names[n] == Prefixed(prefix, n)
    modifies vs
    ensures Values(vs) == RenameVolumes(ts, prefix, old(Values(vs)))
  {
    for i := 0 to |vs|
      invariant forall k :: 0 <= k < i ==> vs[k].Value() == RenameVolume(ts, prefix, old(vs[k].Value()))
      invariant forall k :: i <= k < |vs| ==> vs[k].Value() == old(vs[k].Value())
    {
      if vs[i].claim.Some? {
        if vs[i].claim.value in names {
          vs[i].claim := Some(names[vs[i].claim.value]);
        }
      } else if vs[i].dataVolume.Some? {
        if vs[i].dataVolume.value in names {
          vs[i].dataVolume := Some(names[vs[i].dataVolume.value]);
        }
      }
    }
  }

  method PrefixDataVolumeTemplates(vm: VirtualMachine, prefix: string)
    requires Unshared(vm.volumes)
    modifies vm.dvTemplates, vm.volumes
    ensures vm.Contents() == Rename(old(vm.Contents()), prefix)
  {
    ghost var before := vm.Contents();
    if vm.dvTemplates.Length == 0 {
      assert RenameVolumes([], prefix, before.volumes) == before.volumes;
      return;
    }
    var names := PrefixTemplates(vm.dvTemplates, prefix);
    PrefixReferences(vm.volumes, names, before.dvTemplates, prefix);
  }

  // ---------- Building the VM ----------

  method SetOwnLabels(m: StringMap, id: Identity)
    modifies m
    ensures m.entries == old(m.entries) + OwnLabels(id)
  {
    m.entries := m.entries["kubevirt.io/vm" := id.name];
    m.entries := m.entries["name" := id.name];
    m.entries := m.entries["cluster.x-k8s.io/role" := id.role];
    m.entries := m.entries["cluster.x-k8s.io/cluster-name" := id.cluster];
  }

  method BuildLabels(given: StringMap?, id: Identity) returns (m: StringMap)
    ensures fresh(m) && m.entries == Entries(given) + OwnLabels(id)
  {
    hide OwnLabels;
    m := MapCopy(given);
    SetOwnLabels(m, id);
  }

  /** The volumes of the VM: a deep copy of the template's and the cloud-init volume. */
  method BuildVolumes(given: seq<Volume>, id: Identity) returns (vs: seq<Volume>)
    ensures (forall i :: 0 <= i < |vs| ==> fresh(vs[i])) && Unshared(vs)
    ensures Values(vs) == old(Values(given)) + [CloudInitVolume(id)]
  {
    vs := CopyVolumes(given);
    var cloudInit := new Volume(CloudInitVolume(id));
    vs := vs + [cloudInit];
  }

  /** The VM before the renaming, made of copies only. */
  method Assemble(t: VirtualMachine, id: Identity) returns (vm: VirtualMachine)
    ensures fresh(vm) && fresh(vm.dvTemplates)
    ensures (forall i :: 0 <= i < |vm.volumes| ==> fresh(vm.volumes[i])) && Unshared(vm.volumes)
    ensures vm.OwnsMaps() && fresh(vm.labels) && fresh(vm.annotations)
    ensures fresh(vm.instanceLabels) && fresh(vm.instanceAnnotations)
    ensures vm.Contents() == Assembled(old(t.Contents()), id)
  {
    hide OwnLabels, CloudInitVolume, Unshared;
    var volumes := BuildVolumes(t.volumes, id);
    var instanceLabels := BuildLabels(t.instanceLabels, id);
    var instanceAnnotations := MapCopy(t.instanceAnnotations);
    var dvTemplates := CopyTemplates(t.dvTemplates);
    var labels := BuildLabels(t.labels, id);
    var annotations := MapCopy(t.annotations);
    vm := new VirtualMachine(labels, annotations, instanceLabels, instanceAnnotations, dvTemplates, volumes,
                             t.disks + [CLOUD_INIT]);
  }

  /** The VM consists of new objects only, so nothing done to it later reaches the template; and the builder, which
      may modify nothing that was there before, has not touched the template either. */
  method NewVirtualMachine(t: VirtualMachine, id: Identity) returns (vm: VirtualMachine)
    ensures fresh(vm.Footprint()) && vm.OwnsMaps()
    ensures vm.Contents() == Built(old(t.Contents()), id)
  {
    hide Assembled, Rename, Unshared, VirtualMachine.Contents;
    vm := Assemble(t, id);
    PrefixDataVolumeTemplates(vm, id.name);
  }

  method AddOwnerLabels(m: StringMap, id: Identity)
    modifies m
    ensures m.entries == old(m.entries) + OwnerLabels(id)
  {
    m.entries := m.entries["capk.cluster.x-k8s.io/kubevirt-machine-name" := id.name];
    m.entries := m.entries["capk.cluster.x-k8s.io/kubevirt-machine-namespace" := id.namespace];
  }

  /** The labels the create call adds, written into the VM's maps. */
  method SetOwnerLabels(vm: VirtualMachine, id: Identity)
    requires vm.OwnsMaps()
    modifies vm.labels, vm.instanceLabels
    ensures vm.Contents() == WithOwnerLabels(old(vm.Contents()), id)
  {
    hide OwnerLabels;
    vm.labels.entries := vm.labels.entries["cluster.x-k8s.io/cluster-name" := id.cluster];
    AddOwnerLabels(vm.labels, id);
    AddOwnerLabels(vm.instanceLabels, id);
  }

  /** Builds the VM and gets it ready for the create call. */
  method Create(t: VirtualMachine, id: Identity) returns (vm: VirtualMachine)
    ensures fresh(vm.Footprint())
    ensures vm.Contents() == Sent(old(t.Contents()), id)
  {
    hide Built, WithOwnerLabels, VirtualMachine.Contents, Values;
    vm := NewVirtualMachine(t, id);
    SetOwnerLabels(vm, id);
  }

  lemma PartsExist(vm: VirtualMachine)
    ensures allocated(vm.Footprint())
  {
  }

  /** What is not written to keeps its parts and its contents. */
  twostate lemma Framed(vm: VirtualMachine)
    requires unchanged(vm) && unchanged(old(vm.Footprint()))
    ensures vm.Footprint() == old(vm.Footprint())
    ensures vm.Contents() == old(vm.Contents())
  {
  }

  /** A retry sends an equal VM that shares nothing with the first: no name in the template was prefixed, and
      no label added, by the first try. */
  method CreateAgain(t: VirtualMachine, id: Identity) returns (first: VirtualMachine, second: VirtualMachine)
    ensures unchanged(t.Footprint()) && t.Contents() == old(t.Contents())
    ensures first.Footprint() !! second.Footprint()
    ensures second.Contents() == first.Contents()
    ensures first.Contents() == Sent(old(t.Contents()), id)
  {
    hide Sent, VirtualMachine.Contents, VirtualMachine.Footprint;
    PartsExist(t);
    first := Create(t, id);
    Framed(t);
    PartsExist(first);
    label Again:
    second := Create(t, id);
    Framed(t);
    Framed@Again(first);
  }
}
