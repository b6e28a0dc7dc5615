/** The contents of a KubevirtMachine's VirtualMachine as values: how they follow from the template, and the
    renaming that makes the data volumes the machine's own. `VmBuilder` proves the in-place code against these
    functions. */
module DataVolumes {
  import opened Common

  type Labels = map<string, string>

  datatype DvTemplate = DvTemplate(name: string, spec: string)

  /** A volume refers to a claim or a data volume by name, to the user data secret, or to something else. */
  datatype VolumeSpec = VolumeSpec(
    name: string, claim: Option<string>, dataVolume: Option<string>, userData: Option<string>)

  /** The contents of a VirtualMachine or of its template. */
  datatype VmSpec = VmSpec(
    labels: Labels,
    annotations: Labels,
    instanceLabels: Labels,
    instanceAnnotations: Labels,
    dvTemplates: seq<DvTemplate>,
    volumes: seq<VolumeSpec>,
    disks: seq<string>)

  // ---------- The renaming ----------

  function Prefixed(prefix: string, name: string): string {
    prefix + "-" + name
  }

  predicate Named(ts: seq<DvTemplate>, name: string) {
    exists i | 0 <= i < |ts| :: ts[i].name == name
  }

  function RenameTemplate(prefix: string, t: DvTemplate): DvTemplate {
    t.(name := Prefixed(prefix, t.name))
  }

  function RenameReference(ts: seq<DvTemplate>, prefix: string, name: string): string {
    if Named(ts, name) then Prefixed(prefix, name) else name
  }

  function RenameVolume(ts: seq<DvTemplate>, prefix: string, v: VolumeSpec): VolumeSpec {
    if v.claim.Some? then v.(claim := Some(RenameReference(ts, prefix, v.claim.value)))
    else if v.dataVolume.Some? then v.(dataVolume := Some(RenameReference(ts, prefix, v.dataVolume.value)))
    else v
  }

  function RenameTemplates(prefix: string, ts: seq<DvTemplate>): seq<DvTemplate> {
    seq(|ts|, i requires 0 <= i < |ts| => RenameTemplate(prefix, ts[i]))
  }

  function RenameVolumes(ts: seq<DvTemplate>, prefix: string, vs: seq<VolumeSpec>): seq<VolumeSpec> {
    seq(|vs|, i requires 0 <= i < |vs| => RenameVolume(ts, prefix, vs[i]))
  }

  function Rename(s: VmSpec, prefix: string): VmSpec {
    s.(dvTemplates := RenameTemplates(prefix, s.dvTemplates),
       volumes := RenameVolumes(s.dvTemplates, prefix, s.volumes))
  }

  // ---------- Building the VM ----------

  /** What the builder reads besides the template. */
  datatype Identity = Identity(name: string, namespace: string, role: string, cluster: string, bootstrapSecret: string)

  function OwnLabels(id: Identity): Labels {
    map["kubevirt.io/vm" := id.name, "name" := id.name,
        "cluster.x-k8s.io/role" := id.role, "cluster.x-k8s.io/cluster-name" := id.cluster]
  }

  const CLOUD_INIT := "cloudinitvolume"

  function CloudInitVolume(id: Identity): VolumeSpec {
    VolumeSpec(CLOUD_INIT, None, None, Some(id.bootstrapSecret + "-userdata"))
  }

  /** The VM before its data volumes are renamed. */
  function Assembled(t: VmSpec, id: Identity): VmSpec {
    t.(labels := t.labels + OwnLabels(id),
       instanceLabels := t.instanceLabels + OwnLabels(id),
       volumes := t.volumes + [CloudInitVolume(id)],
       disks := t.disks + [CLOUD_INIT])
  }

  function Built(t: VmSpec, id: Identity): VmSpec {
    Rename(Assembled(t, id), id.name)
  }

  /** The labels that name the owner of the VM, set just before the create call. */
  function OwnerLabels(id: Identity): Labels {
    map["capk.cluster.x-k8s.io/kubevirt-machine-name" := id.name,
        "capk.cluster.x-k8s.io/kubevirt-machine-namespace" := id.namespace]
  }

  function WithOwnerLabels(s: VmSpec, id: Identity): VmSpec {
    s.(labels := s.labels["cluster.x-k8s.io/cluster-name" := id.cluster] + OwnerLabels(id),
       instanceLabels := s.instanceLabels + OwnerLabels(id))
  }

  /** The VM as it is sent to the API server. */
  function Sent(t: VmSpec, id: Identity): VmSpec {
    WithOwnerLabels(Built(t, id), id)
  }

  // ---------- What the renaming promises ----------

  lemma PrefixIsInjective(prefix: string, a: string, b: string)
    ensures Prefixed(prefix, a) == Prefixed(prefix, b) <==> a == b
  {
    assert Prefixed(prefix, a)[|prefix| + 1..] == a;
    assert Prefixed(prefix, b)[|prefix| + 1..] == b;
  }

  /** The name a volume refers to a data volume by. */
  function Reference(v: VolumeSpec): Option<string> {
    if v.claim.Some? then v.claim else v.dataVolume
  }

  /** Every volume keeps its targets: a reference that named template i names template i afterwards, and no
      other template, also when template names repeat; any other reference keeps its text. */
  lemma ReferencesArePreserved(s: VmSpec, prefix: string, v: nat)
    requires v < |s.volumes| && Reference(s.volumes[v]).Some?
    ensures var after := Rename(s, prefix);
            var n, n' := Reference(s.volumes[v]).value, Reference(after.volumes[v]);
            && n'.Some?
            && |after.volumes| == |s.volumes| && |after.dvTemplates| == |s.dvTemplates|
            && (Named(s.dvTemplates, n) ==>
                  forall i :: 0 <= i < |s.dvTemplates| ==>
                    (s.dvTemplates[i].name == n <==> after.dvTemplates[i].name == n'.value))
            && (!Named(s.dvTemplates, n) ==> n'.value == n)
  {
    var n := Reference(s.volumes[v]).value;
    if Named(s.dvTemplates, n) {
      forall i | 0 <= i < |s.dvTemplates|
        ensures s.dvTemplates[i].name == n <==> Prefixed(prefix, s.dvTemplates[i].name) == Prefixed(prefix, n)
      {
        PrefixIsInjective(prefix, s.dvTemplates[i].name, n);
      }
    }
  }

  /** Renaming twice shows: the double prefix differs unless there is nothing to rename. So a builder that
      renamed its template in place would build another VM on the next try. */
  lemma RenamingTwiceDiffersIff(s: VmSpec, prefix: string)
    ensures Rename(Rename(s, prefix), prefix) == Rename(s, prefix) <==> s.dvTemplates == []
  {
    var once, twice := Rename(s, prefix), Rename(Rename(s, prefix), prefix);
    if s.dvTemplates != [] {
      assert |twice.dvTemplates[0].name| > |once.dvTemplates[0].name|;
    } else {
      assert once.volumes == s.volumes && twice.volumes == once.volumes;
    }
  }

  // ---------- What the VM sent to the API server holds ----------

  /** Every data volume template is the machine's own, under the machine's name. */
  lemma SentTemplatesArePrefixed(t: VmSpec, id: Identity)
    ensures var sent := Sent(t, id);
            && |sent.dvTemplates| == |t.dvTemplates|
            && forall i :: 0 <= i < |t.dvTemplates| ==>
                 && sent.dvTemplates[i].name == id.name + "-" + t.dvTemplates[i].name
                 && sent.dvTemplates[i].spec == t.dvTemplates[i].spec
  {
  }

  /** So machines with distinct names of equal length have no data volume in common, whatever their templates. */
  lemma MachinesShareNoDataVolume(t1: VmSpec, id1: Identity, i: nat, t2: VmSpec, id2: Identity, j: nat)
    requires |id1.name| == |id2.name| && id1.name != id2.name
    requires i < |Sent(t1, id1).dvTemplates| && j < |Sent(t2, id2).dvTemplates|
    ensures Sent(t1, id1).dvTemplates[i].name != Sent(t2, id2).dvTemplates[j].name
  {
    hide Sent;
    SentTemplatesArePrefixed(t1, id1);
    SentTemplatesArePrefixed(t2, id2);
    EqualLengthNamesNeverClash(id1.name, id2.name, t1.dvTemplates[i].name, t2.dvTemplates[j].name);
  }

  /** The given volumes come first, each with its references to the VM's templates prefixed and everything else
      as it was; the cloud-init volume and disk come last. */
  lemma SentVolumes(t: VmSpec, id: Identity)
    ensures var sent := Sent(t, id);
            && |sent.volumes| == |t.volumes| + 1
            && (forall v :: 0 <= v < |t.volumes| ==> FollowsTemplates(t, id, t.volumes[v], sent.volumes[v]))
            && sent.volumes[|t.volumes|] ==
                 VolumeSpec("cloudinitvolume", None, None, Some(id.bootstrapSecret + "-userdata"))
            && sent.disks == t.disks + ["cloudinitvolume"]
  {
  }

  /** The volume after differs from the one before only in the name it refers to a template of the VM by; a claim
      takes precedence over a data volume. */
  predicate FollowsTemplates(t: VmSpec, id: Identity, before: VolumeSpec, after: VolumeSpec) {
    && after.name == before.name && after.userData == before.userData
    && (before.claim.Some? ==>
          after.claim == Some(Followed(t, id, before.claim.value)) && after.dataVolume == before.dataVolume)
    && (before.claim.None? && before.dataVolume.Some? ==>
          after.claim.None? && after.dataVolume == Some(Followed(t, id, before.dataVolume.value)))
    && (before.claim.None? && before.dataVolume.None? ==> after == before)
  }

  function Followed(t: VmSpec, id: Identity, name: string): string {
    if exists i :: 0 <= i < |t.dvTemplates| && t.dvTemplates[i].name == name then id.name + "-" + name else name
  }

  /** Every reference to a template leads to the same templates in the VM that is sent. */
  lemma SentReferencesArePreserved(t: VmSpec, id: Identity, v: nat)
    requires v < |t.volumes| && Reference(t.volumes[v]).Some?
    ensures var sent := Sent(t, id);
            var n := Reference(t.volumes[v]).value;
            && |sent.volumes| > v && |sent.dvTemplates| == |t.dvTemplates| && Reference(sent.volumes[v]).Some?
            && (Named(t.dvTemplates, n) ==>
                  forall i :: 0 <= i < |t.dvTemplates| ==>
                    (t.dvTemplates[i].name == n <==> sent.dvTemplates[i].name == Reference(sent.volumes[v]).value))
  {
    ReferencesArePreserved(Assembled(t, id), id.name, v);
  }

  /** The labels of the VM and of its instances are the given ones, overridden by four that describe the machine
      and two that name it as the owner; the annotations are the given ones. */
  lemma SentLabels(t: VmSpec, id: Identity)
    ensures var sent := Sent(t, id);
            var own := map["kubevirt.io/vm" := id.name, "name" := id.name,
                           "cluster.x-k8s.io/role" := id.role, "cluster.x-k8s.io/cluster-name" := id.cluster];
            var owner := map["capk.cluster.x-k8s.io/kubevirt-machine-name" := id.name,
                             "capk.cluster.x-k8s.io/kubevirt-machine-namespace" := id.namespace];
            && sent.labels == t.labels + (own + owner)
            && sent.instanceLabels == t.instanceLabels + (own + owner)
            && sent.annotations == t.annotations && sent.instanceAnnotations == t.instanceAnnotations
  {
    LabelsAdd(t.labels, OwnLabels(id), "cluster.x-k8s.io/cluster-name", OwnerLabels(id));
    LabelsAdd(t.instanceLabels, OwnLabels(id), "cluster.x-k8s.io/cluster-name", OwnerLabels(id));
  }

  lemma LabelsAdd(given: Labels, own: Labels, k: string, owner: Labels)
    requires k in own
    ensures (given + own)[k := own[k]] + owner == given + (own + owner)
    ensures (given + own) + owner == given + (own + owner)
  {
  }

  /** A reference to something outside the VM is captured by a renamed template if and only if its text is
      the prefixed name of some template. */
  lemma ForeignReferenceIsCapturedIff(ts: seq<DvTemplate>, prefix: string, name: string)
    requires !Named(ts, name)
    ensures Named(RenameTemplates(prefix, ts), RenameReference(ts, prefix, name)) <==>
            exists i :: 0 <= i < |ts| && name == Prefixed(prefix, ts[i].name)
  {
    var after := RenameTemplates(prefix, ts);
    forall i | 0 <= i < |ts| ensures after[i].name == Prefixed(prefix, ts[i].name) {
    }
  }

  /** Two machines can have data volumes of the same name if and only if the name of one, with the
      separator, starts the name of the other. */
  lemma NamesClashIff(p: string, q: string)
    ensures (exists x, y :: x != "" && y != "" && Prefixed(p, x) == Prefixed(q, y)) <==>
            p + "-" <= q + "-" || q + "-" <= p + "-"
  {
    if p + "-" <= q + "-" {
      var x := Completion(p, q);
    }
    if q + "-" <= p + "-" {
      var y := Completion(q, p);
    }
    if x, y :| x != "" && y != "" && Prefixed(p, x) == Prefixed(q, y) {
      var z := Prefixed(p, x);
      assert z[..|p| + 1] == p + "-";
      assert z[..|q| + 1] == q + "-";
    }
  }

  lemma Completion(p: string, q: string) returns (x: string)
    requires p + "-" <= q + "-"
    ensures x != "" && Prefixed(p, x) == Prefixed(q, "data")
  {
    x := (q + "-")[|p| + 1..] + "data";
  }

  /** So machines whose names have the same length never clash. */
  lemma EqualLengthNamesNeverClash(p: string, q: string, x: string, y: string)
    requires |p| == |q| && p != q
    ensures Prefixed(p, x) != Prefixed(q, y)
  {
    assert Prefixed(p, x)[..|p|] == p;
    assert Prefixed(q, y)[..|q|] == q;
  }
}
