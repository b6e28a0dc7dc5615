/** One reconcile of a KubevirtMachine, around the eviction pass: finalizer, VM create and delete, and the
    status fields other controllers read. `LifecycleReconciler` proves the in-place methods against these
    functions; `LifecycleRuns` proves what they promise. */
module Lifecycle {
  import opened Common
  import opened Eviction
  import SshKeys

  /** A reference to a secret that holds the kubeconfig of an infra cluster. */
  datatype Ref = Ref(name: string, namespace: string)

  datatype Kubeconfig = Kubeconfig(cluster: string, namespace: string)

  /** Where a VM lives. */
  datatype Place = Place(cluster: string, namespace: string)

  /** What stays fixed: the names, the KubevirtCluster's secret reference, the VM template's namespace and
      the infra secrets, by namespace and name. */
  datatype Config = Config(
    name: string,
    namespace: string,
    clusterName: string,
    controllerNamespace: string,
    management: string,
    clusterRef: Option<Ref>,
    templateNamespace: string,
    instanceTemplate: bool,    // the VM template, which may be left out, has an instance template
    secrets: map<(string, string), Kubeconfig>)

  /** The modelled fields of the KubevirtMachine; `bootstrapped` is the BootstrapExecSucceeded condition. */
  datatype KubevirtMachine = KubevirtMachine(
    finalizer: bool,
    deleting: bool,
    secretRef: Option<Ref>,
    providerId: Option<string>,
    ready: bool,
    provisioned: bool,
    bootstrapped: Option<bool>,
    nodeUpdated: bool,
    knownIp: bool)

  datatype State = State(
    machine: Option<KubevirtMachine>, // as stored by the management cluster
    vms: set<Place>,           // where VMs of this machine exist and are not deleted
    created: bool,             // a VM was created at some time
    bootstrapData: bool,       // the owner Machine names a bootstrap data secret
    keys: SshKeys.State,       // the cluster's SSH keys, written by the KubevirtCluster controller
    eviction: World)

  /** How a read ends that the reconcile may have to repeat later. */
  datatype Lookup = Found | NotYet | LookupError

  /** The three reads of the SSH key secret; none for an externally managed KubevirtCluster. */
  datatype KeyReads = KeyReads(external: bool, check: bool, recheck: bool, data: bool)

  /** The outcome of every read and call of one reconcile that is not decided by the state. */
  datatype Choices = Choices(
    owner: Lookup, cluster: Lookup, infraReady: bool,
    ssh: KeyReads, client: Lookup, secret: bool, helper: bool, terminalCheck: bool, terminal: bool,
    create: Outcome, drain: Oracle, reload: bool,
    checkable: bool, booted: bool, internalIp: bool, migratableKnown: bool,
    guest: bool, nodeGet: bool, nodePatch: Outcome,
    vmGet: bool, vmDelete: Outcome,
    patch: Outcome)

  // ---------- The infra cluster ----------

  /** A reference without a namespace means the machine's own. */
  function SecretKey(c: Config, ref: Ref): (string, string) {
    (if ref.namespace == "" then c.namespace else ref.namespace, ref.name)
  }

  /** The client a reference stands for: the management cluster for none, otherwise what the kubeconfig in
      the secret says. A secret is read only from the machine's own namespace or the controller's. */
  function Resolve(c: Config, ref: Option<Ref>): (r: Option<Place>)
    ensures ref.None? ==> r == Some(Place(c.management, c.namespace))
    ensures ref.Some? ==>
              var key := SecretKey(c, ref.value);
              && (r.Some? <==> key in c.secrets && key.0 in {c.namespace, c.controllerNamespace})
              && (r.Some? ==> Kubeconfig(r.value.cluster, r.value.namespace) == c.secrets[key])
  {
    if ref.None? then Some(Place(c.management, c.namespace)) else
    var ns := if ref.value.namespace == "" then c.namespace else ref.value.namespace;
    if ns != c.namespace && (c.controllerNamespace == "" || ns != c.controllerNamespace) then None else
    if (ns, ref.value.name) !in c.secrets then None else
    var k := c.secrets[(ns, ref.value.name)];
    Some(Place(k.cluster, k.namespace))
  }

  /** The VM goes to the template's namespace, if it names one, in the cluster the reference stands for. */
  function VmPlace(c: Config, ref: Option<Ref>): (r: Option<Place>)
    ensures r.Some? <==> Resolve(c, ref).Some?
    ensures r.Some? ==> r.value.cluster == Resolve(c, ref).value.cluster
    ensures r.Some? && c.templateNamespace != "" ==> r.value.namespace == c.templateNamespace
    ensures c.templateNamespace == "" ==> r == Resolve(c, ref)
  {
    match Resolve(c, ref)
    case None => None
    case Some(p) => Some(if c.templateNamespace == "" then p else p.(namespace := c.templateNamespace))
  }

  function Defaulted(c: Config, ref: Option<Ref>): Option<Ref> {
    if ref.None? then c.clusterRef else ref
  }

  // ---------- Reconciling a live machine ----------

  /** The KubevirtMachine in memory and the clusters around it. */
  datatype Flight = Flight(machine: KubevirtMachine, state: State)

  function NotReady(f: Flight): Flight {
    f.(machine := f.machine.(ready := false))
  }

  /** Building the VM dereferences its instance template. */
  function CreateVm(c: Config, f: Flight, place: Place, ch: Choices): (Flight, Result) {
    var g := NotReady(f);
    if !c.instanceTemplate then (g, Crashed) else
    if ch.create.Refused? then (g, Failed(0)) else
    (g.(state := g.state.(vms := g.state.vms + {place}, created := true)),
     if ch.create.Done? then Requeue(20000) else Failed(0))
  }

  /** The cluster's SSH keys; None when they are there or nobody needs them. The error of the last read is
      dropped, and its nil result dereferenced. */
  function FetchNodeKeys(keys: SshKeys.State, ssh: KeyReads): Option<Result> {
    if ssh.external then None else
    if !SshKeys.Persisted(keys, ssh.check) then Some(Requeue(10000)) else
    match SshKeys.FetchKeys(keys, ssh.recheck, ssh.data)
    case NotPersisted => Some(Failed(0))
    case Crashed => Some(Crashed)
    case Fetched(_, _) => None
  }

  /** Bootstrap data, SSH keys, infra client and helper; None when all are there. */
  function Prepare(c: Config, f: Flight, ch: Choices): (Flight, Option<Result>) {
    if !f.state.bootstrapData then (f, Some(Requeue(0))) else
    var noKeys := FetchNodeKeys(f.state.keys, ch.ssh);
    if noKeys.Some? then (f, noKeys) else
    var g := f.(machine := f.machine.(secretRef := Defaulted(c, f.machine.secretRef)));
    if ch.client.LookupError? || VmPlace(c, g.machine.secretRef).None? then (g, Some(Failed(10000))) else
    if ch.client.NotYet? then (g, Some(Requeue(10000))) else
    if !ch.secret then (g, Some(Failed(10000))) else
    if !ch.helper || !ch.terminalCheck then (g, Some(Failed(0))) else (g, None)
  }

  /** Only a VM and a VMI that exist can be in a terminal state. */
  predicate IsTerminal(f: Flight, place: Place, ch: Choices) {
    place in f.state.vms && f.state.eviction.vmi.Some? && ch.terminal
  }

  /** Creates the VM if it does not exist; None when it is up and has an address. */
  function Launch(c: Config, f: Flight, place: Place, ch: Choices): (Flight, Option<Result>) {
    var vmi := f.state.eviction.vmi;
    if !IsTerminal(f, place, ch) && place !in f.state.vms then
      var (g, r) := CreateVm(c, f, place, ch);
      (g, Some(r))
    else if vmi.None? || !vmi.value.ready then
      (NotReady(f), Some(Requeue(20000)))
    else if vmi.value.address == "" then
      (if f.machine.knownIp then f else NotReady(f), Some(Requeue(20000)))
    else
      (f, None)
  }

  /** Up to the drain: None when the pass goes on to it. */
  function Provision(c: Config, f: Flight, ch: Choices): (Flight, Option<Result>) {
    var (g, done) := Prepare(c, f, ch);
    if done.Some? then (g, done) else Launch(c, g, VmPlace(c, g.machine.secretRef).value, ch)
  }

  /** The drain call. A patch it sends may replace the object in memory by the stored one. */
  function Drain(f: Flight, stored: KubevirtMachine, ch: Choices): (Flight, Result) {
    var (s, r) := Pass(f.state.eviction, ch.drain, true);
    (Flight(if ch.reload then stored else f.machine, f.state.(eviction := s.world)), r)
  }

  function ProviderId(c: Config): string {
    "kubevirt://" + c.name
  }

  /** False while the guest has not bootstrapped yet. */
  function CheckBootstrap(m: KubevirtMachine, ch: Choices): (KubevirtMachine, bool) {
    if ch.checkable && m.bootstrapped != Some(true) && !ch.booted then
      (m.(bootstrapped := Some(false), ready := false), false)
    else if ch.checkable || m.bootstrapped.None? then
      (m.(bootstrapped := Some(true)), true)
    else
      (m, true)
  }

  /** Addresses, provider ID and readiness. */
  function Report(c: Config, m: KubevirtMachine, ready: bool, ch: Choices): KubevirtMachine {
    m.(knownIp := ch.internalIp,
       providerId := if m.providerId.None? || m.providerId.value == "" then Some(ProviderId(c)) else m.providerId,
       ready := ready,
       provisioned := m.provisioned || ready)
  }

  /** After the drain. `ready` is the readiness of the VMI read at the start of the pass. */
  function Finish(c: Config, m: KubevirtMachine, ready: bool, ch: Choices): (KubevirtMachine, Result) {
    var (n, booted) := CheckBootstrap(m, ch);
    if !booted then (n, Requeue(10000)) else
    (Report(c, n, ready, ch), Requeue(if ch.migratableKnown then 0 else 10000))
  }

  function ReconcileNormal(c: Config, f: Flight, stored: KubevirtMachine, ch: Choices): (Flight, Result) {
    var (g, done) := Provision(c, f, ch);
    if done.Some? then (g, done.value) else
    var ready := g.state.eviction.vmi.Some? && g.state.eviction.vmi.value.ready;
    var (h, r) := Drain(g, stored, ch);
    if r != Requeue(0) then (h, r) else
    var (m, r') := Finish(c, h.machine, ready, ch);
    (h.(machine := m), r')
  }

  function UpdateNodeProviderId(f: Flight, ch: Choices): (Flight, Result) {
    var node := f.state.eviction.node;
    if f.machine.nodeUpdated then (f, Requeue(0)) else
    if !ch.guest then (f, Requeue(10000)) else
    if !ch.nodeGet then (f, Failed(5000)) else
    if node.None? then (f, Requeue(10000)) else
    if f.machine.providerId.None? then (f, Crashed) else
    if node.value.providerId == f.machine.providerId.value then (f, Requeue(0)) else
    if ch.nodePatch.Refused? then (f, Failed(5000)) else
    var g := f.(state := f.state.(eviction := f.state.eviction.(
      node := Some(node.value.(providerId := f.machine.providerId.value)))));
    if ch.nodePatch.Lost? then (g, Failed(5000)) else
    (g.(machine := g.machine.(nodeUpdated := true)), Requeue(0))
  }

  /** The deferred patch writes the object in memory back, or is lost as a whole. */
  function PatchBack(f: Flight, patch: Outcome): State {
    if patch.Refused? then f.state else f.state.(machine := Some(f.machine))
  }

  function ReconcileLive(c: Config, st: State, stored: KubevirtMachine, ch: Choices): (Flight, Result) {
    var f := Flight(stored, st);
    if !stored.finalizer then (f.(machine := stored.(finalizer := true)), Requeue(0)) else
    if !ch.infraReady then (f, Requeue(0)) else
    var (g, r) := ReconcileNormal(c, f, stored, ch);
    if r == Requeue(0) then UpdateNodeProviderId(g, ch) else (g, r)
  }

  // ---------- Reconciling a deleted machine ----------

  function ReconcileDelete(c: Config, st: State, stored: KubevirtMachine, ch: Choices): (State, Result) {
    var place := VmPlace(c, stored.secretRef);
    if ch.client.LookupError? || place.None? then (st, Failed(10000)) else
    if ch.client.NotYet? then (st, Requeue(10000)) else
    if !ch.secret || !ch.helper then (st, Failed(10000)) else
    var present := place.value in st.vms;
    if present && !ch.vmGet then (st, Failed(10000)) else
    if present && ch.vmDelete.Refused? then (st, Failed(10000)) else
    var st1 := st.(vms := st.vms - {place.value});
    if present && ch.vmDelete.Lost? then (st1, Failed(10000)) else
    (PatchBack(Flight(stored.(finalizer := false), st1), ch.patch),
     if ch.patch.Done? then Requeue(0) else Failed(0))
  }

  /** The owner Machine or the cluster could not be read, or is not there yet. */
  function Without(f: Lookup): Result {
    if f.LookupError? then Failed(0) else Requeue(0)
  }

  function Reconcile(c: Config, st: State, ch: Choices): (State, Result) {
    if st.machine.None? then (st, Requeue(0)) else
    if !ch.owner.Found? then (st, Without(ch.owner)) else
    var stored := st.machine.value;
    if stored.deleting then ReconcileDelete(c, st, stored, ch) else
    if !ch.cluster.Found? then (st, Without(ch.cluster)) else
    var (f, r) := ReconcileLive(c, st, stored, ch);
    (PatchBack(f, ch.patch), if r.Requeue? && !ch.patch.Done? then Failed(r.after) else r)
  }
}
