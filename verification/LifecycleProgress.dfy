/** What the controller achieves when its calls succeed: from every state, whatever earlier failures left
    behind, a machine comes into service, and a deletion leaves nothing behind. */
module LifecycleProgress {
  import opened Common
  import opened Eviction
  import opened EvictionPass
  import opened Lifecycle
  import opened LifecycleRuns
  import opened LifecycleProjections
  import EvictionProgress
  import EvictionRuns
  import SshKeys

  /** Every read and call succeeds, and the guest has bootstrapped. */
  ghost predicate Smooth(ch: Choices) {
    && ch.owner.Found? && ch.cluster.Found? && ch.infraReady
    && ch.ssh.check && ch.ssh.recheck && ch.ssh.data && ch.client.Found? && ch.secret && ch.helper && ch.terminalCheck
    && ch.create.Done? && EvictionProgress.Healthy(ch.drain) && ch.booted && ch.migratableKnown
    && ch.guest && ch.nodeGet && ch.nodePatch.Done? && ch.vmGet && ch.vmDelete.Done? && ch.patch.Done?
  }

  /** The SSH keys are there, or nobody needs them because the cluster is managed externally. */
  predicate KeysReach(keys: SshKeys.State, ch: Choices) {
    ch.ssh.external || SshKeys.Persisted(keys, true)
  }

  /** A live machine with everything its owner must supply. */
  predicate Supplied(c: Config, st: State) {
    && c.instanceTemplate && st.machine.Some? && !st.machine.value.deleting && st.bootstrapData
    && VmPlace(c, Defaulted(c, st.machine.value.secretRef)).Some?
  }

  /** Where the machine's VM belongs. */
  function Home(c: Config, st: State): Place
    requires Supplied(c, st)
  {
    Target(c, Flight(st.machine.value, st))
  }

  predicate Claimed(c: Config, st: State) {
    Supplied(c, st) && st.machine.value.finalizer
  }

  // ---------- One reconcile ----------

  lemma SmoothReconcileClaims(c: Config, st: State, ch: Choices)
    requires Supplied(c, st) && !st.machine.value.finalizer && Smooth(ch)
    ensures Reconcile(c, st, ch).0 == st.(machine := Some(st.machine.value.(finalizer := true)))
  {
  }

  lemma MissingVmIsCreated(c: Config, st: State, ch: Choices)
    requires Claimed(c, st) && Smooth(ch) && KeysReach(st.keys, ch) && Home(c, st) !in st.vms
    ensures var m := st.machine.value;
            Reconcile(c, st, ch).0 ==
            st.(vms := st.vms + {Home(c, st)}, created := true,
                machine := Some(m.(secretRef := Defaulted(c, m.secretRef), ready := false)))
  {
    hide VmPlace, FetchNodeKeys, SshKeys.Persisted;
    KeysAreThereIff(st.keys, ch.ssh);
  }

  /** After a reconcile of a claimed machine its VM exists, whatever the reconcile went on to do. */
  lemma SmoothReconcileCreates(c: Config, st: State, ch: Choices)
    requires Claimed(c, st) && Smooth(ch) && KeysReach(st.keys, ch)
    ensures var st' := Reconcile(c, st, ch).0;
            && Claimed(c, st') && Home(c, st') == Home(c, st) && st'.keys == st.keys
            && st'.vms == st.vms + {Home(c, st)}
            && (Home(c, st) !in st.vms ==> st'.machine.value.nodeUpdated == st.machine.value.nodeUpdated)
  {
    hide VmPlace, SshKeys.Persisted, ReconcileLive, ProviderId;
    if Home(c, st) in st.vms {
      LiveLeg(c, st, st.machine.value, ch);
    } else {
      hide Reconcile;
      MissingVmIsCreated(c, st, ch);
    }
  }

  /** The machine reports itself ready, its VM exists, and no eviction is left over. */
  predicate InService(c: Config, st: State) {
    && Claimed(c, st) && Home(c, st) in st.vms
    && st.machine.value.ready && st.machine.value.provisioned && HasId(st.machine.value)
    && st.machine.value.bootstrapped.Some?
    && EvictionProgress.OWN_KEYS !! st.eviction.stored.Keys
  }

  /** The machine has a provider ID, and its Node carries it. */
  predicate NodeServes(st: State) {
    st.machine.Some? && HasId(st.machine.value) && NodeHasId(Flight(st.machine.value, st))
  }

  lemma SmoothNormal(c: Config, st: State, ch: Choices)
    requires Claimed(c, st) && Smooth(ch) && KeysReach(st.keys, ch) && Home(c, st) in st.vms
    requires Up(st.eviction.vmi) && Returned(st.eviction.vmi)
    ensures var stored := st.machine.value;
            var (g, r) := ReconcileNormal(c, Flight(stored, st), stored, ch);
            && r == Requeue(0) && g.state == st.(eviction := Pass(st.eviction, ch.drain, true).0.world)
            && g.machine.ready && g.machine.provisioned && HasId(g.machine) && g.machine.bootstrapped.Some?
            && g.machine.providerId == Some(NextId(c, stored)) && g.machine.bootstrapped == NextBootstrap(stored, ch)
            && g.machine.finalizer && !g.machine.deleting && g.machine.nodeUpdated == stored.nodeUpdated
            && Defaulted(c, g.machine.secretRef) == Defaulted(c, stored.secretRef)
  {
    hide VmPlace, Provision, Pass, CheckBootstrap, Report, SshKeys.Persisted, ProviderId;
    var stored := st.machine.value;
    ProvisionLeg(c, Flight(stored, st), ch);
    ProvisionEndsIff(c, st, ch);
    EvictionProgress.HealthyPassSettles(st.eviction, ch.drain);
    var h := Drain(Provision(c, Flight(stored, st), ch).0, stored, ch).0;
    BootstrapLeg(h.machine, ch);
    ReportLeg(c, CheckBootstrap(h.machine, ch).0, ch);
  }

  /** With the VM up and not under eviction one reconcile brings the machine into service; its Node carries the
      provider ID if and only if no Node got it before or this one has it already. */
  lemma SmoothReconcileServes(c: Config, st: State, ch: Choices)
    requires Claimed(c, st) && Smooth(ch) && KeysReach(st.keys, ch) && Home(c, st) in st.vms
    requires Up(st.eviction.vmi) && Returned(st.eviction.vmi) && st.eviction.node.Some?
    ensures var m, id := st.machine.value, st.eviction.node.value.providerId;
            var st' := Reconcile(c, st, ch).0;
            && InService(c, st') && NextId(c, st'.machine.value) == NextId(c, m)
            && st'.machine.value.bootstrapped == NextBootstrap(m, ch)
            && (NodeServes(st') <==> !m.nodeUpdated || id == NextId(c, m))
            && (st'.machine.value.nodeUpdated <==> m.nodeUpdated || id != NextId(c, m))
  {
    hide VmPlace, Pass, ReconcileNormal, SshKeys.Persisted, ProviderId;
    SmoothNormal(c, st, ch);
    EvictionProgress.HealthyPassSettles(st.eviction, ch.drain);
  }

  // ---------- Whole histories ----------

  /** If NodeUpdated is set, the Node carries the provider ID the machine has or will get. */
  predicate NodeAgrees(c: Config, f: Flight) {
    f.machine.nodeUpdated ==>
      f.state.eviction.node.Some? && f.state.eviction.node.value.providerId == NextId(c, f.machine)
  }

  lemma LiveReconcileAgrees(c: Config, st: State, stored: KubevirtMachine, ch: Choices)
    requires st.bootstrapData && NodeAgrees(c, Flight(stored, st))
    ensures NodeAgrees(c, ReconcileLive(c, st, stored, ch).0)
  {
    hide ReconcileNormal, UpdateNodeProviderId, VmPlace, LosesKeys, LacksTemplate, ProviderId;
    if stored.finalizer && ch.infraReady {
      NormalLeg(c, st, stored, ch);
      var (g, r) := ReconcileNormal(c, Flight(stored, st), stored, ch);
      UpdateLeg(c, stored, st, g, ch);
    }
  }

  /** What a reconcile keeps that all the steps of a recovery rely on. */
  ghost predicate KeepsIdentity(c: Config, st: State, st': State)
    requires st.machine.Some?
  {
    && st'.machine.Some? && NextId(c, st'.machine.value) == NextId(c, st.machine.value)
    && SameNodeExists(st, st')
    && (st.machine.value.nodeUpdated ==> st'.machine.value.nodeUpdated)
    && (st.eviction.node.None? ==> st'.machine.value.nodeUpdated == st.machine.value.nodeUpdated)
    && (NodeAgrees(c, Flight(st.machine.value, st)) ==> NodeAgrees(c, Flight(st'.machine.value, st')))
  }

  predicate SameNodeExists(st: State, st': State) {
    st'.eviction.node.Some? <==> st.eviction.node.Some?
  }

  lemma SmoothReconcileKeepsIdentity(c: Config, st: State, ch: Choices)
    requires Supplied(c, st) && Smooth(ch)
    ensures KeepsIdentity(c, st, Reconcile(c, st, ch).0)
  {
    hide ReconcileLive, VmPlace, ProviderId;
    LiveLeg(c, st, st.machine.value, ch);
    if NodeAgrees(c, Flight(st.machine.value, st)) {
      LiveReconcileAgrees(c, st, st.machine.value, ch);
    }
  }

  /** Two reconciles of a live machine, whatever its state, claim it and create its VM. */
  lemma TwoReconcilesLaunch(c: Config, st: State, a: Choices, b: Choices) returns (s: State)
    requires Supplied(c, st) && Smooth(a) && Smooth(b) && KeysReach(st.keys, a) && KeysReach(st.keys, b)
    ensures s == Run(c, st, [Reconciles(a)] + [Reconciles(b)])
    ensures s == Reconcile(c, Reconcile(c, st, a).0, b).0
    ensures Claimed(c, s) && Home(c, s) in s.vms && s.keys == st.keys && KeepsIdentity(c, st, s)
  {
    hide Reconcile, Run, SshKeys.Persisted, VmPlace, NextId, NodeAgrees;
    if st.machine.value.finalizer {
      SmoothReconcileCreates(c, st, a);
    } else {
      SmoothReconcileClaims(c, st, a);
    }
    SmoothReconcileKeepsIdentity(c, st, a);
    var s1 := Reconcile(c, st, a).0;
    SmoothReconcileCreates(c, s1, b);
    SmoothReconcileKeepsIdentity(c, s1, b);
    s := Reconcile(c, s1, b).0;
    RunFirst(c, st, Reconciles(a));
    RunLast(c, st, [Reconciles(a)], Reconciles(b));
  }

  function VmiComesUp(v: Vmi): Event {
    Environment(EvictionRuns.VmiChanges(Some(v)))
  }

  function NodeAppears(n: Node): Event {
    Environment(EvictionRuns.NodeChanges(Some(n)))
  }

  /** Two reconciles, the VMI and the Node come up, and a third reconcile. */
  ghost function Recovery(a: Choices, b: Choices, v: Vmi, n: Node, d: Choices): seq<Event> {
    [Reconciles(a)] + [Reconciles(b)] + [VmiComesUp(v)] + [NodeAppears(n)] + [Reconciles(d)]
  }

  /** From every state of a live machine, whatever its status fields, its annotations and the guest went
      through, it is in service after three reconciles whose calls succeed; its Node carries the provider ID
      if and only if it has it already or NodeUpdated is not set before the last of them, as it is not if there
      was no Node before and NodeUpdated was not set at the start. */
  lemma EveryMachineRecovers(c: Config, st: State, a: Choices, b: Choices, v: Vmi, n: Node, d: Choices)
    requires Supplied(c, st) && Smooth(a) && Smooth(b) && Smooth(d) && Up(Some(v)) && Returned(Some(v))
    requires KeysReach(st.keys, a) && KeysReach(st.keys, b) && KeysReach(st.keys, d)
    ensures var s2 := Run(c, st, [Reconciles(a)] + [Reconciles(b)]);
            var e := Run(c, st, Recovery(a, b, v, n, d));
            && InService(c, e) && s2.machine.Some?
            && NextId(c, e.machine.value) == NextId(c, st.machine.value)
            && e.machine.value.bootstrapped == NextBootstrap(s2.machine.value, d)
            && (NodeServes(e) <==> !s2.machine.value.nodeUpdated || n.providerId == NextId(c, st.machine.value))
            && (e.machine.value.nodeUpdated <==>
                  s2.machine.value.nodeUpdated || n.providerId != NextId(c, st.machine.value))
            && (st.machine.value.nodeUpdated ==> s2.machine.value.nodeUpdated)
            && (st.eviction.node.None? ==> s2.machine.value.nodeUpdated == st.machine.value.nodeUpdated)
  {
    hide Reconcile, Run, InService, NodeServes, SshKeys.Persisted, VmPlace, NextId;
    var s2 := TwoReconcilesLaunch(c, st, a, b);
    var s4 := s2.(eviction := s2.eviction.(vmi := Some(v), node := Some(n)));
    SmoothReconcileServes(c, s4, d);
    var two := [Reconciles(a)] + [Reconciles(b)];
    RunLast(c, st, two, VmiComesUp(v));
    RunLast(c, st, two + [VmiComesUp(v)], NodeAppears(n));
    RunLast(c, st, two + [VmiComesUp(v)] + [NodeAppears(n)], Reconciles(d));
  }

  // ---------- Which Nodes get the provider ID ----------

  ghost predicate NodeIsLeftAlone(events: seq<Event>) {
    forall e :: e in events ==> !ChangesNode(e)
  }

  /** A VMI as KubeVirt reports it after a start. */
  const RUNNING_VMI := Vmi(false, None, "", "host", false, None, true, "10.0.0.1")

  /** Every call succeeds; the keys are read unless they are not there, in an externally managed cluster. */
  function AllWellFor(st: State): Choices {
    AllWell(Done).(ssh := KeyReads(!SshKeys.Persisted(st.keys, true), true, true, true))
  }

  ghost function Service(ch: Choices): seq<Event> {
    [Reconciles(ch)] + [Reconciles(ch)] + [VmiComesUp(RUNNING_VMI)] + [Reconciles(ch)]
  }

  lemma AgreeingNodeIsServed(c: Config, st: State)
    requires Supplied(c, st) && st.eviction.node.Some? && NodeAgrees(c, Flight(st.machine.value, st))
    ensures NodeIsLeftAlone(Service(AllWellFor(st))) && NodeServes(Run(c, st, Service(AllWellFor(st))))
  {
    hide Reconcile, Run, SshKeys.Persisted, VmPlace, NextId, NodeServes;
    var ch := AllWellFor(st);
    var two := [Reconciles(ch)] + [Reconciles(ch)];
    var s2 := TwoReconcilesLaunch(c, st, ch, ch);
    var s3 := s2.(eviction := s2.eviction.(vmi := Some(RUNNING_VMI)));
    RunLast(c, st, two, VmiComesUp(RUNNING_VMI));
    RunLast(c, st, two + [VmiComesUp(RUNNING_VMI)], Reconciles(ch));
    SmoothReconcileServes(c, s3, ch);
  }

  /** Which Nodes get the provider ID, exactly: some history in which nobody else changes the Node ends with the
      Node carrying it if and only if NodeUpdated is not set or the Node has it already. */
  lemma NodeIsServedIff(c: Config, st: State)
    requires Supplied(c, st) && st.eviction.node.Some?
    ensures (exists events :: NodeIsLeftAlone(events) && NodeServes(Run(c, st, events))) <==>
            !st.machine.value.nodeUpdated || st.eviction.node.value.providerId == NextId(c, st.machine.value)
  {
    hide Run, VmPlace, ProviderId;
    if NodeAgrees(c, Flight(st.machine.value, st)) {
      AgreeingNodeIsServed(c, st);
    } else {
      forall events | NodeIsLeftAlone(events)
        ensures !NodeServes(Run(c, st, events))
      {
        UpdatedNodeKeepsItsId(c, st, events);
      }
    }
  }

  const BARE_NODE := Node(false, "")

  /** A new machine comes into service, and its Node is replaced by one without a provider ID. */
  ghost function Replacement(): seq<Event> {
    Supply(KEYS_WELL) + Recovery(AllWell(Done), AllWell(Done), RUNNING_VMI, BARE_NODE, AllWell(Done)) +
    [NodeAppears(BARE_NODE)]
  }

  /** NodeUpdated fails a replaced Node: from a new machine, one replacement leaves a Node that gets the provider
      ID in no history in which it is left alone. */
  lemma AReplacedNodeStaysBare(c: Config, ref: Option<Ref>, w: World, events: seq<Event>)
    requires c.instanceTemplate && VmPlace(c, Defaulted(c, ref)).Some? && NodeIsLeftAlone(events)
    ensures var e := Run(c, Run(c, NewState(ref, w), Replacement()), events);
            e.eviction.node.Some? && e.eviction.node.value.providerId == "" && !NodeServes(e)
  {
    hide Run, VmPlace, SshKeys.Persisted, Smooth, InService;
    var ch, st := AllWell(Done), NewState(ref, w);
    var s1 := Run(c, st, Supply(KEYS_WELL));
    var recovery := Recovery(ch, ch, RUNNING_VMI, BARE_NODE, ch);
    NewMachineIsSupplied(c, ref, w, KEYS_WELL);
    AllWellIsSmooth();
    EveryMachineRecovers(c, s1, ch, ch, RUNNING_VMI, BARE_NODE, ch);
    RunAppend(c, st, Supply(KEYS_WELL), recovery);
    RunLast(c, st, Supply(KEYS_WELL) + recovery, NodeAppears(BARE_NODE));
    assert ProviderId(c)[0] == 'k';
    UpdatedNodeKeepsItsId(c, Run(c, st, Replacement()), events);
  }

  lemma AllWellIsSmooth()
    ensures Smooth(AllWell(Done))
  {
  }

  // ---------- The end of a machine ----------

  lemma RunFirst(c: Config, st: State, e: Event)
    ensures Run(c, st, [e]) == Take(c, st, e)
  {
    hide Take;
    assert [e][1..] == [];
  }

  /** The owner asks for the deletion, one reconcile, and the API server collects the object. */
  ghost function DeletionEvents(x: Choices): seq<Event> {
    [DeletionRequested] + [Reconciles(x)] + [Collected]
  }

  /** After every history whose creating reconciles were recorded, a deletion whose calls succeed leaves no
      VM behind; the machine is gone too unless its finalizer waits for a reference that leads nowhere. */
  lemma DeletionLeavesNothing(c: Config, st: State, x: Choices)
    requires Guarded(c, st) && st.machine.Some? && Smooth(x)
    ensures var e := Run(c, st, DeletionEvents(x));
            && e.vms == {}
            && (e.machine.None? <==> VmPlace(c, st.machine.value.secretRef).Some? || !st.machine.value.finalizer)
  {
    hide VmPlace, Run, Reconcile;
    var s1 := st.(machine := Some(st.machine.value.(deleting := true)));
    DeletingReconcile(c, s1, x);
    RunFirst(c, st, DeletionRequested);
    RunLast(c, st, [DeletionRequested], Reconciles(x));
    RunLast(c, st, [DeletionRequested] + [Reconciles(x)], Collected);
  }

  lemma DeletingReconcile(c: Config, st: State, x: Choices)
    requires Guarded(c, st) && st.machine.Some? && st.machine.value.deleting && Smooth(x)
    ensures var (e, r) := Reconcile(c, st, x);
            && e.vms == {}
            && e.machine == if VmPlace(c, st.machine.value.secretRef).Some?
                            then Some(st.machine.value.(finalizer := false)) else st.machine
  {
    hide VmPlace;
  }

  lemma DeletionAfterAnyHistory(c: Config, ref: Option<Ref>, w: World, events: seq<Event>, x: Choices)
    requires CreatesStick(c, NewState(ref, w), events) && Smooth(x)
    requires Run(c, NewState(ref, w), events).machine.Some?
    ensures var st := Run(c, NewState(ref, w), events);
            var e := Run(c, st, DeletionEvents(x));
            && e.vms == {}
            && (e.machine.None? <==> VmPlace(c, st.machine.value.secretRef).Some? || !st.machine.value.finalizer)
  {
    hide Run, VmPlace, CreatesStick;
    NoVmIsOrphaned(c, NewState(ref, w), events);
    DeletionLeavesNothing(c, Run(c, NewState(ref, w), events), x);
  }

  /** What a new machine needs before its first VM: the cluster's key pair and the bootstrap data. */
  ghost function Supply(k: SshKeys.Choices): seq<Event> {
    [ClusterReconciles(k)] + [BootstrapData(true)]
  }

  lemma NewMachineIsSupplied(c: Config, ref: Option<Ref>, w: World, k: SshKeys.Choices)
    requires c.instanceTemplate && VmPlace(c, Defaulted(c, ref)).Some?
    requires k.generated.Some? && k.persist.Done? && !k.patch.Refused?
    ensures var st := Run(c, NewState(ref, w), Supply(k));
            && Supplied(c, st) && SshKeys.Persisted(st.keys, true)
            && st.machine == NewState(ref, w).machine && st.vms == {} && st.eviction == w
  {
    hide Run, VmPlace;
    RunFirst(c, NewState(ref, w), ClusterReconciles(k));
    RunLast(c, NewState(ref, w), [ClusterReconciles(k)], BootstrapData(true));
    assert SshKeys.OwnSecret(c.clusterName)[|c.clusterName|] == '-';
  }

  /** A whole life: a new machine, once supplied, comes into service with its Node carrying the provider ID, and
      the guest reported as bootstrapped, and its deletion then leaves neither VM nor machine. */
  lemma WholeLife(c: Config, ref: Option<Ref>, w: World, k: SshKeys.Choices, a: Choices, b: Choices, v: Vmi, n: Node,
                  d: Choices, x: Choices)
    requires c.instanceTemplate && VmPlace(c, Defaulted(c, ref)).Some?
    requires k.generated.Some? && k.persist.Done? && !k.patch.Refused?
    requires Smooth(a) && Smooth(b) && Smooth(d) && Smooth(x) && Up(Some(v)) && Returned(Some(v))
    ensures var e := Run(c, NewState(ref, w), Supply(k) + Recovery(a, b, v, n, d));
            && InService(c, e) && NodeServes(e)
            && e.machine.value.providerId == Some("kubevirt://" + c.name) && e.machine.value.bootstrapped == Some(true)
            && Run(c, e, DeletionEvents(x)).machine == None && Run(c, e, DeletionEvents(x)).vms == {}
  {
    hide Reconcile, Run, VmPlace, SshKeys.Persisted;
    var st := Run(c, NewState(ref, w), Supply(k));
    NewMachineIsSupplied(c, ref, w, k);
    RunAppend(c, NewState(ref, w), Supply(k), Recovery(a, b, v, n, d));
    EveryMachineRecovers(c, st, a, b, v, n, d);
    LaunchLeavesNodeAlone(c, st, a, b);
    var e := Run(c, st, Recovery(a, b, v, n, d));
    RecoveryGuards(c, st, a, b, v, n, d);
    DeletionLeavesNothing(c, e, x);
  }

  lemma LaunchLeavesNodeAlone(c: Config, st: State, a: Choices, b: Choices)
    requires Supplied(c, st) && !st.machine.value.finalizer && st.vms == {}
    requires Smooth(a) && Smooth(b) && KeysReach(st.keys, a) && KeysReach(st.keys, b)
    ensures var s := Run(c, st, [Reconciles(a)] + [Reconciles(b)]);
            && s.machine.Some? && s.machine.value.nodeUpdated == st.machine.value.nodeUpdated
            && s.machine.value.bootstrapped == st.machine.value.bootstrapped
  {
    hide Reconcile, Run, VmPlace, SshKeys.Persisted;
    var s := TwoReconcilesLaunch(c, st, a, b);
    SmoothReconcileClaims(c, st, a);
    MissingVmIsCreated(c, Reconcile(c, st, a).0, b);
  }

  lemma RecoveryGuards(c: Config, st: State, a: Choices, b: Choices, v: Vmi, n: Node, d: Choices)
    requires Guarded(c, st) && Smooth(a) && Smooth(b) && Smooth(d)
    ensures Guarded(c, Run(c, st, Recovery(a, b, v, n, d)))
  {
    hide Take, Guarded;
    SmoothSticks(c, st, Recovery(a, b, v, n, d));
    NoVmIsOrphaned(c, st, Recovery(a, b, v, n, d));
  }

  lemma {:induction false} SmoothSticks(c: Config, st: State, events: seq<Event>)
    requires forall e :: e in events && e.Reconciles? ==> Smooth(e.choices)
    ensures CreatesStick(c, st, events)
    decreases |events|
  {
    hide Take;
    if events != [] {
      SmoothSticks(c, Take(c, st, events[0]), events[1..]);
    }
  }
}
