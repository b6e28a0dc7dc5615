/** What the KubevirtMachine controller guarantees over whole runs of reconciles, each with its own failures,
    interleaved with changes of the clusters around it. */
module LifecycleRuns {
  import opened Common
  import opened Eviction
  import opened EvictionPass
  import opened Lifecycle
  import EvictionRuns
  import SshKeys

  datatype Event =
    | Reconciles(choices: Choices)
    | DeletionRequested
    | Collected                             // the API server drops a deleted object without finalizers
    | BootstrapData(available: bool)
    | ClusterReconciles(keyStep: SshKeys.Choices)
    | Environment(step: EvictionRuns.Step)

  ghost function Take(c: Config, st: State, e: Event): State {
    match e
    case Reconciles(ch) => Reconcile(c, st, ch).0
    case DeletionRequested =>
      if st.machine.None? then st else st.(machine := Some(st.machine.value.(deleting := true)))
    case Collected =>
      if st.machine.Some? && st.machine.value.deleting && !st.machine.value.finalizer
      then st.(machine := None) else st
    case BootstrapData(available) => st.(bootstrapData := available)
    case ClusterReconciles(keyStep) => st.(keys := SshKeys.ReconcileKeys(c.clusterName, st.keys, keyStep))
    case Environment(step) =>
      if step.Reconcile? then st else st.(eviction := EvictionRuns.Take(st.eviction, step))
  }

  ghost function Run(c: Config, st: State, events: seq<Event>): State
    decreases |events|
  {
    if events == [] then st else Run(c, Take(c, st, events[0]), events[1..])
  }

  lemma {:induction false} RunAppend(c: Config, st: State, a: seq<Event>, b: seq<Event>)
    ensures Run(c, st, a + b) == Run(c, Run(c, st, a), b)
    decreases |a|
  {
    hide Take;
    if a == [] {
      assert a + b == b;
    } else {
      assert (a + b)[1..] == a[1..] + b;
      RunAppend(c, Take(c, st, a[0]), a[1..], b);
    }
  }

  lemma RunLast(c: Config, st: State, events: seq<Event>, e: Event)
    ensures Run(c, st, events + [e]) == Take(c, Run(c, st, events), e)
  {
    hide Take;
    RunAppend(c, st, events, [e]);
    assert [e][1..] == [];
  }

  // ---------- One reconcile ----------

  /** Up to the drain a pass may default the secret reference, create the VM and clear Ready. */
  ghost predicate ProvisionsOnly(c: Config, f: Flight, g: Flight) {
    && g.machine == f.machine.(secretRef := g.machine.secretRef, ready := g.machine.ready)
    && (g.machine.ready ==> f.machine.ready)
    && (g.machine.secretRef == f.machine.secretRef || g.machine.secretRef == Defaulted(c, f.machine.secretRef))
    && g.state == f.state.(vms := g.state.vms, created := g.state.created)
    && (if g.state.vms == f.state.vms then f.state.created ==> g.state.created else
          && c.instanceTemplate && g.state.created && f.state.bootstrapData
          && g.machine.secretRef == Defaulted(c, f.machine.secretRef)
          && VmPlace(c, g.machine.secretRef).Some?
          && g.state.vms == f.state.vms + {VmPlace(c, g.machine.secretRef).value})
    && (g.state.created ==> f.state.created || f.state.bootstrapData)
  }

  /** The last read of the SSH key secret fails, after the two reads before it found the keys. */
  predicate LosesKeys(keys: SshKeys.State, ssh: KeyReads) {
    !ssh.external && ssh.check && ssh.recheck && !ssh.data && SshKeys.Persisted(keys, true)
  }

  lemma KeysLeg(keys: SshKeys.State, ssh: KeyReads)
    ensures FetchNodeKeys(keys, ssh) == Some(Crashed) <==> LosesKeys(keys, ssh)
    ensures FetchNodeKeys(keys, ssh) != Some(Requeue(0))
  {
    SshKeys.FetchCrashesIff(keys, ssh.recheck, ssh.data);
  }

  lemma KeysAreThereIff(keys: SshKeys.State, ssh: KeyReads)
    ensures FetchNodeKeys(keys, ssh).None? <==>
            ssh.external || (ssh.check && ssh.recheck && ssh.data && SshKeys.Persisted(keys, true))
  {
  }

  /** Everything a reconcile of this machine needs before it looks at the VM. */
  predicate Equipped(c: Config, f: Flight, ch: Choices) {
    && f.state.bootstrapData
    && (ch.ssh.external || (ch.ssh.check && ch.ssh.recheck && ch.ssh.data && SshKeys.Persisted(f.state.keys, true)))
    && ch.client.Found? && ch.secret && ch.helper && ch.terminalCheck
    && VmPlace(c, Defaulted(c, f.machine.secretRef)).Some?
  }

  function Target(c: Config, f: Flight): Place
    requires VmPlace(c, Defaulted(c, f.machine.secretRef)).Some?
  {
    VmPlace(c, Defaulted(c, f.machine.secretRef)).value
  }

  /** The VM is to be created from a template that has no instance template. */
  predicate LacksTemplate(c: Config, f: Flight, ch: Choices) {
    !c.instanceTemplate && Equipped(c, f, ch) && Target(c, f) !in f.state.vms
  }

  lemma PrepareLeg(c: Config, f: Flight, ch: Choices)
    ensures var (g, done) := Prepare(c, f, ch);
            && g.state == f.state
            && (g.machine == f.machine || g.machine == f.machine.(secretRef := Defaulted(c, f.machine.secretRef)))
            && (done.None? <==> Equipped(c, f, ch))
            && (done.None? ==> g.machine.secretRef == Defaulted(c, f.machine.secretRef))
            && (done == Some(Crashed) <==> f.state.bootstrapData && LosesKeys(f.state.keys, ch.ssh))
            && (done == Some(Requeue(0)) <==> !f.state.bootstrapData)
            && (!f.state.bootstrapData ==> g == f)
  {
    hide VmPlace, FetchNodeKeys, LosesKeys, SshKeys.Persisted;
    KeysLeg(f.state.keys, ch.ssh);
    KeysAreThereIff(f.state.keys, ch.ssh);
  }

  lemma LaunchLeg(c: Config, f: Flight, place: Place, ch: Choices)
    ensures var (g, done) := Launch(c, f, place, ch);
            && g.machine == f.machine.(ready := g.machine.ready) && (g.machine.ready ==> f.machine.ready)
            && (done == Some(Crashed) <==> !c.instanceTemplate && place !in f.state.vms)
            && done != Some(Requeue(0))
            && (g.state == f.state ||
                (c.instanceTemplate && g.state == f.state.(vms := f.state.vms + {place}, created := true)))
            && (done.None? ==> g.state == f.state && f.state.eviction.vmi.Some? && f.state.eviction.vmi.value.ready)
  {
    if place in f.state.vms {
    } else if c.instanceTemplate && !ch.create.Refused? {
    } else {
    }
  }

  lemma ProvisionLeg(c: Config, f: Flight, ch: Choices)
    ensures var (g, done) := Provision(c, f, ch);
            && ProvisionsOnly(c, f, g)
            && (done == Some(Crashed) <==>
                  (f.state.bootstrapData && LosesKeys(f.state.keys, ch.ssh)) || LacksTemplate(c, f, ch))
            && (done == Some(Requeue(0)) <==> !f.state.bootstrapData)
            && (!f.state.bootstrapData ==> g == f)
            && (done.None? ==>
                  && g.state == f.state
                  && g.state.eviction.vmi.Some? && g.state.eviction.vmi.value.ready)
  {
    hide VmPlace, LosesKeys, SshKeys.Persisted, Prepare, Launch, Defaulted;
    PrepareLeg(c, f, ch);
    var (g, done) := Prepare(c, f, ch);
    if done.None? {
      LaunchLeg(c, g, Target(c, f), ch);
    }
  }

  predicate HasId(m: KubevirtMachine) {
    m.providerId.Some? && m.providerId.value != ""
  }

  /** The provider ID the machine has or, without one, will get. */
  function NextId(c: Config, m: KubevirtMachine): string {
    if HasId(m) then m.providerId.value else ProviderId(c)
  }

  /** Machines with different names get different provider IDs. */
  lemma ProviderIdsTellMachinesApart(c1: Config, c2: Config)
    ensures ProviderId(c1) == ProviderId(c2) <==> c1.name == c2.name
  {
    assert ProviderId(c1)[11..] == c1.name;
    assert ProviderId(c2)[11..] == c2.name;
  }

  /** Ready implies Provisioned, which implies a provider ID and a bootstrap condition. */
  predicate StatusOk(m: KubevirtMachine) {
    && (m.ready ==> m.provisioned)
    && (m.provisioned ==> HasId(m) && m.bootstrapped.Some?)
  }

  /** What never reverts. */
  predicate Latched(m: KubevirtMachine, n: KubevirtMachine) {
    && (HasId(m) ==> n.providerId == m.providerId)
    && (m.provisioned ==> n.provisioned)
    && (m.bootstrapped == Some(true) ==> n.bootstrapped == Some(true))
    && (m.bootstrapped.Some? ==> n.bootstrapped.Some?)
    && (m.nodeUpdated ==> n.nodeUpdated)
  }

  lemma FinishLeg(c: Config, m: KubevirtMachine, ch: Choices)
    ensures var (n, r) := Finish(c, m, true, ch);
            && Latched(m, n) && (StatusOk(m) ==> StatusOk(n))
            && n.finalizer == m.finalizer && n.deleting == m.deleting && n.secretRef == m.secretRef
            && n.nodeUpdated == m.nodeUpdated && (n.providerId == m.providerId || HasId(n))
            && NextId(c, n) == NextId(c, m)
            && (r == Requeue(0) ==> HasId(n)) && r.Requeue?
  {
    hide CheckBootstrap, Report, ProviderId;
    BootstrapLeg(m, ch);
    ReportLeg(c, CheckBootstrap(m, ch).0, ch);
  }

  /** The bootstrap condition after a check: the last word of a guest that can be asked, but a success is final;
      success if nobody can tell and nobody has said anything yet. */
  function NextBootstrap(m: KubevirtMachine, ch: Choices): Option<bool> {
    if ch.checkable && m.bootstrapped != Some(true) then (if ch.booted then Some(true) else Some(false))
    else if m.bootstrapped.None? then Some(true)
    else m.bootstrapped
  }

  lemma BootstrapLeg(m: KubevirtMachine, ch: Choices)
    ensures var (n, booted) := CheckBootstrap(m, ch);
            && Latched(m, n) && (StatusOk(m) ==> StatusOk(n)) && (booted ==> n.bootstrapped.Some?)
            && (booted <==> !ch.checkable || ch.booted || m.bootstrapped == Some(true))
            && (!booted ==> !n.ready)
            && n.bootstrapped == NextBootstrap(m, ch)
            && n == m.(bootstrapped := n.bootstrapped, ready := n.ready)
  {
  }

  lemma ReportLeg(c: Config, m: KubevirtMachine, ch: Choices)
    ensures var n := Report(c, m, true, ch);
            && Latched(m, n) && HasId(n) && n.ready && n.provisioned && n.bootstrapped == m.bootstrapped
            && n.finalizer == m.finalizer && n.deleting == m.deleting && n.secretRef == m.secretRef
            && n.nodeUpdated == m.nodeUpdated && n.providerId == Some(NextId(c, m)) && n.knownIp == ch.internalIp
  {
    assert ProviderId(c)[0] == 'k';
  }

  /** What a reconcile of a live machine does to the machine in memory and to the clusters. */
  ghost predicate Advances(c: Config, stored: KubevirtMachine, st: State, g: Flight) {
    && Latched(stored, g.machine) && NextId(c, g.machine) == NextId(c, stored)
    && (StatusOk(stored) ==> StatusOk(g.machine))
    && (stored.finalizer ==> g.machine.finalizer)
    && g.machine.deleting == stored.deleting
    && (g.machine.secretRef == stored.secretRef || g.machine.secretRef == Defaulted(c, stored.secretRef))
    && g.state.machine == st.machine
    && g.state.bootstrapData == st.bootstrapData && g.state.keys == st.keys
    && (g.state.eviction.node.Some? <==> st.eviction.node.Some?)
    && (g.state.created ==> st.created || st.bootstrapData)
    && (st.created ==> g.state.created)
    && (g.state.vms == st.vms ||
        (c.instanceTemplate && stored.finalizer && g.state.created
         && g.machine.secretRef == Defaulted(c, stored.secretRef)
         && VmPlace(c, g.machine.secretRef).Some?
         && g.state.vms == st.vms + {VmPlace(c, g.machine.secretRef).value}))
  }

  lemma NormalLeg(c: Config, st: State, stored: KubevirtMachine, ch: Choices)
    requires stored.finalizer
    ensures var (g, r) := ReconcileNormal(c, Flight(stored, st), stored, ch);
            && Advances(c, stored, st, g)
            && (r.Crashed? <==>
                  (st.bootstrapData && LosesKeys(st.keys, ch.ssh)) || LacksTemplate(c, Flight(stored, st), ch))
            && (r == Requeue(0) ==> !st.bootstrapData || HasId(g.machine))
            && (g.machine.nodeUpdated == stored.nodeUpdated)
            && SameNode(st.eviction.node, g.state.eviction.node)
            && (g.machine.providerId == stored.providerId || HasId(g.machine))
            && (!st.bootstrapData ==> g == Flight(stored, st) && r == Requeue(0))
            && (g.machine.ready && !stored.ready ==> Pass(st.eviction, ch.drain, true).1 == Requeue(0))
  {
    hide Provision, Drain, Finish, VmPlace, LosesKeys, LacksTemplate, ProviderId;
    var f := Flight(stored, st);
    ProvisionLeg(c, f, ch);
    var (g, done) := Provision(c, f, ch);
    if done.None? {
      DrainStage(g, stored, ch);
      var (h, r) := Drain(g, stored, ch);
      if r == Requeue(0) {
        FinishLeg(c, h.machine, ch);
      }
    }
  }

  lemma DrainStage(g: Flight, stored: KubevirtMachine, ch: Choices)
    ensures var (h, r) := Drain(g, stored, ch);
            && (h.machine == g.machine || h.machine == stored)
            && h.state == g.state.(eviction := h.state.eviction)
            && SameNode(g.state.eviction.node, h.state.eviction.node)
            && r == Pass(g.state.eviction, ch.drain, true).1 && !r.Crashed?
  {
    hide Pass;
    PassKeeps(g.state.eviction, ch.drain, true);
  }

  /** The Node carries the provider ID of the machine. */
  predicate NodeHasId(f: Flight) {
    f.state.eviction.node.Some? && f.machine.providerId == Some(f.state.eviction.node.value.providerId)
  }

  lemma UpdateLeg(c: Config, stored: KubevirtMachine, st: State, g: Flight, ch: Choices)
    requires Advances(c, stored, st, g)
    ensures var (h, r) := UpdateNodeProviderId(g, ch);
            && Advances(c, stored, st, h) && h.machine.ready == g.machine.ready
            && (r.Crashed? <==> !g.machine.nodeUpdated && ch.guest && ch.nodeGet && g.state.eviction.node.Some?
                                && g.machine.providerId.None?)
            && h.machine.providerId == g.machine.providerId
            && (h.machine.nodeUpdated == g.machine.nodeUpdated || (ch.nodePatch.Done? && NodeHasId(h)))
            && (SameNode(g.state.eviction.node, h.state.eviction.node) || NodeHasId(h))
            && (r == Requeue(0) ==> g.machine.nodeUpdated || NodeHasId(h))
            && (g.machine.nodeUpdated ==> h == g)
  {
    hide VmPlace, ProviderId;
  }

  /** `updateNodeProviderID` dereferences a missing provider ID: the pass waits for bootstrap data, which is
      a zero result, although a guest Node of that name exists. */
  predicate DereferencesProviderId(st: State, stored: KubevirtMachine, ch: Choices) {
    && stored.finalizer && ch.infraReady && !st.bootstrapData
    && !stored.nodeUpdated && stored.providerId.None?
    && ch.guest && ch.nodeGet && st.eviction.node.Some?
  }

  /** `FetchPersistedKeysFromSecret` dereferences the secret it failed to read. */
  predicate DereferencesSecret(st: State, stored: KubevirtMachine, ch: Choices) {
    stored.finalizer && ch.infraReady && st.bootstrapData && LosesKeys(st.keys, ch.ssh)
  }

  /** `buildVirtualMachineInstanceTemplate` dereferences a missing instance template. */
  predicate DereferencesTemplate(c: Config, st: State, stored: KubevirtMachine, ch: Choices) {
    stored.finalizer && ch.infraReady && LacksTemplate(c, Flight(stored, st), ch)
  }

  lemma LiveLeg(c: Config, st: State, stored: KubevirtMachine, ch: Choices)
    ensures var (f, r) := ReconcileLive(c, st, stored, ch);
            && Advances(c, stored, st, f)
            && (r.Crashed? <==>
                  || DereferencesProviderId(st, stored, ch) || DereferencesSecret(st, stored, ch)
                  || DereferencesTemplate(c, st, stored, ch))
            && (f.machine.nodeUpdated == stored.nodeUpdated || NodeHasId(f))
            && (stored.nodeUpdated ==> SameNode(st.eviction.node, f.state.eviction.node))
            && (f.machine.ready && !stored.ready ==> Pass(st.eviction, ch.drain, true).1 == Requeue(0))
  {
    hide ReconcileNormal, UpdateNodeProviderId, VmPlace, LosesKeys, LacksTemplate, ProviderId;
    if stored.finalizer && ch.infraReady {
      NormalLeg(c, st, stored, ch);
      var (g, r) := ReconcileNormal(c, Flight(stored, st), stored, ch);
      if r == Requeue(0) {
        UpdateLeg(c, stored, st, g, ch);
      }
    }
  }

  /** The reconcile gets as far as handling a live machine. */
  predicate HandlesLive(st: State, ch: Choices) {
    st.machine.Some? && ch.owner.Found? && !st.machine.value.deleting && ch.cluster.Found?
  }

  /** The reconciles that crash, exactly: they dereference a missing provider ID, the key secret they failed to
      read, or the instance template of a VM template without one. */
  lemma ReconcileCrashesIff(c: Config, st: State, ch: Choices)
    ensures Reconcile(c, st, ch).1.Crashed? <==>
            && HandlesLive(st, ch)
            && var m := st.machine.value;
               DereferencesProviderId(st, m, ch) || DereferencesSecret(st, m, ch) || DereferencesTemplate(c, st, m, ch)
  {
    hide ReconcileLive, DereferencesProviderId, DereferencesSecret, DereferencesTemplate;
    if st.machine.Some? && !st.machine.value.deleting {
      LiveLeg(c, st, st.machine.value, ch);
    }
  }

  /** Ready turns true only in a pass whose drain call neither deleted the VMI nor cordoned the Node nor
      asked for a migration, and whose VMI is not under eviction or already off the evacuated host. */
  lemma ReadyOnlyAfterAGentlePass(c: Config, st: State, ch: Choices)
    requires st.machine.Some? && !st.machine.value.ready
    ensures var st' := Reconcile(c, st, ch).0;
            var (s, r) := Pass(st.eviction, ch.drain, true);
            st'.machine.Some? && st'.machine.value.ready ==>
              && r == Requeue(0)
              && !s.effects.deleteIssued && !s.effects.cordonIssued && !s.effects.migrationIssued
              && (st.eviction.vmi.Some? && UnderEviction(st.eviction.vmi.value) ==> OffHost(st.eviction.vmi.value))
  {
    hide ReconcileLive, Pass;
    LiveLeg(c, st, st.machine.value, ch);
    if Pass(st.eviction, ch.drain, true).1 == Requeue(0) {
      ContinuingPassIsGentle(st.eviction, ch.drain, true);
    }
  }

  // ---------- Status latches ----------

  ghost predicate StatusLatched(st: State, st': State) {
    st'.machine.Some? ==>
      && st.machine.Some?
      && Latched(st.machine.value, st'.machine.value)
      && (StatusOk(st.machine.value) ==> StatusOk(st'.machine.value))
  }

  lemma StepLatches(c: Config, st: State, e: Event)
    ensures StatusLatched(st, Take(c, st, e))
  {
    hide ReconcileLive, VmPlace, ProviderId;
    if e.Reconciles? && st.machine.Some? && !st.machine.value.deleting {
      LiveLeg(c, st, st.machine.value, e.choices);
    }
  }

  /** Over every run a provider ID, Provisioned, a bootstrap success and NodeUpdated never revert, and Ready
      keeps implying Provisioned, a provider ID and a bootstrap condition. */
  lemma {:induction false} StatusNeverReverts(c: Config, st: State, events: seq<Event>)
    ensures StatusLatched(st, Run(c, st, events))
    decreases |events|
  {
    if events != [] {
      hide Take;
      StepLatches(c, st, events[0]);
      StatusNeverReverts(c, Take(c, st, events[0]), events[1..]);
    }
  }

  // ---------- NodeUpdated tells the truth ----------

  /** A provider ID is not empty, and NodeUpdated means that the Node carries it. */
  predicate TellsTheTruth(f: Flight) {
    && (f.machine.providerId.Some? ==> HasId(f.machine))
    && (f.machine.nodeUpdated ==> NodeHasId(f))
  }

  predicate Truthful(st: State) {
    st.machine.Some? ==> TellsTheTruth(Flight(st.machine.value, st))
  }

  lemma LiveReconcileIsTruthful(c: Config, st: State, stored: KubevirtMachine, ch: Choices)
    requires TellsTheTruth(Flight(stored, st))
    ensures var f := ReconcileLive(c, st, stored, ch).0;
            TellsTheTruth(f) && TellsTheTruth(Flight(stored, f.state))
  {
    hide ReconcileNormal, UpdateNodeProviderId, VmPlace, LosesKeys, LacksTemplate;
    if stored.finalizer && ch.infraReady {
      NormalLeg(c, st, stored, ch);
      var (g, r) := ReconcileNormal(c, Flight(stored, st), stored, ch);
      UpdateLeg(c, stored, st, g, ch);
    }
  }

  /** Nobody takes the provider ID off a Node that has it, or replaces that Node by another. */
  predicate KeepsNode(st: State, e: Event) {
    e.Environment? && e.step.NodeChanges? && st.machine.Some? && st.machine.value.nodeUpdated ==>
      SameNode(st.eviction.node, e.step.node)
  }

  lemma StepIsTruthful(c: Config, st: State, e: Event)
    requires Truthful(st) && KeepsNode(st, e)
    ensures Truthful(Take(c, st, e))
  {
    hide ReconcileLive, VmPlace, Pass;
    if e.Reconciles? && st.machine.Some? && !st.machine.value.deleting {
      LiveLeg(c, st, st.machine.value, e.choices);
      LiveReconcileIsTruthful(c, st, st.machine.value, e.choices);
    }
  }

  ghost predicate NodeStays(c: Config, st: State, events: seq<Event>)
    decreases |events|
  {
    events == [] || (KeepsNode(st, events[0]) && NodeStays(c, Take(c, st, events[0]), events[1..]))
  }

  /** Over every run in which a Node that carries the provider ID keeps it, NodeUpdated implies that the Node
      carries the machine's provider ID, whatever patches of either object were lost. */
  lemma {:induction false} NodeUpdatedTellsTheTruth(c: Config, st: State, events: seq<Event>)
    requires Truthful(st) && NodeStays(c, st, events)
    ensures Truthful(Run(c, st, events))
    decreases |events|
  {
    if events != [] {
      hide Take, Truthful, KeepsNode;
      StepIsTruthful(c, st, events[0]);
      NodeUpdatedTellsTheTruth(c, Take(c, st, events[0]), events[1..]);
    }
  }

  /** NodeUpdated is set, if there is a machine at all. */
  predicate Served(st: State) {
    st.machine.Some? ==> st.machine.value.nodeUpdated
  }

  predicate ChangesNode(e: Event) {
    e.Environment? && e.step.NodeChanges?
  }

  lemma ServedStep(c: Config, st: State, e: Event)
    requires Served(st) && !ChangesNode(e)
    ensures var st' := Take(c, st, e);
            && Served(st') && SameNode(st.eviction.node, st'.eviction.node)
            && (st'.machine.Some? ==> st.machine.Some? && NextId(c, st'.machine.value) == NextId(c, st.machine.value))
  {
    hide ReconcileLive, VmPlace, Pass, ProviderId;
    if e.Reconciles? && st.machine.Some? && !st.machine.value.deleting {
      LiveLeg(c, st, st.machine.value, e.choices);
    }
  }

  /** NodeUpdated is never reset, so over every run in which nobody else changes the Node its provider ID stays
      what it is, right or wrong. */
  lemma {:induction false} UpdatedNodeKeepsItsId(c: Config, st: State, events: seq<Event>)
    requires Served(st) && forall e :: e in events ==> !ChangesNode(e)
    ensures var st' := Run(c, st, events);
            && Served(st') && SameNode(st.eviction.node, st'.eviction.node)
            && (st'.machine.Some? ==> st.machine.Some? && NextId(c, st'.machine.value) == NextId(c, st.machine.value))
    decreases |events|
  {
    if events != [] {
      hide Take, Served, NextId;
      ServedStep(c, st, events[0]);
      UpdatedNodeKeepsItsId(c, Take(c, st, events[0]), events[1..]);
    }
  }

  // ---------- No orphaned VM ----------

  /** The delete path finds every VM of this machine, and the finalizer makes sure it runs. */
  ghost predicate Guarded(c: Config, st: State) {
    forall p :: p in st.vms ==>
      && st.machine.Some? && st.machine.value.finalizer
      && VmPlace(c, st.machine.value.secretRef) == Some(p)
      && VmPlace(c, Defaulted(c, st.machine.value.secretRef)) == Some(p)
  }

  predicate Orphaned(st: State) {
    st.vms != {} && st.machine.None?
  }

  /** Defaulting the machine's reference does not change where its VM goes. */
  predicate SafeRef(c: Config, ref: Option<Ref>) {
    VmPlace(c, ref) == VmPlace(c, Defaulted(c, ref))
  }

  ghost predicate Safe(c: Config, st: State) {
    Guarded(c, st) && (st.machine.Some? ==> SafeRef(c, st.machine.value.secretRef))
  }

  lemma LiveStepGuards(c: Config, st: State, ch: Choices)
    requires st.machine.Some? && !st.machine.value.deleting
    requires Guarded(c, st)
    requires Reconcile(c, st, ch).0.vms == st.vms || !ch.patch.Refused? || Safe(c, st)
    ensures Guarded(c, Reconcile(c, st, ch).0)
    ensures Safe(c, st) ==> Safe(c, Reconcile(c, st, ch).0)
  {
    hide ReconcileLive, VmPlace;
    LiveLeg(c, st, st.machine.value, ch);
  }

  lemma DeleteStepGuards(c: Config, st: State, ch: Choices)
    requires st.machine.Some? && st.machine.value.deleting
    requires Guarded(c, st)
    ensures Guarded(c, Reconcile(c, st, ch).0)
    ensures Safe(c, st) ==> Safe(c, Reconcile(c, st, ch).0)
  {
    hide VmPlace;
  }

  lemma StepGuards(c: Config, st: State, e: Event)
    requires Guarded(c, st)
    requires e.Reconciles? ==> Take(c, st, e).vms <= st.vms || !e.choices.patch.Refused? || Safe(c, st)
    ensures Guarded(c, Take(c, st, e))
    ensures Safe(c, st) ==> Safe(c, Take(c, st, e))
  {
    hide Reconcile, VmPlace;
    if e.Reconciles? && st.machine.Some? {
      if st.machine.value.deleting {
        DeleteStepGuards(c, st, e.choices);
      } else {
        VmsGrow(c, st, e.choices);
        LiveStepGuards(c, st, e.choices);
      }
    } else if e.Reconciles? {
      NothingWithoutAMachine(c, st, e.choices);
    }
  }

  lemma VmsGrow(c: Config, st: State, ch: Choices)
    requires st.machine.Some? && !st.machine.value.deleting
    ensures st.vms <= Reconcile(c, st, ch).0.vms
  {
    hide ReconcileLive, VmPlace;
    LiveLeg(c, st, st.machine.value, ch);
  }

  lemma NothingWithoutAMachine(c: Config, st: State, ch: Choices)
    requires st.machine.None?
    ensures Reconcile(c, st, ch).0 == st
  {
  }

  /** In every reconcile that creates a VM the deferred patch reaches the API server. */
  ghost predicate CreatesStick(c: Config, st: State, events: seq<Event>)
    decreases |events|
  {
    events == [] ||
    ((events[0].Reconciles? ==> Take(c, st, events[0]).vms <= st.vms || !events[0].choices.patch.Refused?)
     && CreatesStick(c, Take(c, st, events[0]), events[1..]))
  }

  /** Over every run whose creating reconciles are recorded, a VM that is not deleted has its machine, the
      finalizer, and a stored reference that leads the delete path to it. */
  lemma {:induction false} NoVmIsOrphaned(c: Config, st: State, events: seq<Event>)
    requires Guarded(c, st) && CreatesStick(c, st, events)
    ensures Guarded(c, Run(c, st, events)) && !Orphaned(Run(c, st, events))
    decreases |events|
  {
    if events != [] {
      hide Take, Guarded;
      StepGuards(c, st, events[0]);
      NoVmIsOrphaned(c, Take(c, st, events[0]), events[1..]);
    }
  }

  /** If defaulting the reference does not move the VM, the same holds whatever patches are lost. */
  lemma {:induction false} SafeRefsNeedNoPatch(c: Config, st: State, events: seq<Event>)
    requires Safe(c, st)
    ensures Safe(c, Run(c, st, events)) && !Orphaned(Run(c, st, events))
    decreases |events|
  {
    if events != [] {
      hide Take, SafeRef, Guarded;
      StepGuards(c, st, events[0]);
      SafeRefsNeedNoPatch(c, Take(c, st, events[0]), events[1..]);
    }
  }

  /** A KubevirtMachine that no controller has touched yet. */
  function UntouchedMachine(ref: Option<Ref>): KubevirtMachine {
    KubevirtMachine(false, false, ref, None, false, false, None, false, false)
  }

  function NewState(ref: Option<Ref>, w: World): State {
    State(Some(UntouchedMachine(ref)), {}, false, false, SshKeys.State(map[], None), w)
  }

  /** The machine has no reference of its own, and the cluster's leads its VM, of which there can be one, to
      another place than none does. */
  predicate DefaultMovesTheVm(c: Config, ref: Option<Ref>) {
    c.instanceTemplate && ref.None? && VmPlace(c, c.clusterRef).Some? && VmPlace(c, c.clusterRef) != VmPlace(c, None)
  }

  /** Every read and call succeeds; the deferred patch as given. */
  function AllWell(patch: Outcome): Choices {
    Choices(Found, Found, true, KeyReads(false, true, true, true), Found, true, true, true, false,
            Done, n => Reply(Done, 0), false, true, true, true, true, true, true, Done, true, Done, patch)
  }

  const KEYS_WELL := SshKeys.Choices(true, Some(0), Done, Done)

  function FirstKeys(c: Config): SshKeys.State {
    SshKeys.ReconcileKeys(c.clusterName, SshKeys.State(map[], None), KEYS_WELL)
  }

  lemma FirstKeysArePersisted(c: Config)
    ensures SshKeys.Persisted(FirstKeys(c), true)
  {
    assert SshKeys.OwnSecret(c.clusterName)[|c.clusterName|] == '-';
  }

  /** The patch of the creating reconcile is lost, and the machine is deleted before the next one. */
  ghost function OrphaningRun(): seq<Event> {
    [Reconciles(AllWell(Done)), ClusterReconciles(KEYS_WELL), BootstrapData(true), Reconciles(AllWell(Refused)),
     DeletionRequested, Reconciles(AllWell(Done)), Collected]
  }

  lemma TheLostPatchOrphans(c: Config, ref: Option<Ref>, w: World)
    requires DefaultMovesTheVm(c, ref)
    ensures Orphaned(Run(c, NewState(ref, w), OrphaningRun()))
  {
    hide VmPlace, Pass, SshKeys.ReconcileKeys, SshKeys.Persisted;
    var r := OrphaningRun();
    var k, there := FirstKeys(c), VmPlace(c, c.clusterRef).value;
    FirstKeysArePersisted(c);
    PlaceOfNone(c);
    var m := UntouchedMachine(ref).(finalizer := true);
    var s1 := Take(c, NewState(ref, w), r[0]);
    assert s1 == NewState(ref, w).(machine := Some(m));
    var s3 := Take(c, Take(c, s1, r[1]), r[2]);
    assert s3 == State(Some(m), {}, false, true, k, w);
    var s4 := Take(c, s3, r[3]);
    KeysAreFetched(k);
    assert s4 == State(Some(m), {there}, true, true, k, w);
    var s6 := Take(c, Take(c, s4, r[4]), r[5]);
    assert s6 == State(Some(m.(deleting := true, finalizer := false)), {there}, true, true, k, w);
    RunSeven(c, NewState(ref, w), r, Take(c, s6, r[6]));
  }

  lemma KeysAreFetched(keys: SshKeys.State)
    requires SshKeys.Persisted(keys, true)
    ensures FetchNodeKeys(keys, KeyReads(false, true, true, true)) == None
  {
  }

  lemma PlaceOfNone(c: Config)
    ensures VmPlace(c, None).Some?
  {
  }

  lemma RunSeven(c: Config, st: State, r: seq<Event>, e: State)
    requires |r| == 7
    requires e == Take(c, Take(c, Take(c, Take(c, Take(c, Take(c, Take(c, st,
                  r[0]), r[1]), r[2]), r[3]), r[4]), r[5]), r[6])
    ensures Run(c, st, r) == e
  {
    hide Take;
    var s1 := Take(c, st, r[0]);
    var s2 := Take(c, s1, r[1]);
    var s3 := Take(c, s2, r[2]);
    var s4 := Take(c, s3, r[3]);
    var s5 := Take(c, s4, r[4]);
    var s6 := Take(c, s5, r[5]);
    assert Run(c, s6, r[6..]) == e;
    assert r[5..][1..] == r[6..];
    assert Run(c, s5, r[5..]) == e;
    assert r[4..][1..] == r[5..];
    assert Run(c, s4, r[4..]) == e;
    assert r[3..][1..] == r[4..];
    assert Run(c, s3, r[3..]) == e;
    assert r[2..][1..] == r[3..];
    assert Run(c, s2, r[2..]) == e;
    assert r[1..][1..] == r[2..];
    assert Run(c, s1, r[1..]) == e;
  }

  /** No VM can be created: the template is incomplete, or the reference in use leads nowhere. */
  ghost predicate Nowhere(c: Config, st: State) {
    && st.vms == {}
    && (c.instanceTemplate && st.machine.Some? ==> VmPlace(c, Defaulted(c, st.machine.value.secretRef)).None?)
  }

  lemma StepStaysNowhere(c: Config, st: State, e: Event)
    requires Nowhere(c, st)
    ensures Nowhere(c, Take(c, st, e))
  {
    hide ReconcileLive, VmPlace;
    if e.Reconciles? && st.machine.Some? && !st.machine.value.deleting {
      LiveLeg(c, st, st.machine.value, e.choices);
    }
  }

  lemma {:induction false} RunStaysNowhere(c: Config, st: State, events: seq<Event>)
    requires Nowhere(c, st)
    ensures Nowhere(c, Run(c, st, events))
    decreases |events|
  {
    if events != [] {
      hide Take, Nowhere;
      StepStaysNowhere(c, st, events[0]);
      RunStaysNowhere(c, Take(c, st, events[0]), events[1..]);
    }
  }

  /** When lost patches may orphan a VM, exactly: some run from a new machine ends with a VM and no machine
      if and only if the machine relies on the cluster's reference and that one moves the VM. */
  lemma AnOrphanIsPossibleIff(c: Config, ref: Option<Ref>, w: World)
    ensures (exists events :: Orphaned(Run(c, NewState(ref, w), events))) <==> DefaultMovesTheVm(c, ref)
  {
    hide Run, VmPlace;
    if DefaultMovesTheVm(c, ref) {
      TheLostPatchOrphans(c, ref, w);
    } else if SafeRef(c, ref) {
      forall events ensures !Orphaned(Run(c, NewState(ref, w), events)) {
        SafeRefsNeedNoPatch(c, NewState(ref, w), events);
      }
    } else {
      forall events ensures !Orphaned(Run(c, NewState(ref, w), events)) {
        RunStaysNowhere(c, NewState(ref, w), events);
      }
    }
  }

  // ---------- The provider ID is there when it is needed ----------

  /** Bootstrap data is never unset, and a guest Node appears only after the VM was created. */
  ghost predicate Plausible(c: Config, st: State, events: seq<Event>)
    decreases |events|
  {
    events == [] ||
    (&& (events[0] == BootstrapData(false) ==> !st.bootstrapData)
     && (events[0].Environment? && events[0].step.NodeChanges? && events[0].step.node.Some? ==> st.created)
     && Plausible(c, Take(c, st, events[0]), events[1..]))
  }

  predicate NodeComesLast(st: State) {
    (st.eviction.node.Some? ==> st.created) && (st.created ==> st.bootstrapData)
  }

  lemma StepKeepsOrder(c: Config, st: State, e: Event)
    requires NodeComesLast(st)
    requires e == BootstrapData(false) ==> !st.bootstrapData
    requires e.Environment? && e.step.NodeChanges? && e.step.node.Some? ==> st.created
    ensures NodeComesLast(Take(c, st, e))
  {
    hide ReconcileLive, Pass;
    if e.Reconciles? && st.machine.Some? && !st.machine.value.deleting {
      LiveLeg(c, st, st.machine.value, e.choices);
    }
  }

  /** In a plausible run no reconcile dereferences a missing provider ID, although passes that wait for
      bootstrap data reach the dereference too. So none crashes whose last read of the key secret succeeds, if
      the VM template is complete. */
  lemma {:induction false} NoReconcileCrashes(c: Config, st: State, events: seq<Event>, ch: Choices)
    requires NodeComesLast(st) && Plausible(c, st, events)
    ensures var e := Run(c, st, events);
            Reconcile(c, e, ch).1.Crashed? <==>
            && HandlesLive(e, ch)
            && (DereferencesSecret(e, e.machine.value, ch) || DereferencesTemplate(c, e, e.machine.value, ch))
    ensures ch.ssh.data && c.instanceTemplate ==> !Reconcile(c, Run(c, st, events), ch).1.Crashed?
    decreases |events|
  {
    hide Reconcile, Take;
    if events == [] {
      ReconcileCrashesIff(c, st, ch);
    } else {
      StepKeepsOrder(c, st, events[0]);
      NoReconcileCrashes(c, Take(c, st, events[0]), events[1..], ch);
    }
  }

  /** Outside plausible runs the crash is real: a Node of the machine's name that is there before the bootstrap
      data makes the second reconcile of a new machine crash, although all its calls succeed. */
  lemma AnEarlyNodeCrashesTheReconcile(c: Config, ref: Option<Ref>, w: World)
    requires w.node.Some?
    ensures Reconcile(c, Run(c, NewState(ref, w), [Reconciles(AllWell(Done))]), AllWell(Done)).1.Crashed?
  {
    hide Reconcile;
    var st := NewState(ref, w);
    var e := st.(machine := Some(UntouchedMachine(ref).(finalizer := true)));
    NewMachineIsClaimed(c, st);
    assert [Reconciles(AllWell(Done))][1..] == [];
    assert Run(c, st, [Reconciles(AllWell(Done))]) == e;
    ReconcileCrashesIff(c, e, AllWell(Done));
  }

  /** A new machine is claimed and gets its cluster's keys and its bootstrap data. */
  ghost function Prelude(): seq<Event> {
    [Reconciles(AllWell(Done)), ClusterReconciles(KEYS_WELL), BootstrapData(true)]
  }

  lemma AfterThePrelude(c: Config, ref: Option<Ref>, w: World)
    ensures Plausible(c, NewState(ref, w), Prelude())
    ensures Run(c, NewState(ref, w), Prelude()) ==
            State(Some(UntouchedMachine(ref).(finalizer := true)), {}, false, true, FirstKeys(c), w)
  {
    hide Reconcile, SshKeys.ReconcileKeys;
    var r, st := Prelude(), NewState(ref, w);
    NewMachineIsClaimed(c, st);
    var s1 := st.(machine := Some(UntouchedMachine(ref).(finalizer := true)));
    var s2 := s1.(keys := FirstKeys(c));
    var s3 := s2.(bootstrapData := true);
    assert r[1..] == [r[1], r[2]] && r[1..][1..] == [r[2]] && r[1..][1..][1..] == [];
    assert Take(c, st, r[0]) == s1 && Take(c, s1, r[1]) == s2 && Take(c, s2, r[2]) == s3;
    assert Plausible(c, s2, [r[2]]) && Run(c, s2, [r[2]]) == s3;
    assert Plausible(c, s1, r[1..]) && Run(c, s1, r[1..]) == s3;
  }

  /** And a plausible run can crash: one failed read of the key secret is enough. */
  lemma AFailedReadCrashesTheReconcile(c: Config, ref: Option<Ref>, w: World)
    ensures Plausible(c, NewState(ref, w), Prelude())
    ensures Reconcile(c, Run(c, NewState(ref, w), Prelude()),
                      AllWell(Done).(ssh := KeyReads(false, true, true, false))).1.Crashed?
  {
    hide Reconcile, Run, Plausible, SshKeys.ReconcileKeys, SshKeys.Persisted;
    AfterThePrelude(c, ref, w);
    FirstKeysArePersisted(c);
    ReconcileCrashesIff(c, Run(c, NewState(ref, w), Prelude()),
                        AllWell(Done).(ssh := KeyReads(false, true, true, false)));
  }

  /** So is a VM template without an instance template, as soon as its VM is to be created. */
  lemma AMissingTemplateCrashesTheReconcile(c: Config, ref: Option<Ref>, w: World)
    requires !c.instanceTemplate && VmPlace(c, Defaulted(c, ref)).Some?
    ensures Plausible(c, NewState(ref, w), Prelude())
    ensures Reconcile(c, Run(c, NewState(ref, w), Prelude()), AllWell(Done)).1.Crashed?
  {
    hide Reconcile, Run, Plausible, VmPlace, SshKeys.ReconcileKeys, SshKeys.Persisted;
    AfterThePrelude(c, ref, w);
    FirstKeysArePersisted(c);
    ReconcileCrashesIff(c, Run(c, NewState(ref, w), Prelude()), AllWell(Done));
  }

  lemma NewMachineIsClaimed(c: Config, st: State)
    requires st.machine.Some? && !st.machine.value.finalizer && !st.machine.value.deleting
    ensures Reconcile(c, st, AllWell(Done)) ==
            (st.(machine := Some(st.machine.value.(finalizer := true))), Requeue(0))
  {
  }
}
