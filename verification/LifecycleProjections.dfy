/** The controller's histories seen from the two protocols inside them. On the eviction world a history of the
    controller is a run of the eviction protocol whose passes are the reconciles that reach the drain call, so
    what `EvictionRuns` proves about runs, also about runs whose passes share a property, holds for the
    controller. On the SSH keys it is a run of the key protocol. */
module LifecycleProjections {
  import opened Common
  import opened Annotations
  import opened Eviction
  import opened EvictionPass
  import opened Lifecycle
  import opened LifecycleRuns
  import EvictionRuns
  import SshKeys

  // ---------- Which reconciles drain ----------

  predicate Up(vmi: Option<Vmi>) {
    vmi.Some? && vmi.value.ready && vmi.value.address != ""
  }

  /** A reconcile reaches the drain call with the VM there and its VMI ready and addressed; a VMI that is not
      up keeps its eviction waiting. */
  predicate Drains(c: Config, st: State, ch: Choices) {
    && HandlesLive(st, ch) && st.machine.value.finalizer && ch.infraReady
    && var f := Flight(st.machine.value, st);
       Equipped(c, f, ch) && Target(c, f) in st.vms && Up(st.eviction.vmi)
  }

  lemma ProvisionEndsIff(c: Config, st: State, ch: Choices)
    requires HandlesLive(st, ch) && st.machine.value.finalizer && ch.infraReady
    ensures Provision(c, Flight(st.machine.value, st), ch).1.None? <==> Drains(c, st, ch)
  {
    hide VmPlace, FetchNodeKeys, SshKeys.Persisted;
    KeysAreThereIff(st.keys, ch.ssh);
  }

  /** What a reconcile does to the eviction world: one pass if it drains, and at most the Node's provider ID. */
  lemma ReconcileDrainsIff(c: Config, st: State, ch: Choices)
    ensures var w := Reconcile(c, st, ch).0.eviction;
            w == (if Drains(c, st, ch) then Pass(st.eviction, ch.drain, true).0.world else st.eviction).(node := w.node)
  {
    hide Pass, Provision, Finish, VmPlace, Target, SshKeys.Persisted;
    if HandlesLive(st, ch) && st.machine.value.finalizer && ch.infraReady {
      ProvisionLeg(c, Flight(st.machine.value, st), ch);
      ProvisionEndsIff(c, st, ch);
    }
  }

  /** When an equipped reconcile stores Ready, exactly: the VM exists and its VMI is ready; and without an
      address, or when the drain asks for another pass, Ready was stored before (with a known address in the
      first case); otherwise the guest has bootstrapped or nobody can tell. */
  lemma ReadyIff(c: Config, st: State, ch: Choices)
    requires HandlesLive(st, ch) && st.machine.value.finalizer && ch.infraReady
    requires Equipped(c, Flight(st.machine.value, st), ch) && !ch.patch.Refused?
    ensures var m, m' := st.machine.value, Reconcile(c, st, ch).0.machine;
            var vmi := st.eviction.vmi;
            && m'.Some?
            && (m'.value.ready <==>
                  && Target(c, Flight(m, st)) in st.vms && vmi.Some? && vmi.value.ready
                  && (if vmi.value.address == "" then m.ready && m.knownIp
                      else if Pass(st.eviction, ch.drain, true).1 != Requeue(0) then m.ready
                      else !ch.checkable || ch.booted || m.bootstrapped == Some(true)))
  {
    hide VmPlace, ReconcileNormal, Pass, SshKeys.Persisted, UpdateNodeProviderId;
    var f := Flight(st.machine.value, st);
    if Drains(c, st, ch) {
      ReadyAfterDrain(c, st, ch);
    } else {
      ReadyWithoutDrain(c, st, ch);
    }
    UpdateKeepsReady(ReconcileNormal(c, f, st.machine.value, ch).0, ch);
  }

  lemma ReadyAfterDrain(c: Config, st: State, ch: Choices)
    requires Drains(c, st, ch)
    ensures var m := st.machine.value;
            ReconcileNormal(c, Flight(m, st), m, ch).0.machine.ready <==>
            if Pass(st.eviction, ch.drain, true).1 != Requeue(0) then m.ready
            else !ch.checkable || ch.booted || m.bootstrapped == Some(true)
  {
    hide VmPlace, Pass, FetchNodeKeys, SshKeys.Persisted, CheckBootstrap, Report;
    var m := st.machine.value;
    KeysAreThereIff(st.keys, ch.ssh);
    var h := Drain(Provision(c, Flight(m, st), ch).0, m, ch).0;
    BootstrapLeg(h.machine, ch);
    ReportLeg(c, CheckBootstrap(h.machine, ch).0, ch);
  }

  lemma ReadyWithoutDrain(c: Config, st: State, ch: Choices)
    requires HandlesLive(st, ch) && st.machine.value.finalizer && ch.infraReady
    requires Equipped(c, Flight(st.machine.value, st), ch) && !Drains(c, st, ch)
    ensures var m, vmi := st.machine.value, st.eviction.vmi;
            ReconcileNormal(c, Flight(m, st), m, ch).0.machine.ready <==>
            Target(c, Flight(m, st)) in st.vms && vmi.Some? && vmi.value.ready && m.ready && m.knownIp
  {
    hide VmPlace, FetchNodeKeys, SshKeys.Persisted, Drain, Finish;
    KeysAreThereIff(st.keys, ch.ssh);
  }

  /** The bootstrap condition and the known address, exactly: a stored reconcile whose drain call lets it go on
      leaves what `NextBootstrap` says, and reports an address unless the guest has just failed to bootstrap;
      every other reconcile keeps both. */
  lemma BootstrapIff(c: Config, st: State, ch: Choices)
    requires HandlesLive(st, ch) && !ch.patch.Refused?
    ensures var m, m' := st.machine.value, Reconcile(c, st, ch).0.machine;
            var asked := Drains(c, st, ch) && Pass(st.eviction, ch.drain, true).1 == Requeue(0);
            && m'.Some?
            && m'.value.bootstrapped == (if asked then NextBootstrap(m, ch) else m.bootstrapped)
            && (asked && (!ch.checkable || ch.booted || m.bootstrapped == Some(true)) ==>
                  m'.value.knownIp == ch.internalIp)
            && (!asked || (ch.checkable && !ch.booted && m.bootstrapped != Some(true)) ==>
                  m'.value.knownIp == m.knownIp)
  {
    hide VmPlace, ReconcileNormal, Pass, SshKeys.Persisted, UpdateNodeProviderId, Drains;
    var m := st.machine.value;
    if m.finalizer && ch.infraReady {
      BootstrapAfterNormal(c, st, ch);
      UpdateKeepsReady(ReconcileNormal(c, Flight(m, st), m, ch).0, ch);
    } else {
      DrainsNeedsAClaim(c, st, ch);
    }
  }

  /** An address once reported keeps Ready through an empty one: after a reconcile that reported an internal
      address, Ready survives reconciles that find the VMI ready but without an address. */
  lemma ReportedAddressKeepsReady(c: Config, st: State, ch: Choices, v: Vmi, ch': Choices)
    requires Drains(c, st, ch) && Pass(st.eviction, ch.drain, true).1 == Requeue(0) && !ch.patch.Refused?
    requires ch.internalIp && (!ch.checkable || ch.booted || st.machine.value.bootstrapped == Some(true))
    requires v.ready && v.address == ""
    ensures var st' := Reconcile(c, st, ch).0;
            var s := st'.(eviction := st'.eviction.(vmi := Some(v)));
            && HandlesLive(s, ch') && ch'.infraReady && !ch'.patch.Refused?
            && Equipped(c, Flight(s.machine.value, s), ch') ==>
              Reconcile(c, s, ch').0.machine.Some? && Reconcile(c, s, ch').0.machine.value.ready
  {
    hide Reconcile, VmPlace, Pass, SshKeys.Persisted, ProviderId;
    var st' := Reconcile(c, st, ch).0;
    BootstrapIff(c, st, ch);
    ReadyIff(c, st, ch);
    DrainingReconcileKeepsVm(c, st, ch);
    var s := st'.(eviction := st'.eviction.(vmi := Some(v)));
    if HandlesLive(s, ch') && ch'.infraReady && Equipped(c, Flight(s.machine.value, s), ch') && !ch'.patch.Refused? {
      ReadyIff(c, s, ch');
    }
  }

  lemma DrainingReconcileKeepsVm(c: Config, st: State, ch: Choices)
    requires Drains(c, st, ch) && !ch.patch.Refused?
    ensures var st' := Reconcile(c, st, ch).0;
            && st'.machine.Some? && st'.machine.value.finalizer && st.vms <= st'.vms
            && Defaulted(c, st'.machine.value.secretRef) == Defaulted(c, st.machine.value.secretRef)
  {
    hide ReconcileLive, VmPlace, SshKeys.Persisted, Pass, ProviderId;
    LiveLeg(c, st, st.machine.value, ch);
  }

  lemma DrainsNeedsAClaim(c: Config, st: State, ch: Choices)
    ensures Drains(c, st, ch) ==> HandlesLive(st, ch) && st.machine.value.finalizer && ch.infraReady
  {
  }

  lemma BootstrapAfterNormal(c: Config, st: State, ch: Choices)
    requires HandlesLive(st, ch) && st.machine.value.finalizer && ch.infraReady
    ensures var m := st.machine.value;
            var n := ReconcileNormal(c, Flight(m, st), m, ch).0.machine;
            var asked := Drains(c, st, ch) && Pass(st.eviction, ch.drain, true).1 == Requeue(0);
            && n.bootstrapped == (if asked then NextBootstrap(m, ch) else m.bootstrapped)
            && (asked && (!ch.checkable || ch.booted || m.bootstrapped == Some(true)) ==> n.knownIp == ch.internalIp)
            && (!asked || (ch.checkable && !ch.booted && m.bootstrapped != Some(true)) ==> n.knownIp == m.knownIp)
  {
    hide VmPlace, Provision, Pass, SshKeys.Persisted, CheckBootstrap, Report, Drains;
    var m := st.machine.value;
    ProvisionLeg(c, Flight(m, st), ch);
    ProvisionEndsIff(c, st, ch);
    var h := Drain(Provision(c, Flight(m, st), ch).0, m, ch).0;
    BootstrapLeg(h.machine, ch);
    ReportLeg(c, CheckBootstrap(h.machine, ch).0, ch);
  }

  lemma UpdateKeepsReady(f: Flight, ch: Choices)
    ensures var m := UpdateNodeProviderId(f, ch).0.machine;
            m.ready == f.machine.ready && m.bootstrapped == f.machine.bootstrapped && m.knownIp == f.machine.knownIp
  {
  }

  // ---------- The run of the eviction protocol inside a history ----------

  ghost function StepsOf(c: Config, st: State, e: Event): seq<EvictionRuns.Step> {
    match e
    case Environment(step) => if step.Reconcile? then [] else [step]
    case Reconciles(ch) =>
      (if Drains(c, st, ch) then [EvictionRuns.Reconcile(ch.drain, true)] else []) +
      [EvictionRuns.NodeChanges(Reconcile(c, st, ch).0.eviction.node)]
    case _ => []
  }

  ghost function Projection(c: Config, st: State, events: seq<Event>): seq<EvictionRuns.Step>
    decreases |events|
  {
    if events == [] then [] else StepsOf(c, st, events[0]) + Projection(c, Take(c, st, events[0]), events[1..])
  }

  /** Every reconcile of the history that drains has the property. */
  ghost predicate DrainsAlong(c: Config, st: State, events: seq<Event>, p: EvictionRuns.PassProperty)
    decreases |events|
  {
    events == [] ||
    ((events[0].Reconciles? && Drains(c, st, events[0].choices) ==> p(st.eviction, events[0].choices.drain, true))
     && DrainsAlong(c, Take(c, st, events[0]), events[1..], p))
  }

  lemma StepProjects(c: Config, st: State, e: Event, p: EvictionRuns.PassProperty)
    requires e.Reconciles? && Drains(c, st, e.choices) ==> p(st.eviction, e.choices.drain, true)
    ensures EvictionRuns.Run(st.eviction, StepsOf(c, st, e)) == Take(c, st, e).eviction
    ensures EvictionRuns.Along(st.eviction, StepsOf(c, st, e), p)
  {
    hide Pass, Reconcile, Drains;
    if e.Reconciles? {
      ReconcileDrainsIff(c, st, e.choices);
      var node := EvictionRuns.NodeChanges(Reconcile(c, st, e.choices).0.eviction.node);
      if Drains(c, st, e.choices) {
        var pass := EvictionRuns.Reconcile(e.choices.drain, true);
        assert StepsOf(c, st, e) == [pass, node];
        assert [pass, node][1..] == [node];
        var w := EvictionRuns.Take(st.eviction, pass);
        EvictionRuns.RunOne(w, node);
        assert EvictionRuns.Along(w, [node], p);
      } else {
        assert StepsOf(c, st, e) == [node];
        assert [node][1..] == [];
      }
    } else if e.Environment? && !e.step.Reconcile? {
      assert StepsOf(c, st, e)[1..] == [];
    }
  }

  /** Every history of the controller is, on the eviction world, a run of the eviction protocol, and whatever
      its draining reconciles have in common the passes of that run have in common. */
  lemma {:induction false} RunProjects(c: Config, st: State, events: seq<Event>, p: EvictionRuns.PassProperty)
    requires DrainsAlong(c, st, events, p)
    ensures var steps := Projection(c, st, events);
            && EvictionRuns.Run(st.eviction, steps) == Run(c, st, events).eviction
            && EvictionRuns.Along(st.eviction, steps, p)
    decreases |events|
  {
    if events != [] {
      hide Take, EvictionRuns.Run, EvictionRuns.Along, Drains;
      var st' := Take(c, st, events[0]);
      var first, rest := StepsOf(c, st, events[0]), Projection(c, st', events[1..]);
      StepProjects(c, st, events[0], p);
      RunProjects(c, st', events[1..], p);
      EvictionRuns.RunAppend(st.eviction, first, rest);
      EvictionRuns.AlongAppend(st.eviction, first, rest, p);
    } else {
      hide Drains;
    }
  }

  predicate AnyPass(w: World, o: Oracle, workload: bool) {
    true
  }

  lemma {:induction false} EveryHistoryDrainsAlong(c: Config, st: State, events: seq<Event>)
    ensures DrainsAlong(c, st, events, AnyPass)
    decreases |events|
  {
    hide Take, Drains;
    if events != [] {
      EveryHistoryDrainsAlong(c, Take(c, st, events[0]), events[1..]);
    }
  }

  // ---------- What the controller inherits ----------

  /** Every VMI delete the controller ever issues is justified, and a forced one waited. */
  lemma EveryControllerDeleteIsJustified(c: Config, st: State, events: seq<Event>)
    requires StampOk(st.eviction)
    requires forall d :: d in st.eviction.audit.deletions ==> Justified(d) && EvictionRuns.Patient(d)
    ensures forall d :: d in Run(c, st, events).eviction.audit.deletions ==> Justified(d) && EvictionRuns.Patient(d)
  {
    hide Run, EvictionRuns.Run, DrainsAlong, EvictionRuns.Along;
    EveryHistoryDrainsAlong(c, st, events);
    RunProjects(c, st, events, AnyPass);
    EvictionRuns.EveryDeleteIsJustified(st.eviction, Projection(c, st, events));
  }

  /** The deadline of a non-migratable VMI never moves in a history either; but more than 600 seconds after it
      was computed a reconcile calls delete if and only if it reaches the drain call, that is, if the
      prerequisites and the VM are there and the VMI is ready and has an address. Otherwise it does nothing
      to the VMI. */
  lemma OverdueVmiIsDeletedIff(c: Config, st: State, events: seq<Event>, ch: Choices)
    requires StampOk(st.eviction) && HasDeadline(st.eviction.stored)
    requires DrainsAlong(c, st, events, EvictionRuns.EvictionStands)
    requires EvictionRuns.EvictedInPlace(Run(c, st, events).eviction.vmi)
    requires Run(c, st, events).eviction.now > EvictionRuns.LastSecond(st.eviction.audit.stampedAt)
    ensures var e := Run(c, st, events);
            var w, w' := e.eviction, Reconcile(c, e, ch).0.eviction;
            && SameDeadline(st.eviction, w)
            && w'.audit.cordons == w.audit.cordons
            && w'.audit.deletions == w.audit.deletions +
                 (if Drains(c, e, ch)
                  then [Deletion(w.vmi.value, w.now, w.stored, w.audit.stampedAt, w.node, false)] else [])
            && (!Drains(c, e, ch) ==> w'.vmi == w.vmi)
  {
    hide Run, EvictionRuns.Run, DrainsAlong, EvictionRuns.Along, EvictionRuns.EvictionStands, Pass, Reconcile, Drains;
    var steps, e := Projection(c, st, events), Run(c, st, events);
    RunProjects(c, st, events, EvictionRuns.EvictionStands);
    EvictionRuns.DeadlineNeverMoves(st.eviction, steps);
    EvictionRuns.OverdueVmiIsDeleted(st.eviction, steps, ch.drain, true);
    ReconcileDrainsIff(c, e, ch);
  }

  /** An eviction waits for its VMI: while the VMI is not ready or has no address, over every history, however
      long it lasts, the controller calls no delete, cordon, uncordon or migration, and the deadline passes
      without consequence. */
  lemma {:induction false} EvictionWaitsForItsVmi(c: Config, st: State, events: seq<Event>)
    requires !Up(st.eviction.vmi)
    requires forall e :: e in events ==> !(e.Environment? && e.step.VmiChanges?)
    ensures var e := Run(c, st, events).eviction;
            && e.vmi == st.eviction.vmi && e.audit == st.eviction.audit && e.now >= st.eviction.now
            && (HasDeadline(st.eviction.stored) ==> SameDeadline(st.eviction, e))
            && (Overdue(st.eviction) ==> Overdue(e))
    decreases |events|
  {
    if events != [] {
      hide Reconcile, Up, Pass;
      if events[0].Reconciles? {
        DrainNeedsTheVmiUp(c, st, events[0].choices);
        ReconcileDrainsIff(c, st, events[0].choices);
      }
      EvictionWaitsForItsVmi(c, Take(c, st, events[0]), events[1..]);
    }
  }

  lemma DrainNeedsTheVmiUp(c: Config, st: State, ch: Choices)
    ensures Drains(c, st, ch) ==> Up(st.eviction.vmi)
  {
  }

  /** From a reconcile that deletes the VMI until one that sees it back the controller makes no uncordon call,
      and a delete after a drain leaves the marker stored all that time. */
  lemma CordonOutlivesTheControllersDelete(c: Config, st: State, ch: Choices, events: seq<Event>)
    requires Drains(c, st, ch) && Pass(st.eviction, ch.drain, true).0.effects.deleteIssued
    requires DrainsAlong(c, Reconcile(c, st, ch).0, events, EvictionRuns.NotReturned)
    ensures var e := Run(c, Reconcile(c, st, ch).0, events).eviction;
            && e.audit.uncordons == st.eviction.audit.uncordons
            && (Pass(st.eviction, ch.drain, true).0.effects.drained ==> NodeCordoned in e.stored)
  {
    hide Run, EvictionRuns.Run, DrainsAlong, EvictionRuns.Along, EvictionRuns.NotReturned, Pass, Reconcile, Drains;
    var st' := Reconcile(c, st, ch).0;
    ReconcileDrainsIff(c, st, ch);
    PassKeeps(st.eviction, ch.drain, true);
    RunProjects(c, st', events, EvictionRuns.NotReturned);
    EvictionRuns.MarkerHoldsUntilReturn(st'.eviction, Projection(c, st', events));
  }

  /** Time in the migration queue is not charged by the controller either. */
  lemma ControllersQueueTimeIsNotCharged(c: Config, st: State, events: seq<Event>)
    requires GraceDeadline !in st.eviction.stored
    requires DrainsAlong(c, st, events, EvictionRuns.Queueing)
    ensures var e := Run(c, st, events).eviction;
            GraceDeadline !in e.stored && e.audit.deletions == st.eviction.audit.deletions
  {
    hide Run, EvictionRuns.Run, DrainsAlong, EvictionRuns.Along;
    RunProjects(c, st, events, EvictionRuns.Queueing);
    EvictionRuns.QueueTimeIsNotCharged(st.eviction, Projection(c, st, events));
  }

  // ---------- The SSH keys of a history ----------

  ghost function KeySteps(events: seq<Event>): seq<SshKeys.Choices>
    decreases |events|
  {
    if events == [] then [] else
    (if events[0].ClusterReconciles? then [events[0].keyStep] else []) + KeySteps(events[1..])
  }

  lemma KeysAfterStep(c: Config, st: State, e: Event)
    ensures Take(c, st, e).keys ==
            if e.ClusterReconciles? then SshKeys.ReconcileKeys(c.clusterName, st.keys, e.keyStep) else st.keys
  {
    hide ReconcileLive, VmPlace, SshKeys.ReconcileKeys;
    if e.Reconciles? && HandlesLive(st, e.choices) {
      LiveLeg(c, st, st.machine.value, e.choices);
    }
  }

  lemma {:induction false} KeysProject(c: Config, st: State, events: seq<Event>)
    ensures Run(c, st, events).keys == SshKeys.Run(c.clusterName, st.keys, KeySteps(events))
    decreases |events|
  {
    if events != [] {
      hide Take, SshKeys.ReconcileKeys;
      var rest := KeySteps(events[1..]);
      KeysAfterStep(c, st, events[0]);
      KeysProject(c, Take(c, st, events[0]), events[1..]);
      if events[0].ClusterReconciles? {
        assert KeySteps(events)[1..] == rest;
      } else {
        assert KeySteps(events) == rest;
      }
    }
  }

  /** All reconciles of a history that fetch the cluster's SSH keys fetch the same matched pair. */
  lemma EveryReconcileFetchesThePair(c: Config, st: State, before: seq<Event>, between: seq<Event>, r1: bool, r2: bool,
                                     r3: bool, r4: bool)
    requires SshKeys.OwnSecret(c.clusterName) !in st.keys.secrets && st.keys.secretName.None?
    ensures var s1 := Run(c, st, before);
            var s2 := Run(c, s1, between);
            var f1, f2 := SshKeys.FetchKeys(s1.keys, r1, r2), SshKeys.FetchKeys(s2.keys, r3, r4);
            && (f1.Fetched? ==> SshKeys.Matched(SshKeys.Data(Some(f1.pub), Some(f1.key))))
            && (f1.Fetched? && f2.Fetched? ==> f1 == f2)
            && (f1.Fetched? && r3 && r4 ==> f2.Fetched?)
  {
    hide Run, SshKeys.Run, SshKeys.FetchKeys;
    KeysProject(c, st, before);
    KeysProject(c, Run(c, st, before), between);
    SshKeys.EveryFetchReturnsThePair(c.clusterName, st.keys, KeySteps(before), KeySteps(between), r1, r2, r3, r4);
  }
}
