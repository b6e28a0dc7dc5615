/** The whole behaviour of a reconcile, field by field. What it returns: it passes a row of gates, and the first one
    it finds closed decides. What it leaves behind: each field of the machine and of the clusters from the state
    before. */
module LifecycleResults {
  import opened Common
  import opened Eviction
  import opened Lifecycle
  import opened LifecycleRuns
  import opened LifecycleProjections
  import SshKeys

  datatype Gate = Gate(open: bool, otherwise: Result)

  function FirstClosed(gates: seq<Gate>, end: Result): Result {
    if gates == [] then end else if gates[0].open then FirstClosed(gates[1..], end) else gates[0].otherwise
  }

  // ---------- The gates ----------

  /** From the bootstrap data on to the VM: keys, infra client, bootstrap secret, helper, terminal check. */
  function EquipmentGates(c: Config, st: State, m: KubevirtMachine, ch: Choices): seq<Gate> {
    [Gate(ch.ssh.external || (ch.ssh.check && SshKeys.Persisted(st.keys, true)), Requeue(10000)),
     Gate(ch.ssh.external || ch.ssh.recheck, Failed(0)),
     Gate(ch.ssh.external || ch.ssh.data, Crashed),
     Gate(!ch.client.LookupError? && VmPlace(c, Defaulted(c, m.secretRef)).Some?, Failed(10000)),
     Gate(ch.client.Found?, Requeue(10000)),
     Gate(ch.secret, Failed(10000)),
     Gate(ch.helper, Failed(0)),
     Gate(ch.terminalCheck, Failed(0))]
  }

  /** The VM: created if it is missing, then ready, then with an address. */
  function VmGates(c: Config, present: bool, vmi: Option<Vmi>, ch: Choices): seq<Gate> {
    [Gate(present || c.instanceTemplate, Crashed),
     Gate(present || ch.create.Done?, Failed(0)),
     Gate(present, Requeue(20000)),
     Gate(vmi.Some? && vmi.value.ready, Requeue(20000)),
     Gate(vmi.Some? && vmi.value.address != "", Requeue(20000))]
  }

  /** After the drain: the guest has bootstrapped, and its migratability is known. */
  function GuestGates(m: KubevirtMachine, drained: Result, ch: Choices): seq<Gate> {
    [Gate(drained == Requeue(0), drained),
     Gate(!ch.checkable || ch.booted || m.bootstrapped == Some(true), Requeue(10000)),
     Gate(ch.migratableKnown, Requeue(10000))]
  }

  /** The provider ID on the Node: nothing to do once it is updated. */
  function NodeGates(updated: bool, node: Option<Node>, id: Option<string>, ch: Choices): seq<Gate> {
    [Gate(updated || ch.guest, Requeue(10000)),
     Gate(updated || ch.nodeGet, Failed(5000)),
     Gate(updated || node.Some?, Requeue(10000)),
     Gate(updated || id.Some?, Crashed),
     Gate(updated || ch.nodePatch.Done? || (node.Some? && id == Some(node.value.providerId)), Failed(5000))]
  }

  // ---------- The parts ----------

  lemma {:induction false} FirstClosedAppend(a: seq<Gate>, b: seq<Gate>, end: Result)
    ensures FirstClosed(a + b, end) == FirstClosed(a, FirstClosed(b, end))
    decreases |a|
  {
    if a == [] {
      assert a + b == b;
    } else {
      assert (a + b)[1..] == a[1..] + b;
      FirstClosedAppend(a[1..], b, end);
    }
  }

  lemma Three(a: Gate, b: Gate, c: Gate, end: Result)
    ensures FirstClosed([a, b, c], end) ==
            if !a.open then a.otherwise else if !b.open then b.otherwise else if !c.open then c.otherwise else end
  {
    assert [a, b, c][1..] == [b, c];
    assert [b, c][1..] == [c];
    assert [c][1..] == [];
    assert FirstClosed([c], end) == if !c.open then c.otherwise else end;
    assert FirstClosed([b, c], end) == if !b.open then b.otherwise else FirstClosed([c], end);
  }

  lemma Five(a: Gate, b: Gate, c: Gate, d: Gate, e: Gate, end: Result)
    ensures FirstClosed([a, b, c, d, e], end) ==
            if !a.open then a.otherwise else if !b.open then b.otherwise else if !c.open then c.otherwise else
            if !d.open then d.otherwise else if !e.open then e.otherwise else end
  {
    Three(c, d, e, end);
    assert [a, b, c, d, e][1..] == [b, c, d, e];
    assert [b, c, d, e][1..] == [c, d, e];
    assert FirstClosed([b, c, d, e], end) == if !b.open then b.otherwise else FirstClosed([c, d, e], end);
  }

  lemma Eight(g: seq<Gate>, end: Result)
    requires |g| == 8
    ensures FirstClosed(g, end) ==
            if !g[0].open then g[0].otherwise else if !g[1].open then g[1].otherwise else
            if !g[2].open then g[2].otherwise else if !g[3].open then g[3].otherwise else
            if !g[4].open then g[4].otherwise else if !g[5].open then g[5].otherwise else
            if !g[6].open then g[6].otherwise else if !g[7].open then g[7].otherwise else end
  {
    Five(g[3], g[4], g[5], g[6], g[7], end);
    assert g[3..] == [g[3], g[4], g[5], g[6], g[7]];
    assert g[2..][1..] == g[3..] && g[1..][1..] == g[2..];
    assert FirstClosed(g[2..], end) == if !g[2].open then g[2].otherwise else FirstClosed(g[3..], end);
    assert FirstClosed(g[1..], end) == if !g[1].open then g[1].otherwise else FirstClosed(g[2..], end);
  }

  lemma PrepareReturns(c: Config, st: State, m: KubevirtMachine, ch: Choices, end: Result)
    requires st.bootstrapData
    ensures var (g, done) := Prepare(c, Flight(m, st), ch);
            FirstClosed(EquipmentGates(c, st, m, ch), end) == if done.Some? then done.value else end
  {
    hide VmPlace, FirstClosed;
    Eight(EquipmentGates(c, st, m, ch), end);
  }

  lemma LaunchReturns(c: Config, f: Flight, place: Place, ch: Choices, end: Result)
    ensures var (g, done) := Launch(c, f, place, ch);
            FirstClosed(VmGates(c, place in f.state.vms, f.state.eviction.vmi, ch), end) ==
            if done.Some? then done.value else end
  {
    var g := VmGates(c, place in f.state.vms, f.state.eviction.vmi, ch);
    Five(g[0], g[1], g[2], g[3], g[4], end);
    hide FirstClosed;
  }

  lemma UpdateReturns(f: Flight, ch: Choices)
    ensures UpdateNodeProviderId(f, ch).1 ==
            FirstClosed(NodeGates(f.machine.nodeUpdated, f.state.eviction.node, f.machine.providerId, ch), Requeue(0))
  {
    var g := NodeGates(f.machine.nodeUpdated, f.state.eviction.node, f.machine.providerId, ch);
    Five(g[0], g[1], g[2], g[3], g[4], Requeue(0));
    hide FirstClosed;
  }

  // ---------- The reconcile of a live machine ----------

  /** The gates of a claimed machine that has its bootstrap data. */
  function LiveGates(c: Config, st: State, ch: Choices): seq<Gate>
    requires st.machine.Some?
  {
    var m := st.machine.value;
    var place := VmPlace(c, Defaulted(c, m.secretRef));
    EquipmentGates(c, st, m, ch) +
    (VmGates(c, place.Some? && place.value in st.vms, st.eviction.vmi, ch) +
     (GuestGates(m, Pass(st.eviction, ch.drain, true).1, ch) +
      NodeGates(m.nodeUpdated, st.eviction.node, Some(NextId(c, m)), ch)))
  }

  /** From the drain on. */
  lemma GuestReturns(c: Config, f: Flight, m: KubevirtMachine, ch: Choices)
    requires f.machine.bootstrapped == m.bootstrapped && f.machine.providerId == m.providerId
    ensures var (d, r) := Drain(f, m, ch);
            var (n, r') := Finish(c, d.machine, true, ch);
            && (if r != Requeue(0) then r else r') ==
               FirstClosed(GuestGates(m, Pass(f.state.eviction, ch.drain, true).1, ch), Requeue(0))
            && (r == Requeue(0) && r' == Requeue(0) ==> n.providerId == Some(NextId(c, m)))
  {
    hide Pass, FirstClosed, CheckBootstrap, Report, ProviderId;
    var guest := GuestGates(m, Pass(f.state.eviction, ch.drain, true).1, ch);
    Three(guest[0], guest[1], guest[2], Requeue(0));
    var d := Drain(f, m, ch).0;
    BootstrapLeg(d.machine, ch);
    ReportLeg(c, CheckBootstrap(d.machine, ch).0, ch);
  }

  lemma NormalReturns(c: Config, st: State, ch: Choices)
    requires HandlesLive(st, ch) && st.machine.value.finalizer && ch.infraReady && st.bootstrapData
    ensures var m := st.machine.value;
            var (g, r) := ReconcileNormal(c, Flight(m, st), m, ch);
            var place := VmPlace(c, Defaulted(c, m.secretRef));
            && r == FirstClosed(EquipmentGates(c, st, m, ch),
                      FirstClosed(VmGates(c, place.Some? && place.value in st.vms, st.eviction.vmi, ch),
                        FirstClosed(GuestGates(m, Pass(st.eviction, ch.drain, true).1, ch), Requeue(0))))
            && (r == Requeue(0) ==> g.machine.providerId == Some(NextId(c, m)))
  {
    hide VmPlace, Prepare, Launch, Pass, FirstClosed, EquipmentGates, VmGates, GuestGates, NextId, Drain, Finish,
         LosesKeys, SshKeys.Persisted;
    var m := st.machine.value;
    var f := Flight(m, st);
    var place := VmPlace(c, Defaulted(c, m.secretRef));
    var guest := FirstClosed(GuestGates(m, Pass(st.eviction, ch.drain, true).1, ch), Requeue(0));
    var vm := FirstClosed(VmGates(c, place.Some? && place.value in st.vms, st.eviction.vmi, ch), guest);
    PrepareReturns(c, st, m, ch, vm);
    PrepareLeg(c, f, ch);
    NormalIsNotZeroBeforeTheDrain(c, st, m, ch);
    var (g, done) := Prepare(c, f, ch);
    if done.None? {
      LaunchReturns(c, g, place.value, ch, guest);
      LaunchLeg(c, g, place.value, ch);
      var (h, done') := Launch(c, g, place.value, ch);
      if done'.None? {
        GuestReturns(c, h, m, ch);
      }
    }
  }

  lemma NormalIsNotZeroBeforeTheDrain(c: Config, st: State, m: KubevirtMachine, ch: Choices)
    requires st.bootstrapData
    ensures Provision(c, Flight(m, st), ch).1 != Some(Requeue(0))
  {
    hide VmPlace, LosesKeys, LacksTemplate, Provision;
    ProvisionLeg(c, Flight(m, st), ch);
  }

  /** What a reconcile of a live machine returns: zero before it is claimed and while the infrastructure waits; the
      Node's verdict while the bootstrap data waits; otherwise the first closed gate decides. If the deferred patch
      is not acknowledged, a requeue becomes an error with the same delay. */
  lemma LiveReconcileReturns(c: Config, st: State, ch: Choices)
    requires HandlesLive(st, ch)
    ensures var m := st.machine.value;
            var r := if !m.finalizer || !ch.infraReady then Requeue(0)
                     else if !st.bootstrapData
                     then FirstClosed(NodeGates(m.nodeUpdated, st.eviction.node, m.providerId, ch), Requeue(0))
                     else FirstClosed(LiveGates(c, st, ch), Requeue(0));
            Reconcile(c, st, ch).1 == if r.Requeue? && !ch.patch.Done? then Failed(r.after) else r
  {
    hide VmPlace, ReconcileNormal, UpdateNodeProviderId, FirstClosed, EquipmentGates, VmGates, GuestGates, Pass,
         LosesKeys, LacksTemplate, ProviderId;
    var m := st.machine.value;
    if m.finalizer && ch.infraReady {
      NormalLeg(c, st, m, ch);
      var (g, r) := ReconcileNormal(c, Flight(m, st), m, ch);
      UpdateReturns(g, ch);
      SameGates(m.nodeUpdated, st.eviction.node, g.state.eviction.node, g.machine.providerId, ch);
      if st.bootstrapData {
        NormalReturns(c, st, ch);
        GatesAppend(c, st, ch);
        EndsDiffer(c, st, ch);
      }
    }
  }

  lemma SameGates(updated: bool, a: Option<Node>, b: Option<Node>, id: Option<string>, ch: Choices)
    ensures (a.Some? <==> b.Some?) && (a.Some? ==> a.value.providerId == b.value.providerId) ==>
            NodeGates(updated, a, id, ch) == NodeGates(updated, b, id, ch)
  {
  }

  lemma GatesAppend(c: Config, st: State, ch: Choices)
    requires st.machine.Some?
    ensures var m := st.machine.value;
            var place := VmPlace(c, Defaulted(c, m.secretRef));
            FirstClosed(LiveGates(c, st, ch), Requeue(0)) ==
            FirstClosed(EquipmentGates(c, st, m, ch),
              FirstClosed(VmGates(c, place.Some? && place.value in st.vms, st.eviction.vmi, ch),
                FirstClosed(GuestGates(m, Pass(st.eviction, ch.drain, true).1, ch),
                  FirstClosed(NodeGates(m.nodeUpdated, st.eviction.node, Some(NextId(c, m)), ch), Requeue(0)))))
  {
    hide VmPlace, FirstClosed, EquipmentGates, VmGates, GuestGates, NodeGates, Pass, NextId;
    var m := st.machine.value;
    var place := VmPlace(c, Defaulted(c, m.secretRef));
    var node := NodeGates(m.nodeUpdated, st.eviction.node, Some(NextId(c, m)), ch);
    var guest := GuestGates(m, Pass(st.eviction, ch.drain, true).1, ch);
    var vm := VmGates(c, place.Some? && place.value in st.vms, st.eviction.vmi, ch);
    FirstClosedAppend(guest, node, Requeue(0));
    FirstClosedAppend(vm, guest + node, Requeue(0));
    FirstClosedAppend(EquipmentGates(c, st, m, ch), vm + (guest + node), Requeue(0));
  }

  /** No gate before the Node's answers with a zero result, so a zero result means that all of them are open. */
  lemma EndsDiffer(c: Config, st: State, ch: Choices)
    requires st.machine.Some?
    ensures var m := st.machine.value;
            var place := VmPlace(c, Defaulted(c, m.secretRef));
            var equipment, vm, guest :=
              EquipmentGates(c, st, m, ch), VmGates(c, place.Some? && place.value in st.vms, st.eviction.vmi, ch),
              GuestGates(m, Pass(st.eviction, ch.drain, true).1, ch);
            var r := FirstClosed(equipment, FirstClosed(vm, FirstClosed(guest, Requeue(0))));
            forall end :: FirstClosed(equipment, FirstClosed(vm, FirstClosed(guest, end))) ==
                          if r == Requeue(0) then end else r
  {
    hide VmPlace, FirstClosed, Pass;
    var m := st.machine.value;
    var place := VmPlace(c, Defaulted(c, m.secretRef));
    NonZero(EquipmentGates(c, st, m, ch));
    NonZero(VmGates(c, place.Some? && place.value in st.vms, st.eviction.vmi, ch));
    NonZero(GuestGates(m, Pass(st.eviction, ch.drain, true).1, ch));
  }

  lemma {:induction false} NonZero(gates: seq<Gate>)
    requires forall g :: g in gates && !g.open ==> g.otherwise != Requeue(0)
    ensures var r := FirstClosed(gates, Requeue(0));
            forall end :: FirstClosed(gates, end) == if r == Requeue(0) then end else r
    decreases |gates|
  {
    if gates != [] {
      assert gates[0] in gates;
      if gates[0].open {
        NonZero(gates[1..]);
      }
    }
  }

  // ---------- The reconcile of a deleted machine ----------

  /** Client, bootstrap secret, helper, the VM's delete, and the patch that drops the finalizer. */
  function DeletionGates(c: Config, st: State, m: KubevirtMachine, ch: Choices): seq<Gate> {
    var place := VmPlace(c, m.secretRef);
    var present := place.Some? && place.value in st.vms;
    [Gate(!ch.client.LookupError? && place.Some?, Failed(10000)),
     Gate(ch.client.Found?, Requeue(10000)),
     Gate(ch.secret && ch.helper, Failed(10000)),
     Gate(!present || (ch.vmGet && ch.vmDelete.Done?), Failed(10000)),
     Gate(ch.patch.Done?, Failed(0))]
  }

  lemma DeletionReturns(c: Config, st: State, ch: Choices)
    requires st.machine.Some? && st.machine.value.deleting && ch.owner.Found?
    ensures Reconcile(c, st, ch).1 == FirstClosed(DeletionGates(c, st, st.machine.value, ch), Requeue(0))
  {
    hide VmPlace;
    var g := DeletionGates(c, st, st.machine.value, ch);
    Five(g[0], g[1], g[2], g[3], g[4], Requeue(0));
    hide FirstClosed;
  }

  // ---------- What a live reconcile leaves behind ----------

  /** The machine is claimed and the infrastructure ready. */
  predicate Working(st: State, ch: Choices) {
    st.machine.Some? && st.machine.value.finalizer && ch.infraReady
  }

  predicate HasKeys(st: State, ch: Choices) {
    ch.ssh.external || (ch.ssh.check && ch.ssh.recheck && ch.ssh.data && SshKeys.Persisted(st.keys, true))
  }

  /** The reconcile comes to the end of its report. */
  predicate Reported(c: Config, st: State, ch: Choices) {
    && Drains(c, st, ch) && Pass(st.eviction, ch.drain, true).1 == Requeue(0)
    && (!ch.checkable || ch.booted || st.machine.value.bootstrapped == Some(true))
  }

  /** A VM is created. */
  predicate Creates(c: Config, st: State, ch: Choices)
    requires st.machine.Some?
  {
    && Working(st, ch) && Equipped(c, Flight(st.machine.value, st), ch)
    && Target(c, Flight(st.machine.value, st)) !in st.vms && c.instanceTemplate && !ch.create.Refused?
  }

  function RefAfter(c: Config, st: State, ch: Choices): Option<Ref>
    requires st.machine.Some?
  {
    var ref := st.machine.value.secretRef;
    if Working(st, ch) && st.bootstrapData && HasKeys(st, ch) && !(Drains(c, st, ch) && ch.reload) && ref.None?
    then c.clusterRef else ref
  }

  predicate ReadyAfter(c: Config, st: State, ch: Choices)
    requires st.machine.Some?
  {
    var m, vmi := st.machine.value, st.eviction.vmi;
    if !Working(st, ch) || !Equipped(c, Flight(m, st), ch) then m.ready
    else if Target(c, Flight(m, st)) !in st.vms || vmi.None? || !vmi.value.ready then false
    else if vmi.value.address == "" then m.ready && m.knownIp
    else if Pass(st.eviction, ch.drain, true).1 != Requeue(0) then m.ready
    else Reported(c, st, ch)
  }

  function IdAfter(c: Config, st: State, ch: Choices): Option<string>
    requires st.machine.Some?
  {
    if Reported(c, st, ch) then Some(NextId(c, st.machine.value)) else st.machine.value.providerId
  }

  /** The provider ID is sent to the Node, and arrives. */
  predicate PatchesNode(c: Config, st: State, ch: Choices)
    requires st.machine.Some?
  {
    var m, node, id := st.machine.value, st.eviction.node, IdAfter(c, st, ch);
    && Working(st, ch) && (!st.bootstrapData || (Reported(c, st, ch) && ch.migratableKnown))
    && !m.nodeUpdated && ch.guest && ch.nodeGet && node.Some? && id.Some? && node.value.providerId != id.value
    && !ch.nodePatch.Refused?
  }

  function MachineAfter(c: Config, st: State, ch: Choices): KubevirtMachine
    requires st.machine.Some?
  {
    var m := st.machine.value;
    var asked := Drains(c, st, ch) && Pass(st.eviction, ch.drain, true).1 == Requeue(0);
    m.(finalizer := true,
       secretRef := RefAfter(c, st, ch),
       providerId := IdAfter(c, st, ch),
       ready := ReadyAfter(c, st, ch),
       provisioned := m.provisioned || Reported(c, st, ch),
       bootstrapped := if asked then NextBootstrap(m, ch) else m.bootstrapped,
       nodeUpdated := m.nodeUpdated || (PatchesNode(c, st, ch) && ch.nodePatch.Done?),
       knownIp := if Reported(c, st, ch) then ch.internalIp else m.knownIp)
  }

  function NodeAfter(c: Config, st: State, ch: Choices): Option<Node>
    requires st.machine.Some?
  {
    var node := if Drains(c, st, ch) then Pass(st.eviction, ch.drain, true).0.world.node else st.eviction.node;
    if node.Some? && PatchesNode(c, st, ch) && IdAfter(c, st, ch).Some?
    then Some(node.value.(providerId := IdAfter(c, st, ch).value)) else node
  }

  function StateAfter(c: Config, st: State, ch: Choices): State
    requires st.machine.Some?
  {
    var w := if Drains(c, st, ch) then Pass(st.eviction, ch.drain, true).0.world else st.eviction;
    st.(machine := if ch.patch.Refused? then st.machine else Some(MachineAfter(c, st, ch)),
        vms := if Creates(c, st, ch) then st.vms + {Target(c, Flight(st.machine.value, st))} else st.vms,
        created := st.created || Creates(c, st, ch),
        eviction := w.(node := NodeAfter(c, st, ch)))
  }

  lemma PrepareLeaves(c: Config, st: State, m: KubevirtMachine, ch: Choices)
    ensures var (g, done) := Prepare(c, Flight(m, st), ch);
            && g.state == st
            && g.machine == m.(secretRef :=
                 if st.bootstrapData && HasKeys(st, ch) then Defaulted(c, m.secretRef) else m.secretRef)
            && (done.None? <==> Equipped(c, Flight(m, st), ch))
  {
    hide VmPlace, FetchNodeKeys, SshKeys.Persisted;
    KeysAreThereIff(st.keys, ch.ssh);
  }

  lemma LaunchLeaves(c: Config, f: Flight, place: Place, ch: Choices)
    ensures var (g, done) := Launch(c, f, place, ch);
            var vmi, missing := f.state.eviction.vmi, place !in f.state.vms;
            var created := missing && c.instanceTemplate && !ch.create.Refused?;
            && (done.None? <==> !missing && Up(vmi))
            && g.machine == f.machine.(ready :=
                 if missing || vmi.None? || !vmi.value.ready then false
                 else f.machine.ready && (vmi.value.address != "" || f.machine.knownIp))
            && g.state == f.state.(vms := if created then f.state.vms + {place} else f.state.vms,
                                   created := f.state.created || created)
  {
    if place in f.state.vms {
    } else if c.instanceTemplate && !ch.create.Refused? {
    } else {
    }
  }

  /** Up to the drain. */
  lemma ProvisionLeaves(c: Config, st: State, ch: Choices)
    requires HandlesLive(st, ch) && Working(st, ch)
    ensures var m := st.machine.value;
            var (g, done) := Provision(c, Flight(m, st), ch);
            && (done.None? <==> Drains(c, st, ch))
            && g.state == st.(vms := if Creates(c, st, ch) then st.vms + {Target(c, Flight(m, st))} else st.vms,
                              created := st.created || Creates(c, st, ch))
            && g.machine == m.(secretRef := g.machine.secretRef, ready := g.machine.ready)
            && g.machine.secretRef ==
               (if st.bootstrapData && HasKeys(st, ch) then Defaulted(c, m.secretRef) else m.secretRef)
            && (done.Some? ==> g.machine.ready == ReadyAfter(c, st, ch))
            && (done.None? ==> g.machine.ready == m.ready)
  {
    hide VmPlace, Prepare, Launch, SshKeys.Persisted, Pass, HasKeys;
    var m := st.machine.value;
    PrepareLeaves(c, st, m, ch);
    var (g, done) := Prepare(c, Flight(m, st), ch);
    if done.None? {
      LaunchLeaves(c, g, Target(c, Flight(m, st)), ch);
      EquippedHasKeys(c, st, m, ch);
    }
  }

  lemma EquippedHasKeys(c: Config, st: State, m: KubevirtMachine, ch: Choices)
    ensures Equipped(c, Flight(m, st), ch) ==> HasKeys(st, ch)
  {
  }

  /** After the drain. */
  lemma GuestLeaves(c: Config, f: Flight, m: KubevirtMachine, ch: Choices)
    requires f.machine == m.(secretRef := f.machine.secretRef)
    ensures var (d, r) := Drain(f, m, ch);
            var (n, r') := Finish(c, d.machine, true, ch);
            var booted := !ch.checkable || ch.booted || m.bootstrapped == Some(true);
            && (if r == Requeue(0) then n else d.machine) ==
               m.(secretRef := if ch.reload then m.secretRef else f.machine.secretRef,
                  bootstrapped := if r == Requeue(0) then NextBootstrap(m, ch) else m.bootstrapped,
                  ready := if r == Requeue(0) then booted else m.ready,
                  provisioned := m.provisioned || (r == Requeue(0) && booted),
                  providerId := if r == Requeue(0) && booted then Some(NextId(c, m)) else m.providerId,
                  knownIp := if r == Requeue(0) && booted then ch.internalIp else m.knownIp)
            && (r == Requeue(0) ==> (r' == Requeue(0) <==> booted && ch.migratableKnown))
            && r == Pass(f.state.eviction, ch.drain, true).1
            && d.state == f.state.(eviction := Pass(f.state.eviction, ch.drain, true).0.world)
  {
    hide Pass, CheckBootstrap, ProviderId;
    var d := Drain(f, m, ch).0;
    BootstrapLeg(d.machine, ch);
  }

  ghost predicate NormalLeft(c: Config, st: State, ch: Choices, g: Flight, r: Result)
    requires st.machine.Some?
  {
    && g.machine == MachineAfter(c, st, ch).(nodeUpdated := st.machine.value.nodeUpdated)
    && g.state == StateAfter(c, st, ch).(machine := st.machine, eviction := g.state.eviction)
    && g.state.eviction == (if Drains(c, st, ch) then Pass(st.eviction, ch.drain, true).0.world else st.eviction)
    && (r == Requeue(0) <==> !st.bootstrapData || (Reported(c, st, ch) && ch.migratableKnown))
  }

  lemma NormalLeavesWithoutDrain(c: Config, st: State, ch: Choices)
    requires HandlesLive(st, ch) && Working(st, ch) && !Drains(c, st, ch)
    ensures var (g, r) := ReconcileNormal(c, Flight(st.machine.value, st), st.machine.value, ch);
            NormalLeft(c, st, ch, g, r)
  {
    hide VmPlace, Provision, Pass, HasKeys, ReadyAfter, Drains, Creates, Target, NodeAfter, LosesKeys, LacksTemplate;
    ProvisionLeaves(c, st, ch);
    ProvisionLeg(c, Flight(st.machine.value, st), ch);
  }

  lemma NormalLeavesAfterDrain(c: Config, st: State, ch: Choices)
    requires HandlesLive(st, ch) && Working(st, ch) && Drains(c, st, ch)
    ensures var (g, r) := ReconcileNormal(c, Flight(st.machine.value, st), st.machine.value, ch);
            NormalLeft(c, st, ch, g, r)
  {
    hide VmPlace, Provision, Pass, HasKeys, Drains, Creates, Target, LosesKeys, LacksTemplate, Drain, Finish, NextId,
         NextBootstrap, MachineAfter, StateAfter, Equipped, ProvisionsOnly, Defaulted;
    var m := st.machine.value;
    var f := Provision(c, Flight(m, st), ch).0;
    ProvisionLeaves(c, st, ch);
    DrainsIsEquipped(c, st, ch);
    assert f == Flight(m.(secretRef := f.machine.secretRef), st);
    GuestLeaves(c, f, m, ch);
    AfterDrains(c, st, ch);
  }

  lemma AfterDrains(c: Config, st: State, ch: Choices)
    requires HandlesLive(st, ch) && Working(st, ch) && Drains(c, st, ch)
    ensures var m := st.machine.value;
            var zero := Pass(st.eviction, ch.drain, true).1 == Requeue(0);
            var booted := !ch.checkable || ch.booted || m.bootstrapped == Some(true);
            && MachineAfter(c, st, ch).(nodeUpdated := m.nodeUpdated) ==
               m.(secretRef := if ch.reload then m.secretRef else Defaulted(c, m.secretRef),
                  bootstrapped := if zero then NextBootstrap(m, ch) else m.bootstrapped,
                  ready := if zero then booted else m.ready,
                  provisioned := m.provisioned || (zero && booted),
                  providerId := if zero && booted then Some(NextId(c, m)) else m.providerId,
                  knownIp := if zero && booted then ch.internalIp else m.knownIp)
            && StateAfter(c, st, ch).(machine := st.machine, eviction := st.eviction) == st
            && (Reported(c, st, ch) <==> zero && booted)
  {
    hide VmPlace, Pass, HasKeys, Drains, Creates, Target, NextId, NextBootstrap, Equipped, ReadyAfter, NodeAfter;
    DrainsIsEquipped(c, st, ch);
    ReadyAfterDrains(c, st, ch);
  }

  lemma ReadyAfterDrains(c: Config, st: State, ch: Choices)
    requires Drains(c, st, ch)
    ensures ReadyAfter(c, st, ch) <==>
            if Pass(st.eviction, ch.drain, true).1 != Requeue(0) then st.machine.value.ready else Reported(c, st, ch)
  {
    hide VmPlace, Pass, SshKeys.Persisted;
  }

  lemma NormalLeaves(c: Config, st: State, ch: Choices)
    requires HandlesLive(st, ch) && Working(st, ch)
    ensures var (g, r) := ReconcileNormal(c, Flight(st.machine.value, st), st.machine.value, ch);
            NormalLeft(c, st, ch, g, r)
  {
    hide NormalLeft, ReconcileNormal;
    if Drains(c, st, ch) {
      NormalLeavesAfterDrain(c, st, ch);
    } else {
      NormalLeavesWithoutDrain(c, st, ch);
    }
  }

  lemma DrainsIsEquipped(c: Config, st: State, ch: Choices)
    ensures Drains(c, st, ch) ==>
            var f := Flight(st.machine.value, st);
            && st.bootstrapData && HasKeys(st, ch) && Equipped(c, f, ch) && Target(c, f) in st.vms && Up(st.eviction.vmi)
            && !Creates(c, st, ch)
  {
  }

  /** The provider ID of the Node. */
  lemma UpdateLeaves(f: Flight, ch: Choices)
    ensures var (g, r) := UpdateNodeProviderId(f, ch);
            var node, id := f.state.eviction.node, f.machine.providerId;
            var patches := !f.machine.nodeUpdated && ch.guest && ch.nodeGet && node.Some? && id.Some? &&
                           node.value.providerId != id.value && !ch.nodePatch.Refused?;
            && g.machine == f.machine.(nodeUpdated := f.machine.nodeUpdated || (patches && ch.nodePatch.Done?))
            && g.state == f.state.(eviction := f.state.eviction.(node :=
                 if patches then Some(node.value.(providerId := id.value)) else node))
  {
  }

  /** What a reconcile of a live machine leaves behind, as a whole: the state after it, from the state before. */
  lemma LiveReconcileLeaves(c: Config, st: State, ch: Choices)
    requires HandlesLive(st, ch)
    ensures Reconcile(c, st, ch).0 == StateAfter(c, st, ch)
  {
    hide VmPlace, ReconcileNormal, UpdateNodeProviderId, Pass, SshKeys.Persisted, ProviderId, Equipped, HasKeys, Creates;
    var m := st.machine.value;
    if Working(st, ch) {
      NormalLeaves(c, st, ch);
      NormalLeg(c, st, m, ch);
      UpdateLeaves(ReconcileNormal(c, Flight(m, st), m, ch).0, ch);
    } else {
      IdleLeaves(c, st, ch);
    }
  }

  lemma IdleLeaves(c: Config, st: State, ch: Choices)
    requires HandlesLive(st, ch) && !Working(st, ch)
    ensures StateAfter(c, st, ch) ==
            st.(machine := if ch.patch.Refused? then st.machine else Some(st.machine.value.(finalizer := true)))
  {
    hide VmPlace, Pass, SshKeys.Persisted, ProviderId;
  }

  // ---------- What the reconcile of a deleted machine leaves behind ----------

  /** The VM's delete is called, and takes effect. */
  predicate Deletes(c: Config, st: State, m: KubevirtMachine, ch: Choices) {
    && VmPlace(c, m.secretRef).Some? && ch.client.Found? && ch.secret && ch.helper
    && ch.vmGet && !ch.vmDelete.Refused?
  }

  /** The VM goes with a delete that takes effect, and the finalizer once the VM is known to be gone; nothing else
      changes. */
  lemma DeletionLeaves(c: Config, st: State, ch: Choices)
    requires st.machine.Some? && st.machine.value.deleting && ch.owner.Found?
    ensures var m := st.machine.value;
            var place := VmPlace(c, m.secretRef);
            var e := Reconcile(c, st, ch).0;
            var released := && place.Some? && ch.client.Found? && ch.secret && ch.helper
                            && (place.value !in st.vms || (ch.vmGet && ch.vmDelete.Done?));
            && e == st.(vms := e.vms, machine := e.machine)
            && e.vms == (if place.Some? && Deletes(c, st, m, ch) then st.vms - {place.value} else st.vms)
            && e.machine == (if released && !ch.patch.Refused? then Some(m.(finalizer := false)) else st.machine)
  {
    hide VmPlace;
  }

  /** Without the machine, its owner or, for a live one, its cluster, nothing happens. */
  lemma IdleReconcile(c: Config, st: State, ch: Choices)
    requires st.machine.None? || !ch.owner.Found? || (!st.machine.value.deleting && !ch.cluster.Found?)
    ensures var failed := st.machine.Some? && (ch.owner.LookupError? || (ch.owner.Found? && ch.cluster.LookupError?));
            Reconcile(c, st, ch) == (st, if failed then Failed(0) else Requeue(0))
  {
  }
}
