/** One reconcile pass of the eviction protocol (`Machine.DrainNodeIfNeeded` and everything it calls),
    as functions on values. `EvictionMachine` proves the in-place methods against these functions;
    `EvictionPass` and `EvictionRuns` prove what the protocol promises. */
module Eviction {
  import opened Annotations
  import opened Common

  // ---------- The clusters ----------

  datatype Strategy = External | OtherStrategy

  datatype MigrationState = MigrationState(completed: bool, failed: bool)

  datatype Vmi = Vmi(
    deleting: bool,
    evictionStrategy: Option<Strategy>,
    evacuationNode: string,
    nodeName: string,
    migratable: bool,
    migration: Option<MigrationState>,
    ready: bool,
    address: string)

  datatype Node = Node(unschedulable: bool, providerId: string)

  /** A VMI delete call as the infra API server saw it, with the state around it. */
  datatype Deletion = Deletion(
    vmi: Vmi, at: int, stored: Annotations, stampedAt: int, node: Option<Node>, drained: bool)

  /** What the API servers have observed since the start of a run. */
  datatype Audit = Audit(
    migrations: nat,          // VirtualMachineInstanceMigrations that were created
    unmarked: nat,            // creates whose reply was lost, and marker writes that were refused
    markerDrops: nat,         // times the stored migration marker disappeared
    missedRemoves: nat,       // JSON Patch removes that did not find their target
    stampedAt: int,           // clock reading from which the last stored deadline was computed
    cordons: nat,             // cordon calls
    uncordons: nat,           // uncordon calls
    unmarkedCordons: nat,     // cordons that took effect and did not get their marker stored
    deletions: seq<Deletion>) // VMI delete calls, oldest first

  datatype World = World(
    stored: Annotations,
    vmi: Option<Vmi>,
    node: Option<Node>,
    now: int,
    audit: Audit)

  datatype Reply = Reply(outcome: Outcome, elapsed: nat)

  /** Decides the outcome and the duration of the n-th API call of a pass. */
  type Oracle = nat -> Reply

  /** The calls a pass has made so far that touch the guest or the VMI; `drained` means that the pods were
      drained off a cordoned Node. */
  datatype Effects = Effects(
    cordonIssued: bool,
    cordoned: bool,
    drained: bool,
    uncordonIssued: bool,
    migrationIssued: bool,
    deleteIssued: bool)

  const NO_EFFECTS := Effects(false, false, false, false, false, false)

  /** A pass in flight: the clusters, the KubevirtMachine's annotations in memory, the VMI read at the
      start of the pass, and the calls made so far. */
  datatype Session = Session(
    world: World,
    memory: Annotations,
    vmi: Option<Vmi>,
    effects: Effects,
    calls: nat)

  /** What a pass returns: a requeue delay in milliseconds, an error with such a delay, or a nil
      dereference. */
  datatype Result = Requeue(after: nat) | Failed(after: nat) | Crashed

  const SECOND: int := 1_000_000_000
  const WINDOW: int := 600 * SECOND

  /** Printing a timestamp in the RFC 3339 layout drops the fraction of a second. */
  function WholeSecond(t: int): int {
    t - t % SECOND
  }

  function Deadline(now: int): int {
    WholeSecond(now + WINDOW)
  }

  predicate ShouldGracefulDelete(v: Vmi) {
    if v.deleting then false else
    if v.evictionStrategy.None? || v.evictionStrategy.value != External then false else
    v.evacuationNode != ""
  }

  // ---------- API calls ----------

  function Observe(a: Audit, p: Patch, before: Annotations, outcome: Outcome, now: int): Audit {
    var applied := !outcome.Refused?;
    a.(missedRemoves := a.missedRemoves + (if Applicable(p, before) then 0 else 1),
       markerDrops := a.markerDrops +
         (if applied && MigrationSubmitted in before && MigrationSubmitted !in Apply(p, before) then 1 else 0),
       unmarked := a.unmarked + (if !applied && p.Put? && p.key == MigrationSubmitted then 1 else 0),
       unmarkedCordons := a.unmarkedCordons +
         (if !applied && p.Put? && p.key == NodeCordoned && NodeCordoned !in before then 1 else 0),
       stampedAt := if applied && p.Put? && p.key == GraceDeadline then now else a.stampedAt)
  }

  function SendPatch(s: Session, o: Oracle, p: Patch): (Session, bool) {
    var w := s.world;
    var outcome := if Applicable(p, w.stored) then o(s.calls).outcome else Refused;
    var stored := if outcome.Refused? then w.stored else Apply(p, w.stored);
    (s.(world := w.(stored := stored, now := w.now + o(s.calls).elapsed,
                    audit := Observe(w.audit, p, w.stored, outcome, w.now)),
        memory := if outcome.Done? then stored else s.memory,
        calls := s.calls + 1),
     outcome.Done?)
  }

  function CreateMigration(s: Session, o: Oracle): (Session, bool) {
    var reply := o(s.calls);
    var w := s.world;
    (s.(world := w.(now := w.now + reply.elapsed,
                    audit := w.audit.(
                      migrations := w.audit.migrations + (if reply.outcome.Refused? then 0 else 1),
                      unmarked := w.audit.unmarked + (if reply.outcome.Lost? then 1 else 0))),
        effects := s.effects.(migrationIssued := true),
        calls := s.calls + 1),
     reply.outcome.Done?)
  }

  /** Connecting to the workload cluster and draining its node change nothing that is modelled here. */
  function Contact(s: Session, o: Oracle): (Session, bool) {
    var reply := o(s.calls);
    (s.(world := s.world.(now := s.world.now + reply.elapsed), calls := s.calls + 1), reply.outcome.Done?)
  }

  function SetUnschedulable(s: Session, o: Oracle, desired: bool): (Session, bool) {
    var reply := o(s.calls);
    var w := s.world;
    var node :=
      if w.node.Some? && !reply.outcome.Refused? then Some(w.node.value.(unschedulable := desired)) else w.node;
    (s.(world := w.(node := node, now := w.now + reply.elapsed,
                    audit := w.audit.(cordons := w.audit.cordons + (if desired then 1 else 0),
                                      uncordons := w.audit.uncordons + (if desired then 0 else 1),
                                      unmarkedCordons := w.audit.unmarkedCordons +
                                        (if desired && reply.outcome.Lost? && NodeCordoned !in w.stored
                                         then 1 else 0))),
        effects := if desired
                   then s.effects.(cordonIssued := true, cordoned := s.effects.cordoned || reply.outcome.Done?)
                   else s.effects.(uncordonIssued := true),
        calls := s.calls + 1),
     reply.outcome.Done?)
  }

  function DrainPods(s: Session, o: Oracle): (Session, bool) {
    var (s1, done) := Contact(s, o);
    var cordoned := s.world.node.Some? && s.world.node.value.unschedulable;
    (s1.(effects := s1.effects.(drained := s1.effects.drained || (done && cordoned))), done)
  }

  function DeleteVmi(s: Session, o: Oracle): (Session, bool)
    requires s.vmi.Some?
  {
    var reply := o(s.calls);
    var w := s.world;
    var record := Deletion(s.vmi.value, w.now, w.stored, w.audit.stampedAt, w.node, s.effects.drained);
    (s.(world := w.(vmi := if reply.outcome.Refused? then w.vmi else Some(s.vmi.value.(deleting := true)),
                    now := w.now + reply.elapsed,
                    audit := w.audit.(deletions := w.audit.deletions + [record])),
        effects := s.effects.(deleteIssued := true),
        calls := s.calls + 1),
     reply.outcome.Done?)
  }

  // ---------- The protocol ----------

  const TRUE := Text("true")

  const MIGRATION_KEYS: set<Key> := {MigrationSubmitted, GraceDeadline}

  function CleanupMigrationAnnotations(s: Session, o: Oracle): (Session, bool) {
    if MigrationSubmitted !in s.memory && GraceDeadline !in s.memory then
      (s, true)
    else
      SendPatch(s, o, Clear(MIGRATION_KEYS))
  }

  function SetGraceTime(s: Session, o: Oracle): (Session, bool) {
    SendPatch(s, o, Put(GraceDeadline, Timestamp(Deadline(s.world.now))))
  }

  /** None when the annotation could not be written. */
  function GracePeriodExceeded(s: Session, o: Oracle): (Session, Option<bool>) {
    if GraceDeadline in s.memory && s.memory[GraceDeadline].Timestamp? then
      (s, Some(s.world.now > s.memory[GraceDeadline].instant))
    else
      var (s1, ok) := SetGraceTime(s, o);
      (s1, if ok then Some(false) else None)
  }

  datatype Migration = Migrated | Waiting | Fallback | MigrationError

  function TryMigrate(s: Session, o: Oracle): (Session, Migration)
    requires s.vmi.Some?
  {
    var v := s.vmi.value;
    if v.nodeName != v.evacuationNode then
      (s, Migrated)
    else if v.migration.Some? && v.migration.value.failed then
      (s, Fallback)
    else if v.migration.Some? && !v.migration.value.completed then
      var (s1, exceeded) := GracePeriodExceeded(s, o);
      (s1, match exceeded case None => MigrationError case Some(b) => if b then Fallback else Waiting)
    else if MigrationSubmitted in s.memory then
      (s, Waiting)
    else
      var (s1, created) := CreateMigration(s, o);
      if !created then
        (s1, Fallback)
      else
        var (s2, marked) := SendPatch(s1, o, Put(MigrationSubmitted, TRUE));
        (s2, if marked then Waiting else MigrationError)
  }

  /** Connects to the workload cluster and looks the guest Node up; true only when both calls succeed. */
  function ReachNode(s: Session, o: Oracle): (Session, bool) {
    var (s1, connected) := Contact(s, o);
    if connected then Contact(s1, o) else (s1, false)
  }

  function CordonAndDrain(s: Session, o: Oracle): (Session, Result) {
    var (s1, cordoned) := SetUnschedulable(s, o, true);
    if !cordoned then (s1, Failed(0)) else
    var (s2, marked) := SendPatch(s1, o, Put(NodeCordoned, TRUE));
    if !marked then (s2, Requeue(100)) else
    var (s3, drained) := DrainPods(s2, o);
    (s3, Requeue(if drained then 0 else 1000))
  }

  function DrainNode(s: Session, o: Oracle, workload: bool): (Session, Result) {
    if !workload then (s, Crashed) else
    var (s1, reached) := ReachNode(s, o);
    if !reached then (s1, Failed(0)) else
    if s1.world.node.None? then (s1, Requeue(0)) else CordonAndDrain(s1, o)
  }

  /** Makes the Node schedulable if it is not, and drops the cordon marker. */
  function Uncordon(s: Session, o: Oracle): (Session, bool) {
    if s.world.node.None? || !s.world.node.value.unschedulable then
      SendPatch(s, o, Remove(NodeCordoned))
    else
      var (s1, uncordoned) := SetUnschedulable(s, o, false);
      if uncordoned then SendPatch(s1, o, Remove(NodeCordoned)) else (s1, false)
  }

  /** True when the node needs no more uncordoning in this pass. */
  function UncordonNodeIfNeeded(s: Session, o: Oracle, workload: bool): (Session, bool) {
    if NodeCordoned !in s.memory || !workload then (s, true) else
    var (s1, reached) := ReachNode(s, o);
    if reached then Uncordon(s1, o) else (s1, false)
  }

  /** No eviction to serve: drop the migration annotations and, when the VMI is back, uncordon. */
  function Settle(s: Session, o: Oracle, workload: bool): (Session, Result) {
    var (s1, cleaned) := CleanupMigrationAnnotations(s, o);
    if !cleaned then (s1, Failed(100)) else
    if s.vmi.Some? && !s.vmi.value.deleting then
      var (s2, settled) := UncordonNodeIfNeeded(s1, o, workload);
      (s2, Requeue(if settled then 0 else 100))
    else
      (s1, Requeue(0))
  }

  /** The last leg: the delete call, then the removal of the deadline. */
  function DeleteLeg(s: Session, o: Oracle): (Session, Result)
    requires s.vmi.Some?
  {
    var (s1, deleted) := DeleteVmi(s, o);
    if !deleted then (s1, Failed(0)) else
    var (s2, removed) := SendPatch(s1, o, Remove(GraceDeadline));
    (s2, if removed then Requeue(10000) else Failed(100))
  }

  function DrainAndDelete(s: Session, o: Oracle, workload: bool): (Session, Result)
    requires s.vmi.Some?
  {
    var (s1, exceeded) := GracePeriodExceeded(s, o);
    if exceeded.None? then (s1, Failed(0)) else
    if exceeded.value then DeleteLeg(s1, o) else
    var (s2, r) := DrainNode(s1, o, workload);
    if r != Requeue(0) then (s2, r) else DeleteLeg(s2, o)
  }

  function Evict(s: Session, o: Oracle, workload: bool): (Session, Result)
    requires s.vmi.Some?
  {
    if !s.vmi.value.migratable then
      DrainAndDelete(s, o, workload)
    else
      var (s1, m) := TryMigrate(s, o);
      match m
      case MigrationError => (s1, Failed(0))
      case Waiting => (s1, Requeue(10000))
      case Migrated =>
        var (s2, cleaned) := CleanupMigrationAnnotations(s1, o);
        (s2, if cleaned then Requeue(0) else Failed(100))
      case Fallback =>
        var (s2, cleaned) := CleanupMigrationAnnotations(s1, o);
        if cleaned then DrainAndDelete(s2, o, workload) else (s2, Failed(100))
  }

  function DrainNodeIfNeeded(s: Session, o: Oracle, workload: bool): (Session, Result) {
    if s.vmi.None? || !ShouldGracefulDelete(s.vmi.value) then Settle(s, o, workload) else Evict(s, o, workload)
  }

  /** A pass reads the KubevirtMachine and the VMI afresh. */
  function Start(w: World): Session {
    Session(w, w.stored, w.vmi, NO_EFFECTS, 0)
  }

  function Pass(w: World, o: Oracle, workload: bool): (Session, Result) {
    DrainNodeIfNeeded(Start(w), o, workload)
  }
}
