/** What the eviction protocol achieves when its calls succeed: the full cycle from eviction to return, and
    the stalled cycle that no timeout ends. */
module EvictionProgress {
  import opened Annotations
  import opened Common
  import opened Eviction
  import opened EvictionPass
  import opened EvictionRuns

  ghost predicate Healthy(o: Oracle) {
    forall n: nat :: o(n).outcome.Done?
  }

  /** The ways to serve an eviction. */
  datatype Plan = GoOn | Wait | SubmitMigration | DrainAndDeleteVmi | DeleteAtOnce

  /** What a pass should do about an evicted VMI: let a migration do the work while there is hope for it, then
      drain and delete; delete at once only what cannot migrate and has run out of time. */
  function PlanFor(w: World, v: Vmi, creatable: bool): Plan {
    if !v.migratable then (if Overdue(w) then DeleteAtOnce else DrainAndDeleteVmi)
    else if v.nodeName != v.evacuationNode then GoOn
    else if v.migration.Some? && v.migration.value.failed then DrainAndDeleteVmi
    else if v.migration.Some? && !v.migration.value.completed then (if Overdue(w) then DrainAndDeleteVmi else Wait)
    else if MigrationSubmitted in w.stored then Wait
    else if creatable then SubmitMigration else DrainAndDeleteVmi
  }

  const OWN_KEYS: set<Key> := MIGRATION_KEYS + {NodeCordoned}

  function Marked(a: Annotations, node: Option<Node>): Annotations {
    if node.Some? then a[NodeCordoned := TRUE] else a
  }

  function WithSchedulability(node: Option<Node>, unschedulable: bool): Option<Node> {
    if node.Some? then Some(node.value.(unschedulable := unschedulable)) else None
  }

  /** The annotations a drain-and-delete pass uses up. */
  function Spent(v: Vmi): set<Key> {
    if v.migratable then MIGRATION_KEYS else {GraceDeadline}
  }

  /** The guest is drained and the VMI is being deleted; of the eviction only the cordon marker is left. */
  ghost predicate DrainedAndDeleted(w: World, v: Vmi, t: Session) {
    && t.effects.deleteIssued && (t.effects.drained <==> w.node.Some?)
    && t.world.vmi == Some(v.(deleting := true))
    && t.world.stored == Marked(w.stored - Spent(v), w.node)
    && t.world.node == WithSchedulability(w.node, true)
  }

  lemma HealthyGrace(s: Session, o: Oracle) returns (t: Session)
    requires Synced(s) && !Overdue(s.world)
    requires forall n: nat :: n >= s.calls ==> o(n).outcome.Done?
    ensures GracePeriodExceeded(s, o) == (t, Some(false))
    ensures Synced(t) && HasDeadline(t.world.stored) && t.vmi == s.vmi && t.effects == s.effects && t.calls >= s.calls
    ensures t.world.stored - {GraceDeadline} == s.world.stored - {GraceDeadline}
    ensures t.world.node == s.world.node
  {
    t := GracePeriodExceeded(s, o).0;
  }

  /** From the grace period on; s is the pass so far, which began in w. */
  lemma HealthyDrainAndDelete(w: World, s: Session, o: Oracle)
    requires Synced(s) && s.vmi.Some? && !Overdue(s.world)
    requires !s.effects.drained && s.world.node == w.node
    requires s.world.stored - {GraceDeadline} == w.stored - Spent(s.vmi.value)
    requires forall n: nat :: n >= s.calls ==> o(n).outcome.Done?
    ensures var (t, r) := DrainAndDelete(s, o, true);
            && r == Requeue(10000) && DrainedAndDeleted(w, s.vmi.value, t)
            && t.effects.migrationIssued == s.effects.migrationIssued
  {
    hide GracePeriodExceeded, DrainNode, DeleteLeg;
    var s1 := HealthyGrace(s, o);
    HealthyDrain(s1, o);
    var (s2, r) := DrainNode(s1, o, true);
    HealthyDelete(s2, o);
    assert Marked(s1.world.stored, w.node) - {GraceDeadline} == Marked(s1.world.stored - {GraceDeadline}, w.node);
  }

  lemma HealthyCleanup(s: Session, o: Oracle) returns (t: Session)
    requires Synced(s) && forall n: nat :: n >= s.calls ==> o(n).outcome.Done?
    ensures CleanupMigrationAnnotations(s, o) == (t, true)
    ensures Synced(t) && t.vmi == s.vmi && t.effects == s.effects && t.calls >= s.calls
    ensures t.world.stored == s.world.stored - MIGRATION_KEYS
    ensures t.world.node == s.world.node && t.world.vmi == s.world.vmi
  {
    t := CleanupMigrationAnnotations(s, o).0;
    assert t == s ==> s.world.stored - MIGRATION_KEYS == s.world.stored;
  }

  lemma HealthyDrain(s: Session, o: Oracle)
    requires Synced(s) && forall n: nat :: n >= s.calls ==> o(n).outcome.Done?
    ensures var (t, r) := DrainNode(s, o, true);
            && t.calls >= s.calls && r == Requeue(0) && Synced(t) && t.vmi == s.vmi && t.world.vmi == s.world.vmi
            && t.effects == s.effects.(cordonIssued := t.effects.cordonIssued, cordoned := t.effects.cordoned,
                                       drained := s.effects.drained || s.world.node.Some?)
            && t.world.stored == Marked(s.world.stored, s.world.node)
            && t.world.node == WithSchedulability(s.world.node, true)
  {
  }

  lemma HealthyDelete(s: Session, o: Oracle)
    requires Synced(s) && s.vmi.Some? && GraceDeadline in s.memory
    requires forall n: nat :: n >= s.calls ==> o(n).outcome.Done?
    ensures var (t, r) := DeleteLeg(s, o);
            && r == Requeue(10000)
            && t.world.vmi == Some(s.vmi.value.(deleting := true))
            && t.world.stored == s.world.stored - {GraceDeadline}
            && t.world.node == s.world.node
            && t.effects == s.effects.(deleteIssued := true)
  {
  }

  /** With the VMI back, a pass whose calls all succeed uncordons the Node and forgets the eviction. */
  lemma HealthyPassSettles(w: World, o: Oracle)
    requires w.vmi.Some? && !w.vmi.value.deleting && Healthy(o)
    requires w.vmi.value.evictionStrategy != Some(External) || w.vmi.value.evacuationNode == ""
    ensures var (t, r) := Pass(w, o, true);
            && r == Requeue(0)
            && t.world.stored == w.stored - OWN_KEYS
            && t.world.vmi == w.vmi
            && t.world.node == (if NodeCordoned in w.stored then WithSchedulability(w.node, false) else w.node)
  {
    hide CleanupMigrationAnnotations;
    var s := HealthyCleanup(Start(w), o);
    assert s.world.stored - {NodeCordoned} == w.stored - OWN_KEYS;
    assert NodeCordoned !in w.stored ==> s.world.stored == w.stored - OWN_KEYS;
  }

  /** The replies of a pass over an evicted VMI in which nothing fails but, maybe, the create of a migration. */
  ghost predicate HealthyButCreate(w: World, o: Oracle) {
    && (forall n: nat :: n > 0 ==> o(n).outcome.Done?)
    && (o(0).outcome.Done? ||
        (w.vmi.Some? && Queued(w.vmi.value) && MigrationSubmitted !in w.stored))
  }

  /** The guest and the VMI are as they were. */
  predicate Untouched(w: World, t: Session) {
    && t.world.vmi == w.vmi && t.world.node == w.node && t.world.audit.deletions == w.audit.deletions
    && !t.effects.cordonIssued && !t.effects.uncordonIssued && !t.effects.deleteIssued
  }

  /** A pass over an evicted VMI, whatever annotations earlier passes left behind, does what the plan says. */
  lemma HealthyPassFollowsThePlan(w: World, o: Oracle)
    requires w.vmi.Some? && !w.vmi.value.deleting
    requires w.vmi.value.evictionStrategy == Some(External) && w.vmi.value.evacuationNode != ""
    requires HealthyButCreate(w, o)
    ensures var v := w.vmi.value;
            var (t, r) := Pass(w, o, true);
            match PlanFor(w, v, o(0).outcome.Done?)
            case GoOn =>
              r == Requeue(0) && Untouched(w, t) && t.world.stored == w.stored - MIGRATION_KEYS
            case Wait =>
              && r == Requeue(10000) && Untouched(w, t) && t.world.audit.migrations == w.audit.migrations
              && t.world.stored - {GraceDeadline} == w.stored - {GraceDeadline}
              && (if Migrating(v) then HasDeadline(t.world.stored) else t.world.stored == w.stored)
            case SubmitMigration =>
              && r == Requeue(10000) && Untouched(w, t) && t.world.audit.migrations == w.audit.migrations + 1
              && t.world.stored == w.stored[MigrationSubmitted := TRUE]
            case DrainAndDeleteVmi =>
              r == Requeue(10000) && DrainedAndDeleted(w, v, t)
            case DeleteAtOnce =>
              && r == Requeue(10000) && t.effects == NO_EFFECTS.(deleteIssued := true)
              && t.world.vmi == Some(v.(deleting := true)) && t.world.node == w.node
              && t.world.stored == w.stored - {GraceDeadline}
  {
    hide DrainAndDelete, GracePeriodExceeded, CleanupMigrationAnnotations;
    var v, s := w.vmi.value, Start(w);
    if !v.migratable {
      HealthyWithoutMigration(w, o);
    } else if OffHost(v) {
      var s1 := HealthyCleanup(s, o);
      CleanupLeg(s, o);
    } else if Migrating(v) && !Overdue(w) {
      var s1 := HealthyGrace(s, o);
      GraceLeg(s, o);
    } else if PlanFor(w, v, o(0).outcome.Done?).DrainAndDeleteVmi? {
      HealthyFallback(w, o);
    }
  }

  lemma HealthyWithoutMigration(w: World, o: Oracle)
    requires w.vmi.Some? && UnderEviction(w.vmi.value) && !w.vmi.value.migratable && Healthy(o)
    ensures var v := w.vmi.value;
            var (t, r) := Pass(w, o, true);
            && r == Requeue(10000)
            && (if Overdue(w)
                then && t.effects == NO_EFFECTS.(deleteIssued := true)
                     && t.world.vmi == Some(v.(deleting := true)) && t.world.node == w.node
                     && t.world.stored == w.stored - {GraceDeadline}
                else DrainedAndDeleted(w, v, t))
  {
    if Overdue(w) {
      hide DeleteLeg;
      HealthyDelete(Start(w), o);
    } else {
      hide DrainAndDelete;
      HealthyDrainAndDelete(w, Start(w), o);
    }
  }

  lemma HealthyFallback(w: World, o: Oracle)
    requires w.vmi.Some? && UnderEviction(w.vmi.value) && w.vmi.value.migratable && HealthyButCreate(w, o)
    requires PlanFor(w, w.vmi.value, o(0).outcome.Done?).DrainAndDeleteVmi?
    ensures var (t, r) := Pass(w, o, true);
            r == Requeue(10000) && DrainedAndDeleted(w, w.vmi.value, t)
  {
    hide DrainAndDelete, CleanupMigrationAnnotations;
    var s := if Queued(w.vmi.value) then CreateMigration(Start(w), o).0 else Start(w);
    s := HealthyCleanup(s, o);
    HealthyDrainAndDelete(w, s, o);
  }

  lemma {:induction false} NodeKeepsItsId(w: World, steps: seq<Step>)
    requires NodeUndisturbed(steps)
    ensures SameNode(w.node, Run(w, steps).node)
    decreases |steps|
  {
    if steps != [] {
      hide Pass;
      if steps[0].Reconcile? {
        PassKeeps(w, steps[0].oracle, steps[0].workload);
      }
      NodeKeepsItsId(Take(w, steps[0]), steps[1..]);
    }
  }

  lemma {:induction false} ForeignEditsAddNoOwnKeys(a: Annotations, steps: seq<Step>)
    requires OWN_KEYS !! a.Keys
    ensures OWN_KEYS !! ForeignEdits(a, steps).Keys
    decreases |steps|
  {
    if steps != [] {
      var st := steps[0];
      ForeignEditsAddNoOwnKeys(if st.ForeignEdit? then EditForeign(a, st.name, st.value) else a, steps[1..]);
    }
  }

  lemma OnlyForeignKeys(a: Annotations, b: Annotations)
    requires SameForeign(a, b) && OWN_KEYS !! b.Keys
    ensures a - OWN_KEYS == b
  {
  }

  /** The cycle: an eviction is served, anything may happen while no pass sees the VMI back, then one does. */
  ghost function Cycle(o1: Oracle, between: seq<Step>, back: Vmi, o2: Oracle): seq<Step> {
    [Reconcile(o1, true)] + between + [VmiChanges(Some(back))] + [Reconcile(o2, true)]
  }

  /** The full cycle is a round trip: however many failing passes, new evictions and edits by others lie between
      the delete and the VMI's return, it leaves the annotations of others exactly as those made them and none
      of the controller's; and, if nobody else changed the Node, the Node as it was if and only if it was not
      already cordoned. */
  lemma EvictionCycleRestores(w: World, o1: Oracle, between: seq<Step>, back: Vmi, o2: Oracle)
    requires w.vmi.Some? && UnderEviction(w.vmi.value) && PlanFor(w, w.vmi.value, true).DrainAndDeleteVmi?
    requires Along(Pass(w, o1, true).0.world, between, NotReturned)
    requires Returned(Some(back)) && Healthy(o1) && Healthy(o2)
    ensures var e := Run(w, Cycle(o1, between, back, o2));
            && e.stored == ForeignEdits(w.stored - OWN_KEYS, between)
            && (NodeUndisturbed(between) ==> (e.node == w.node <==> w.node.None? || !w.node.value.unschedulable))
  {
    hide Pass, Run, Along, PlanFor;
    HealthyPassFollowsThePlan(w, o1);
    var w1 := Pass(w, o1, true).0.world;
    var w2 := Run(w1, between);
    var w3 := w2.(vmi := Some(back));
    HealthyPassSettles(w3, o2);
    MarkerHoldsUntilReturn(w1, between);
    ForeignAnnotationsAreUntouched(w1, between, w.stored - OWN_KEYS);
    ForeignEditsAddNoOwnKeys(w.stored - OWN_KEYS, between);
    OnlyForeignKeys(w2.stored, ForeignEdits(w.stored - OWN_KEYS, between));
    if NodeUndisturbed(between) {
      NodeKeepsItsId(w1, between);
    }
    CycleEnds(w, o1, between, back, o2);
  }

  lemma CycleEnds(w: World, o1: Oracle, between: seq<Step>, back: Vmi, o2: Oracle)
    ensures var w2 := Run(Pass(w, o1, true).0.world, between);
            Run(w, Cycle(o1, between, back, o2)) == Pass(w2.(vmi := Some(back)), o2, true).0.world
  {
    hide Pass, Run;
    var first, vmi, last := Reconcile(o1, true), VmiChanges(Some(back)), Reconcile(o2, true);
    RunOne(w, first);
    RunAppend(w, [first], between);
    RunAppend(w, [first] + between, [vmi]);
    RunOne(Run(w, [first] + between), vmi);
    RunAppend(w, [first] + between + [vmi], [last]);
    RunOne(Run(w, [first] + between + [vmi]), last);
  }

  // ---------- The stalled cycle ----------

  /** Every call succeeds but the drain, the seventh of the pass. */
  const STALL: Oracle := n => Reply(if n == 6 then Refused else Done, 0)

  predicate FailedToMigrate(v: Vmi) {
    v.migratable && v.nodeName == v.evacuationNode && v.migration.Some? && v.migration.value.failed
  }

  predicate Stuck(w: World) {
    && w.vmi.Some? && UnderEviction(w.vmi.value) && FailedToMigrate(w.vmi.value)
    && w.node.Some? && GraceDeadline in w.stored
  }

  lemma StuckPassStaysStuck(w: World)
    requires Stuck(w)
    ensures var (t, r) := Pass(w, STALL, true);
            Stuck(t.world) && t.world.audit.deletions == w.audit.deletions && t.world.now == w.now
  {
    hide SendPatch;
    var s := Start(w);
    var s1 := SendPatch(s, STALL, Clear(MIGRATION_KEYS)).0;
    StallPatch(s, Clear(MIGRATION_KEYS));
    var p := Put(GraceDeadline, Timestamp(Deadline(s1.world.now)));
    var s2 := SendPatch(s1, STALL, p).0;
    StallPatch(s1, p);
    StallPatch(SetUnschedulable(ReachNode(s2, STALL).0, STALL, true).0, Put(NodeCordoned, TRUE));
  }

  lemma StallPatch(s: Session, p: Patch)
    requires Synced(s) && s.calls != 6 && !p.Remove?
    ensures var (t, ok) := SendPatch(s, STALL, p);
            && ok && Synced(t) && Quiet(s, t) && t.vmi == s.vmi && t.calls == s.calls + 1
            && t.world.stored == Apply(p, s.world.stored) && t.world.now == s.world.now
  {
  }

  /** n rounds of waiting out two full windows and reconciling. */
  ghost function Stalls(n: nat): seq<Step> {
    if n == 0 then [] else [Tick(1_200_000_000_000), Reconcile(STALL, true)] + Stalls(n - 1)
  }

  /** The fallback of a failed migration has no time bound: every pass restarts the window before it looks
      at it, so for every n there is a run that outlasts 2n windows without a delete. */
  lemma {:induction false} FallbackHasNoTimeBound(w: World, n: nat)
    requires Stuck(w)
    ensures var e := Run(w, Stalls(n));
            && Stuck(e)
            && e.now == w.now + 1_200_000_000_000 * n
            && e.audit.deletions == w.audit.deletions
    decreases n
  {
    hide Stuck, Take;
    if n > 0 {
      hide Run, Stalls;
      var w1 := StallRound(w, n);
      FallbackHasNoTimeBound(w1, n - 1);
    }
  }

  lemma StallRound(w: World, n: nat) returns (w': World)
    requires Stuck(w) && n > 0
    ensures Run(w, Stalls(n)) == Run(w', Stalls(n - 1))
    ensures Stuck(w') && w'.now == w.now + 1_200_000_000_000 && w'.audit.deletions == w.audit.deletions
  {
    hide Pass, Stuck;
    var w1 := w.(now := w.now + 1_200_000_000_000);
    StuckTicks(w);
    StuckPassStaysStuck(w1);
    w' := Pass(w1, STALL, true).0.world;
    var steps := Stalls(n);
    assert steps[1..] == [Reconcile(STALL, true)] + Stalls(n - 1);
    assert steps[1..][1..] == Stalls(n - 1);
  }

  lemma StuckTicks(w: World)
    requires Stuck(w)
    ensures Stuck(w.(now := w.now + 1_200_000_000_000))
  {
  }
}
