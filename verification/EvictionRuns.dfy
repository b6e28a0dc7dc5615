/** What the eviction protocol guarantees over whole runs: any number of passes, each with its own failing,
    lost and slow API calls, interleaved with arbitrary changes of the VMI, the guest Node, the clock and
    the annotations other people own. */
module EvictionRuns {
  import opened Annotations
  import opened Common
  import opened Eviction
  import opened EvictionPass

  datatype Step =
    | Reconcile(oracle: Oracle, workload: bool)
    | Tick(elapsed: nat)
    | VmiChanges(vmi: Option<Vmi>)
    | NodeChanges(node: Option<Node>)
    | ForeignEdit(name: string, value: Option<Value>)

  function EditForeign(a: Annotations, name: string, value: Option<Value>): Annotations {
    if value.Some? then a[Foreign(name) := value.value] else a - {Foreign(name)}
  }

  ghost function Take(w: World, st: Step): World {
    match st
    case Reconcile(o, workload) => Pass(w, o, workload).0.world
    case Tick(elapsed) => w.(now := w.now + elapsed)
    case VmiChanges(vmi) => w.(vmi := vmi)
    case NodeChanges(node) => w.(node := node)
    case ForeignEdit(name, value) => w.(stored := EditForeign(w.stored, name, value))
  }

  ghost function Run(w: World, steps: seq<Step>): World
    decreases |steps|
  {
    if steps == [] then w else Run(Take(w, steps[0]), steps[1..])
  }

  lemma RunOne(w: World, st: Step)
    ensures Run(w, [st]) == Take(w, st)
  {
    hide Take;
    assert [st][1..] == [];
  }

  lemma {:induction false} RunAppend(w: World, a: seq<Step>, b: seq<Step>)
    ensures Run(w, a + b) == Run(Run(w, a), b)
    decreases |a|
  {
    hide Take;
    if a == [] {
      assert a + b == b;
    } else {
      assert (a + b)[1..] == a[1..] + b;
      RunAppend(Take(w, a[0]), a[1..], b);
    }
  }

  // ---------- What all passes of a run have in common ----------

  /** A property of a pass: of the world it starts in, the replies it gets, and its workload cluster. */
  type PassProperty = (World, Oracle, bool) -> bool

  /** Every pass of the run has the property. */
  ghost predicate Along(w: World, steps: seq<Step>, p: PassProperty)
    decreases |steps|
  {
    steps == [] ||
    ((steps[0].Reconcile? ==> p(w, steps[0].oracle, steps[0].workload)) && Along(Take(w, steps[0]), steps[1..], p))
  }

  lemma {:induction false} AlongAppend(w: World, a: seq<Step>, b: seq<Step>, p: PassProperty)
    requires Along(w, a, p) && Along(Run(w, a), b, p)
    ensures Along(w, a + b, p)
    decreases |a|
  {
    hide Take;
    if a == [] {
      assert a + b == b;
    } else {
      assert (a + b)[1..] == a[1..] + b;
      AlongAppend(Take(w, a[0]), a[1..], b, p);
    }
  }

  // ---------- Every VMI delete is justified, and a forced one waited for the whole window ----------

  /** Neither a drain in the same pass nor a missing Node led to this delete. */
  predicate Forced(d: Deletion) {
    !d.drained && d.node.Some?
  }

  /** A forced delete concerns a non-migratable VMI and comes more than 599 seconds after the clock
      reading its deadline was computed from: 600 seconds less the fraction that printing drops. */
  predicate Patient(d: Deletion) {
    Forced(d) ==> !d.vmi.migratable && d.at > d.stampedAt + 599_000_000_000
  }

  lemma JustifiedIsPatient(d: Deletion)
    requires Justified(d) && WindowKept(d)
    ensures Patient(d)
  {
  }

  lemma StepKeepsStamp(w: World, st: Step)
    requires StampOk(w)
    ensures StampOk(Take(w, st))
    ensures w.now <= Take(w, st).now
    ensures var w' := Take(w, st);
            w'.audit.deletions == w.audit.deletions ||
            exists d :: Justified(d) && WindowKept(d) && w'.audit.deletions == w.audit.deletions + [d]
  {
    hide Pass;
    if st.Reconcile? {
      PassKeeps(w, st.oracle, st.workload);
    }
  }

  lemma {:induction false} EveryDeleteIsJustified(w: World, steps: seq<Step>)
    requires StampOk(w)
    requires forall d :: d in w.audit.deletions ==> Justified(d) && Patient(d)
    ensures forall d :: d in Run(w, steps).audit.deletions ==> Justified(d) && Patient(d)
    ensures StampOk(Run(w, steps))
    decreases |steps|
  {
    if steps != [] {
      hide Take, Justified, Patient;
      var w' := Take(w, steps[0]);
      StepKeepsStamp(w, steps[0]);
      forall d | d in w'.audit.deletions
        ensures Justified(d) && Patient(d)
      {
        if d !in w.audit.deletions { JustifiedIsPatient(d); }
      }
      EveryDeleteIsJustified(w', steps[1..]);
    }
  }

  /** Over every run a stored deadline is a whole second, the last one within 600 seconds of the clock reading it
      was computed from. */
  lemma DeadlinesAreWholeSeconds(w: World, steps: seq<Step>)
    requires StampOk(w) && w.audit.deletions == []
    ensures var e := Run(w, steps);
            HasDeadline(e.stored) ==>
              var d := e.stored[GraceDeadline].instant;
              d % 1_000_000_000 == 0 && d <= e.audit.stampedAt + 600_000_000_000 < d + 1_000_000_000
  {
    hide Run;
    EveryDeleteIsJustified(w, steps);
  }

  // ---------- Conservation of migrations, and removes that find their target ----------

  lemma StepKeepsAccounts(w: World, st: Step)
    ensures Unaccounted(Take(w, st)) == Unaccounted(w)
    ensures Take(w, st).audit.missedRemoves == w.audit.missedRemoves
  {
    hide Pass;
    if st.Reconcile? {
      PassKeeps(w, st.oracle, st.workload);
    }
  }

  lemma {:induction false} RunKeepsAccounts(w: World, steps: seq<Step>)
    ensures Unaccounted(Run(w, steps)) == Unaccounted(w)
    ensures Run(w, steps).audit.missedRemoves == w.audit.missedRemoves
    decreases |steps|
  {
    if steps != [] {
      hide Take, Unaccounted;
      StepKeepsAccounts(w, steps[0]);
      RunKeepsAccounts(Take(w, steps[0]), steps[1..]);
    }
  }

  /** Nothing has happened yet. */
  predicate Fresh(w: World) {
    && GraceDeadline !in w.stored && MigrationSubmitted !in w.stored && NodeCordoned !in w.stored
    && w.audit == Audit(0, 0, 0, 0, 0, 0, 0, 0, [])
  }

  /** Migrations created = the marker, if stored + markers dropped + creates that could not be marked. So
      with no unmarked create there is at most one migration per marker lifetime. */
  lemma MigrationsAreConserved(w: World, steps: seq<Step>)
    requires Fresh(w)
    ensures var e := Run(w, steps);
            e.audit.migrations ==
            (if MigrationSubmitted in e.stored then 1 else 0) + e.audit.markerDrops + e.audit.unmarked
  {
    RunKeepsAccounts(w, steps);
  }

  /** So between two points of a run without a dropped marker or an unmarked create in between, at most one
      migration is created, and none if the marker was stored already. */
  lemma OneMigrationPerMarker(w: World, steps: seq<Step>)
    requires Run(w, steps).audit.unmarked == w.audit.unmarked
    requires Run(w, steps).audit.markerDrops == w.audit.markerDrops
    ensures var e := Run(w, steps);
            && e.audit.migrations <= w.audit.migrations + 1
            && (MigrationSubmitted in w.stored ==> e.audit.migrations <= w.audit.migrations)
            && (MigrationSubmitted !in e.stored ==> e.audit.migrations <= w.audit.migrations)
  {
    hide Run;
    RunKeepsAccounts(w, steps);
  }

  // ---------- Other people's annotations ----------

  ghost function ForeignEdits(a: Annotations, steps: seq<Step>): Annotations
    decreases |steps|
  {
    if steps == [] then a
    else if steps[0].ForeignEdit? then ForeignEdits(EditForeign(a, steps[0].name, steps[0].value), steps[1..])
    else ForeignEdits(a, steps[1..])
  }

  lemma {:induction false} ForeignAnnotationsAreUntouched(w: World, steps: seq<Step>, a: Annotations)
    requires SameForeign(w.stored, a)
    ensures SameForeign(Run(w, steps).stored, ForeignEdits(a, steps))
    decreases |steps|
  {
    if steps != [] {
      hide Pass;
      var st := steps[0];
      if st.Reconcile? {
        PassKeeps(w, st.oracle, st.workload);
      }
      ForeignAnnotationsAreUntouched(
        Take(w, st), steps[1..], if st.ForeignEdit? then EditForeign(a, st.name, st.value) else a);
    }
  }

  // ---------- The cordon marker brackets the cordon ----------

  /** The pass does not find the VMI back. */
  predicate NotReturned(w: World, o: Oracle, workload: bool) {
    !Returned(w.vmi)
  }

  lemma {:induction false} MarkerHoldsUntilReturn(w: World, steps: seq<Step>)
    requires Along(w, steps, NotReturned)
    ensures Run(w, steps).audit.uncordons == w.audit.uncordons
    ensures NodeCordoned in w.stored ==> NodeCordoned in Run(w, steps).stored
    decreases |steps|
  {
    if steps != [] {
      hide Pass, Returned;
      if steps[0].Reconcile? {
        PassKeeps(w, steps[0].oracle, steps[0].workload);
      }
      MarkerHoldsUntilReturn(Take(w, steps[0]), steps[1..]);
    }
  }

  /** From its VMI delete until the VMI's return the controller makes no uncordon call, and a delete
      after a drain leaves the marker stored all that time. */
  lemma CordonOutlivesTheDelete(w: World, o: Oracle, workload: bool, steps: seq<Step>)
    requires Pass(w, o, workload).0.effects.deleteIssued
    requires Along(Pass(w, o, workload).0.world, steps, NotReturned)
    ensures var t := Pass(w, o, workload).0;
            var e := Run(t.world, steps);
            && e.audit.uncordons == w.audit.uncordons
            && (t.effects.drained ==> NodeCordoned in e.stored)
  {
    hide Pass, Run, Along;
    PassKeeps(w, o, workload);
    MarkerHoldsUntilReturn(Pass(w, o, workload).0.world, steps);
    assert UnderEviction(w.vmi.value);
  }

  // ---------- Conservation of cordons ----------

  /** Nobody but the controller makes the Node unschedulable, and nobody brings in an unschedulable one. */
  ghost predicate CordonsAreOurs(w: World, steps: seq<Step>)
    decreases |steps|
  {
    steps == [] ||
    (&& (steps[0].NodeChanges? && steps[0].node.Some? && steps[0].node.value.unschedulable ==>
           w.node.Some? && w.node.value.unschedulable)
     && CordonsAreOurs(Take(w, steps[0]), steps[1..]))
  }

  /** Over every run a Node that is cordoned has its marker stored, or some cordon took effect whose marker could
      not be: its reply was lost, or the marker's write refused. */
  lemma {:induction false} CordonsAreConserved(w: World, steps: seq<Step>)
    requires CordonAccounted(w) && CordonsAreOurs(w, steps)
    ensures CordonAccounted(Run(w, steps))
    decreases |steps|
  {
    if steps != [] {
      hide Pass;
      if steps[0].Reconcile? {
        PassKeeps(w, steps[0].oracle, steps[0].workload);
      }
      CordonsAreConserved(Take(w, steps[0]), steps[1..]);
    }
  }

  /** So without such a cordon, a pass that ends well with the VMI back leaves the Node schedulable or gone. */
  lemma QuietPassRestoresTheNode(w: World, steps: seq<Step>, o: Oracle)
    requires CordonAccounted(w) && CordonsAreOurs(w, steps)
    requires var e := Run(w, steps); e.audit.unmarkedCordons == 0 && Returned(e.vmi) && Pass(e, o, true).1 == Requeue(0)
    ensures var node := Pass(Run(w, steps), o, true).0.world.node; node.None? || !node.value.unschedulable
  {
    hide Run, CordonsAreOurs, Pass;
    var e := Run(w, steps);
    CordonsAreConserved(w, steps);
    QuietPassLeavesNothing(e, o);
    PassWithoutEviction(e, o, true);
  }

  /** The pass serves no eviction. */
  predicate NoEviction(w: World, o: Oracle, workload: bool) {
    w.vmi.None? || !UnderEviction(w.vmi.value)
  }

  predicate NodeUndisturbed(steps: seq<Step>) {
    forall i :: 0 <= i < |steps| ==> !steps[i].NodeChanges?
  }

  /** A cordon without a marker is never undone: until the next eviction no pass changes the Node. */
  lemma {:induction false} UnmarkedCordonStays(w: World, steps: seq<Step>)
    requires NodeCordoned !in w.stored && NodeUndisturbed(steps) && Along(w, steps, NoEviction)
    ensures Run(w, steps).node == w.node && NodeCordoned !in Run(w, steps).stored
    decreases |steps|
  {
    if steps != [] {
      hide Pass;
      if steps[0].Reconcile? {
        PassWithoutEviction(w, steps[0].oracle, steps[0].workload);
      }
      UnmarkedCordonStays(Take(w, steps[0]), steps[1..]);
    }
  }

  /** Every call succeeds but the write of the cordon marker, the fifth of the pass. */
  const MARKER_REFUSED: Oracle := n => Reply(if n == 4 then Refused else Done, 0)

  /** The write of the marker is refused, and the eviction withdrawn before the next pass. */
  ghost function WithdrawnEviction(back: Vmi): seq<Step> {
    [Reconcile(MARKER_REFUSED, true)] + [VmiChanges(Some(back))]
  }

  /** Such a cordon exists: from a fresh start with a schedulable Node, one refused write leaves a Node that stays
      cordoned through all passes of every run until the next eviction. */
  lemma AnUnmarkedCordonIsLeftBehind(w: World, back: Vmi, steps: seq<Step>)
    requires Fresh(w) && EvictedInPlace(w.vmi) && w.node.Some? && !w.node.value.unschedulable
    requires NodeUndisturbed(steps) && Along(Run(w, WithdrawnEviction(back)), steps, NoEviction)
    ensures var node := Run(Run(w, WithdrawnEviction(back)), steps).node;
            node == Some(w.node.value.(unschedulable := true))
  {
    hide Run, Along, Pass;
    var first, back := Reconcile(MARKER_REFUSED, true), VmiChanges(Some(back));
    RefusedMarker(w);
    RunOne(w, first);
    RunOne(Take(w, first), back);
    RunAppend(w, [first], [back]);
    UnmarkedCordonStays(Take(Take(w, first), back), steps);
  }

  lemma RefusedMarker(w: World)
    requires Fresh(w) && EvictedInPlace(w.vmi) && w.node.Some?
    ensures var w' := Pass(w, MARKER_REFUSED, true).0.world;
            w'.node == Some(w.node.value.(unschedulable := true)) && NodeCordoned !in w'.stored
  {
  }

  // ---------- The deadline of a non-migratable VMI ----------

  predicate EvictedInPlace(vmi: Option<Vmi>) {
    vmi.Some? && UnderEviction(vmi.value) && !vmi.value.migratable
  }

  /** The pass finds a non-migratable VMI under eviction, and its delete call, if any, has no effect. */
  predicate EvictionStands(w: World, o: Oracle, workload: bool) {
    EvictedInPlace(w.vmi) && Pass(w, o, workload).0.world.vmi == w.vmi
  }

  /** While a non-migratable VMI stays under eviction the first valid deadline never moves, however many
      drains fail and delete calls are refused. */
  lemma {:induction false} DeadlineNeverMoves(w: World, steps: seq<Step>)
    requires HasDeadline(w.stored) && Along(w, steps, EvictionStands)
    ensures SameDeadline(w, Run(w, steps))
    decreases |steps|
  {
    if steps != [] {
      hide Pass, EvictionStands;
      if steps[0].Reconcile? {
        EvictedPassKeepsDeadline(w, steps[0].oracle, steps[0].workload);
      }
      DeadlineNeverMoves(Take(w, steps[0]), steps[1..]);
    }
  }

  lemma EvictedPassKeepsDeadline(w: World, o: Oracle, workload: bool)
    requires HasDeadline(w.stored) && EvictionStands(w, o, workload)
    ensures SameDeadline(w, Pass(w, o, workload).0.world)
  {
    hide Pass;
    PendingPassKeepsDeadline(w, o, workload);
  }

  /** The last whole second within 600 seconds of a clock reading. */
  function LastSecond(at: int): int {
    (at + 600_000_000_000) / 1_000_000_000 * 1_000_000_000
  }

  /** However the drains and delete calls before it went, a pass that starts after the last whole second within
      600 seconds of the clock reading of the deadline leaves the guest alone and calls delete; a pass that starts
      up to then deletes only after it has drained the Node, if there is one. */
  lemma OverdueVmiIsDeleted(w: World, steps: seq<Step>, o: Oracle, workload: bool)
    requires StampOk(w) && HasDeadline(w.stored) && Along(w, steps, EvictionStands)
    requires EvictedInPlace(Run(w, steps).vmi)
    ensures var e := Run(w, steps);
            var t := Pass(e, o, workload).0;
            if e.now > LastSecond(w.audit.stampedAt) then
              && t.effects == NO_EFFECTS.(deleteIssued := true)
              && t.world.node == e.node && t.world.audit.cordons == e.audit.cordons
              && t.world.audit.deletions == e.audit.deletions +
                   [Deletion(e.vmi.value, e.now, e.stored, e.audit.stampedAt, e.node, false)]
            else
              t.effects.deleteIssued && e.node.Some? ==> t.effects.drained
  {
    hide Pass, Run, Along;
    DeadlineNeverMoves(w, steps);
    var e := Run(w, steps);
    if e.now > LastSecond(w.audit.stampedAt) {
      OverduePassDeletes(e, o, workload);
    } else if e.node.Some? {
      TimelyPassDrainsFirst(e, o, workload);
    }
  }

  // ---------- Migratable VMIs ----------

  /** The pass waits in the migration queue, and no migration create fails. */
  predicate Queueing(w: World, o: Oracle, workload: bool) {
    w.vmi.Some? && Queued(w.vmi.value) && (MigrationSubmitted in w.stored || o(0).outcome.Done?)
  }

  lemma {:induction false} QueueTimeIsNotCharged(w: World, steps: seq<Step>)
    requires GraceDeadline !in w.stored && Along(w, steps, Queueing)
    ensures GraceDeadline !in Run(w, steps).stored
    ensures Run(w, steps).audit.deletions == w.audit.deletions
    decreases |steps|
  {
    if steps != [] {
      hide Pass, Queued;
      if steps[0].Reconcile? {
        QueuedPassSetsNoDeadline(w, steps[0].oracle, steps[0].workload);
        PassKeeps(w, steps[0].oracle, steps[0].workload);
      }
      QueueTimeIsNotCharged(Take(w, steps[0]), steps[1..]);
    }
  }

  /** The pass finds the migration running. */
  predicate KeepsMigrating(w: World, o: Oracle, workload: bool) {
    w.vmi.Some? && Migrating(w.vmi.value)
  }

  lemma {:induction false} TimeNeverGoesBack(w: World, steps: seq<Step>)
    ensures w.now <= Run(w, steps).now
    decreases |steps|
  {
    if steps != [] {
      hide Pass;
      if steps[0].Reconcile? {
        PassKeeps(w, steps[0].oracle, steps[0].workload);
      }
      TimeNeverGoesBack(Take(w, steps[0]), steps[1..]);
    }
  }

  /** A running migration has its window: for 599 seconds from the clock reading of its deadline no pass
      creates another migration, cordons or uncordons the Node, deletes the VMI or moves the deadline. */
  lemma {:induction false} RunningMigrationHasItsWindow(w: World, steps: seq<Step>)
    requires StampOk(w) && HasDeadline(w.stored) && Along(w, steps, KeepsMigrating)
    requires Run(w, steps).now <= w.audit.stampedAt + 599_000_000_000
    ensures var e := Run(w, steps);
            && e.audit.migrations == w.audit.migrations
            && e.audit.cordons == w.audit.cordons && e.audit.uncordons == w.audit.uncordons
            && e.audit.deletions == w.audit.deletions
            && (NodeCordoned in e.stored <==> NodeCordoned in w.stored)
            && SameDeadline(w, e)
    decreases |steps|
  {
    if steps != [] {
      hide Pass, Migrating;
      var w' := Take(w, steps[0]);
      TimeNeverGoesBack(w, steps);
      StepKeepsStamp(w, steps[0]);
      if steps[0].Reconcile? {
        RunningMigrationIsLeftAlone(w, steps[0].oracle, steps[0].workload);
      }
      RunningMigrationHasItsWindow(w', steps[1..]);
    }
  }

  /** No timeout ever forces the delete of a migratable VMI: whichever fallback was taken, its drain finished
      or its Node was missing in the very pass that deleted it. */
  lemma MigratableVmiIsNeverForced(w: World, steps: seq<Step>)
    requires StampOk(w) && w.audit.deletions == []
    ensures forall d :: d in Run(w, steps).audit.deletions && d.vmi.migratable ==> d.drained || d.node.None?
  {
    hide Run;
    EveryDeleteIsJustified(w, steps);
  }
}
