/** The whole behaviour of a pass in two parts: a script of calls that depends only on the world the pass starts
    in, and an executor that makes the calls one after the other until one fails. */
module EvictionScripts {
  import opened Annotations
  import opened Common
  import opened Eviction
  import opened EvictionPass
  import opened EvictionProgress

  /** The calls a pass may make. `NeedWorkload` stands for the use of a workload cluster that is not there. */
  datatype Call =
    | ClearMigrationKeys | StampDeadline | RemoveDeadline
    | MarkMigration
    | Connect | GetNode | NeedWorkload
    | Cordon | MarkCordon | Drain | Uncordon | RemoveCordonMark
    | Delete

  /** A call, and what the pass returns if it fails. */
  datatype Line = Line(call: Call, otherwise: Result)

  type Script = seq<Line>

  function Perform(s: Session, o: Oracle, call: Call): (Session, bool) {
    match call
    case ClearMigrationKeys => SendPatch(s, o, Clear({MigrationSubmitted, GraceDeadline}))
    case StampDeadline =>
      var deadline := (s.world.now + 600_000_000_000) / 1_000_000_000 * 1_000_000_000;
      SendPatch(s, o, Put(GraceDeadline, Timestamp(deadline)))
    case RemoveDeadline => SendPatch(s, o, Remove(GraceDeadline))
    case MarkMigration => SendPatch(s, o, Put(MigrationSubmitted, Text("true")))
    case Connect => Contact(s, o)
    case GetNode => Contact(s, o)
    case NeedWorkload => (s, false)
    case Cordon => SetUnschedulable(s, o, true)
    case MarkCordon => SendPatch(s, o, Put(NodeCordoned, Text("true")))
    case Drain => DrainPods(s, o)
    case Uncordon => SetUnschedulable(s, o, false)
    case RemoveCordonMark => SendPatch(s, o, Remove(NodeCordoned))
    case Delete => if s.vmi.Some? then DeleteVmi(s, o) else (s, false)
  }

  // ---------- The calls ----------

  /** What a call changes in the clusters if it takes effect. */
  function Effect(w: World, vmi: Option<Vmi>, call: Call): World {
    match call
    case ClearMigrationKeys => w.(stored := w.stored - {MigrationSubmitted, GraceDeadline})
    case StampDeadline =>
      var deadline := (w.now + 600_000_000_000) / 1_000_000_000 * 1_000_000_000;
      w.(stored := w.stored[GraceDeadline := Timestamp(deadline)])
    case RemoveDeadline => w.(stored := w.stored - {GraceDeadline})
    case MarkMigration => w.(stored := w.stored[MigrationSubmitted := Text("true")])
    case MarkCordon => w.(stored := w.stored[NodeCordoned := Text("true")])
    case RemoveCordonMark => w.(stored := w.stored - {NodeCordoned})
    case Cordon => if w.node.Some? then w.(node := Some(Node(true, w.node.value.providerId))) else w
    case Uncordon => if w.node.Some? then w.(node := Some(Node(false, w.node.value.providerId))) else w
    case Delete => if vmi.Some? then w.(vmi := Some(vmi.value.(deleting := true))) else w
    case _ => w
  }

  predicate IsPatch(call: Call) {
    call in {ClearMigrationKeys, StampDeadline, RemoveDeadline, MarkMigration, MarkCordon, RemoveCordonMark}
  }

  /** A remove finds its target, and a delete its VMI. */
  predicate Possible(s: Session, call: Call) {
    && (call.RemoveDeadline? ==> GraceDeadline in s.world.stored)
    && (call.RemoveCordonMark? ==> NodeCordoned in s.world.stored)
    && (call.Delete? ==> s.vmi.Some?)
    && !call.NeedWorkload?
  }

  /** What the API servers note about a call. */
  function Noted(s: Session, call: Call, outcome: Outcome): Audit {
    var w, a := s.world, s.world.audit;
    var lost := && NodeCordoned !in w.stored
                && ((call.Cordon? && outcome.Lost?) || (call.MarkCordon? && outcome.Refused?));
    var dropped := call.ClearMigrationKeys? && !outcome.Refused? && MigrationSubmitted in w.stored;
    a.(unmarked := if call.MarkMigration? && outcome.Refused? then a.unmarked + 1 else a.unmarked,
       markerDrops := if dropped then a.markerDrops + 1 else a.markerDrops,
       stampedAt := if call.StampDeadline? && !outcome.Refused? then w.now else a.stampedAt,
       cordons := if call.Cordon? then a.cordons + 1 else a.cordons,
       uncordons := if call.Uncordon? then a.uncordons + 1 else a.uncordons,
       unmarkedCordons := if lost then a.unmarkedCordons + 1 else a.unmarkedCordons,
       deletions := if call.Delete? && s.vmi.Some?
                    then a.deletions + [Deletion(s.vmi.value, w.now, w.stored, a.stampedAt, w.node, s.effects.drained)]
                    else a.deletions)
  }

  /** The call took its time and, unless refused, its effect; its caller sees a success only if it is done, and
      only then are the annotations in memory the stored ones. */
  predicate Ends(s: Session, reply: Reply, call: Call, t: Session, ok: bool) {
    var Reply(outcome, elapsed) := reply;
    var w := if outcome.Refused? then s.world else Effect(s.world, s.vmi, call);
    && (ok <==> outcome.Done?) && t.calls == s.calls + 1 && t.vmi == s.vmi
    && t.world == w.(now := s.world.now + elapsed, audit := Noted(s, call, outcome))
    && t.memory == (if outcome.Done? && IsPatch(call) then t.world.stored else s.memory)
    && t.effects == s.effects.(
         cordonIssued := s.effects.cordonIssued || call.Cordon?,
         cordoned := s.effects.cordoned || (call.Cordon? && ok),
         drained := s.effects.drained || (call.Drain? && ok && w.node.Some? && w.node.value.unschedulable),
         uncordonIssued := s.effects.uncordonIssued || call.Uncordon?,
         deleteIssued := s.effects.deleteIssued || call.Delete?)
  }

  lemma MigrationPatchEnds(s: Session, o: Oracle, call: Call)
    requires call.ClearMigrationKeys? || call.MarkMigration?
    ensures var (t, ok) := Perform(s, o, call); Ends(s, o(s.calls), call, t, ok)
  {
  }

  lemma DeadlinePatchEnds(s: Session, o: Oracle, call: Call)
    requires call.StampDeadline? || (call.RemoveDeadline? && GraceDeadline in s.world.stored)
    ensures var (t, ok) := Perform(s, o, call); Ends(s, o(s.calls), call, t, ok)
  {
  }

  lemma CordonPatchEnds(s: Session, o: Oracle, call: Call)
    requires call.MarkCordon? || (call.RemoveCordonMark? && NodeCordoned in s.world.stored)
    ensures var (t, ok) := Perform(s, o, call); Ends(s, o(s.calls), call, t, ok)
  {
  }

  lemma GuestCallEnds(s: Session, o: Oracle, call: Call)
    requires call.Connect? || call.GetNode? || call.Drain?
    ensures var (t, ok) := Perform(s, o, call); Ends(s, o(s.calls), call, t, ok)
  {
  }

  lemma CordonCallEnds(s: Session, o: Oracle, call: Call)
    requires call.Cordon? || call.Uncordon?
    ensures var (t, ok) := Perform(s, o, call); Ends(s, o(s.calls), call, t, ok)
  {
  }

  /** Every call ends in one of three ways: done, refused or lost. */
  lemma EveryCallEndsInOneOfThreeWays(s: Session, o: Oracle, call: Call)
    requires Possible(s, call)
    ensures var (t, ok) := Perform(s, o, call); Ends(s, o(s.calls), call, t, ok)
  {
    if call.ClearMigrationKeys? || call.MarkMigration? {
      hide Perform, Ends;
      MigrationPatchEnds(s, o, call);
    } else if call.StampDeadline? || call.RemoveDeadline? {
      hide Perform, Ends;
      DeadlinePatchEnds(s, o, call);
    } else if call.MarkCordon? || call.RemoveCordonMark? {
      hide Perform, Ends;
      CordonPatchEnds(s, o, call);
    } else if call.Cordon? || call.Uncordon? {
      hide Perform, Ends;
      CordonCallEnds(s, o, call);
    } else if call.Delete? {
      hide SendPatch;
    } else {
      hide Perform, Ends;
      GuestCallEnds(s, o, call);
    }
  }

  /** So does the create of a migration, which no script contains. */
  lemma TheCreateEndsInOneOfThreeWays(s: Session, o: Oracle)
    ensures var (t, ok) := CreateMigration(s, o);
            var Reply(outcome, elapsed) := o(s.calls);
            var a := s.world.audit;
            && (ok <==> outcome.Done?)
            && t == s.(calls := s.calls + 1, effects := s.effects.(migrationIssued := true), world := t.world)
            && t.world == s.world.(now := s.world.now + elapsed, audit := t.world.audit)
            && t.world.audit == a.(migrations := if outcome.Refused? then a.migrations else a.migrations + 1,
                                   unmarked := if outcome.Lost? then a.unmarked + 1 else a.unmarked)
  {
  }

  /** Makes the calls up to the first that fails; None when none does. */
  function Execute(s: Session, o: Oracle, script: Script): (Session, Option<Result>)
    decreases |script|
  {
    if script == [] then (s, None) else
    var (t, ok) := Perform(s, o, script[0].call);
    if ok then Execute(t, o, script[1..]) else (t, Some(script[0].otherwise))
  }

  /** The result of a pass that comes to the end of its script. */
  function Finally(p: (Session, Option<Result>), end: Result): (Session, Result) {
    (p.0, if p.1.Some? then p.1.value else end)
  }

  // ---------- The scripts ----------

  function CleanupScript(a: Annotations): Script {
    if MigrationSubmitted in a || GraceDeadline in a then [Line(ClearMigrationKeys, Failed(100))] else []
  }

  function GraceScript(a: Annotations): Script {
    if HasDeadline(a) then [] else [Line(StampDeadline, Failed(0))]
  }

  function DrainScript(node: Option<Node>, workload: bool): Script {
    if !workload then [Line(NeedWorkload, Crashed)] else
    [Line(Connect, Failed(0)), Line(GetNode, Failed(0))] +
    (if node.None? then []
     else [Line(Cordon, Failed(0)), Line(MarkCordon, Requeue(100)), Line(Drain, Requeue(1000))])
  }

  const DELETE_SCRIPT: Script := [Line(Delete, Failed(0)), Line(RemoveDeadline, Failed(100))]

  function UncordonScript(node: Option<Node>): Script {
    [Line(Connect, Requeue(100)), Line(GetNode, Requeue(100))] +
    ((if node.Some? && node.value.unschedulable then [Line(Uncordon, Requeue(100))] else []) +
     [Line(RemoveCordonMark, Requeue(100))])
  }

  function ScriptFor(w: World, creatable: bool, workload: bool): (Script, Result) {
    if w.vmi.None? || !UnderEviction(w.vmi.value) then
      (CleanupScript(w.stored) +
         (if Returned(w.vmi) && NodeCordoned in w.stored && workload then UncordonScript(w.node) else []),
       Requeue(0))
    else
      var v := w.vmi.value;
      match PlanFor(w, v, creatable)
      case GoOn => (CleanupScript(w.stored), Requeue(0))
      case Wait => (if Migrating(v) then GraceScript(w.stored) else [], Requeue(10000))
      case SubmitMigration => ([Line(MarkMigration, Failed(0))], Requeue(10000))
      case DrainAndDeleteVmi =>
        ((if v.migratable then CleanupScript(w.stored) + [Line(StampDeadline, Failed(0))] else GraceScript(w.stored)) +
           (DrainScript(w.node, workload) + DELETE_SCRIPT),
         Requeue(10000))
      case DeleteAtOnce => (DELETE_SCRIPT, Requeue(10000))
  }

  /** The pass begins with the create of a migration, on whose outcome the plan depends. */
  predicate BeginsWithCreate(w: World) {
    w.vmi.Some? && Queued(w.vmi.value) && MigrationSubmitted !in w.stored
  }

  // ---------- The legs follow their scripts ----------

  lemma {:induction false} ExecuteAppend(s: Session, o: Oracle, a: Script, b: Script)
    ensures var (t, r) := Execute(s, o, a);
            Execute(s, o, a + b) == if r.Some? then (t, r) else Execute(t, o, b)
    decreases |a|
  {
    hide Perform;
    if a == [] {
      assert a + b == b;
    } else {
      assert (a + b)[1..] == a[1..] + b;
      var (t, ok) := Perform(s, o, a[0].call);
      if ok {
        ExecuteAppend(t, o, a[1..], b);
      }
    }
  }

  lemma ExecuteOne(s: Session, o: Oracle, l: Line)
    ensures var (t, ok) := Perform(s, o, l.call);
            Execute(s, o, [l]) == (t, if ok then None else Some(l.otherwise))
  {
    hide Perform;
    var (t, ok) := Perform(s, o, l.call);
    assert [l][1..] == [];
    assert Execute(t, o, []) == (t, None);
  }

  lemma ExecuteTwo(s: Session, o: Oracle, l: Line, m: Line)
    ensures var (t, ok) := Perform(s, o, l.call);
            Execute(s, o, [l, m]) == if ok then Execute(t, o, [m]) else (t, Some(l.otherwise))
  {
    hide Perform;
    assert [l, m][1..] == [m];
  }

  lemma ExecuteThree(s: Session, o: Oracle, l: Line, m: Line, n: Line)
    ensures var (t, ok) := Perform(s, o, l.call);
            Execute(s, o, [l, m, n]) == if ok then Execute(t, o, [m, n]) else (t, Some(l.otherwise))
  {
    hide Perform;
    assert [l, m, n][1..] == [m, n];
  }

  lemma StampIsDeadline(now: int)
    ensures (now + 600_000_000_000) / 1_000_000_000 * 1_000_000_000 == Deadline(now)
  {
  }

  lemma CleanupFollows(s: Session, o: Oracle)
    ensures var (t, ok) := CleanupMigrationAnnotations(s, o);
            Execute(s, o, CleanupScript(s.memory)) == (t, if ok then None else Some(Failed(100)))
  {
    hide SendPatch;
    ExecuteOne(s, o, Line(ClearMigrationKeys, Failed(100)));
    assert {MigrationSubmitted, GraceDeadline} == MIGRATION_KEYS;
  }

  lemma GraceFollows(s: Session, o: Oracle)
    ensures var (t, r) := GracePeriodExceeded(s, o);
            Execute(s, o, GraceScript(s.memory)) == (t, if r.Some? then None else Some(Failed(0)))
  {
    hide SendPatch;
    ExecuteOne(s, o, Line(StampDeadline, Failed(0)));
    StampIsDeadline(s.world.now);
  }

  lemma ReachFollows(s: Session, o: Oracle, r: Result)
    ensures var (t, ok) := ReachNode(s, o);
            Execute(s, o, [Line(Connect, r), Line(GetNode, r)]) == (t, if ok then None else Some(r))
  {
    ExecuteTwo(s, o, Line(Connect, r), Line(GetNode, r));
    ExecuteOne(Contact(s, o).0, o, Line(GetNode, r));
  }

  lemma CordonFollows(s: Session, o: Oracle)
    ensures var (t, r) := CordonAndDrain(s, o);
            var script := [Line(Cordon, Failed(0)), Line(MarkCordon, Requeue(100)), Line(Drain, Requeue(1000))];
            Execute(s, o, script) == (t, if r == Requeue(0) then None else Some(r))
  {
    hide SetUnschedulable, SendPatch, DrainPods;
    var mark, drain := Line(MarkCordon, Requeue(100)), Line(Drain, Requeue(1000));
    ExecuteThree(s, o, Line(Cordon, Failed(0)), mark, drain);
    var (s1, cordoned) := SetUnschedulable(s, o, true);
    ExecuteTwo(s1, o, mark, drain);
    ExecuteOne(SendPatch(s1, o, Put(NodeCordoned, Text("true"))).0, o, drain);
  }

  lemma DrainFollows(s: Session, o: Oracle, workload: bool)
    ensures var (t, r) := DrainNode(s, o, workload);
            Execute(s, o, DrainScript(s.world.node, workload)) == (t, if r == Requeue(0) then None else Some(r))
  {
    hide ReachNode, CordonAndDrain;
    if !workload {
      ExecuteOne(s, o, Line(NeedWorkload, Crashed));
    } else {
      ReachFollows(s, o, Failed(0));
      var reach := [Line(Connect, Failed(0)), Line(GetNode, Failed(0))];
      var (s1, reached) := ReachNode(s, o);
      ReachLeg(s, o);
      if s.world.node.None? {
        assert reach + [] == reach;
      } else {
        CordonFollows(s1, o);
        var rest := [Line(Cordon, Failed(0)), Line(MarkCordon, Requeue(100)), Line(Drain, Requeue(1000))];
        ExecuteAppend(s, o, reach, rest);
      }
    }
  }

  lemma DeleteFollows(s: Session, o: Oracle)
    requires s.vmi.Some?
    ensures DeleteLeg(s, o) == Finally(Execute(s, o, DELETE_SCRIPT), Requeue(10000))
  {
    hide SendPatch, DeleteVmi;
    ExecuteTwo(s, o, Line(Delete, Failed(0)), Line(RemoveDeadline, Failed(100)));
    ExecuteOne(DeleteVmi(s, o).0, o, Line(RemoveDeadline, Failed(100)));
  }

  lemma DrainAndDeleteFollows(s: Session, o: Oracle, workload: bool)
    requires Synced(s) && s.vmi.Some? && !Overdue(s.world)
    ensures DrainAndDelete(s, o, workload) ==
            Finally(Execute(s, o, GraceScript(s.memory) + (DrainScript(s.world.node, workload) + DELETE_SCRIPT)),
                    Requeue(10000))
  {
    hide GracePeriodExceeded, DrainNode, DeleteLeg, Execute, DrainScript, GraceScript, DELETE_SCRIPT;
    var drain := DrainScript(s.world.node, workload);
    GraceFollows(s, o);
    GraceLeg(s, o);
    ExecuteAppend(s, o, GraceScript(s.memory), drain + DELETE_SCRIPT);
    var (s1, exceeded) := GracePeriodExceeded(s, o);
    if exceeded.Some? {
      DrainFollows(s1, o, workload);
      ExecuteAppend(s1, o, drain, DELETE_SCRIPT);
      var (s2, r) := DrainNode(s1, o, workload);
      if r == Requeue(0) {
        DrainKeepsVmi(s1, o, workload);
        DeleteFollows(s2, o);
      }
    }
  }

  lemma DrainKeepsVmi(s: Session, o: Oracle, workload: bool)
    ensures DrainNode(s, o, workload).0.vmi == s.vmi
  {
  }

  lemma UncordonFollows(s: Session, o: Oracle)
    requires NodeCordoned in s.memory
    ensures var (t, ok) := UncordonNodeIfNeeded(s, o, true);
            Execute(s, o, UncordonScript(s.world.node)) == (t, if ok then None else Some(Requeue(100)))
  {
    hide ReachNode, SendPatch, SetUnschedulable;
    var reach := [Line(Connect, Requeue(100)), Line(GetNode, Requeue(100))];
    var remove, uncordon := Line(RemoveCordonMark, Requeue(100)), Line(Uncordon, Requeue(100));
    ReachFollows(s, o, Requeue(100));
    ReachLeg(s, o);
    var s1 := ReachNode(s, o).0;
    if s.world.node.Some? && s.world.node.value.unschedulable {
      ExecuteAppend(s, o, reach, [uncordon] + [remove]);
      ExecuteAppend(s1, o, [uncordon], [remove]);
      ExecuteOne(s1, o, uncordon);
      ExecuteOne(SetUnschedulable(s1, o, false).0, o, remove);
    } else {
      ExecuteAppend(s, o, reach, [] + [remove]);
      assert [] + [remove] == [remove];
      ExecuteOne(s1, o, remove);
    }
  }

  // ---------- The whole pass ----------

  /** The pass up to its script: nothing, or the create of a migration. */
  function Opening(w: World, o: Oracle): Session {
    if BeginsWithCreate(w) then CreateMigration(Start(w), o).0 else Start(w)
  }

  lemma SettleFollows(w: World, o: Oracle, workload: bool)
    requires w.vmi.None? || !UnderEviction(w.vmi.value)
    ensures var (script, end) := ScriptFor(w, o(0).outcome.Done?, workload);
            Pass(w, o, workload) == Finally(Execute(Start(w), o, script), end)
  {
    hide CleanupMigrationAnnotations, UncordonNodeIfNeeded, Execute, CleanupScript, UncordonScript;
    var s := Start(w);
    var uncordon := if Returned(w.vmi) && NodeCordoned in w.stored && workload then UncordonScript(w.node) else [];
    CleanupFollows(s, o);
    CleanupLeg(s, o);
    ExecuteAppend(s, o, CleanupScript(w.stored), uncordon);
    var (s1, cleaned) := CleanupMigrationAnnotations(s, o);
    if cleaned {
      NothingToDo(s1, o);
      if Returned(w.vmi) && NodeCordoned in w.stored && workload {
        UncordonFollows(s1, o);
      } else {
        NoUncordon(s1, o, workload);
      }
    }
  }

  lemma NothingToDo(s: Session, o: Oracle)
    ensures Execute(s, o, []) == (s, None)
  {
  }

  lemma NoUncordon(s: Session, o: Oracle, workload: bool)
    ensures NodeCordoned !in s.memory || !workload ==> UncordonNodeIfNeeded(s, o, workload) == (s, true)
  {
  }

  lemma FallbackFollows(w: World, s: Session, o: Oracle, workload: bool)
    requires w.vmi.Some? && s.vmi == w.vmi && Synced(s) && s.memory == w.stored && s.world.node == w.node
    ensures var (s1, cleaned) := CleanupMigrationAnnotations(s, o);
            (if cleaned then DrainAndDelete(s1, o, workload) else (s1, Failed(100))) ==
            Finally(Execute(s, o, CleanupScript(w.stored) + [Line(StampDeadline, Failed(0))] +
                                  (DrainScript(w.node, workload) + DELETE_SCRIPT)),
                    Requeue(10000))
  {
    hide CleanupMigrationAnnotations, DrainAndDelete, Execute, CleanupScript, DrainScript, DELETE_SCRIPT;
    var rest := [Line(StampDeadline, Failed(0))] + (DrainScript(w.node, workload) + DELETE_SCRIPT);
    assert CleanupScript(w.stored) + [Line(StampDeadline, Failed(0))] +
           (DrainScript(w.node, workload) + DELETE_SCRIPT) == CleanupScript(w.stored) + rest;
    CleanupFollows(s, o);
    CleanupLeg(s, o);
    ExecuteAppend(s, o, CleanupScript(w.stored), rest);
    var (s1, cleaned) := CleanupMigrationAnnotations(s, o);
    if cleaned {
      DrainAndDeleteFollows(s1, o, workload);
    }
  }

  lemma EvictFollows(w: World, o: Oracle, workload: bool)
    requires w.vmi.Some? && UnderEviction(w.vmi.value)
    ensures var (script, end) := ScriptFor(w, o(0).outcome.Done?, workload);
            Pass(w, o, workload) == Finally(Execute(Opening(w, o), o, script), end)
  {
    hide CleanupMigrationAnnotations, GracePeriodExceeded, DrainAndDelete, DELETE_SCRIPT, DrainScript, SendPatch,
         Execute, CleanupScript, GraceScript;
    var v, s := w.vmi.value, Start(w);
    if !v.migratable && Overdue(w) {
      OverdueFollows(w, o, workload);
    } else if !v.migratable {
      DrainAndDeleteFollows(s, o, workload);
    } else if PlanFor(w, v, o(0).outcome.Done?).DrainAndDeleteVmi? {
      GraceLeg(s, o);
      FallbackFollows(w, Opening(w, o), o, workload);
    } else if v.nodeName != v.evacuationNode {
      CleanupFollows(s, o);
    } else if Migrating(v) {
      GraceFollows(s, o);
      GraceLeg(s, o);
    } else if MigrationSubmitted in w.stored {
      NothingToDo(s, o);
    } else {
      ExecuteOne(Opening(w, o), o, Line(MarkMigration, Failed(0)));
    }
  }

  lemma OverdueFollows(w: World, o: Oracle, workload: bool)
    requires w.vmi.Some? && UnderEviction(w.vmi.value) && !w.vmi.value.migratable && Overdue(w)
    ensures Pass(w, o, workload) == Finally(Execute(Start(w), o, DELETE_SCRIPT), Requeue(10000))
  {
    hide DeleteLeg;
    DeleteFollows(Start(w), o);
  }

  /** From every world and for every pattern of failing, lost and slow calls, a pass is the execution of the
      script for that world: it makes those calls in that order, stops at the first that fails, and returns what
      the script says about it. */
  lemma PassFollowsItsScript(w: World, o: Oracle, workload: bool)
    ensures var (script, end) := ScriptFor(w, o(0).outcome.Done?, workload);
            Pass(w, o, workload) == Finally(Execute(Opening(w, o), o, script), end)
  {
    hide Pass, Execute, ScriptFor;
    if w.vmi.Some? && UnderEviction(w.vmi.value) {
      EvictFollows(w, o, workload);
    } else {
      SettleFollows(w, o, workload);
    }
  }
}
