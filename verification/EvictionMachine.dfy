/** `kubevirt.Machine` with the methods that serve an eviction, updating annotations, VMI, guest Node and
    clock call by call, proved against the functions of `Eviction`. */
module EvictionMachine {
  import opened Annotations
  import opened Common
  import opened Eviction

  class Machine {
    // The clusters behind the clients.
    var stored: Annotations
    var liveVmi: Option<Vmi>
    var node: Option<Node>
    var now: int
    var audit: Audit
    const oracle: Oracle

    // The machine service itself.
    var annotations: Annotations
    const vmiInstance: Option<Vmi>
    var effects: Effects
    var calls: nat

    function View(): Session
      reads this
    {
      Session(World(stored, liveVmi, node, now, audit), annotations, vmiInstance, effects, calls)
    }

    /** Reads the KubevirtMachine and the VMI afresh. */
    constructor (w: World, o: Oracle)
      ensures View() == Start(w) && oracle == o
    {
      stored, liveVmi, node, now, audit, oracle := w.stored, w.vmi, w.node, w.now, w.audit, o;
      annotations, vmiInstance, effects, calls := w.stored, w.vmi, NO_EFFECTS, 0;
    }

    method Elapse()
      modifies this`now, this`calls
      ensures now == old(now) + oracle(old(calls)).elapsed && calls == old(calls) + 1
    {
      now := now + oracle(calls).elapsed;
      calls := calls + 1;
    }

    method Patch(p: Patch) returns (ok: bool)
      modifies this
      ensures (View(), ok) == SendPatch(old(View()), oracle, p)
    {
      var outcome := if Applicable(p, stored) then oracle(calls).outcome else Refused;
      audit := Observe(audit, p, stored, outcome, now);
      if !outcome.Refused? {
        stored := Apply(p, stored);
      }
      ok := outcome.Done?;
      if ok {
        annotations := stored;
      }
      Elapse();
    }

    method CreateVmiMigration() returns (ok: bool)
      modifies this
      ensures (View(), ok) == CreateMigration(old(View()), oracle)
    {
      var outcome := oracle(calls).outcome;
      if !outcome.Refused? {
        audit := audit.(migrations := audit.migrations + 1);
      }
      if outcome.Lost? {
        audit := audit.(unmarked := audit.unmarked + 1);
      }
      effects := effects.(migrationIssued := true);
      ok := outcome.Done?;
      Elapse();
    }

    method ContactGuest() returns (ok: bool)
      modifies this`now, this`calls
      ensures (View(), ok) == Contact(old(View()), oracle)
    {
      ok := oracle(calls).outcome.Done?;
      Elapse();
    }

    method RunCordonOrUncordon(desired: bool) returns (ok: bool)
      modifies this
      ensures (View(), ok) == SetUnschedulable(old(View()), oracle, desired)
    {
      var outcome := oracle(calls).outcome;
      ok := outcome.Done?;
      if node.Some? && !outcome.Refused? {
        node := Some(node.value.(unschedulable := desired));
      }
      if desired {
        effects := effects.(cordonIssued := true, cordoned := effects.cordoned || ok);
        audit := audit.(cordons := audit.cordons + 1);
        if outcome.Lost? && NodeCordoned !in stored {
          audit := audit.(unmarkedCordons := audit.unmarkedCordons + 1);
        }
      } else {
        effects := effects.(uncordonIssued := true);
        audit := audit.(uncordons := audit.uncordons + 1);
      }
      Elapse();
    }

    method RunNodeDrain() returns (ok: bool)
      modifies this
      ensures (View(), ok) == DrainPods(old(View()), oracle)
    {
      var cordoned := node.Some? && node.value.unschedulable;
      ok := ContactGuest();
      effects := effects.(drained := effects.drained || (ok && cordoned));
    }

    method DeleteInstance() returns (ok: bool)
      requires vmiInstance.Some?
      modifies this
      ensures (View(), ok) == DeleteVmi(old(View()), oracle)
    {
      var outcome := oracle(calls).outcome;
      audit := audit.(deletions := audit.deletions +
        [Deletion(vmiInstance.value, now, stored, audit.stampedAt, node, effects.drained)]);
      if !outcome.Refused? {
        liveVmi := Some(vmiInstance.value.(deleting := true));
      }
      effects := effects.(deleteIssued := true);
      ok := outcome.Done?;
      Elapse();
    }

    method CleanupAnnotations() returns (ok: bool)
      modifies this
      ensures (View(), ok) == CleanupMigrationAnnotations(old(View()), oracle)
    {
      var hasMigration := MigrationSubmitted in annotations;
      var hasGrace := GraceDeadline in annotations;
      if !hasMigration && !hasGrace {
        return true;
      }
      ok := Patch(Clear(MIGRATION_KEYS));
    }

    method SetVmiDeletionGraceTime() returns (ok: bool)
      modifies this
      ensures (View(), ok) == SetGraceTime(old(View()), oracle)
    {
      var graceTime := Timestamp(Deadline(now));
      ok := Patch(Put(GraceDeadline, graceTime));
    }

    method DrainGracePeriodExceeded() returns (exceeded: Option<bool>)
      modifies this
      ensures (View(), exceeded) == GracePeriodExceeded(old(View()), oracle)
    {
      if GraceDeadline in annotations {
        match annotations[GraceDeadline]
        case Timestamp(instant) =>
          return Some(now > instant);
        case Text(_) =>
          var ok := SetVmiDeletionGraceTime();
          return if ok then Some(false) else None;
      } else {
        var ok := SetVmiDeletionGraceTime();
        return if ok then Some(false) else None;
      }
    }

    method TryMigrateVmi() returns (m: Migration)
      requires vmiInstance.Some?
      modifies this
      ensures (View(), m) == TryMigrate(old(View()), oracle)
    {
      var v := vmiInstance.value;
      if v.nodeName != v.evacuationNode {
        return Migrated;
      }
      if v.migration.Some? {
        if v.migration.value.failed {
          return Fallback;
        }
        if !v.migration.value.completed {
          var exceeded := DrainGracePeriodExceeded();
          if exceeded.None? {
            return MigrationError;
          }
          return if exceeded.value then Fallback else Waiting;
        }
      }
      if MigrationSubmitted in annotations {
        return Waiting;
      }
      var created := CreateVmiMigration();
      if !created {
        return Fallback;
      }
      var marked := Patch(Put(MigrationSubmitted, TRUE));
      return if marked then Waiting else MigrationError;
    }

    method ReachGuestNode() returns (ok: bool)
      modifies this
      ensures (View(), ok) == ReachNode(old(View()), oracle)
    {
      ok := ContactGuest();
      if ok {
        ok := ContactGuest();
      }
    }

    method DrainGuestNode(workload: bool) returns (r: Result)
      modifies this
      ensures (View(), r) == DrainNode(old(View()), oracle, workload)
    {
      if !workload {
        return Crashed;
      }
      var reached := ReachGuestNode();
      if !reached {
        return Failed(0);
      }
      if node.None? {
        return Requeue(0);
      }
      var cordoned := RunCordonOrUncordon(true);
      if !cordoned {
        return Failed(0);
      }
      var marked := Patch(Put(NodeCordoned, TRUE));
      if !marked {
        return Requeue(100);
      }
      var drained := RunNodeDrain();
      return Requeue(if drained then 0 else 1000);
    }

    method UncordonIfNeeded(workload: bool) returns (ok: bool)
      modifies this
      ensures (View(), ok) == UncordonNodeIfNeeded(old(View()), oracle, workload)
    {
      if NodeCordoned !in annotations || !workload {
        return true;
      }
      var reached := ReachGuestNode();
      if !reached {
        return false;
      }
      if node.Some? && node.value.unschedulable {
        var uncordoned := RunCordonOrUncordon(false);
        if !uncordoned {
          return false;
        }
      }
      ok := Patch(Remove(NodeCordoned));
    }

    /** Grace period, drain and delete: the disruptive half of the pass. */
    method DrainThenDelete(workload: bool) returns (r: Result)
      requires vmiInstance.Some?
      modifies this
      ensures (View(), r) == DrainAndDelete(old(View()), oracle, workload)
    {
      var exceeded := DrainGracePeriodExceeded();
      if exceeded.None? {
        return Failed(0);
      }
      if !exceeded.value {
        r := DrainGuestNode(workload);
        if r != Requeue(0) {
          return;
        }
      }
      var deleted := DeleteInstance();
      if !deleted {
        return Failed(0);
      }
      var removed := Patch(Remove(GraceDeadline));
      return if removed then Requeue(10000) else Failed(100);
    }

    method DrainIfNeeded(workload: bool) returns (r: Result)
      modifies this
      ensures (View(), r) == DrainNodeIfNeeded(old(View()), oracle, workload)
    {
      if vmiInstance.None? || !ShouldGracefulDelete(vmiInstance.value) {
        var cleaned := CleanupAnnotations();
        if !cleaned {
          return Failed(100);
        }
        if vmiInstance.Some? && !vmiInstance.value.deleting {
          var settled := UncordonIfNeeded(workload);
          if !settled {
            return Requeue(100);
          }
        }
        return Requeue(0);
      }
      if vmiInstance.value.migratable {
        var m := TryMigrateVmi();
        if m.MigrationError? {
          return Failed(0);
        }
        if m.Migrated? {
          var cleaned := CleanupAnnotations();
          return if cleaned then Requeue(0) else Failed(100);
        }
        if m.Waiting? {
          return Requeue(10000);
        }
        var cleaned := CleanupAnnotations();
        if !cleaned {
          return Failed(100);
        }
      }
      r := DrainThenDelete(workload);
    }
  }
}
