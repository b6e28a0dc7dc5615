/** What each leg of an eviction pass, and a whole pass, guarantees from every world and for every
    pattern of failing, lost and slow API calls. */
module EvictionPass {
  import opened Annotations
  import opened Common
  import opened Eviction

  // ---------- Evictions and deadlines ----------

  /** KubeVirt asks for the VMI's eviction and leaves the rest to CAPK. */
  predicate UnderEviction(v: Vmi) {
    !v.deleting && v.evictionStrategy == Some(External) && v.evacuationNode != ""
  }

  /** The VMI is back: present, not being deleted and not under eviction. */
  predicate Returned(vmi: Option<Vmi>) {
    vmi.Some? && !vmi.value.deleting && (vmi.value.evictionStrategy != Some(External) || vmi.value.evacuationNode == "")
  }

  /** The deadline computed at the clock reading at: 600 seconds later, without the fraction of a second. */
  predicate DeadlineFor(instant: int, at: int) {
    instant % 1_000_000_000 == 0 && instant <= at + 600_000_000_000 < instant + 1_000_000_000
  }

  lemma DeadlineIsForNow(now: int)
    ensures DeadlineFor(Deadline(now), now)
  {
  }

  // ---------- What every leg keeps ----------

  /** The annotations in memory are the stored ones. */
  predicate Synced(s: Session) {
    s.memory == s.world.stored
  }

  /** Migrations created that no marker, past or present, accounts for. */
  function Unaccounted(w: World): int {
    w.audit.migrations - w.audit.markerDrops - w.audit.unmarked - (if MigrationSubmitted in w.stored then 1 else 0)
  }

  /** A stored deadline is the one computed from the last stamping clock reading. */
  predicate StampOk(w: World) {
    GraceDeadline in w.stored && w.stored[GraceDeadline].Timestamp? ==>
      DeadlineFor(w.stored[GraceDeadline].instant, w.audit.stampedAt) && w.audit.stampedAt <= w.now
  }

  ghost predicate SameForeign(a: Annotations, b: Annotations) {
    forall k: Key :: k.Foreign? ==> (k in a <==> k in b) && (k in a ==> a[k] == b[k])
  }

  /** The same Node, or none, but for its schedulability. */
  predicate SameNode(a: Option<Node>, b: Option<Node>) {
    (a.Some? <==> b.Some?) && (a.Some? ==> a.value.providerId == b.value.providerId)
  }

  /** A cordoned Node has its marker, or some cordon did not get one. */
  predicate CordonAccounted(w: World) {
    w.node.Some? && w.node.value.unschedulable ==> NodeCordoned in w.stored || w.audit.unmarkedCordons > 0
  }

  ghost predicate Keeps(s: Session, t: Session) {
    && t.vmi == s.vmi
    && s.world.now <= t.world.now
    && SameNode(s.world.node, t.world.node)
    && SameForeign(s.world.stored, t.world.stored)
    && t.world.audit.missedRemoves == s.world.audit.missedRemoves
    && Unaccounted(t.world) == Unaccounted(s.world)
    && (StampOk(s.world) ==> StampOk(t.world))
    && (CordonAccounted(s.world) ==> CordonAccounted(t.world))
  }

  /** Nothing but annotations and the clock changed. */
  predicate Quiet(s: Session, t: Session) {
    && t.world.vmi == s.world.vmi
    && t.world.node == s.world.node
    && t.world.audit.cordons == s.world.audit.cordons
    && t.world.audit.uncordons == s.world.audit.uncordons
    && t.world.audit.unmarkedCordons >= s.world.audit.unmarkedCordons
    && t.world.audit.deletions == s.world.audit.deletions
    && t.effects == s.effects
  }

  predicate HasDeadline(a: Annotations) {
    GraceDeadline in a && a[GraceDeadline].Timestamp?
  }

  /** A valid deadline is stored and has passed. */
  predicate PastDeadline(a: Annotations, now: int) {
    HasDeadline(a) && now > a[GraceDeadline].instant
  }

  predicate Overdue(w: World) {
    PastDeadline(w.stored, w.now)
  }

  /** The valid deadline of w is stored in w' too, unmoved. */
  predicate SameDeadline(w: World, w': World) {
    && HasDeadline(w.stored) && HasDeadline(w'.stored)
    && w'.stored[GraceDeadline] == w.stored[GraceDeadline]
    && w'.audit.stampedAt == w.audit.stampedAt
  }

  // ---------- The legs ----------

  predicate Owned(p: Patch) {
    match p
    case Put(key, _) => !key.Foreign?
    case Clear(keys) => keys == MIGRATION_KEYS
    case Remove(target) => !target.Foreign?
  }

  lemma PatchLeg(s: Session, o: Oracle, p: Patch)
    requires Synced(s) && Owned(p) && Applicable(p, s.world.stored)
    ensures var (t, ok) := SendPatch(s, o, p);
            && Quiet(s, t)
            && t.vmi == s.vmi && t.calls == s.calls + 1
            && s.world.now <= t.world.now
            && SameForeign(s.world.stored, t.world.stored)
            && (t.world.stored == s.world.stored || t.world.stored == Apply(p, s.world.stored))
            && ((p.Put? && p.key == GraceDeadline) || t.world.audit.stampedAt == s.world.audit.stampedAt)
            && (ok ==> Synced(t) && t.world.stored == Apply(p, s.world.stored))
            && (StampOk(s.world) && 
                (p.Put? && p.key == GraceDeadline && p.value.Timestamp? ==> DeadlineFor(p.value.instant, s.world.now))
                ==> StampOk(t.world))
            && t.world.audit.missedRemoves == s.world.audit.missedRemoves
            && (p.Put? && p.key == NodeCordoned ==>
                  NodeCordoned in t.world.stored || t.world.audit.unmarkedCordons > 0)
            && (!(p.Put? && p.key == MigrationSubmitted) ==> Unaccounted(t.world) == Unaccounted(s.world))
  {
  }

  lemma CleanupLeg(s: Session, o: Oracle)
    requires Synced(s)
    ensures var (t, ok) := CleanupMigrationAnnotations(s, o);
            && Keeps(s, t) && Quiet(s, t)
            && (NodeCordoned in t.world.stored <==> NodeCordoned in s.world.stored)
            && (GraceDeadline in t.world.stored ==> GraceDeadline in s.world.stored)
            && (MigrationSubmitted in t.world.stored ==> MigrationSubmitted in s.world.stored)
            && (ok ==> Synced(t) && MigrationSubmitted !in t.memory && GraceDeadline !in t.memory)
  {
  }

  lemma GraceLeg(s: Session, o: Oracle)
    requires Synced(s)
    ensures var (t, r) := GracePeriodExceeded(s, o);
            && Keeps(s, t) && Quiet(s, t)
            && (NodeCordoned in t.world.stored <==> NodeCordoned in s.world.stored)
            && (MigrationSubmitted in t.world.stored <==> MigrationSubmitted in s.world.stored)
            && t.world.audit.migrations == s.world.audit.migrations
            && (HasDeadline(s.memory) ==> t == s && r == Some(s.world.now > s.memory[GraceDeadline].instant))
            && (!HasDeadline(s.memory) ==> r != Some(true))
            && (r.Some? ==> Synced(t) && HasDeadline(t.memory))
  {
    DeadlineIsForNow(s.world.now);
    hide Deadline;
  }

  /** Creating the migration and writing its marker. */
  lemma SubmitLeg(s: Session, o: Oracle)
    requires Synced(s) && MigrationSubmitted !in s.memory
    ensures var (s1, created) := CreateMigration(s, o);
            var (t, marked) := SendPatch(s1, o, Put(MigrationSubmitted, TRUE));
            var u := if created then t else s1;
            && Keeps(s, u) && Quiet(s, u.(effects := s.effects))
            && u.effects == s.effects.(migrationIssued := true)
            && (NodeCordoned in u.world.stored <==> NodeCordoned in s.world.stored)
            && (!created || marked ==> Synced(u))
  {
    PatchLeg(CreateMigration(s, o).0, o, Put(MigrationSubmitted, TRUE));
  }

  lemma MigrateLeg(s: Session, o: Oracle) returns (t: Session, m: Migration)
    requires Synced(s) && s.vmi.Some?
    ensures (t, m) == TryMigrate(s, o)
    ensures Keeps(s, t)
    ensures Quiet(s, t.(effects := s.effects))
    ensures t.effects == s.effects.(migrationIssued := t.effects.migrationIssued)
    ensures NodeCordoned in t.world.stored <==> NodeCordoned in s.world.stored
    ensures !m.MigrationError? ==> Synced(t)
    ensures m.Migrated? <==> s.vmi.value.nodeName != s.vmi.value.evacuationNode
    ensures m.Migrated? ==> t == s
  {
    hide GracePeriodExceeded, CreateMigration, SendPatch, Keeps;
    t := TryMigrate(s, o).0;
    m := TryMigrate(s, o).1;
    var v := s.vmi.value;
    if v.nodeName != v.evacuationNode || (v.migration.Some? && v.migration.value.failed) {
      KeepsItself(s);
    } else if v.migration.Some? && !v.migration.value.completed {
      GraceLeg(s, o);
    } else if MigrationSubmitted in s.memory {
      KeepsItself(s);
    } else {
      SubmitLeg(s, o);
    }
  }

  lemma KeepsItself(s: Session)
    ensures Keeps(s, s)
  {
  }

  lemma ReachLeg(s: Session, o: Oracle)
    ensures var (t, ok) := ReachNode(s, o);
            && Keeps(s, t) && Quiet(s, t)
            && t.world.stored == s.world.stored && t.memory == s.memory
            && t.world.audit == s.world.audit
  {
  }

  /** What the drain changes: the node's schedulability, the cordon marker and the clock. */
  ghost predicate DrainsOnly(s: Session, t: Session) {
    && Keeps(s, t)
    && t.world.audit.stampedAt == s.world.audit.stampedAt
    && t.world.vmi == s.world.vmi
    && t.world.audit.deletions == s.world.audit.deletions
    && t.world.audit.uncordons == s.world.audit.uncordons
    && t.effects == s.effects.(cordonIssued := t.effects.cordonIssued, cordoned := t.effects.cordoned,
                               drained := t.effects.drained)
    && (NodeCordoned in s.world.stored ==> NodeCordoned in t.world.stored)
    && (NodeCordoned in t.world.stored ==> NodeCordoned in s.world.stored || t.effects.cordoned)
    && (HasDeadline(s.world.stored) ==>
          HasDeadline(t.world.stored) && t.world.stored[GraceDeadline] == s.world.stored[GraceDeadline])
  }

  /** The pass may go on to the delete call. */
  predicate Drained(t: Session) {
    && Synced(t)
    && (t.effects.drained <==> t.world.node.Some?)
    && (t.effects.drained ==> t.world.node.value.unschedulable && NodeCordoned in t.world.stored)
  }

  lemma DrainPodsLeg(s: Session, o: Oracle)
    ensures var (t, ok) := DrainPods(s, o);
            && Keeps(s, t) && Quiet(s, t.(effects := s.effects))
            && t.world.stored == s.world.stored && t.memory == s.memory && t.world.audit == s.world.audit
            && t.effects == s.effects.(
                 drained := s.effects.drained || (ok && s.world.node.Some? && s.world.node.value.unschedulable))
  {
  }

  lemma CordonLeg(s: Session, o: Oracle)
    requires Synced(s) && !s.effects.drained && s.world.node.Some?
    ensures var (t, r) := CordonAndDrain(s, o);
            DrainsOnly(s, t) && !r.Crashed? && (r == Requeue(0) ==> Drained(t))
  {
    hide SendPatch, DrainPods;
    var (s1, cordoned) := SetUnschedulable(s, o, true);
    if cordoned {
      PatchLeg(s1, o, Put(NodeCordoned, TRUE));
      var (s2, marked) := SendPatch(s1, o, Put(NodeCordoned, TRUE));
      assert DrainsOnly(s, s2);
      if marked {
        DrainPodsLeg(s2, o);
      }
    }
  }

  lemma DrainLeg(s: Session, o: Oracle, workload: bool)
    requires Synced(s) && !s.effects.drained
    ensures var (t, r) := DrainNode(s, o, workload);
            DrainsOnly(s, t) && (r.Crashed? <==> !workload) && (r == Requeue(0) ==> Drained(t))
  {
    hide ReachNode, CordonAndDrain;
    ReachLeg(s, o);
    var s1 := ReachNode(s, o).0;
    if s1.world.node.Some? {
      CordonLeg(s1, o);
    }
  }

  ghost predicate CordonMarkerFaithful(s: Session, t: Session) {
    && (NodeCordoned in t.world.stored ==> NodeCordoned in s.world.stored || t.effects.cordoned)
    && (NodeCordoned in s.world.stored && NodeCordoned !in t.world.stored ==>
          t.world.node.None? || !t.world.node.value.unschedulable)
  }

  /** What uncordoning changes: the node's schedulability, the cordon marker and the clock. */
  ghost predicate SettlesOnly(s: Session, t: Session) {
    && Keeps(s, t)
    && t.world.vmi == s.world.vmi
    && t.world.audit.deletions == s.world.audit.deletions
    && t.effects == s.effects.(uncordonIssued := t.effects.uncordonIssued)
    && (t.effects.uncordonIssued || t.world.audit.uncordons == s.world.audit.uncordons)
    && CordonMarkerFaithful(s, t)
    && (GraceDeadline in t.world.stored ==> GraceDeadline in s.world.stored)
    && (MigrationSubmitted in t.world.stored ==> MigrationSubmitted in s.world.stored)
  }

  lemma UncordonLeg(s: Session, o: Oracle)
    requires Synced(s) && NodeCordoned in s.memory
    ensures var (t, ok) := Uncordon(s, o);
            SettlesOnly(s, t) && (ok ==> NodeCordoned !in t.world.stored)
  {
    hide SendPatch;
    if s.world.node.None? || !s.world.node.value.unschedulable {
      PatchLeg(s, o, Remove(NodeCordoned));
    } else {
      var (s1, uncordoned) := SetUnschedulable(s, o, false);
      if uncordoned {
        PatchLeg(s1, o, Remove(NodeCordoned));
      }
    }
  }

  lemma UncordonIfNeededLeg(s: Session, o: Oracle, workload: bool)
    requires Synced(s)
    ensures var (t, ok) := UncordonNodeIfNeeded(s, o, workload);
            && SettlesOnly(s, t)
            && (!workload ==> t == s)
            && (ok && workload ==> NodeCordoned !in t.world.stored)
            && (NodeCordoned !in s.world.stored ==> t == s)
  {
    hide ReachNode, Uncordon;
    if NodeCordoned in s.memory && workload {
      ReachLeg(s, o);
      if ReachNode(s, o).1 {
        UncordonLeg(ReachNode(s, o).0, o);
      }
    }
  }

  lemma SettleAbsentLeg(s: Session, o: Oracle, workload: bool)
    requires Synced(s) && !s.effects.uncordonIssued
    requires s.vmi.None? || s.vmi.value.deleting
    ensures var (t, r) := Settle(s, o, workload);
            && SettlesOnly(s, t) && !r.Crashed? && !t.effects.uncordonIssued
            && (NodeCordoned in t.world.stored <==> NodeCordoned in s.world.stored)
            && t.world.node == s.world.node
  {
    hide CleanupMigrationAnnotations;
    CleanupLeg(s, o);
  }

  lemma SettlePresentLeg(s: Session, o: Oracle, workload: bool)
    requires Synced(s) && !s.effects.uncordonIssued
    requires s.vmi.Some? && !s.vmi.value.deleting
    ensures var (t, r) := Settle(s, o, workload);
            && SettlesOnly(s, t) && !r.Crashed?
            && (!workload ==>
                  !t.effects.uncordonIssued && (NodeCordoned in t.world.stored <==> NodeCordoned in s.world.stored))
            && (r == Requeue(0) ==> MigrationSubmitted !in t.world.stored && GraceDeadline !in t.world.stored)
            && (r == Requeue(0) && workload ==> NodeCordoned !in t.world.stored)
            && (NodeCordoned !in s.world.stored ==> t.world.node == s.world.node)
  {
    hide CleanupMigrationAnnotations, UncordonNodeIfNeeded;
    CleanupLeg(s, o);
    var (s1, cleaned) := CleanupMigrationAnnotations(s, o);
    if cleaned {
      UncordonIfNeededLeg(s1, o, workload);
    }
  }

  /** Why a VMI may be deleted: KubeVirt asked for its eviction and left the rest to CAPK, and the guest is
      drained or gone or has run out of time. */
  predicate Justified(d: Deletion) {
    && !d.vmi.deleting && d.vmi.evictionStrategy == Some(External) && d.vmi.evacuationNode != ""
    && (d.drained || d.node.None? || (!d.vmi.migratable && PastDeadline(d.stored, d.at)))
    && (d.drained ==> d.node.Some? && d.node.value.unschedulable && NodeCordoned in d.stored)
  }

  /** The stored deadline at the time of the call was the one computed at `stampedAt`. */
  predicate WindowKept(d: Deletion) {
    HasDeadline(d.stored) ==> DeadlineFor(d.stored[GraceDeadline].instant, d.stampedAt)
  }

  predicate Accounted(s: Session, t: Session, d: Deletion) {
    && Justified(d)
    && s.vmi == Some(d.vmi)
    && d.drained == t.effects.drained
    && (d.drained ==> NodeCordoned in t.world.stored)
    && (StampOk(s.world) ==> WindowKept(d))
    && (d.node.Some? <==> s.world.node.Some?)
    && s.world.now <= d.at <= t.world.now
  }

  /** What serving an eviction changes; at most one VMI delete call, and a justified one. */
  ghost predicate EvictsOnly(s: Session, t: Session) {
    && Keeps(s, t)
    && t.world.audit.uncordons == s.world.audit.uncordons
    && t.effects.uncordonIssued == s.effects.uncordonIssued
    && (NodeCordoned in s.world.stored ==> NodeCordoned in t.world.stored)
    && (NodeCordoned in t.world.stored ==> NodeCordoned in s.world.stored || t.effects.cordoned)
    && (if t.effects.deleteIssued
        then exists d :: Accounted(s, t, d) && t.world.audit.deletions == s.world.audit.deletions + [d]
        else t.world.audit.deletions == s.world.audit.deletions && t.world.vmi == s.world.vmi)
  }

  lemma DeleteLegKeeps(s: Session, o: Oracle)
    requires Synced(s) && s.vmi.Some? && HasDeadline(s.memory)
    ensures var (t, r) := DeleteLeg(s, o);
            var d := Deletion(s.vmi.value, s.world.now, s.world.stored, s.world.audit.stampedAt, s.world.node,
                              s.effects.drained);
            && Keeps(s, t)
            && t.world.node == s.world.node
            && t.world.audit.cordons == s.world.audit.cordons
            && t.world.audit.uncordons == s.world.audit.uncordons
            && t.world.audit.stampedAt == s.world.audit.stampedAt
            && t.effects == s.effects.(deleteIssued := true)
            && (t.world.stored == s.world.stored ||
                (t.world.stored == s.world.stored - {GraceDeadline} &&
                 t.world.vmi == Some(s.vmi.value.(deleting := true))))
            && (NodeCordoned in t.world.stored <==> NodeCordoned in s.world.stored)
            && t.world.audit.deletions == s.world.audit.deletions + [d]
            && !r.Crashed? && r != Requeue(0)
  {
    hide SendPatch;
    var (s1, deleted) := DeleteVmi(s, o);
    if deleted {
      PatchLeg(s1, o, Remove(GraceDeadline));
    }
  }

  lemma DrainAndDeleteLeg(s: Session, o: Oracle, workload: bool)
    requires Synced(s) && s.vmi.Some? && UnderEviction(s.vmi.value)
    requires !s.effects.drained && !s.effects.deleteIssued
    requires s.vmi.value.migratable ==> !HasDeadline(s.memory)
    ensures var (t, r) := DrainAndDelete(s, o, workload);
            EvictsOnly(s, t) && r != Requeue(0) && (r.Crashed? ==> !workload)
  {
    hide GracePeriodExceeded, DrainNode, DeleteLeg;
    GraceLeg(s, o);
    var (s1, exceeded) := GracePeriodExceeded(s, o);
    if exceeded == Some(true) {
      DeleteLegKeeps(s1, o);
    } else if exceeded == Some(false) {
      DrainLeg(s1, o, workload);
      var (s2, r) := DrainNode(s1, o, workload);
      if r == Requeue(0) {
        DeleteLegKeeps(s2, o);
      }
    }
  }

  /** The VMI has left the host that is being evacuated. */
  predicate OffHost(v: Vmi) {
    v.migratable && v.nodeName != v.evacuationNode
  }

  lemma EvictLeg(s: Session, o: Oracle, workload: bool)
    requires Synced(s) && s.vmi.Some? && UnderEviction(s.vmi.value) && s.effects == NO_EFFECTS
    ensures var (t, r) := Evict(s, o, workload);
            && EvictsOnly(s, t) && (r.Crashed? ==> !workload)
            && (r == Requeue(0) ==>
                  && OffHost(s.vmi.value) && t.effects == NO_EFFECTS && t.world.node == s.world.node
                  && MigrationSubmitted !in t.world.stored && GraceDeadline !in t.world.stored)
  {
    hide TryMigrate, CleanupMigrationAnnotations, DrainAndDelete;
    if !s.vmi.value.migratable {
      DrainAndDeleteLeg(s, o, workload);
    } else {
      var s1, m := MigrateLeg(s, o);
      if m.Migrated? || m.Fallback? {
        CleanupLeg(s1, o);
        var (s2, cleaned) := CleanupMigrationAnnotations(s1, o);
        if m.Fallback? && cleaned {
          DrainAndDeleteLeg(s2, o, workload);
        }
      }
    }
  }

  // ---------- A whole pass ----------

  lemma PassWithoutEviction(w: World, o: Oracle, workload: bool)
    requires w.vmi.None? || !UnderEviction(w.vmi.value)
    ensures var (t, r) := Pass(w, o, workload);
            && SettlesOnly(Start(w), t) && !r.Crashed?
            && (t.effects.uncordonIssued ==> Returned(w.vmi) && workload)
            && (NodeCordoned in w.stored && NodeCordoned !in t.world.stored ==> Returned(w.vmi) && workload)
            && (NodeCordoned in t.world.stored ==> NodeCordoned in w.stored)
            && (NodeCordoned !in w.stored ==> t.world.node == w.node)
  {
    hide Settle;
    if Returned(w.vmi) {
      SettlePresentLeg(Start(w), o, workload);
    } else {
      SettleAbsentLeg(Start(w), o, workload);
    }
  }

  lemma PassUnderEviction(w: World, o: Oracle, workload: bool)
    requires w.vmi.Some? && UnderEviction(w.vmi.value)
    ensures var (t, r) := Pass(w, o, workload);
            && EvictsOnly(Start(w), t) && !t.effects.uncordonIssued && (r.Crashed? ==> !workload)
            && (r == Requeue(0) ==> OffHost(w.vmi.value) && t.effects == NO_EFFECTS)
  {
    hide Evict;
    EvictLeg(Start(w), o, workload);
  }

  /** Every pass: what it keeps, and the only ways it may touch the VMI, the Node and the cordon marker. */
  lemma PassKeeps(w: World, o: Oracle, workload: bool)
    ensures var (t, r) := Pass(w, o, workload);
            && Keeps(Start(w), t)
            && (r.Crashed? ==> !workload)
            && (t.effects.uncordonIssued || t.world.audit.uncordons == w.audit.uncordons)
            && (t.effects.uncordonIssued ==> Returned(w.vmi) && workload)
            && (NodeCordoned in t.world.stored ==> NodeCordoned in w.stored || t.effects.cordoned)
            && (NodeCordoned in w.stored && NodeCordoned !in t.world.stored ==>
                  Returned(w.vmi) && workload && (t.world.node.None? || !t.world.node.value.unschedulable))
            && (if t.effects.deleteIssued
                then exists d :: Accounted(Start(w), t, d) && t.world.audit.deletions == w.audit.deletions + [d]
                else t.world.audit.deletions == w.audit.deletions && t.world.vmi == w.vmi)
  {
    hide Pass, Keeps;
    if w.vmi.Some? && UnderEviction(w.vmi.value) {
      PassUnderEviction(w, o, workload);
    } else {
      PassWithoutEviction(w, o, workload);
    }
  }

  /** A pass that lets the reconcile go on has not disturbed the guest or the VMI. */
  lemma ContinuingPassIsGentle(w: World, o: Oracle, workload: bool)
    requires Pass(w, o, workload).1 == Requeue(0)
    ensures var e := Pass(w, o, workload).0.effects;
            && !e.deleteIssued && !e.cordonIssued && !e.migrationIssued
            && (w.vmi.Some? && UnderEviction(w.vmi.value) ==> OffHost(w.vmi.value))
  {
    hide Pass;
    if w.vmi.Some? && UnderEviction(w.vmi.value) {
      PassUnderEviction(w, o, workload);
    } else {
      PassWithoutEviction(w, o, workload);
    }
  }

  /** Quiescence: a pass that ends well with the VMI back leaves none of the three annotations, whatever
      state earlier failures left behind, and a Node that was marked is schedulable or gone. */
  lemma QuietPassLeavesNothing(w: World, o: Oracle)
    requires Returned(w.vmi)
    requires Pass(w, o, true).1 == Requeue(0)
    ensures var w' := Pass(w, o, true).0.world;
            && GraceDeadline !in w'.stored && MigrationSubmitted !in w'.stored && NodeCordoned !in w'.stored
            && (NodeCordoned in w.stored ==> w'.node.None? || !w'.node.value.unschedulable)
  {
    hide Settle;
    SettlePresentLeg(Start(w), o, true);
  }

  /** Past the deadline, a pass over a non-migratable VMI leaves the guest alone and goes straight to the
      delete call. */
  lemma OverduePassDeletes(w: World, o: Oracle, workload: bool)
    requires w.vmi.Some? && !w.vmi.value.deleting && !w.vmi.value.migratable
    requires w.vmi.value.evictionStrategy == Some(External) && w.vmi.value.evacuationNode != ""
    requires Overdue(w)
    ensures var (t, r) := Pass(w, o, workload);
            && t.effects == NO_EFFECTS.(deleteIssued := true)
            && t.world.node == w.node && t.world.audit.cordons == w.audit.cordons
            && t.world.audit.deletions == w.audit.deletions +
                 [Deletion(w.vmi.value, w.now, w.stored, w.audit.stampedAt, w.node, false)]
  {
    hide DeleteLeg;
    DeleteLegKeeps(Start(w), o);
  }

  /** Before the deadline, and without one, such a pass deletes only what it has drained, if there is a Node. */
  lemma TimelyPassDrainsFirst(w: World, o: Oracle, workload: bool)
    requires w.vmi.Some? && UnderEviction(w.vmi.value) && !w.vmi.value.migratable
    requires !Overdue(w) && w.node.Some?
    ensures var t := Pass(w, o, workload).0;
            t.effects.deleteIssued ==> t.effects.drained
  {
    hide DeleteLeg, DrainNode, GracePeriodExceeded;
    var s := Start(w);
    GraceLeg(s, o);
    var (s1, exceeded) := GracePeriodExceeded(s, o);
    if exceeded.Some? {
      DrainLeg(s1, o, workload);
      var (s2, r) := DrainNode(s1, o, workload);
      if r == Requeue(0) {
        DeleteLegKeeps(s2, o);
      }
    }
  }

  /** A pass over a non-migratable VMI never moves a valid deadline; it drops the deadline only once the VMI
      is being deleted, so not after a refused delete call. */
  lemma PendingPassKeepsDeadline(w: World, o: Oracle, workload: bool)
    requires w.vmi.Some? && UnderEviction(w.vmi.value) && !w.vmi.value.migratable && HasDeadline(w.stored)
    ensures var w' := Pass(w, o, workload).0.world;
            || SameDeadline(w, w')
            || (GraceDeadline !in w'.stored && w'.vmi == Some(w.vmi.value.(deleting := true)))
  {
    hide DeleteLeg, DrainNode;
    var s := Start(w);
    GraceLeg(s, o);
    if w.now > w.stored[GraceDeadline].instant {
      DeleteLegKeeps(s, o);
    } else {
      DrainLeg(s, o, workload);
      var (s1, r) := DrainNode(s, o, workload);
      if r == Requeue(0) {
        DeleteLegKeeps(s1, o);
      }
    }
  }

  /** A migratable VMI whose migration is under way. */
  predicate Migrating(v: Vmi) {
    && UnderEviction(v) && v.migratable && v.nodeName == v.evacuationNode
    && v.migration.Some? && !v.migration.value.failed && !v.migration.value.completed
  }

  /** Until its deadline has passed, a running migration is left alone. */
  lemma RunningMigrationIsLeftAlone(w: World, o: Oracle, workload: bool)
    requires w.vmi.Some? && Migrating(w.vmi.value)
    requires !Overdue(w)
    ensures var (t, r) := Pass(w, o, workload);
            && t.effects == NO_EFFECTS && t.world.node == w.node && t.world.vmi == w.vmi
            && t.world.audit.migrations == w.audit.migrations && t.world.audit.cordons == w.audit.cordons
            && t.world.audit.uncordons == w.audit.uncordons && t.world.audit.deletions == w.audit.deletions
            && (NodeCordoned in t.world.stored <==> NodeCordoned in w.stored)
            && (HasDeadline(w.stored) ==> SameDeadline(w, t.world))
            && (r == Requeue(10000) || (r == Failed(0) && !HasDeadline(w.stored)))
            && (r == Requeue(10000) ==> HasDeadline(t.world.stored))
  {
    hide GracePeriodExceeded;
    GraceLeg(Start(w), o);
  }

  /** A migratable VMI that waits for KubeVirt to start its migration. */
  predicate Queued(v: Vmi) {
    && UnderEviction(v) && v.migratable && v.nodeName == v.evacuationNode
    && (v.migration.Some? ==> v.migration.value.completed && !v.migration.value.failed)
  }

  /** Time spent in the migration queue is not charged: unless the create fails, the pass sets no
      deadline and touches neither the guest nor the VMI. */
  lemma QueuedPassSetsNoDeadline(w: World, o: Oracle, workload: bool)
    requires w.vmi.Some? && Queued(w.vmi.value) && GraceDeadline !in w.stored
    requires MigrationSubmitted in w.stored || o(0).outcome.Done?
    ensures var t := Pass(w, o, workload).0;
            && GraceDeadline !in t.world.stored
            && t.world.vmi == w.vmi && t.world.node == w.node
            && !t.effects.cordonIssued && !t.effects.deleteIssued && !t.effects.uncordonIssued
  {
    hide SendPatch;
    if MigrationSubmitted !in w.stored {
      PatchLeg(CreateMigration(Start(w), o).0, o, Put(MigrationSubmitted, TRUE));
    }
  }
}
