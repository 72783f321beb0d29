/** Memory and store over whole runs: saves are skipped when a cycle changes
    nothing, and yet a restart finds what was served, bar the list digests. */
module StoreRuns {

  import opened Wrappers
  import opened Trust
  import opened World
  import opened Identity
  import opened Differences
  import opened Declared
  import opened Lotl
  import opened LotlSource
  import opened Hold
  import opened Cycle
  import opened Manager
  import opened Invariant
  import opened Reachable
  import opened HoldRuns

  /** The same pending keys in the same order with the same FirstSeen. */
  ghost predicate SameWindows(a: seq<PendingAnchor>, b: seq<PendingAnchor>) {
    && |a| == |b|
    && forall i :: 0 <= i < |a| ==> PendingKey(a[i]) == PendingKey(b[i]) && a[i].firstSeen == b[i].firstSeen
  }

  /** Every served entry is in the store with the same carried-over mark, sequence number,
      failure and skips. */
  ghost predicate HealthCovered(st: Snapshot, ac: Snapshot) {
    forall i :: 0 <= i < |ac.territories| ==> UnmovedIn(st, ac.territories[i])
  }

  /** What the stored snapshot has in common with the served one. */
  ghost predicate Agrees(st: Snapshot, ac: Snapshot) {
    && st.id == ac.id
    && st.lotlDigest == ac.lotlDigest
    && SameWindows(st.pending, ac.pending)
    && HealthCovered(st, ac)
  }

  ghost predicate StoreAgrees(s: State) {
    match (s.stored, s.active)
    case (None, None) => true
    case (Some(st), Some(ac)) => Agrees(st, ac)
    case _ => false
  }

  lemma {:induction false} AgreesRefl(s: Snapshot)
    ensures Agrees(s, s)
  {
    hide JoinedSkips;
    forall i | 0 <= i < |s.territories| ensures UnmovedIn(s, s.territories[i]) {
      assert Unmoved(s.territories[i], s.territories[i]);
    }
  }

  lemma {:induction false} AgreesTrans(st: Snapshot, mid: Snapshot, ac: Snapshot)
    requires Agrees(st, mid) && Agrees(mid, ac)
    ensures Agrees(st, ac)
  {
    hide JoinedSkips;
    forall i | 0 <= i < |ac.territories| ensures UnmovedIn(st, ac.territories[i]) {
      var t := ac.territories[i];
      assert UnmovedIn(mid, t);
      var j :| 0 <= j < |mid.territories| && mid.territories[j].code == t.code && Unmoved(mid.territories[j], t);
      assert UnmovedIn(st, mid.territories[j]);
      var k :| 0 <= k < |st.territories| && st.territories[k].code == t.code && Unmoved(st.territories[k], mid.territories[j]);
      assert Unmoved(st.territories[k], t);
    }
  }

  /** An unsaved cycle keeps every hold window. */
  lemma {:induction false} WindowsKept(w: World, cfg: Config, prev: Snapshot, boot: Bootstrap, in': CycleInput)
    requires WellFormed(w, prev)
    requires RunCycle(w, cfg, Some(prev), boot, in').Ok?
    requires PendingEqual(prev.pending, RunCycle(w, cfg, Some(prev), boot, in').value.pending)
    ensures SameWindows(prev.pending, RunCycle(w, cfg, Some(prev), boot, in').value.pending)
  {
    hide RunCycle, IngestLotl, Incoming, ServedKeys, TerritoriesOk, ContentId;
    var next := RunCycle(w, cfg, Some(prev), boot, in').value;
    RunHoldDecides(w, cfg, Some(prev), boot, in');
    CycleWellFormed(w, cfg, Some(prev), boot, in');
    forall i | 0 <= i < |prev.pending| ensures prev.pending[i].firstSeen == next.pending[i].firstSeen {
      var key := PendingKey(prev.pending[i]);
      assert key == PendingKey(next.pending[i]);
      PendingSinceUnique(prev.pending, i);
      PendingSinceUnique(next.pending, i);
      assert ContextOf(cfg, Some(prev), in'.now).since == PendingSince(prev.pending);
    }
  }

  lemma {:induction false} UnsavedAgrees(w: World, cfg: Config, prev: Snapshot, boot: Bootstrap, in': CycleInput)
    requires WellFormed(w, prev)
    requires RunCycle(w, cfg, Some(prev), boot, in').Ok?
    requires !NeedsSave(Some(prev), RunCycle(w, cfg, Some(prev), boot, in').value)
    ensures Agrees(prev, RunCycle(w, cfg, Some(prev), boot, in').value)
  {
    hide RunCycle, HealthKept, WellFormed, UnmovedIn;
    WindowsKept(w, cfg, prev, boot, in');
    forall t ensures HealthKept(prev, t) ==> UnmovedIn(prev, t) {
      KeptUnmoved(prev, t);
    }
  }

  lemma {:induction false} CycleStoreAgrees(sys: System, s: State, was: bool, input: CycleInput, saved: bool)
    requires StateOk(sys.w, s) && (was ==> StoreAgrees(s))
    ensures CycleSettles(sys, s, was, input, saved) ==> StoreAgrees(CycleStep(sys, s, input, saved))
  {
    hide RunCycle, WellFormed, Agrees, NeedsSave;
    var r := RunCycle(sys.w, sys.cfg, s.active, sys.boot, input);
    if r.Ok? {
      CycleWellFormed(sys.w, sys.cfg, s.active, sys.boot, input);
      if NeedsSave(s.active, r.value) {
        AgreesRefl(r.value);
      } else {
        FirstIsSaved(s.active, r.value);
        UnsavedAgrees(sys.w, sys.cfg, s.active.value, sys.boot, input);
        if was {
          AgreesTrans(s.stored.value, s.active.value, r.value);
        }
      }
    }
  }

  lemma {:induction false} WellFormedTerritories(w: World, s: Snapshot)
    requires WellFormed(w, s)
    ensures TerritoriesOk(w, s.territories)
  {
  }

  lemma {:induction false} FirstIsSaved(prev: Option<Snapshot>, next: Snapshot)
    requires !NeedsSave(prev, next)
    ensures prev.Some?
  {
  }

  lemma {:induction false} ReconcileStoreAgrees(sys: System, s: State, was: bool, file: DeclaredFile, at: Instant, saved: bool)
    requires StateOk(sys.w, s) && (was ==> StoreAgrees(s))
    ensures ReconcileSettles(sys, s, was, file, at, saved) ==> StoreAgrees(Reconcile(sys, s, file, at, saved))
  {
    hide RefreshDeclared, WellFormed, Agrees;
    if s.active.Some? && RefreshDeclared(sys.w, s.active.value, file, at).Some? {
      ReconciledWellFormed(sys.w, s.active.value, file, at);
      AgreesRefl(RefreshDeclared(sys.w, s.active.value, file, at).value);
    }
  }

  lemma {:induction false} StepStoreAgrees(sys: System, s: State, was: bool, step: Step)
    requires StateOk(sys.w, s) && (was ==> StoreAgrees(s))
    requires Settles(sys, s, was, step)
    ensures StoreAgrees(Next(sys, s, step))
  {
    hide CycleStep, Reconcile, WellFormed, Agrees, Approved, CycleSettles, ReconcileSettles;
    match step
    case RefreshStep(file, at, saved, input, cycleSaved) =>
      ReconcileStoreAgrees(sys, s, was, file, at, saved);
      ReconcileOk(sys, s, file, at, saved);
      CycleStoreAgrees(sys, Reconcile(sys, s, file, at, saved), ReconcileSettles(sys, s, was, file, at, saved), input, cycleSaved);
    case ReconcileStep(file, at, saved) =>
      ReconcileStoreAgrees(sys, s, was, file, at, saved);
    case ApproveStep(fp, at, saved) =>
      if s.active.Some? && FindPending(s.active.value.pending, fp).Some? {
        var i := FindPending(s.active.value.pending, fp).value;
        ApprovedWellFormed(sys.w, s.active.value, i, at);
        AgreesRefl(Approved(s.active.value, i, at));
      }
    case RestartStep =>
      if s.stored.Some? {
        AgreesRefl(s.stored.value);
      }
  }

  /** Store simulation: when the last save attempted succeeded, whatever became of the
      earlier ones, the stored snapshot has the served one's id, LOTL digest and
      pending windows, and for every served territory the same health, sequence and
      skips, although cycles that change nothing are not saved. */
  lemma {:induction false} StoreSimulation(sys: System, steps: seq<Step>)
    requires Settled(sys, steps)
    ensures StoreAgrees(After(sys, steps))
    decreases |steps|
  {
    hide Next, StateOk, StoreAgrees, Settles;
    if steps == [] {
      assert StoreAgrees(State(None, None)) by {
        EmptyAgrees();
      }
    } else {
      var n := |steps| - 1;
      if Settled(sys, steps[..n]) {
        StoreSimulation(sys, steps[..n]);
      }
      ReachableWellFormed(sys, steps[..n]);
      StepStoreAgrees(sys, After(sys, steps[..n]), Settled(sys, steps[..n]), steps[n]);
    }
  }

  lemma EmptyAgrees()
    ensures StoreAgrees(State(None, None))
  {
  }

  // ---- Equal ids ----

  /** Equal ids: every entry with data has an entry of its code in the other. */
  lemma {:induction false} EntryTransfers(w: World, a: Snapshot, b: Snapshot, i: nat) returns (j: nat)
    requires WellFormed(w, a) && WellFormed(w, b) && a.id == b.id
    requires i < |a.territories| && !a.territories[i].failed
    ensures j < |b.territories| && b.territories[j].code == a.territories[i].code
  {
    hide ContentId, TerritoriesOk, PendingOk, DeclaredOk;
    IdDeterminesTrust(a, b);
    var u := TerritoryTransfers(a, b, a.territories[i]);
    j :| 0 <= j < |b.territories| && b.territories[j] == u;
  }

  lemma {:induction false} LookupSelf(w: World, s: Snapshot, i: nat)
    requires TerritoriesOk(w, s.territories) && i < |s.territories|
    ensures s.Lookup(s.territories[i].code) == Some(s.territories[i])
  {
    forall a, b | a in s.territories && b in s.territories && a.code == b.code ensures a == b {
      CodeDeterminesEntry(s.territories, a, b);
    }
    FindTerritoryUnique(s.territories, s.territories[i]);
  }

  // ---- Restarts ----

  lemma {:induction false} SameWindowsSameSince(a: seq<PendingAnchor>, b: seq<PendingAnchor>)
    requires SameWindows(a, b)
    ensures PendingSince(a) == PendingSince(b)
    decreases |a|
  {
    if a != [] {
      SameWindowsSameSince(a[..|a| - 1], b[..|b| - 1]);
    }
  }

  lemma {:induction false} SameIdSameServed(w: World, a: Snapshot, b: Snapshot)
    requires WellFormed(w, a) && WellFormed(w, b)
    requires a.id == b.id
    ensures ServedKeys(a.territories) == ServedKeys(b.territories)
  {
    hide ContentId;
    WellFormedServes(w, a);
    WellFormedServes(w, b);
    IdDeterminesTrust(a, b);
    forall key ensures key in ServedKeys(a.territories) <==> key in ServedKeys(b.territories) {
      if key in ServedKeys(a.territories) {
        ServedTransfers(a, b, key);
      }
      if key in ServedKeys(b.territories) {
        ServedTransfers(b, a, key);
      }
    }
  }

  lemma {:induction false} ServedTransfers(a: Snapshot, b: Snapshot, key: AnchorKey)
    requires forall t :: t in a.territories && t.failed ==> t.anchors == []
    requires TrustContentOf(a) == TrustContentOf(b)
    requires key in ServedKeys(a.territories)
    ensures key in ServedKeys(b.territories)
  {
    hide TrustContentOf;
    ServedKeysAt(a.territories, key);
    var i, j :| 0 <= i < |a.territories| && 0 <= j < |a.territories[i].anchors| && a.territories[i].code == key.0
             && a.territories[i].anchors[j].fingerprint == key.1;
    var t := a.territories[i];
    assert t in a.territories && !t.failed;
    var u := TerritoryTransfers(a, b, t);
    MapHasImage(ProjectAnchor, t.anchors, t.anchors[j]);
    var y := MapMember(ProjectAnchor, u.anchors, ProjectAnchor(t.anchors[j]));
    var m :| 0 <= m < |b.territories| && b.territories[m] == u;
    var n :| 0 <= n < |u.anchors| && u.anchors[n] == y;
    ServedKeysAt(b.territories, key);
    assert b.territories[m].code == key.0 && b.territories[m].anchors[n].fingerprint == key.1;
  }

  /** Right after a restart the id, the served keys, the health of every served
      territory and the hold context of the next cycle are those from before. What
      later cycles make of it is in Restarts. */
  lemma {:induction false} RestartKeeps(sys: System, steps: seq<Step>, now: Instant)
    requires Settled(sys, steps)
    ensures var before, after := After(sys, steps).active, Next(sys, After(sys, steps), RestartStep).active;
            && before.Some? == after.Some?
            && (before.Some? ==>
                  && after.value.id == before.value.id
                  && ServedKeys(after.value.territories) == ServedKeys(before.value.territories)
                  && HealthCovered(after.value, before.value))
            && ContextOf(sys.cfg, after, now) == ContextOf(sys.cfg, before, now)
  {
    hide After, WellFormed, HealthCovered, ServedKeys, PendingSince, Settled;
    var s := After(sys, steps);
    StoreSimulation(sys, steps);
    ReachableWellFormed(sys, steps);
    if s.active.Some? {
      SameIdSameServed(sys.w, s.stored.value, s.active.value);
      SameWindowsSameSince(s.stored.value.pending, s.active.value.pending);
    }
  }
}
