/** Monotone, fail-safe progress over whole runs. */
module Progress {

  import opened Wrappers
  import opened Sequences
  import opened Trust
  import opened World
  import opened Identity
  import opened Declared
  import opened Lotl
  import opened LotlSource
  import opened National
  import opened Hold
  import opened Cycle
  import opened Manager
  import opened Invariant
  import opened Reachable
  import opened StoreRuns
  import opened Provenance
  import opened SkipRefinement

  // ---- The LOTL state in the store ----

  lemma {:induction false} SameDigestSameResult(sys: System, prev: Snapshot, in': CycleInput)
    requires CollisionFree(sys.w)
    requires prev.lotlSigners != [] && LotlHeldBy(sys, Carried(prev))
    requires IngestLotl(sys.w, sys.cfg, Some(prev), sys.boot, in'.now, in'.up).Ok?
    requires IngestLotl(sys.w, sys.cfg, Some(prev), sys.boot, in'.now, in'.up).value.digest == prev.lotlDigest
    ensures IngestLotl(sys.w, sys.cfg, Some(prev), sys.boot, in'.now, in'.up) == Ok(Carried(prev))
  {
    hide LotlHeldBy, VerifyLotl, PointerSet;
    match FetchLotl(sys.w, sys.cfg, Some(prev), in'.now, in'.up)
    case Unchanged =>
    case Raw(bytes, digest) =>
      SameDocumentSameResult(sys, prev, in'.now, in'.up, bytes);
  }

  /** An unsaved cycle leaves the whole LOTL state as it was: same digest, same
      document, and then no rotation. */
  lemma {:induction false} SameDigestSameLotl(sys: System, prev: Snapshot, in': CycleInput)
    requires CollisionFree(sys.w)
    requires WellFormed(sys.w, prev) && SnapshotBacked(sys, prev)
    requires RunCycle(sys.w, sys.cfg, Some(prev), sys.boot, in').Ok?
    requires RunCycle(sys.w, sys.cfg, Some(prev), sys.boot, in').value.lotlDigest == prev.lotlDigest
    ensures Carried(RunCycle(sys.w, sys.cfg, Some(prev), sys.boot, in').value) == Carried(prev)
  {
    hide RunCycle, Assemble, TerritoriesOk, PendingOk, DeclaredOk, ContentId, AllBacked, PendingBacked, LotlHeldBy, SignersProven,
         IngestLotl;
    CycleParts(sys.w, sys.cfg, Some(prev), sys.boot, in');
    var l := IngestLotl(sys.w, sys.cfg, Some(prev), sys.boot, in'.now, in'.up).value;
    AssembledCarries(sys, Some(prev), in', l);
    SameDigestSameResult(sys, prev, in');
  }

  lemma {:induction false} AssembledCarries(sys: System, prev: Option<Snapshot>, in': CycleInput, l: LotlResult)
    ensures Carried(Assemble(sys.w, sys.cfg, prev, sys.boot, in', l)) == l
  {
    hide Assemble, Outcomes, ApplyHold, DeclaredSet, ContentId;
    AssembleFields(sys.w, sys.cfg, prev, sys.boot, in', l);
  }

  /** Stored and served snapshots carry the same LOTL state. */
  ghost predicate StoreCarries(s: State) {
    s.active.Some? ==> s.stored.Some? && Carried(s.stored.value) == Carried(s.active.value)
  }

  lemma {:induction false} CycleStoreCarries(sys: System, s: State, was: bool, input: CycleInput, saved: bool)
    requires CollisionFree(sys.w) && StateOk(sys.w, s) && StateBacked(sys, s) && (was ==> StoreCarries(s))
    ensures CycleSettles(sys, s, was, input, saved) ==> StoreCarries(CycleStep(sys, s, input, saved))
  {
    hide RunCycle, WellFormed, SnapshotBacked, CycleChanged, Carried;
    var r := RunCycle(sys.w, sys.cfg, s.active, sys.boot, input);
    if r.Ok? && !NeedsSave(s.active, r.value) {
      FirstIsSaved(s.active, r.value);
      SameDigestSameLotl(sys, s.active.value, input);
    }
  }

  lemma {:induction false} ReconcileCarries(sys: System, s: State, file: DeclaredFile, at: Instant, saved: bool)
    ensures var r := Reconcile(sys, s, file, at, saved);
            && r.active.Some? == s.active.Some?
            && (s.active.Some? ==> Carried(r.active.value) == Carried(s.active.value))
            && (forall was :: (was ==> StoreCarries(s)) && ReconcileSettles(sys, s, was, file, at, saved) ==> StoreCarries(r))
  {
    hide RefreshDeclared, DeclaredSet, ContentId;
    if s.active.Some? && RefreshDeclared(sys.w, s.active.value, file, at).Some? {
      ReconciledFields(sys.w, s.active.value, file, at);
    }
  }

  lemma {:induction false} StepStoreCarries(sys: System, s: State, was: bool, step: Step)
    requires CollisionFree(sys.w) && StateOk(sys.w, s) && StateBacked(sys, s) && (was ==> StoreCarries(s))
    requires Settles(sys, s, was, step)
    ensures StoreCarries(Next(sys, s, step))
  {
    hide CycleStep, Reconcile, WellFormed, SnapshotBacked, AddAnchor, ContentId, CycleSettles, ReconcileSettles;
    match step
    case RefreshStep(file, at, saved, input, cycleSaved) =>
      ReconcileCarries(sys, s, file, at, saved);
      ReconcileOk(sys, s, file, at, saved);
      ReconcileBacked(sys, s, file, at, saved);
      CycleStoreCarries(sys, Reconcile(sys, s, file, at, saved), ReconcileSettles(sys, s, was, file, at, saved), input, cycleSaved);
    case ReconcileStep(file, at, saved) =>
      ReconcileCarries(sys, s, file, at, saved);
    case ApproveStep(fp, at, saved) =>
    case RestartStep =>
  }

  /** When the last save attempted succeeded, the store holds the served signer set,
      pivot progress, pointers and LOTL times too, so a restart loses no rotation. */
  lemma {:induction false} StoreCarriesLotl(sys: System, steps: seq<Step>)
    requires CollisionFree(sys.w) && Settled(sys, steps)
    ensures StoreCarries(After(sys, steps))
    decreases |steps|
  {
    hide Next, StateOk, StateBacked, Carried, Settles, CollisionFree;
    if steps != [] {
      var n := |steps| - 1;
      if Settled(sys, steps[..n]) {
        StoreCarriesLotl(sys, steps[..n]);
      }
      ReachableWellFormed(sys, steps[..n]);
      ChainOfTrust(sys, steps[..n]);
      StepStoreCarries(sys, After(sys, steps[..n]), Settled(sys, steps[..n]), steps[n]);
    }
  }

  // ---- Monotonicity ----

  /** Neither the LOTL sequence nor the pivot progress goes back. */
  predicate NotBehind(a: Option<Snapshot>, b: Option<Snapshot>) {
    a.Some? ==> b.Some? && b.value.lotlSequence >= a.value.lotlSequence && b.value.lotlPivotSeq >= a.value.lotlPivotSeq
  }

  lemma {:induction false} CycleAdvances(w: World, cfg: Config, prev: Snapshot, boot: Bootstrap, in': CycleInput)
    requires prev.lotlSigners != []
    requires RunCycle(w, cfg, Some(prev), boot, in').Ok?
    ensures NotBehind(Some(prev), Some(RunCycle(w, cfg, Some(prev), boot, in').value))
  {
    hide RunCycle, Assemble, VerifyLotl, PointerSet;
    CycleParts(w, cfg, Some(prev), boot, in');
    var l := IngestLotl(w, cfg, Some(prev), boot, in'.now, in'.up).value;
    AssembledCarries(System(w, cfg, boot), Some(prev), in', l);
    match FetchLotl(w, cfg, Some(prev), in'.now, in'.up)
    case Unchanged =>
    case Raw(bytes, digest) =>
      LotlAcceptance(w, in'.up, bytes, Rotation(prev.lotlSigners, prev.lotlPivotSeq), in'.now);
  }

  lemma {:induction false} StepAdvances(sys: System, s: State, step: Step)
    requires StateOk(sys.w, s)
    requires step.RestartStep? ==> StoreCarries(s)
    ensures NotBehind(s.active, Next(sys, s, step).active)
  {
    hide Reconcile, RunCycle, TerritoriesOk, PendingOk, DeclaredOk, ContentId, AddAnchor, NeedsSave;
    match step
    case RefreshStep(file, at, saved, input, cycleSaved) =>
      ReconcileCarries(sys, s, file, at, saved);
      ReconcileOk(sys, s, file, at, saved);
      var r := Reconcile(sys, s, file, at, saved);
      if r.active.Some? && RunCycle(sys.w, sys.cfg, r.active, sys.boot, input).Ok? {
        CycleAdvances(sys.w, sys.cfg, r.active.value, sys.boot, input);
      }
    case ReconcileStep(file, at, saved) =>
      ReconcileCarries(sys, s, file, at, saved);
    case ApproveStep(fp, at, saved) =>
    case RestartStep =>
  }

  ghost predicate Restarts(steps: seq<Step>) {
    exists j :: 0 <= j < |steps| && steps[j].RestartStep?
  }

  /** Along any run, whichever saves failed, as long as no restart lost one, the LOTL
      sequence and the pivot progress never decrease, and something once served
      stays served. */
  lemma {:induction false} RunsAdvance(sys: System, steps: seq<Step>, i: nat)
    requires i <= |steps|
    requires SettledBeforeRestarts(sys, steps)
    requires Restarts(steps) ==> CollisionFree(sys.w)
    ensures NotBehind(After(sys, steps[..i]).active, After(sys, steps).active)
    decreases |steps|
  {
    hide Next, StateOk, StoreCarries, Settled, CollisionFree;
    if i == |steps| {
      assert steps[..i] == steps;
    } else {
      var n := |steps| - 1;
      assert steps[..n][..i] == steps[..i];
      SettledPrefix(sys, steps, n);
      if j :| 0 <= j < n && steps[..n][j].RestartStep? {
        assert steps[j].RestartStep?;
      }
      RunsAdvance(sys, steps[..n], i);
      ReachableWellFormed(sys, steps[..n]);
      if steps[n].RestartStep? {
        StoreCarriesLotl(sys, steps[..n]);
      }
      StepAdvances(sys, After(sys, steps[..n]), steps[n]);
    }
  }

  // ---- Fail-safe ----

  /** A successful cycle never serves an expired LOTL. */
  lemma {:induction false} CycleWithinValidity(w: World, cfg: Config, prev: Option<Snapshot>, boot: Bootstrap, in': CycleInput)
    requires RunCycle(w, cfg, prev, boot, in').Ok?
    ensures var s := RunCycle(w, cfg, prev, boot, in').value;
            s.lotlNextUpdate.Some? ==> in'.now <= s.lotlNextUpdate.value
  {
    hide RunCycle, Assemble, VerifyLotl, PointerSet;
    CycleParts(w, cfg, prev, boot, in');
    var l := IngestLotl(w, cfg, prev, boot, in'.now, in'.up).value;
    AssembledCarries(System(w, cfg, boot), prev, in', l);
    match FetchLotl(w, cfg, prev, in'.now, in'.up)
    case Unchanged =>
    case Raw(bytes, digest) =>
      LotlAcceptance(w, in'.up, bytes, Pinned(w, prev, boot).value, in'.now);
  }

  lemma {:induction false} IncomingProgress(w: World, cfg: Config, ps: seq<ListPointer>, prev: Snapshot, now: Instant, up: Upstream, i: nat)
    requires TerritoriesOk(w, prev.territories)
    requires i < |Expand(cfg.territories, ps)|
    ensures var t := Map(EntryOfOutcome, Outcomes(w, cfg, ps, Some(prev), now, up))[i];
            && t.code == Expand(cfg.territories, ps)[i]
            && (prev.Lookup(t.code).Some? && !prev.Lookup(t.code).value.failed ==>
                  !t.failed && t.tlSequence >= prev.Lookup(t.code).value.tlSequence)
  {
    hide IngestTerritory, TerritoryOk;
    var code := Expand(cfg.territories, ps)[i];
    TerritoryProgress(w, cfg, ps, code, prev.Lookup(code), now, up);
  }

  /** In a successful cycle a territory with data that is still configured keeps
      data, with a sequence at least as large; the entries are exactly the
      configured codes. */
  lemma {:induction false} TerritoriesNeverLost(w: World, cfg: Config, prev: Snapshot, boot: Bootstrap, in': CycleInput)
    requires WellFormed(w, prev)
    requires RunCycle(w, cfg, Some(prev), boot, in').Ok?
    ensures var s := RunCycle(w, cfg, Some(prev), boot, in').value;
            && Map(TerritoryCode, s.territories) == Expand(cfg.territories, s.lotlPointers)
            && forall i :: 0 <= i < |s.territories| ==>
                 var t, p := s.territories[i], prev.Lookup(s.territories[i].code);
                 p.Some? && !p.value.failed ==> !t.failed && t.tlSequence >= p.value.tlSequence
  {
    hide RunCycle, Assemble, IngestLotl, Outcomes, TerritoriesOk, PendingOk, DeclaredOk, ContentId;
    CycleParts(w, cfg, Some(prev), boot, in');
    var l := IngestLotl(w, cfg, Some(prev), boot, in'.now, in'.up).value;
    AssembledCarries(System(w, cfg, boot), Some(prev), in', l);
    AssembledEntries(w, cfg, Some(prev), boot, in', l);
    CycleEntriesOk(w, cfg, l.pointers, Some(prev), in'.now, in'.up);
    var s := RunCycle(w, cfg, Some(prev), boot, in').value;
    var ts := Map(EntryOfOutcome, Outcomes(w, cfg, l.pointers, Some(prev), in'.now, in'.up));
    assert Map(TerritoryCode, s.territories) == Map(TerritoryCode, ts);
    forall i | 0 <= i < |s.territories|
      ensures var t, p := s.territories[i], prev.Lookup(s.territories[i].code);
              p.Some? && !p.value.failed ==> !t.failed && t.tlSequence >= p.value.tlSequence
    {
      IncomingProgress(w, cfg, l.pointers, prev, in'.now, in'.up, i);
    }
  }

  /** A failed cycle keeps the last good snapshot: only the declared anchors (and
      with them the id, its predecessor and the time) may have moved. */
  lemma {:induction false} FailedCycleKeeps(sys: System, s: State, step: Step)
    requires step.RefreshStep?
    requires RunCycle(sys.w, sys.cfg, Reconcile(sys, s, step.file, step.at, step.saved).active, sys.boot, step.input).Err?
    ensures var r := Next(sys, s, step);
            && r == Reconcile(sys, s, step.file, step.at, step.saved)
            && r.active.Some? == s.active.Some?
            && (s.active.Some? ==>
                  var a, b := s.active.value, r.active.value;
                  b == a.(declared := b.declared, id := b.id, prevID := b.prevID, generatedAt := b.generatedAt))
  {
    hide RunCycle, RefreshDeclared, DeclaredSet, ContentId;
    if s.active.Some? && RefreshDeclared(sys.w, s.active.value, step.file, step.at).Some? {
      ReconciledFields(sys.w, s.active.value, step.file, step.at);
    }
  }
}
