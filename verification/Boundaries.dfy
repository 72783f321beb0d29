/** Where the code stops short of a stronger claim: the exact conditions under which
    each claim holds. The runs that break them are in Witnesses. */
module Boundaries {

  import opened Wrappers
  import opened Sequences
  import opened Order
  import opened Trust
  import opened World
  import opened Identity
  import opened Differences
  import opened Declared
  import opened Lotl
  import opened Cycle
  import opened Manager
  import opened Invariant
  import opened Reachable
  import opened StoreRuns
  import opened Progress

  // ---- A failed save is not retried ----

  /** The stored snapshot has the served one's id, LOTL digest and hold windows. */
  ghost predicate Current(s: State) {
    match (s.stored, s.active)
    case (None, None) => true
    case (Some(st), Some(ac)) => st.id == ac.id && st.lotlDigest == ac.lotlDigest && SameWindows(st.pending, ac.pending)
    case _ => false
  }

  /** A cycle with a working store brings a store that is behind up to date exactly
      when the cycle itself has something to save. */
  lemma {:induction false} CycleCatchesUpIff(sys: System, s: State, input: CycleInput)
    requires StateOk(sys.w, s)
    requires RunCycle(sys.w, sys.cfg, s.active, sys.boot, input).Ok?
    ensures Current(CycleStep(sys, s, input, true))
       <==> NeedsSave(s.active, RunCycle(sys.w, sys.cfg, s.active, sys.boot, input).value) || Current(s)
  {
    hide RunCycle, WellFormed, HealthCovered, NeedsSave;
    var next := RunCycle(sys.w, sys.cfg, s.active, sys.boot, input).value;
    if !NeedsSave(s.active, next) {
      FirstIsSaved(s.active, next);
      UnsavedAgrees(sys.w, sys.cfg, s.active.value, sys.boot, input);
    }
  }

  /** The whole refresh: a changed declaration, or a successful cycle with something
      to save, catches up; nothing else does. */
  ghost predicate SavesSomething(sys: System, s: State, step: Step)
    requires step.RefreshStep?
  {
    var mid := Reconcile(sys, s, step.file, step.at, true);
    || mid.active != s.active
    || (RunCycle(sys.w, sys.cfg, mid.active, sys.boot, step.input).Ok?
        && NeedsSave(mid.active, RunCycle(sys.w, sys.cfg, mid.active, sys.boot, step.input).value))
  }

  lemma {:induction false} RefreshCatchesUpIff(sys: System, s: State, step: Step)
    requires StateOk(sys.w, s)
    requires step.RefreshStep? && StepSaves(step)
    ensures Current(Next(sys, s, step)) <==> SavesSomething(sys, s, step) || Current(s)
  {
    hide RunCycle, RefreshDeclared, WellFormed, NeedsSave;
    var mid := Reconcile(sys, s, step.file, step.at, true);
    ReconcileOk(sys, s, step.file, step.at, true);
    ReconcileCurrent(sys, s, step.file, step.at);
    if RunCycle(sys.w, sys.cfg, mid.active, sys.boot, step.input).Ok? {
      CycleCatchesUpIff(sys, mid, step.input);
    }
  }

  lemma {:induction false} ReconcileCurrent(sys: System, s: State, file: DeclaredFile, at: Instant)
    ensures var mid := Reconcile(sys, s, file, at, true);
            Current(mid) <==> mid.active != s.active || Current(s)
  {
    hide RefreshDeclared, ContentId;
    if s.active.Some? && RefreshDeclared(sys.w, s.active.value, file, at).Some? {
      DeclaredMovesId(sys.w, s.active.value, file, at);
    }
  }

  /** Refreshes with a working store, none of which saves anything. */
  ghost predicate Idle(sys: System, steps: seq<Step>, more: seq<Step>)
    decreases |more|
  {
    more == []
    || (var n := |more| - 1;
        && Idle(sys, steps, more[..n])
        && more[n].RefreshStep? && StepSaves(more[n])
        && !SavesSomething(sys, After(sys, steps + more[..n]), more[n]))
  }

  /** Once behind, the store stays behind through any number of refreshes with a
      working store, until one of them saves for a reason of its own. */
  lemma {:induction false} BehindWhileIdle(sys: System, steps: seq<Step>, more: seq<Step>)
    requires !Current(After(sys, steps)) && Idle(sys, steps, more)
    ensures !Current(After(sys, steps + more))
    decreases |more|
  {
    hide Current, SavesSomething, Next, StateOk, After;
    if more == [] {
      assert steps + more == steps;
    } else {
      var n := |more| - 1;
      BehindWhileIdle(sys, steps, more[..n]);
      assert steps + more == (steps + more[..n]) + [more[n]];
      AfterOneMore(sys, steps + more[..n], more[n]);
      ReachableWellFormed(sys, steps + more[..n]);
      RefreshCatchesUpIff(sys, After(sys, steps + more[..n]), more[n]);
    }
  }

  // ---- What the health comparison misses ----

  /** A cycle of a run that is reported as unchanged kept the health of every
      territory that is still configured; the others had no data. */
  lemma {:induction false} QuietCycleKeepsHealth(sys: System, steps: seq<Step>, step: Step, i: nat)
    requires step.RefreshStep?
    requires var base := Reconcile(sys, After(sys, steps), step.file, step.at, step.saved).active;
             var r := RunCycle(sys.w, sys.cfg, base, sys.boot, step.input);
             base.Some? && i < |base.value.territories| && r.Ok? && !CycleChanged(base, r.value)
    ensures var t := Reconcile(sys, After(sys, steps), step.file, step.at, step.saved).active.value.territories[i];
            var next := Next(sys, After(sys, steps), step).active.value;
            && (next.Lookup(t.code).Some? <==> Configured(sys.cfg.territories, next.lotlPointers, t.code))
            && if next.Lookup(t.code).Some? then Unmoved(t, next.Lookup(t.code).value) else t.failed
  {
    hide RunCycle, After, WellFormed, CycleChanged, RefreshDeclared, Unmoved, Configured;
    var s := After(sys, steps);
    ReachableWellFormed(sys, steps);
    ReconcileOk(sys, s, step.file, step.at, step.saved);
    var base := Reconcile(sys, s, step.file, step.at, step.saved).active;
    CycleWellFormed(sys.w, sys.cfg, base, sys.boot, step.input);
    var next := RunCycle(sys.w, sys.cfg, base, sys.boot, step.input).value;
    QuietHealth(sys.w, base.value, next, i);
    TerritoriesNeverLost(sys.w, sys.cfg, base.value, sys.boot, step.input);
    CodesAreConfigured(sys.cfg, next, base.value.territories[i].code);
  }

  /** In every run: a cycle on a served snapshot is reported as a change exactly when the
      id moved, another anchor is held, or some entry is new or moved. */
  lemma {:induction false} MovesReported(sys: System, steps: seq<Step>, step: Step)
    requires step.RefreshStep?
    requires var base := Reconcile(sys, After(sys, steps), step.file, step.at, step.saved).active;
             base.Some? && RunCycle(sys.w, sys.cfg, base, sys.boot, step.input).Ok?
    ensures var base := Reconcile(sys, After(sys, steps), step.file, step.at, step.saved).active.value;
            var next := Next(sys, After(sys, steps), step).active.value;
            CycleChanged(Some(base), next) <==>
              (next.id != base.id || !SameHeld(base.pending, next.pending)
               || exists i :: 0 <= i < |next.territories| && !UnmovedIn(base, next.territories[i]))
  {
    hide RunCycle, After, WellFormed, CycleChanged, RefreshDeclared, UnmovedIn, SameHeld;
    var s := After(sys, steps);
    ReachableWellFormed(sys, steps);
    ReconcileOk(sys, s, step.file, step.at, step.saved);
    var base := Reconcile(sys, s, step.file, step.at, step.saved).active;
    WellFormedTerritories(sys.w, base.value);
    ChangedIff(base.value, RunCycle(sys.w, sys.cfg, base, sys.boot, step.input).value);
  }

  lemma {:induction false} CodesAreConfigured(cfg: Config, s: Snapshot, code: string)
    requires Map(TerritoryCode, s.territories) == Expand(cfg.territories, s.lotlPointers)
    ensures s.Lookup(code).Some? <==> Configured(cfg.territories, s.lotlPointers, code)
  {
    hide Configured, FindTerritory;
    var codes := Expand(cfg.territories, s.lotlPointers);
    ExpandExact(cfg.territories, s.lotlPointers);
    if s.Lookup(code).Some? {
      var j :| 0 <= j < |s.territories| && s.territories[j] == s.Lookup(code).value;
      assert codes[j] == code;
    }
    if code in codes {
      var j :| 0 <= j < |codes| && codes[j] == code;
      assert s.territories[j].code == code;
    }
  }

  lemma {:induction false} QuietHealth(w: World, prev: Snapshot, next: Snapshot, i: nat)
    requires WellFormed(w, prev) && WellFormed(w, next)
    requires !CycleChanged(Some(prev), next)
    requires i < |prev.territories|
    ensures var t := prev.territories[i];
            if next.Lookup(t.code).Some? then Unmoved(t, next.Lookup(t.code).value) else t.failed
  {
    hide WellFormed, SameHealth, FindTerritory, PendingEqual, Unmoved;
    var t := prev.territories[i];
    WellFormedTerritories(w, prev);
    WellFormedTerritories(w, next);
    LookupSelf(w, prev, i);
    if !t.failed {
      var j := EntryTransfers(w, prev, next, i);
      LookupSelf(w, next, j);
    }
    if next.Lookup(t.code).Some? {
      var u := next.Lookup(t.code).value;
      var j :| 0 <= j < |next.territories| && next.territories[j] == u;
      assert HealthKept(prev, next.territories[j]);
      UnmovedIff(t, u);
    }
  }

  // ---- The concatenated identity of a skip ----

  /** Fingerprints and reason codes hold no separator; names may. */
  predicate Coded(s: SkippedService) {
    '/' !in s.fingerprint && '/' !in s.reason
  }

  /** What the comparison can see of a skip: the two names only joined. */
  function SeenOf(s: SkippedService): (string, string, string) {
    (s.tspName + "/" + s.serviceName, s.fingerprint, s.reason)
  }

  /** The comparison key tells two skips apart exactly when certificate, reason or
      the joined names differ. */
  lemma {:induction false} SkippedKeyIff(s: SkippedService, t: SkippedService)
    requires Coded(s) && Coded(t)
    ensures SkippedKey(s) == SkippedKey(t) <==> SeenOf(s) == SeenOf(t)
  {
    var x, y := s.tspName + "/" + s.serviceName, t.tspName + "/" + t.serviceName;
    assert SkippedKey(s) == (x + "/" + s.fingerprint) + "/" + s.reason;
    assert SkippedKey(t) == (y + "/" + t.fingerprint) + "/" + t.reason;
    if SkippedKey(s) == SkippedKey(t) {
      CutAtLastSlash(x + "/" + s.fingerprint, y + "/" + t.fingerprint, s.reason, t.reason);
      CutAtLastSlash(x, y, s.fingerprint, t.fingerprint);
    }
  }

  /** The view a key was joined from. */
  ghost function SeenIn(key: string): (string, string, string) {
    if exists s :: Coded(s) && SkippedKey(s) == key
    then var s :| Coded(s) && SkippedKey(s) == key; SeenOf(s)
    else ("", "", "")
  }

  lemma {:induction false} SeenInKey(s: SkippedService)
    requires Coded(s)
    ensures SeenIn(SkippedKey(s)) == SeenOf(s)
  {
    var key := SkippedKey(s);
    var t :| Coded(t) && SkippedKey(t) == key && SeenIn(key) == SeenOf(t);
    SkippedKeyIff(s, t);
  }

  function JoinSeen(v: (string, string, string)): string {
    v.0 + "/" + v.1 + "/" + v.2
  }

  /** Two skip lists compare equal exactly when they hold the same certificates,
      reasons and joined names, in any order. */
  lemma {:induction false} SkippedEqualIff(a: seq<SkippedService>, b: seq<SkippedService>)
    requires forall s :: s in a || s in b ==> Coded(s)
    ensures SkippedEqual(a, b) <==> multiset(Map(SeenOf, a)) == multiset(Map(SeenOf, b))
  {
    hide SeenIn, SkippedKey, SeenOf;
    SeenOfList(a);
    SeenOfList(b);
    if SkippedEqual(a, b) {
      MapPermutation(SeenIn, Map(SkippedKey, a), Map(SkippedKey, b));
    }
    if multiset(Map(SeenOf, a)) == multiset(Map(SeenOf, b)) {
      MapPermutation(JoinSeen, Map(SeenOf, a), Map(SeenOf, b));
    }
  }

  lemma {:induction false} SeenOfList(a: seq<SkippedService>)
    requires forall s :: s in a ==> Coded(s)
    ensures Map(SeenIn, Map(SkippedKey, a)) == Map(SeenOf, a)
    ensures Map(JoinSeen, Map(SeenOf, a)) == Map(SkippedKey, a)
  {
    hide SeenIn;
    forall i | 0 <= i < |a| ensures SeenIn(SkippedKey(a[i])) == SeenOf(a[i]) && JoinSeen(SeenOf(a[i])) == SkippedKey(a[i]) {
      SeenInKey(a[i]);
    }
  }

  /** The skips of a well-formed entry are coded. */
  lemma {:induction false} SkipsCoded(w: World, skipped: seq<SkippedService>, s: SkippedService)
    requires SlashFreeDigests(w) && SkipsOk(w, skipped) && s in skipped
    ensures Coded(s)
  {
    var i :| 0 <= i < |skipped| && skipped[i] == s;
    assert SkipOk(w, skipped[i]);
    assert '/' !in "invalid-certificate" && '/' !in "no-certificate" && '/' !in "status-conflict";
  }

  /** The comparison, for any two entries that runs of the service have served: their
      skips compare equal exactly when they show the same. */
  lemma {:induction false} ReachableSkipsIff(one: System, a: seq<Step>, i: nat, two: System, b: seq<Step>, j: nat)
    requires one.w == two.w && SlashFreeDigests(one.w)
    requires After(one, a).active.Some? && After(two, b).active.Some?
    requires i < |After(one, a).active.value.territories| && j < |After(two, b).active.value.territories|
    ensures var x, y := After(one, a).active.value.territories[i].skipped, After(two, b).active.value.territories[j].skipped;
            SkippedEqual(x, y) <==> multiset(Map(SeenOf, x)) == multiset(Map(SeenOf, y))
    ensures var x, y := After(one, a).active.value.territories[i], After(two, b).active.value.territories[j];
            Unmoved(x, y) <==>
              (x.carriedOver == y.carriedOver && x.tlSequence == y.tlSequence && x.failed == y.failed && x.failureReason == y.failureReason
               && multiset(Map(SeenOf, x.skipped)) == multiset(Map(SeenOf, y.skipped)))
  {
    hide After, SkippedEqual, JoinedSkips, SeenOf, SkipsOk, Coded, SlashFreeDigests;
    ReachableWellFormed(one, a);
    ReachableWellFormed(two, b);
    var s, t := After(one, a).active.value, After(two, b).active.value;
    var x, y := s.territories[i].skipped, t.territories[j].skipped;
    EntrySkips(one.w, s, i);
    EntrySkips(two.w, t, j);
    forall k | k in x || k in y ensures Coded(k) {
      if k in x {
        SkipsCoded(one.w, x, k);
      } else {
        SkipsCoded(two.w, y, k);
      }
    }
    SkippedEqualIff(x, y);
    JoinedSkipsIff(x, y);
  }

  lemma {:induction false} EntrySkips(w: World, s: Snapshot, i: nat)
    requires WellFormed(w, s) && i < |s.territories|
    ensures SkipsOk(w, s.territories[i].skipped)
  {
    hide ContentId, PendingOk, DeclaredOk, SkipsOk;
    assert TerritoryOk(w, s.territories[i]);
  }

  // ---- What an unreported cycle may have changed ----

  /** In every run: a cycle that reports no change differs from the snapshot it built
      on by nothing but renamed services. */
  lemma {:induction false} UnreportedCycleOnlyRenames(sys: System, steps: seq<Step>, step: Step, entries: seq<DiffEntry>)
    requires step.RefreshStep?
    requires var base := Reconcile(sys, After(sys, steps), step.file, step.at, step.saved).active;
             var r := RunCycle(sys.w, sys.cfg, base, sys.boot, step.input);
             && base.Some? && r.Ok? && !CycleChanged(base, r.value)
             && IsDiff(base, r.value, entries)
    ensures forall e :: e in entries ==> e.kind == Changed && e.detail == "service name changed"
  {
    hide RunCycle, IsDiff, After, ContentId, TerritoriesOk, PendingOk, DeclaredOk, RefreshDeclared;
    var s := After(sys, steps);
    ReachableWellFormed(sys, steps);
    ReconcileOk(sys, s, step.file, step.at, step.saved);
    var base := Reconcile(sys, s, step.file, step.at, step.saved).active;
    CycleWellFormed(sys.w, sys.cfg, base, sys.boot, step.input);
    var next := RunCycle(sys.w, sys.cfg, base, sys.boot, step.input).value;
    WellFormedServes(sys.w, base.value);
    WellFormedServes(sys.w, next);
    NoSilentTrustChange(base.value, next, entries);
  }
}
