/** Hold mode over whole runs: what enters the served set, how long it waited, and
    what becomes of a held anchor. */
module HoldSafety {

  import opened Wrappers
  import opened Sequences
  import opened Trust
  import opened World
  import opened Identity
  import opened Extraction
  import opened Declared
  import opened Lotl
  import opened LotlSource
  import opened National
  import opened Hold
  import opened Cycle
  import opened Manager
  import opened Invariant
  import opened Reachable
  import opened HoldRuns
  import opened StoreRuns

  /** The served list anchors of a state, by key. */
  ghost function Served(s: State): set<AnchorKey> {
    if s.active.None? then {} else ServedKeys(s.active.value.territories)
  }

  /** The pending keys of a state with their FirstSeen. */
  ghost function Waiting(s: State): map<AnchorKey, Instant> {
    if s.active.None? then map[] else PendingSince(s.active.value.pending)
  }

  lemma {:induction false} ReconcileKeepsLists(sys: System, s: State, file: DeclaredFile, at: Instant, saved: bool)
    ensures var r := Reconcile(sys, s, file, at, saved);
            Served(r) == Served(s) && Waiting(r) == Waiting(s) && r.active.Some? == s.active.Some?
  {
    hide RefreshDeclared, ServedKeys, PendingSince, DeclaredSet, ContentId;
    if s.active.Some? && RefreshDeclared(sys.w, s.active.value, file, at).Some? {
      ReconciledFields(sys.w, s.active.value, file, at);
    }
  }

  /** What one cycle does to the two key sets. */
  lemma {:induction false} CycleMoves(sys: System, s: State, input: CycleInput, saved: bool, key: AnchorKey)
    requires StateOk(sys.w, s) && s.active.Some? && sys.cfg.hold
    ensures var r := CycleStep(sys, s, input, saved);
            && (key in Served(r) && key !in Served(s) ==>
                  key in Waiting(s) && sys.cfg.holdAutoRelease > 0 && input.now - Waiting(s)[key] >= sys.cfg.holdAutoRelease)
            && (key in Waiting(r) ==> Waiting(r)[key] == if key in Waiting(s) then Waiting(s)[key] else input.now)
  {
    hide RunCycle, IngestLotl, Incoming, ServedKeys, PendingSince, WellFormed, NeedsSave;
    if RunCycle(sys.w, sys.cfg, s.active, sys.boot, input).Ok? {
      RunHoldDecides(sys.w, sys.cfg, s.active, sys.boot, input);
      var h := ContextOf(sys.cfg, s.active, input.now);
      assert h.since == Waiting(s) && h.served == Served(s) && !h.baseline;
    }
  }

  lemma {:induction false} ApproveMoves(sys: System, s: State, fp: string, at: Instant, saved: bool, key: AnchorKey)
    requires StateOk(sys.w, s)
    ensures var r := Approve(s, fp, at, saved);
            && (key in Served(r) && key !in Served(s) ==> key in Waiting(s) && key.1 == fp)
            && (key in Waiting(r) ==> key in Waiting(s) && Waiting(r)[key] == Waiting(s)[key])
  {
    hide Approved, ServedKeys, TerritoriesOk, ContentId;
    if saved && s.active.Some? && FindPending(s.active.value.pending, fp).Some? {
      var cur := s.active.value;
      var i := FindPending(cur.pending, fp).value;
      ApprovalMoves(sys.w, cur, i, at);
      PendingSinceUnique(cur.pending, i);
      WithoutSince(cur.pending, i, key);
    }
  }

  lemma {:induction false} WithoutAt<T>(s: seq<T>, i: nat, j: nat) returns (m: nat)
    requires i < |s| && j < |s| - 1
    ensures m < |s| && s[m] == Without(s, i)[j]
  {
    m := if j < i then j else j + 1;
  }

  lemma {:induction false} WithoutSince(ps: seq<PendingAnchor>, i: nat, key: AnchorKey)
    requires i < |ps| && Distinct(Map(PendingKey, ps))
    ensures key in PendingSince(Without(ps, i)) ==> key in PendingSince(ps) && PendingSince(ps)[key] == PendingSince(Without(ps, i))[key]
  {
    hide PendingSince, Without;
    var rest := Without(ps, i);
    if key in PendingSince(rest) {
      PendingSinceAt(rest, key);
      var j :| 0 <= j < |rest| && PendingKey(rest[j]) == key && rest[j].firstSeen == PendingSince(rest)[key];
      var m := WithoutAt(ps, i, j);
      PendingSinceUnique(ps, m);
    }
  }

  /** How a key may newly be served by a step. */
  predicate Authorized(cfg: Config, waiting: map<AnchorKey, Instant>, step: Step, key: AnchorKey) {
    && key in waiting
    && match step
       case ApproveStep(fp, _, _) => key.1 == fp
       case RefreshStep(_, _, _, input, _) => cfg.holdAutoRelease > 0 && input.now - waiting[key] >= cfg.holdAutoRelease
       case _ => false
  }

  lemma {:induction false} StepMoves(sys: System, s: State, step: Step, key: AnchorKey)
    requires StateOk(sys.w, s) && s.active.Some? && sys.cfg.hold
    requires step.RestartStep? ==> StoreAgrees(s)
    ensures var r := Next(sys, s, step);
            && (key in Served(r) && key !in Served(s) ==> Authorized(sys.cfg, Waiting(s), step, key))
            && (key in Waiting(r) ==>
                  || (key in Waiting(s) && Waiting(r)[key] == Waiting(s)[key])
                  || (key !in Waiting(s) && step.RefreshStep? && Waiting(r)[key] == step.input.now))
  {
    hide CycleStep, Reconcile, Approve, ServedKeys, PendingSince, WellFormed;
    match step
    case RefreshStep(file, at, saved, input, cycleSaved) =>
      ReconcileKeepsLists(sys, s, file, at, saved);
      ReconcileOk(sys, s, file, at, saved);
      CycleMoves(sys, Reconcile(sys, s, file, at, saved), input, cycleSaved, key);
    case ReconcileStep(file, at, saved) =>
      ReconcileKeepsLists(sys, s, file, at, saved);
    case ApproveStep(fp, at, saved) =>
      ApproveMoves(sys, s, fp, at, saved, key);
    case RestartStep =>
      SameIdSameServed(sys.w, s.stored.value, s.active.value);
      SameWindowsSameSince(s.stored.value.pending, s.active.value.pending);
  }

  /** Hold-mode safety: once something is served, a list anchor newly enters the
      served set only by an approval of its fingerprint, or in a cycle whose
      auto-release window it has waited out. A restart adds nothing, unless the last
      save attempted failed, and it brings an older snapshot back. */
  lemma {:induction false} HoldModeSafety(sys: System, steps: seq<Step>, step: Step, key: AnchorKey)
    requires sys.cfg.hold
    requires After(sys, steps).active.Some?
    requires step.RestartStep? ==> Settled(sys, steps)
    requires key in Served(Next(sys, After(sys, steps), step)) && key !in Served(After(sys, steps))
    ensures Authorized(sys.cfg, Waiting(After(sys, steps)), step, key)
  {
    hide After, Next, Served, Waiting, StateOk, StoreAgrees, Authorized, Settled;
    ReachableWellFormed(sys, steps);
    if step.RestartStep? {
      StoreSimulation(sys, steps);
    }
    StepMoves(sys, After(sys, steps), step, key);
  }

  // ---- Where a served key came from, whichever saves failed ----

  /** The key entered the served set in step i: in a cycle that started from nothing
      served, or with leave. */
  ghost predicate Entered(sys: System, steps: seq<Step>, key: AnchorKey, i: nat) {
    && i < |steps|
    && key in Served(After(sys, steps[..i + 1])) && key !in Served(After(sys, steps[..i]))
    && ((After(sys, steps[..i]).active.None? && steps[i].RefreshStep?)
        || Authorized(sys.cfg, Waiting(After(sys, steps[..i])), steps[i], key))
  }

  ghost function Kept(s: State): set<AnchorKey> {
    if s.stored.None? then {} else ServedKeys(s.stored.value.territories)
  }

  /** What a step leaves in the store was stored or served before, or is served now. */
  lemma {:induction false} StepKeeps(sys: System, s: State, step: Step, key: AnchorKey)
    ensures key in Kept(Next(sys, s, step)) ==> key in Kept(s) || key in Served(s) || key in Served(Next(sys, s, step))
  {
    hide RunCycle, RefreshDeclared, Approved, NeedsSave, ServedKeys;
    if step.RefreshStep? {
      ReconcileKeepsLists(sys, s, step.file, step.at, step.saved);
    } else if step.ReconcileStep? {
      ReconcileKeepsLists(sys, s, step.file, step.at, step.saved);
    }
  }

  /** From nothing served, only a refresh that found nothing stored serves anything new. */
  lemma {:induction false} StepFromNothing(sys: System, s: State, step: Step, key: AnchorKey)
    requires s.active.None? && key in Served(Next(sys, s, step))
    ensures step.RefreshStep? || key in Kept(s)
  {
    hide RunCycle, RefreshDeclared, Approved, NeedsSave, ServedKeys;
  }

  lemma {:induction false} EnteredExtends(sys: System, steps: seq<Step>, key: AnchorKey, i: nat)
    requires steps != [] && Entered(sys, steps[..|steps| - 1], key, i)
    ensures Entered(sys, steps, key, i)
  {
    hide After, Served, Waiting, Authorized;
    var n := |steps| - 1;
    assert steps[..n][..i] == steps[..i] && steps[..n][..i + 1] == steps[..i + 1];
  }

  /** Hold-mode safety of whole runs, with any save outcomes and any restarts: every
      list anchor that is served, or stored to be served, once entered the served set
      in a cycle that started from nothing served, by an approval of its fingerprint,
      or in a cycle whose auto-release window it had waited out. */
  lemma {:induction false} ServedWithLeave(sys: System, steps: seq<Step>, key: AnchorKey) returns (i: nat)
    requires sys.cfg.hold
    requires key in Served(After(sys, steps)) || key in Kept(After(sys, steps))
    ensures Entered(sys, steps, key, i)
    decreases |steps|
  {
    hide Served, Kept, Waiting, StateOk, Next, Authorized;
    i := 0;
    if steps == [] {
      NothingAtFirst(sys, key);
      assert false;
    } else {
      var n := |steps| - 1;
      var s := After(sys, steps[..n]);
      StepKeeps(sys, s, steps[n], key);
      if key in Served(s) || key in Kept(s) {
        i := ServedWithLeave(sys, steps[..n], key);
        EnteredExtends(sys, steps, key, i);
      } else {
        i := n;
        assert steps[..n + 1] == steps;
        ReachableWellFormed(sys, steps[..n]);
        if s.active.None? {
          StepFromNothing(sys, s, steps[n], key);
        } else {
          if steps[n].RestartStep? {
            RestartServesKept(sys, s, key);
            assert false;
          }
          StepMoves(sys, s, steps[n], key);
        }
      }
    }
  }

  lemma {:induction false} RestartServesKept(sys: System, s: State, key: AnchorKey)
    ensures key in Served(Next(sys, s, RestartStep)) <==> key in Kept(s)
    ensures key in Kept(Next(sys, s, RestartStep)) <==> key in Kept(s)
  {
  }

  lemma {:induction false} NothingAtFirst(sys: System, key: AnchorKey)
    ensures key !in Served(After(sys, [])) && key !in Kept(After(sys, []))
  {
  }

  // ---- FirstSeen is the start of the unbroken stay ----

  /** The key entered pending in step i, at a cycle run at `since`, and has been
      pending with that FirstSeen ever since. */
  ghost predicate StayedSince(sys: System, steps: seq<Step>, key: AnchorKey, i: nat, since: Instant) {
    && i < |steps|
    && steps[i].RefreshStep? && steps[i].input.now == since
    && key !in Waiting(After(sys, steps[..i]))
    && (forall j :: i < j <= |steps| ==> key in Waiting(After(sys, steps[..j])) && Waiting(After(sys, steps[..j]))[key] == since)
  }

  lemma {:induction false} StayExtends(sys: System, steps: seq<Step>, key: AnchorKey, i: nat, since: Instant)
    requires steps != [] && StayedSince(sys, steps[..|steps| - 1], key, i, since)
    requires key in Waiting(After(sys, steps)) && Waiting(After(sys, steps))[key] == since
    ensures StayedSince(sys, steps, key, i, since)
  {
    hide Waiting, After;
    var n := |steps| - 1;
    assert steps[..n][..i] == steps[..i];
    forall j | i < j <= |steps| ensures key in Waiting(After(sys, steps[..j])) && Waiting(After(sys, steps[..j]))[key] == since {
      if j <= n {
        assert steps[..n][..j] == steps[..j];
      } else {
        assert steps[..j] == steps;
      }
    }
  }

  /** Nothing is stored before something is served. */
  lemma {:induction false} ServedBeforeStored(sys: System, steps: seq<Step>)
    ensures After(sys, steps).active.None? ==> After(sys, steps).stored.None?
    decreases |steps|
  {
    hide RunCycle, RefreshDeclared, NeedsSave, Approved;
    if steps != [] {
      ServedBeforeStored(sys, steps[..|steps| - 1]);
    }
  }

  lemma {:induction false} FirstStep(sys: System, s: State, step: Step, key: AnchorKey)
    requires StateOk(sys.w, s) && s.stored.None? && s.active.None?
    ensures key !in Waiting(Next(sys, s, step))
  {
    hide RunCycle, RefreshDeclared, Approved, WellFormed, NeedsSave;
    if step.RefreshStep? && RunCycle(sys.w, sys.cfg, None, sys.boot, step.input).Ok? {
      FirstCycleHoldsNothing(sys, step.input, key);
    }
  }

  /** The first snapshot is the baseline: nothing waits. */
  lemma {:induction false} FirstCycleHoldsNothing(sys: System, input: CycleInput, key: AnchorKey)
    requires RunCycle(sys.w, sys.cfg, None, sys.boot, input).Ok?
    ensures key !in PendingSince(RunCycle(sys.w, sys.cfg, None, sys.boot, input).value.pending)
  {
    hide RunCycle, IngestLotl, Incoming, ServedKeys, PendingSince;
    RunHoldDecides(sys.w, sys.cfg, None, sys.boot, input);
  }

  /** FirstSeen of a pending anchor is the time of the cycle that started its
      current unbroken stay in Pending, whichever saves failed, as long as no
      restart lost one. */
  lemma {:induction false} FirstSeenIsStart(sys: System, steps: seq<Step>, key: AnchorKey) returns (i: nat)
    requires sys.cfg.hold && SettledBeforeRestarts(sys, steps)
    requires key in Waiting(After(sys, steps))
    ensures StayedSince(sys, steps, key, i, Waiting(After(sys, steps))[key])
    decreases |steps|
  {
    hide Waiting, StateOk, StoreAgrees, Next, Settled;
    i := 0;
    if steps == [] {
      NothingWaitsAtFirst(sys, key);
      assert false;
    } else {
      var n := |steps| - 1;
      var s := After(sys, steps[..n]);
      ReachableWellFormed(sys, steps[..n]);
      if steps[n].RestartStep? {
        StoreSimulation(sys, steps[..n]);
      }
      if s.active.None? {
        ServedBeforeStored(sys, steps[..n]);
        FirstStep(sys, s, steps[n], key);
        assert false;
      } else {
        StepMoves(sys, s, steps[n], key);
        if key in Waiting(s) {
          SettledPrefix(sys, steps, n);
          i := FirstSeenIsStart(sys, steps[..n], key);
          StayExtends(sys, steps, key, i, Waiting(After(sys, steps))[key]);
        } else {
          i := n;
          assert steps[..|steps|] == steps;
        }
      }
    }
  }

  lemma {:induction false} NothingWaitsAtFirst(sys: System, key: AnchorKey)
    ensures key !in Waiting(After(sys, []))
  {
  }

  // ---- What becomes of a held anchor ----

  /** In a successful hold-mode cycle a held anchor is still there, pending or
      released, exactly when its territory was downloaded afresh and still lists it.
      A digest skip or a carry-over reuses the served anchors only, so the held
      anchor silently leaves Pending. */
  lemma {:induction false} HeldSurvivesIff(w: World, cfg: Config, prev: Snapshot, boot: Bootstrap, in': CycleInput, key: AnchorKey)
    requires WellFormed(w, prev) && cfg.hold
    requires RunCycle(w, cfg, Some(prev), boot, in').Ok?
    requires key in PendingSince(prev.pending)
    ensures IngestLotl(w, cfg, Some(prev), boot, in'.now, in'.up).Ok?
    ensures var next := RunCycle(w, cfg, Some(prev), boot, in').value;
            var ps := IngestLotl(w, cfg, Some(prev), boot, in'.now, in'.up).value.pointers;
            var o := OutcomeOf(w, cfg, ps, Some(prev), in'.now, in'.up)(key.0);
            (key in PendingSince(next.pending) || key in ServedKeys(next.territories))
            <==> Configured(cfg.territories, ps, key.0) && o.Fresh? && FindAnchor(o.entry.anchors, key.1).Some?
  {
    hide RunCycle, IngestLotl, ServedKeys, PendingSince, WellFormed, OutcomeOf, Incoming;
    RunHoldDecides(w, cfg, Some(prev), boot, in');
    var l := IngestLotl(w, cfg, Some(prev), boot, in'.now, in'.up).value;
    IncomingIff(w, cfg, prev, in', l, key);
  }

  lemma {:induction false} PendingNotServed(w: World, prev: Snapshot, key: AnchorKey)
    requires WellFormed(w, prev) && key in PendingSince(prev.pending)
    ensures key !in ServedKeys(prev.territories)
  {
    PendingSinceAt(prev.pending, key);
  }

  lemma {:induction false} EntryKey(ts: seq<Territory>, i: nat, key: AnchorKey)
    requires i < |ts| && ts[i].code == key.0
    requires Distinct(Map(TerritoryCode, ts))
    ensures key in ServedKeys(ts) <==> FindAnchor(ts[i].anchors, key.1).Some?
  {
    ServedKeysAt(ts, key);
    if key in ServedKeys(ts) {
      var m, j :| 0 <= m < |ts| && 0 <= j < |ts[m].anchors| && ts[m].code == key.0 && ts[m].anchors[j].fingerprint == key.1;
      CodeDeterminesEntry(ts, ts[i], ts[m]);
    }
  }

  lemma {:induction false} IncomingIff(w: World, cfg: Config, prev: Snapshot, in': CycleInput, l: LotlResult, key: AnchorKey)
    requires WellFormed(w, prev) && key in PendingSince(prev.pending)
    ensures var o := OutcomeOf(w, cfg, l.pointers, Some(prev), in'.now, in'.up)(key.0);
            key in ServedKeys(Incoming(w, cfg, Some(prev), in', l))
            <==> Configured(cfg.territories, l.pointers, key.0) && o.Fresh? && FindAnchor(o.entry.anchors, key.1).Some?
  {
    hide OutcomeOf, PendingSince, ServedKeys;
    var codes := Expand(cfg.territories, l.pointers);
    var ts := Incoming(w, cfg, Some(prev), in', l);
    var f := OutcomeOf(w, cfg, l.pointers, Some(prev), in'.now, in'.up);
    ExpandExact(cfg.territories, l.pointers);
    CycleEntriesOk(w, cfg, l.pointers, Some(prev), in'.now, in'.up);
    if key.0 in codes {
      var i :| 0 <= i < |codes| && codes[i] == key.0;
      assert ts[i] == f(codes[i]).entry;
      assert Map(TerritoryCode, ts)[i] == codes[i];
      EntryKey(ts, i, key);
      if FindAnchor(ts[i].anchors, key.1).Some? && !f(key.0).Fresh? {
        PendingNotServed(w, prev, key);
        ReusedHasNoHeld(w, cfg, l.pointers, prev, in'.now, in'.up, key);
        assert false;
      }
    } else {
      ServedKeysAt(ts, key);
    }
  }

  /** Without a download only previously served anchors come in. */
  lemma {:induction false} ReusedHasNoHeld(w: World, cfg: Config, ps: seq<ListPointer>, prev: Snapshot, now: Instant, up: Upstream, key: AnchorKey)
    requires !OutcomeOf(w, cfg, ps, Some(prev), now, up)(key.0).Fresh?
    requires FindAnchor(OutcomeOf(w, cfg, ps, Some(prev), now, up)(key.0).entry.anchors, key.1).Some?
    ensures key in ServedKeys(prev.territories)
  {
    hide FetchTerritory, ServedKeys;
    var held := prev.Lookup(key.0);
    var o := IngestTerritory(w, cfg, ps, key.0, held, now, up);
    NotFreshReuses(w, cfg, ps, key.0, held, now, up);
    if o.FailedEntry? {
      assert false;
    } else {
      var t := held.value;
      var i :| 0 <= i < |prev.territories| && prev.territories[i] == t;
      var j := FindAnchor(t.anchors, key.1).value;
      ServedKeysAt(prev.territories, key);
      assert prev.territories[i].anchors[j].fingerprint == key.1;
    }
  }

  lemma {:induction false} NotFreshReuses(w: World, cfg: Config, ps: seq<ListPointer>, code: string, prev: Option<Territory>, now: Instant, up: Upstream)
    requires !IngestTerritory(w, cfg, ps, code, prev, now, up).Fresh?
    ensures var o := IngestTerritory(w, cfg, ps, code, prev, now, up);
            if o.FailedEntry? then o.entry.anchors == [] else prev.Some? && o.entry.anchors == prev.value.anchors
  {
  }
}
