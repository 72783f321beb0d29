/** Every state a run reaches is well formed, whatever the upstream, the operator
    and the store do. */
module Reachable {

  import opened Wrappers
  import opened Sequences
  import opened Order
  import opened Trust
  import opened World
  import opened Identity
  import opened Filter
  import opened Differences
  import opened DiffOrder
  import opened Extraction
  import opened Declared
  import opened Hold
  import opened Cycle
  import opened Manager
  import opened Invariant

  // ---- Declared reconcile ----

  lemma {:induction false} ReconciledFields(w: World, prev: Snapshot, file: DeclaredFile, at: Instant)
    requires RefreshDeclared(w, prev, file, at).Some?
    ensures var s := RefreshDeclared(w, prev, file, at).value;
            && s == prev.(declared := DeclaredSet(w, Some(prev), file, at), id := s.id, generatedAt := at, prevID := Some(prev.id))
            && s.id == ContentId(s) && s.id != prev.id
  {
    hide DeclaredSet;
    IdIgnoresId(prev.(declared := DeclaredSet(w, Some(prev), file, at)));
  }

  lemma {:induction false} ReconciledWellFormed(w: World, prev: Snapshot, file: DeclaredFile, at: Instant)
    requires WellFormed(w, prev)
    requires RefreshDeclared(w, prev, file, at).Some?
    ensures WellFormed(w, RefreshDeclared(w, prev, file, at).value)
  {
    hide RefreshDeclared, DeclaredSet, ContentId;
    ReconciledFields(w, prev, file, at);
    DeclaredSetOk(w, Some(prev), file, at);
  }

  // ---- Approval ----

  lemma {:induction false} WithAnchorOk(w: World, t: Territory, a: Anchor)
    requires TerritoryOk(w, t) && !t.failed
    requires a.territory == t.code && ListAnchorOk(w, a)
    requires forall i :: 0 <= i < |t.anchors| ==> t.anchors[i].fingerprint != a.fingerprint
    ensures TerritoryOk(w, WithAnchor(t, a))
  {
    hide SortBy, ListAnchorOk;
    var all := t.anchors + [a];
    var r := SortBy(CandidateLe, all);
    assert Map(AnchorFingerprint, all) == Map(AnchorFingerprint, t.anchors) + [a.fingerprint];
    assert a.fingerprint !in Map(AnchorFingerprint, t.anchors);
    MapPermutation(AnchorFingerprint, all, r);
    DistinctPermutation(Map(AnchorFingerprint, all), Map(AnchorFingerprint, r));
    SortKeepsElements(CandidateLe, all);
    forall i | 0 <= i < |r| ensures r[i].territory == t.code && ListAnchorOk(w, r[i]) {
      assert r[i] in all;
      var j :| 0 <= j < |all| && all[j] == r[i];
      if j < |t.anchors| {
        assert t.anchors[j] == r[i];
      }
    }
  }

  lemma {:induction false} WithAnchorKeys(t: Territory, a: Anchor)
    ensures KeysOf(t.code, WithAnchor(t, a).anchors) == KeysOf(t.code, t.anchors) + {(t.code, a.fingerprint)}
  {
    var all := t.anchors + [a];
    var r := SortBy(CandidateLe, all);
    SortKeepsElements(CandidateLe, all);
    forall key | key in KeysOf(t.code, r) ensures key in KeysOf(t.code, t.anchors) + {(t.code, a.fingerprint)} {
      var i :| 0 <= i < |r| && key == (t.code, r[i].fingerprint);
      assert r[i] in all;
      var j :| 0 <= j < |all| && all[j] == r[i];
      if j < |t.anchors| {
        assert t.anchors[j] == r[i];
      }
    }
    forall key | key in KeysOf(t.code, t.anchors) + {(t.code, a.fingerprint)} ensures key in KeysOf(t.code, r) {
      var x := if key in KeysOf(t.code, t.anchors)
               then (var i :| 0 <= i < |t.anchors| && key == (t.code, t.anchors[i].fingerprint); t.anchors[i])
               else a;
      assert x in all;
      var j :| 0 <= j < |r| && r[j] == x;
    }
  }

  lemma {:induction false} ServedReplace(ts: seq<Territory>, k: nat, t: Territory)
    requires k < |ts| && t.code == ts[k].code
    requires KeysOf(ts[k].code, ts[k].anchors) <= KeysOf(t.code, t.anchors)
    ensures ServedKeys(ts[k := t]) == ServedKeys(ts) + KeysOf(t.code, t.anchors)
    decreases |ts|
  {
    var n := |ts| - 1;
    if k < n {
      ServedReplace(ts[..n], k, t);
      assert ts[k := t][..n] == ts[..n][k := t];
    } else {
      assert ts[k := t][..n] == ts[..n];
    }
  }

  /** The territory an approval lands in: present, non-failed, without the anchor. */
  lemma {:induction false} ApprovalTarget(w: World, cur: Snapshot, i: nat) returns (k: nat)
    requires WellFormed(w, cur) && i < |cur.pending|
    ensures FindCode(cur.territories, cur.pending[i].anchor.territory) == Some(k)
    ensures k < |cur.territories| && !cur.territories[k].failed && cur.territories[k].code == cur.pending[i].anchor.territory
    ensures forall j :: 0 <= j < |cur.territories[k].anchors| ==>
              cur.territories[k].anchors[j].fingerprint != cur.pending[i].anchor.fingerprint
  {
    var ts, a := cur.territories, cur.pending[i].anchor;
    assert Present(ts, a.territory);
    var m :| 0 <= m < |ts| && ts[m].code == a.territory && !ts[m].failed;
    k := FindCode(ts, a.territory).value;
    CodeDeterminesEntry(ts, ts[k], ts[m]);
    forall j | 0 <= j < |ts[k].anchors| ensures ts[k].anchors[j].fingerprint != a.fingerprint {
      if ts[k].anchors[j].fingerprint == a.fingerprint {
        ServedKeysAt(ts, PendingKey(cur.pending[i]));
        assert false;
      }
    }
  }

  lemma {:induction false} ApprovedShape(cur: Snapshot, i: nat, at: Instant)
    requires i < |cur.pending|
    ensures var s := Approved(cur, i, at);
            && s == cur.(pending := Without(cur.pending, i), territories := AddAnchor(cur.territories, cur.pending[i].anchor),
                         generatedAt := at, prevID := Some(cur.id), id := s.id)
            && s.id == ContentId(s)
  {
    hide AddAnchor;
    IdIgnoresId(cur.(pending := Without(cur.pending, i), territories := AddAnchor(cur.territories, cur.pending[i].anchor),
                     generatedAt := at, prevID := Some(cur.id)));
  }

  /** The territories after an approval: one list gained the anchor, no entry was
      created, no other field moved. */
  lemma {:induction false} ApprovalLands(w: World, cur: Snapshot, i: nat)
    requires WellFormed(w, cur) && i < |cur.pending|
    ensures var ts, r := cur.territories, AddAnchor(cur.territories, cur.pending[i].anchor);
            && |r| == |ts|
            && (forall j :: 0 <= j < |r| ==> r[j] == ts[j].(anchors := r[j].anchors))
            && (forall j :: 0 <= j < |r| ==> TerritoryOk(w, r[j]))
            && ServedKeys(r) == ServedKeys(ts) + {PendingKey(cur.pending[i])}
  {
    hide ContentId, SortBy, ServedKeys, DeclaredOk;
    var ts, a := cur.territories, cur.pending[i].anchor;
    var k := ApprovalTarget(w, cur, i);
    var t := WithAnchor(ts[k], a);
    assert AddAnchor(ts, a) == ts[k := t];
    assert TerritoryOk(w, ts[k]);
    WithAnchorOk(w, ts[k], a);
    WithAnchorKeys(ts[k], a);
    ServedReplace(ts, k, t);
    ServedIncludes(ts, k);
  }

  /** What an approval does: one key moves from pending to served. */
  lemma {:induction false} ApprovalMoves(w: World, cur: Snapshot, i: nat, at: Instant)
    requires WellFormed(w, cur) && i < |cur.pending|
    ensures var s, key := Approved(cur, i, at), PendingKey(cur.pending[i]);
            && s == cur.(pending := Without(cur.pending, i), territories := s.territories, generatedAt := at,
                         prevID := Some(cur.id), id := s.id)
            && s.id == ContentId(s)
            && ServedKeys(s.territories) == ServedKeys(cur.territories) + {key}
            && TerritoriesOk(w, s.territories)
            && |s.territories| == |cur.territories|
            && (forall j :: 0 <= j < |s.territories| ==>
                  s.territories[j] == cur.territories[j].(anchors := s.territories[j].anchors))
  {
    hide Approved, AddAnchor, ContentId, ServedKeys;
    ApprovedShape(cur, i, at);
    ApprovalLands(w, cur, i);
    assert Map(TerritoryCode, Approved(cur, i, at).territories) == Map(TerritoryCode, cur.territories);
  }

  lemma {:induction false} ServedIncludes(ts: seq<Territory>, k: nat)
    requires k < |ts|
    ensures KeysOf(ts[k].code, ts[k].anchors) <= ServedKeys(ts)
  {
    forall key | key in KeysOf(ts[k].code, ts[k].anchors) ensures key in ServedKeys(ts) {
      var j :| 0 <= j < |ts[k].anchors| && key == (ts[k].code, ts[k].anchors[j].fingerprint);
      ServedKeysAt(ts, key);
    }
  }

  lemma {:induction false} WithoutDistinct<T>(s: seq<T>, i: nat)
    requires i < |s| && Distinct(s)
    ensures Distinct(Without(s, i)) && s[i] !in Without(s, i)
  {
  }

  lemma {:induction false} PresentKept(a: seq<Territory>, b: seq<Territory>, code: string)
    requires |a| == |b|
    requires forall j :: 0 <= j < |b| ==> b[j] == a[j].(anchors := b[j].anchors)
    requires Present(a, code)
    ensures Present(b, code)
  {
    var j :| 0 <= j < |a| && a[j].code == code && !a[j].failed;
    assert b[j].code == code && !b[j].failed;
  }

  lemma {:induction false} RemainingPendingOk(w: World, cur: Snapshot, i: nat, ts: seq<Territory>)
    requires PendingOk(w, cur.territories, cur.pending) && i < |cur.pending|
    requires ServedKeys(ts) == ServedKeys(cur.territories) + {PendingKey(cur.pending[i])}
    requires |ts| == |cur.territories|
    requires forall j :: 0 <= j < |ts| ==> ts[j] == cur.territories[j].(anchors := ts[j].anchors)
    ensures PendingOk(w, ts, Without(cur.pending, i))
  {
    hide ServedKeys;
    var ps := Without(cur.pending, i);
    var ks := Map(PendingKey, cur.pending);
    assert Map(PendingKey, ps) == Without(ks, i);
    WithoutDistinct(ks, i);
    forall j | 0 <= j < |ps|
      ensures ListAnchorOk(w, ps[j].anchor) && PendingKey(ps[j]) !in ServedKeys(ts) && Present(ts, ps[j].anchor.territory)
    {
      var m := if j < i then j else j + 1;
      assert ps[j] == cur.pending[m];
      assert ks[m] != ks[i];
      PresentKept(cur.territories, ts, ps[j].anchor.territory);
    }
  }

  lemma {:induction false} ApprovedWellFormed(w: World, cur: Snapshot, i: nat, at: Instant)
    requires WellFormed(w, cur) && i < |cur.pending|
    ensures WellFormed(w, Approved(cur, i, at))
  {
    hide Approved, ContentId, PendingOk, TerritoriesOk, DeclaredOk, ServedKeys;
    ApprovalMoves(w, cur, i, at);
    RemainingPendingOk(w, cur, i, Approved(cur, i, at).territories);
  }

  // ---- Runs ----

  ghost predicate StateOk(w: World, s: State) {
    && (s.active.Some? ==> WellFormed(w, s.active.value))
    && (s.stored.Some? ==> WellFormed(w, s.stored.value))
  }

  lemma {:induction false} ReconcileOk(sys: System, s: State, file: DeclaredFile, at: Instant, saved: bool)
    requires StateOk(sys.w, s)
    ensures StateOk(sys.w, Reconcile(sys, s, file, at, saved))
  {
    hide RefreshDeclared, WellFormed;
    if s.active.Some? && RefreshDeclared(sys.w, s.active.value, file, at).Some? {
      ReconciledWellFormed(sys.w, s.active.value, file, at);
    }
  }

  lemma {:induction false} CycleStepOk(sys: System, s: State, input: CycleInput, saved: bool)
    requires StateOk(sys.w, s)
    ensures StateOk(sys.w, CycleStep(sys, s, input, saved))
  {
    hide RunCycle, WellFormed, NeedsSave;
    if RunCycle(sys.w, sys.cfg, s.active, sys.boot, input).Ok? {
      CycleWellFormed(sys.w, sys.cfg, s.active, sys.boot, input);
    }
  }

  lemma {:induction false} StepOk(sys: System, s: State, step: Step)
    requires StateOk(sys.w, s)
    ensures StateOk(sys.w, Next(sys, s, step))
  {
    hide CycleStep, Reconcile, WellFormed, Approved;
    match step
    case RefreshStep(file, at, saved, input, cycleSaved) =>
      ReconcileOk(sys, s, file, at, saved);
      CycleStepOk(sys, Reconcile(sys, s, file, at, saved), input, cycleSaved);
    case ReconcileStep(file, at, saved) =>
      ReconcileOk(sys, s, file, at, saved);
    case ApproveStep(fp, at, saved) =>
      if s.active.Some? && FindPending(s.active.value.pending, fp).Some? {
        ApprovedWellFormed(sys.w, s.active.value, FindPending(s.active.value.pending, fp).value, at);
      }
    case RestartStep =>
  }

  /** The reachable-state invariant: after any run from an empty store, with any
      upstream, operator input and save outcomes, what is served and what is
      stored are well formed. */
  lemma {:induction false} ReachableWellFormed(sys: System, steps: seq<Step>)
    ensures StateOk(sys.w, After(sys, steps))
    decreases |steps|
  {
    hide WellFormed, Next;
    if steps != [] {
      ReachableWellFormed(sys, steps[..|steps| - 1]);
      StepOk(sys, After(sys, steps[..|steps| - 1]), steps[|steps| - 1]);
    }
  }

  /** ETag soundness over runs: two snapshots served in any two runs of the service
      under one id answer every query with the same certificates. */
  lemma {:induction false} ReachableEtagSound(one: System, a: seq<Step>, two: System, b: seq<Step>, q: Query)
    requires one.w == two.w && CollisionFree(one.w)
    requires After(one, a).active.Some? && After(two, b).active.Some?
    requires After(one, a).active.value.id == After(two, b).active.value.id
    ensures var x, y := After(one, a).active.value, After(two, b).active.value;
            && Bundle(x, q).Ok? == Bundle(y, q).Ok?
            && (Bundle(x, q).Ok? ==>
                  multiset(Map(AnchorCert, Bundle(x, q).value)) == multiset(Map(AnchorCert, Bundle(y, q).value)))
  {
    hide WellFormed, Servable, After;
    ReachableWellFormed(one, a);
    ReachableWellFormed(two, b);
    WellFormedServes(one.w, After(one, a).active.value);
    WellFormedServes(two.w, After(two, b).active.value);
    EtagSound(one.w, After(one, a).active.value, After(two, b).active.value, q);
  }

  /** Diffs in runs are exact: between any two snapshots that runs of the service have
      served, and from nothing to the first. */
  lemma {:induction false} ReachableDiffExact(one: System, a: seq<Step>, two: System, b: seq<Step>, entries: seq<DiffEntry>)
    requires After(two, b).active.Some?
    requires IsDiff(After(one, a).active, After(two, b).active.value, entries)
    ensures var before, after := AnchorIndex(After(one, a).active).Keys, AnchorIndex(After(two, b).active).Keys;
            var added, removed := KeysOfKind(entries, Added), KeysOfKind(entries, Removed);
            after == before - removed + added && removed <= before && added !! before
    ensures Distinct(Map(KeyOf, entries))
    ensures forall e :: e in entries <==> exists k :: Tells(After(one, a).active, After(two, b).active.value, k, e)
    ensures forall i, j :: 0 <= i < j < |entries| ==> EntryBefore(entries[i], entries[j])
  {
    hide After, IsDiff, WellFormed, Identifiable, Servable, Tells, EntryBefore, KeyOf, KeysOfKind, AnchorIndex;
    ReachableWellFormed(one, a);
    ReachableWellFormed(two, b);
    if After(one, a).active.Some? {
      WellFormedServes(one.w, After(one, a).active.value);
    }
    WellFormedServes(two.w, After(two, b).active.value);
    DiffExact(After(one, a).active, After(two, b).active.value, entries);
    DiffMeans(After(one, a).active, After(two, b).active.value, entries);
  }
}
