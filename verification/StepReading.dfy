/** What a reconcile of the declared anchors and an approval come to, field by field. */
module StepReading {

  import opened Wrappers
  import opened Order
  import opened Trust
  import opened World
  import opened Identity
  import opened Extraction
  import opened ExtractionSpec
  import opened ListReading
  import opened Declared
  import opened Cycle
  import opened Manager
  import opened Invariant
  import opened Reachable
  import opened CycleReading

  // ---- Reconcile ----

  /** Everything of a snapshot that is neither its id, its times nor its anchors. */
  ghost predicate SameLotl(prev: Snapshot, s: Snapshot) {
    && s.lotlSequence == prev.lotlSequence && s.lotlIssueTime == prev.lotlIssueTime && s.lotlNextUpdate == prev.lotlNextUpdate
    && s.lotlSigners == prev.lotlSigners && s.lotlPivotSeq == prev.lotlPivotSeq && s.lotlDigest == prev.lotlDigest
    && s.lotlPointers == prev.lotlPointers && s.advertisedOJ == prev.advertisedOJ
    && s.bootstrapOJRef == prev.bootstrapOJRef && s.bootstrapVersion == prev.bootstrapVersion
  }

  /** A reconcile with the declared anchors: nothing when they agree with the served ones,
      else the served snapshot with those anchors, a new id and its own time. */
  ghost predicate Reconciled(prev: Snapshot, declared: seq<Anchor>, at: Instant, r: Option<Snapshot>) {
    match r
    case None => SameAnchors(prev.declared, declared)
    case Some(s) =>
      && !SameAnchors(prev.declared, declared)
      && s.declared == declared && s.territories == prev.territories && s.pending == prev.pending && SameLotl(prev, s)
      && s.generatedAt == at && s.prevID == Some(prev.id) && s.id == ContentId(s)
  }

  lemma {:induction false} DeclaredDecides(w: World, prev: Snapshot, declared: seq<Anchor>)
    requires WellFormed(w, prev) && DeclaredOk(w, declared)
    ensures ContentId(prev.(declared := declared)) == prev.id <==> SameAnchors(prev.declared, declared)
  {
    hide ContentId, TerritoriesOk, PendingOk, SameAnchors, SameLists, ListsWithin;
    var next := prev.(declared := declared);
    WellFormedServes(w, prev);
    assert Identifiable(next);
    SameIdIffSameFields(next, prev);
    ListsThemselves(prev.territories);
    AnchorsSwap(prev.declared, declared);
  }

  lemma {:induction false} AnchorsSwap(xs: seq<Anchor>, ys: seq<Anchor>)
    ensures SameAnchors(xs, ys) <==> SameAnchors(ys, xs)
  {
  }

  lemma {:induction false} ListsThemselves(ts: seq<Territory>)
    ensures SameLists(ts, ts)
  {
    forall t | t in ts && !t.failed ensures exists u :: u in ts && !u.failed && SameList(t, u) {
      forall x | x in t.anchors ensures exists y :: y in t.anchors && SameAnchor(x, y) {
        assert SameAnchor(x, x);
      }
      assert SameList(t, t);
    }
  }

  lemma {:induction false} ReconcileExact(w: World, prev: Snapshot, file: DeclaredFile, at: Instant)
    requires WellFormed(w, prev)
    ensures exists declared :: DeclaredMean(w, Some(prev), file, at, declared) && Reconciled(prev, declared, at, RefreshDeclared(w, prev, file, at))
  {
    hide ContentId, WellFormed, DeclaredOk, SameAnchors, DeclaredSet;
    var declared := DeclaredSet(w, Some(prev), file, at);
    assert DeclaredMean(w, Some(prev), file, at, declared) by {
      DeclaredTaken(w, prev, file, at);
    }
    WellDeclaredBefore(w, prev);
    DeclaredSetOk(w, Some(prev), file, at);
    DeclaredDecides(w, prev, declared);
    if RefreshDeclared(w, prev, file, at).Some? {
      ReconciledFields(w, prev, file, at);
    }
    assert Reconciled(prev, declared, at, RefreshDeclared(w, prev, file, at));
  }

  lemma {:induction false} DeclaredTaken(w: World, prev: Snapshot, file: DeclaredFile, at: Instant)
    ensures DeclaredMean(w, Some(prev), file, at, DeclaredSet(w, Some(prev), file, at))
  {
    hide LoadDeclared;
  }

  lemma {:induction false} WellDeclaredBefore(w: World, prev: Snapshot)
    requires WellFormed(w, prev)
    ensures DeclaredOk(w, prev.declared)
  {
  }

  // ---- Approval ----

  lemma {:induction false} FirstPending(ps: seq<PendingAnchor>, fp: string)
    ensures FindPending(ps, fp).Some? ==> forall j :: 0 <= j < FindPending(ps, fp).value ==> ps[j].anchor.fingerprint != fp
    decreases |ps|
  {
    if ps != [] && ps[0].anchor.fingerprint != fp {
      FirstPending(ps[1..], fp);
      assert forall j :: 0 < j < |ps| ==> ps[j] == ps[1..][j - 1];
    }
  }

  /** The entry with one anchor more, in name order, and nothing else moved. */
  ghost predicate Gains(t: Territory, a: Anchor, u: Territory) {
    && multiset(u.anchors) == multiset(t.anchors) + multiset{a}
    && (forall i, j :: 0 <= i < j < |u.anchors| ==> AnchorBefore(u.anchors[i], u.anchors[j]))
    && u.code == t.code && u.tlSequence == t.tlSequence && u.issueTime == t.issueTime && u.nextUpdate == t.nextUpdate
    && u.sourceDigest == t.sourceDigest && u.carriedOver == t.carriedOver && u.carriedOverReason == t.carriedOverReason
    && u.failed == t.failed && u.failureReason == t.failureReason && u.skipped == t.skipped
  }

  lemma TerritoryOrder()
    ensures TotalPreorder(TerritoryLe)
  {
    KeyOrder();
  }

  /** An anchor whose territory has no entry gets one: no list behind it, no mark and no
      skip, in code order among the others. */
  lemma {:induction false} AddedEntry(ts: seq<Territory>, a: Anchor)
    requires forall i :: 0 <= i < |ts| ==> ts[i].code != a.territory
    ensures var r := AddAnchor(ts, a);
            && multiset(r) == multiset(ts) + multiset{Territory(a.territory, 0, 0, None, "", false, None, false, None, [a], [])}
            && forall i, j :: 0 <= i < j < |r| ==> StringLe(r[i].code, r[j].code)
  {
    hide TerritoryLe, TotalPreorder, CandidateLe;
    var t := WithAnchor(BareTerritory(a.territory), a);
    assert [] + [a] == [a];
    SortOne(CandidateLe, a);
    TerritoryOrder();
    SortBySorted(TerritoryLe, ts + [t]);
    var r := AddAnchor(ts, a);
    forall i, j | 0 <= i < j < |r| ensures StringLe(r[i].code, r[j].code) {
      TerritoryLeMeans(r[i], r[j]);
    }
  }

  lemma {:induction false} TerritoryLeMeans(t: Territory, u: Territory)
    ensures TerritoryLe(t, u) <==> StringLe(t.code, u.code)
  {
    KeyLeOne(t.code, u.code);
  }

  /** The snapshot after the i-th pending anchor is approved: it left the pending ones and
      joined the entry of its territory. */
  ghost predicate ApprovedAs(cur: Snapshot, i: int, at: Instant, s: Snapshot) {
    && 0 <= i < |cur.pending|
    && s.pending == cur.pending[..i] + cur.pending[i + 1..]
    && |s.territories| == |cur.territories|
    && (exists k :: 0 <= k < |cur.territories| && cur.territories[k].code == cur.pending[i].anchor.territory
                 && Gains(cur.territories[k], cur.pending[i].anchor, s.territories[k])
                 && forall j :: 0 <= j < |cur.territories| && j != k ==> s.territories[j] == cur.territories[j])
    && s.declared == cur.declared && SameLotl(cur, s)
    && s.generatedAt == at && s.prevID == Some(cur.id) && s.id == ContentId(s)
  }

  lemma {:induction false} WithAnchorGains(t: Territory, a: Anchor)
    ensures Gains(t, a, WithAnchor(t, a))
  {
    hide CandidateLe, AnchorBefore, TotalPreorder;
    var u := WithAnchor(t, a);
    CandidateOrder();
    SortBySorted(CandidateLe, t.anchors + [a]);
    forall i, j | 0 <= i < j < |u.anchors| ensures AnchorBefore(u.anchors[i], u.anchors[j]) {
      CandidateBefore(u.anchors[i], u.anchors[j]);
    }
  }

  lemma {:induction false} ApprovedMeans(w: World, cur: Snapshot, i: nat, at: Instant)
    requires WellFormed(w, cur) && i < |cur.pending|
    ensures ApprovedAs(cur, i, at, Approved(cur, i, at))
  {
    hide Approved, ContentId, WithAnchor, Gains, WellFormed;
    var a := cur.pending[i].anchor;
    var k := ApprovalTarget(w, cur, i);
    ApprovedShape(cur, i, at);
    var s := Approved(cur, i, at);
    assert s.territories == cur.territories[k := WithAnchor(cur.territories[k], a)];
    WithAnchorGains(cur.territories[k], a);
  }

  /** The event an approval announces. */
  ghost predicate Announces(a: Anchor, events: seq<DiffEntry>) {
    && |events| == 1
    && events[0].kind == Added && events[0].detail == "approved from pending"
    && events[0].territory == a.territory && events[0].fingerprint == a.fingerprint && events[0].anchorType == a.anchorType
    && events[0].tspName == a.tspName && events[0].serviceName == a.serviceName && events[0].status == a.status
    && events[0].source == a.source
  }

  /** An approval moves, stores and announces the first pending anchor of the fingerprint;
      it changes nothing when there is none or when it cannot be stored. */
  lemma {:induction false} ApprovalExact(sys: System, s: State, fp: string, at: Instant, saved: bool)
    requires s.active.Some? && WellFormed(sys.w, s.active.value)
    ensures var cur, next := s.active.value, Next(sys, s, ApproveStep(fp, at, saved));
            if saved && exists i :: 0 <= i < |cur.pending| && cur.pending[i].anchor.fingerprint == fp
            then next.active.Some? && next.stored == next.active
                 && exists i :: && ApprovedAs(cur, i, at, next.active.value) && cur.pending[i].anchor.fingerprint == fp
                                && (forall j :: 0 <= j < i ==> cur.pending[j].anchor.fingerprint != fp)
                                && Announces(cur.pending[i].anchor, ApprovalEvents(s.active, fp))
            else next == s
  {
    hide Approved, WellFormed, ApprovedAs, FindPending;
    var cur := s.active.value;
    FirstPending(cur.pending, fp);
    if FindPending(cur.pending, fp).Some? {
      var i := FindPending(cur.pending, fp).value;
      ApprovedMeans(sys.w, cur, i, at);
    }
  }
}
