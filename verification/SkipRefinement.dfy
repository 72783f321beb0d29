/** The digest skip (section 6.1 of ETSI TS 119 612) refines the download: in auto
    mode a cycle that skips and a cycle that downloads the same bytes build the same
    snapshot. */
module SkipRefinement {

  import opened Wrappers
  import opened Sequences
  import opened Trust
  import opened World
  import opened Identity
  import opened Extraction
  import opened Declared
  import opened Lotl
  import opened LotlSource
  import opened National
  import opened Hold
  import opened Cycle
  import opened Manager
  import opened Invariant
  import opened Reachable
  import opened Provenance

  // ---- The run invariant ----

  /** Equal but for the carry-over marks. */
  predicate SameContent(a: Territory, b: Territory) {
    a == b.(carriedOver := a.carriedOver, carriedOverReason := a.carriedOverReason)
  }

  /** The entry is the projection of the one signed document with its digest. */
  ghost predicate ProjectionOf(sys: System, t: Territory, raw: Bytes) {
    && sys.w.sha256(raw) == t.sourceDigest
    && sys.w.signature(raw).Some?
    && Parse(sys.w, sys.w.signature(raw).value.content).Some?
    && var e := EntryFrom(sys.w, PolicyFor(sys.cfg), t.code, Parse(sys.w, sys.w.signature(raw).value.content).value, t.sourceDigest);
    && e.Ok? && SameContent(t, e.value)
  }

  ghost predicate TerritoryHeld(sys: System, t: Territory) {
    !t.failed ==> exists raw :: ProjectionOf(sys, t, raw)
  }

  ghost predicate AutoHeld(sys: System, s: Snapshot) {
    && s.pending == []
    && forall i :: 0 <= i < |s.territories| ==> TerritoryHeld(sys, s.territories[i])
  }

  lemma {:induction false} FreshProjects(sys: System, ps: seq<ListPointer>, code: string, prev: Option<Territory>, now: Instant, up: Upstream)
    requires IngestTerritory(sys.w, sys.cfg, ps, code, prev, now, up).Fresh?
    ensures var o := IngestTerritory(sys.w, sys.cfg, ps, code, prev, now, up);
            && o.entry.code == code && o.entry.sourceDigest == sys.w.sha256(o.raw) && !o.entry.failed && !o.entry.carriedOver
            && ProjectionOf(sys, o.entry, o.raw)
  {
    hide IngestTerritory, Extract;
    var o := IngestTerritory(sys.w, sys.cfg, ps, code, prev, now, up);
    FreshIsVerified(sys.w, sys.cfg, ps, code, prev, now, up);
    VerifiedNational(sys.w, o.raw, o.pointer.signers, code, prev, now);
    assert sys.w.signature(o.raw) == Verify(sys.w, o.raw, o.pointer.signers, now);
  }

  lemma {:induction false} OutcomeHeld(sys: System, ps: seq<ListPointer>, prev: Option<Snapshot>, now: Instant, up: Upstream, code: string)
    requires prev.Some? ==> forall i :: 0 <= i < |prev.value.territories| ==> TerritoryHeld(sys, prev.value.territories[i])
    ensures TerritoryHeld(sys, OutcomeOf(sys.w, sys.cfg, ps, prev, now, up)(code).entry)
  {
    hide IngestTerritory, EntryFrom;
    var held := if prev.Some? then prev.value.Lookup(code) else None;
    var o := IngestTerritory(sys.w, sys.cfg, ps, code, held, now, up);
    if o.Fresh? {
      FreshProjects(sys, ps, code, held, now, up);
    } else {
      ReusedContent(sys, ps, code, held, now, up);
      if held.Some? && !o.entry.failed {
        var i :| 0 <= i < |prev.value.territories| && prev.value.territories[i] == held.value;
        assert TerritoryHeld(sys, prev.value.territories[i]);
        var raw :| ProjectionOf(sys, held.value, raw);
        assert ProjectionOf(sys, o.entry, raw);
      }
    }
  }

  lemma {:induction false} ReusedContent(sys: System, ps: seq<ListPointer>, code: string, held: Option<Territory>, now: Instant, up: Upstream)
    requires !IngestTerritory(sys.w, sys.cfg, ps, code, held, now, up).Fresh?
    ensures var o := IngestTerritory(sys.w, sys.cfg, ps, code, held, now, up);
            if o.FailedEntry? then o.entry.failed else held.Some? && SameContent(o.entry, held.value)
  {
    hide VerifyNational, EntryFrom, PointerFor;
  }

  lemma {:induction false} CycleHeld(sys: System, prev: Option<Snapshot>, in': CycleInput)
    requires !sys.cfg.hold
    requires prev.Some? ==> AutoHeld(sys, prev.value)
    requires RunCycle(sys.w, sys.cfg, prev, sys.boot, in').Ok?
    ensures AutoHeld(sys, RunCycle(sys.w, sys.cfg, prev, sys.boot, in').value)
  {
    hide RunCycle, Assemble, IngestLotl, OutcomeOf, ApplyHold, DeclaredSet, ContentId, TerritoryHeld;
    CycleParts(sys.w, sys.cfg, prev, sys.boot, in');
    var l := IngestLotl(sys.w, sys.cfg, prev, sys.boot, in'.now, in'.up).value;
    AssembleFields(sys.w, sys.cfg, prev, sys.boot, in', l);
    ApplyHoldShape(sys.cfg, prev, DraftOf(sys.w, sys.cfg, prev, sys.boot, in', l), in'.now);
    var codes := Expand(sys.cfg.territories, l.pointers);
    forall i | 0 <= i < |codes|
      ensures TerritoryHeld(sys, Map(EntryOfOutcome, Outcomes(sys.w, sys.cfg, l.pointers, prev, in'.now, in'.up))[i])
    {
      OutcomeHeld(sys, l.pointers, prev, in'.now, in'.up, codes[i]);
    }
  }

  ghost predicate StateHeld(sys: System, s: State) {
    && (s.active.Some? ==> AutoHeld(sys, s.active.value))
    && (s.stored.Some? ==> AutoHeld(sys, s.stored.value))
  }

  lemma {:induction false} ReconcileHeld(sys: System, s: State, file: DeclaredFile, at: Instant, saved: bool)
    requires StateHeld(sys, s)
    ensures StateHeld(sys, Reconcile(sys, s, file, at, saved))
  {
    hide RefreshDeclared, DeclaredSet, ContentId, TerritoryHeld;
    if s.active.Some? && RefreshDeclared(sys.w, s.active.value, file, at).Some? {
      ReconciledFields(sys.w, s.active.value, file, at);
    }
  }

  lemma {:induction false} StepHeld(sys: System, s: State, step: Step)
    requires !sys.cfg.hold && StateHeld(sys, s)
    ensures StateHeld(sys, Next(sys, s, step))
  {
    hide Reconcile, RunCycle, TerritoryHeld, Approved, NeedsSave;
    match step
    case RefreshStep(file, at, saved, input, cycleSaved) =>
      ReconcileHeld(sys, s, file, at, saved);
      var r := Reconcile(sys, s, file, at, saved);
      if RunCycle(sys.w, sys.cfg, r.active, sys.boot, input).Ok? {
        CycleHeld(sys, r.active, input);
      }
    case ReconcileStep(file, at, saved) =>
      ReconcileHeld(sys, s, file, at, saved);
    case ApproveStep(fp, at, saved) =>
    case RestartStep =>
  }

  /** In auto mode every run keeps: nothing is pending, and each territory with data
      is the projection of the one signed document with its digest. */
  lemma {:induction false} ReachableHeld(sys: System, steps: seq<Step>)
    requires !sys.cfg.hold
    ensures StateHeld(sys, After(sys, steps))
    decreases |steps|
  {
    hide Next, AutoHeld;
    if steps != [] {
      ReachableHeld(sys, steps[..|steps| - 1]);
      StepHeld(sys, After(sys, steps[..|steps| - 1]), steps[|steps| - 1]);
    }
  }

  // ---- The same upstream without digests ----

  /** The upstream with no published digests: every list is downloaded. */
  function Silent(up: Upstream): Upstream {
    up.(digest := (who, url) => None)
  }

  /** Published digests are those of the published bytes. */
  ghost predicate Truthful(w: World, up: Upstream) {
    forall who, url :: up.digest(who, url).Some? ==>
      up.fetch(who, url).Ok? && w.sha256(up.fetch(who, url).value) == up.digest(who, url).value
  }

  lemma {:induction false} FetchSilent(w: World, up: Upstream, who: Requester, url: string, isFresh: bool, held: string)
    requires Truthful(w, up)
    ensures var loud, quiet := FetchList(w, up, who, url, isFresh, held), FetchList(w, Silent(up), who, url, isFresh, held);
            if loud.Unchanged?
            then isFresh && quiet.Raw? && quiet.digest == held && quiet.digest == w.sha256(quiet.bytes)
            else quiet == loud
  {
  }

  lemma {:induction false} PivotSilent(w: World, up: Upstream, ref: PivotRef, pinned: seq<Bytes>)
    ensures ProcessPivot(w, Silent(up), ref, pinned) == ProcessPivot(w, up, ref, pinned)
  {
    hide CheckPivot;
  }

  lemma {:induction false} WalkSilent(w: World, up: Upstream, refs: seq<PivotRef>, rot: Rotation)
    ensures WalkFrom(w, Silent(up), refs, rot) == WalkFrom(w, up, refs, rot)
    decreases |refs|
  {
    hide ProcessPivot, Silent;
    if refs != [] {
      if refs[0].number <= rot.pivotSeq {
        WalkSilent(w, up, refs[1..], rot);
      } else {
        PivotSilent(w, up, refs[0], rot.signers);
        if ProcessPivot(w, up, refs[0], rot.signers).Ok? {
          WalkSilent(w, up, refs[1..], Rotation(ProcessPivot(w, up, refs[0], rot.signers).value, refs[0].number));
        }
      }
    }
  }

  lemma {:induction false} VerifySilent(w: World, up: Upstream, raw: Bytes, pin: Rotation, now: Instant)
    ensures VerifyLotl(w, Silent(up), raw, pin, now) == VerifyLotl(w, up, raw, pin, now)
  {
    hide WalkFrom, Silent, FinishLotl, PivotRefs;
    if Parse(w, raw).Some? {
      WalkSilent(w, up, PivotRefs(w, Parse(w, raw).value.uris), pin);
    }
  }

  /** The LOTL half: where the skip fires and the download would be accepted, both
      give the same sequence, times, signers, pivot progress, digest and pointers. */
  lemma {:induction false} LotlSkipRefines(sys: System, prev: Option<Snapshot>, now: Instant, up: Upstream)
    requires CollisionFree(sys.w) && Truthful(sys.w, up)
    requires prev.Some? ==> LotlHeldBy(sys, Carried(prev.value))
    requires FetchLotl(sys.w, sys.cfg, prev, now, up).Unchanged? ==> IngestLotl(sys.w, sys.cfg, prev, sys.boot, now, Silent(up)).Ok?
    ensures IngestLotl(sys.w, sys.cfg, prev, sys.boot, now, Silent(up)) == IngestLotl(sys.w, sys.cfg, prev, sys.boot, now, up)
  {
    hide VerifyLotl, FetchList, FromList, Silent;
    FetchSilent(sys.w, up, ForLotl, sys.cfg.lotlURL, LotlFresh(prev, now), HeldDigest(prev, now));
    match FetchLotl(sys.w, sys.cfg, prev, now, up)
    case Unchanged =>
      var quiet := FetchLotl(sys.w, sys.cfg, prev, now, Silent(up));
      SameDocumentSameResult(sys, prev.value, now, Silent(up), quiet.bytes);
    case NotFetched(_) =>
    case Raw(bytes, _) =>
      if Pinned(sys.w, prev, sys.boot).Ok? {
        VerifySilent(sys.w, up, bytes, Pinned(sys.w, prev, sys.boot).value, now);
      }
  }

  lemma {:induction false} SameDocumentSameResult(sys: System, prev: Snapshot, now: Instant, up: Upstream, raw: Bytes)
    requires CollisionFree(sys.w)
    requires LotlHeldBy(sys, Carried(prev)) && prev.lotlSigners != []
    requires sys.w.sha256(raw) == prev.lotlDigest
    requires VerifyLotl(sys.w, up, raw, Rotation(prev.lotlSigners, prev.lotlPivotSeq), now).result.Ok?
    ensures var v := VerifyLotl(sys.w, up, raw, Rotation(prev.lotlSigners, prev.lotlPivotSeq), now);
            FromList(sys.w, v.result.value.list, v.result.value.signers, v.pivotSeq, sys.w.sha256(raw)) == Carried(prev)
  {
    hide VerifyLotl, PointerSet, PivotRefs, Chain, AcceptedLinks, LinkVerified;
    var pin := Rotation(prev.lotlSigners, prev.lotlPivotSeq);
    var p, list :| LotlHeld(sys, Carried(prev), p, list);
    assert p.raw == raw;
    LotlAcceptance(sys.w, up, raw, pin, now);
    NoNewPivotsMeansDirect(sys.w, up, raw, pin, now);
    var v := VerifyLotl(sys.w, up, raw, pin, now);
    assert v.result.value.list == list by {
      SameSignedContent(sys.w, raw, v.result.value.signers, now, v.result.value.list, EndOf(Root(sys), p.links).signers, p.at, list);
    }
  }

  /** The verified content depends on the bytes alone. */
  lemma {:induction false} SameSignedContent(w: World, raw: Bytes, s1: seq<Bytes>, t1: Instant, l1: TrustedList, s2: seq<Bytes>, t2: Instant, l2: TrustedList)
    requires LotlVerified(w, raw, s1, t1, l1) && LotlVerified(w, raw, s2, t2, l2)
    ensures l1 == l2
  {
  }

  /** Where the skip fires, the download would be accepted. */
  ghost predicate ReuseWouldBeAccepted(sys: System, ps: seq<ListPointer>, code: string, prev: Option<Territory>, now: Instant, up: Upstream) {
    IngestTerritory(sys.w, sys.cfg, ps, code, prev, now, up).Reused? ==>
      IngestTerritory(sys.w, sys.cfg, ps, code, prev, now, Silent(up)).Fresh?
  }

  /** The territory half: a reused entry is the downloaded one, but for the text of
      an earlier carry-over. */
  lemma {:induction false} TerritorySkipRefines(sys: System, ps: seq<ListPointer>, code: string, prev: Option<Territory>, now: Instant, up: Upstream)
    requires CollisionFree(sys.w) && Truthful(sys.w, up)
    requires prev.Some? ==> TerritoryHeld(sys, prev.value) && TerritoryOk(sys.w, prev.value) && prev.value.code == code
    requires ReuseWouldBeAccepted(sys, ps, code, prev, now, up)
    ensures var loud, quiet := IngestTerritory(sys.w, sys.cfg, ps, code, prev, now, up), IngestTerritory(sys.w, sys.cfg, ps, code, prev, now, Silent(up));
            && loud.entry == quiet.entry.(carriedOverReason := loud.entry.carriedOverReason)
            && loud.FailedEntry? == quiet.FailedEntry?
  {
    hide FetchNational, VerifyNational, EntryFrom, TerritoryHeld, TerritoryOk;
    if PointerFor(ps, code).Ok? {
      var lp := PointerFor(ps, code).value;
      NationalSilent(sys, lp, code, prev, now, up);
      if FetchNational(sys.w, sys.cfg, lp, code, prev, now, up).Unchanged? {
        var quiet := IngestTerritory(sys.w, sys.cfg, ps, code, prev, now, Silent(up));
        FreshProjects(sys, ps, code, prev, now, Silent(up));
        assert quiet.raw == FetchNational(sys.w, sys.cfg, lp, code, prev, now, Silent(up)).bytes;
        ReusedIsDownloaded(sys, prev.value, quiet.entry, quiet.raw);
      }
    }
  }

  lemma {:induction false} NationalSilent(sys: System, lp: ListPointer, code: string, prev: Option<Territory>, now: Instant, up: Upstream)
    requires Truthful(sys.w, up)
    ensures var loud, quiet := FetchNational(sys.w, sys.cfg, lp, code, prev, now, up), FetchNational(sys.w, sys.cfg, lp, code, prev, now, Silent(up));
            if loud.Unchanged?
            then prev.Some? && prev.value.sourceDigest != "" && quiet.Raw? && quiet.digest == prev.value.sourceDigest && quiet.digest == sys.w.sha256(quiet.bytes)
            else quiet == loud
  {
    hide FetchList, Silent;
    FetchSilent(sys.w, up, ForTerritory(code), lp.url, TerritoryFresh(prev, now, sys.cfg.staleGrace),
                if prev.Some? then prev.value.sourceDigest else "");
  }

  lemma {:induction false} ReusedIsDownloaded(sys: System, held: Territory, t: Territory, raw: Bytes)
    requires CollisionFree(sys.w)
    requires TerritoryHeld(sys, held) && TerritoryOk(sys.w, held) && held.sourceDigest != ""
    requires ProjectionOf(sys, t, raw) && t.code == held.code && t.sourceDigest == held.sourceDigest && !t.carriedOver
    ensures held.(carriedOver := false) == t.(carriedOverReason := held.carriedOverReason)
  {
    hide EntryFrom;
    var r :| ProjectionOf(sys, held, r);
    assert sys.w.sha256(r) == sys.w.sha256(raw);
    assert r == raw;
  }

  // ---- The whole cycle ----

  ghost function HeldEntry(prev: Option<Snapshot>, code: string): Option<Territory> {
    if prev.Some? then prev.value.Lookup(code) else None
  }

  /** Every list the cycle skips would be accepted if downloaded. */
  ghost predicate SkipsAcceptable(sys: System, prev: Option<Snapshot>, in': CycleInput) {
    && (FetchLotl(sys.w, sys.cfg, prev, in'.now, in'.up).Unchanged? ==>
          IngestLotl(sys.w, sys.cfg, prev, sys.boot, in'.now, Silent(in'.up)).Ok?)
    && (IngestLotl(sys.w, sys.cfg, prev, sys.boot, in'.now, in'.up).Ok? ==>
          var ps := IngestLotl(sys.w, sys.cfg, prev, sys.boot, in'.now, in'.up).value.pointers;
          forall code :: code in Expand(sys.cfg.territories, ps) ==>
            ReuseWouldBeAccepted(sys, ps, code, HeldEntry(prev, code), in'.now, in'.up))
  }

  /** Equal entries but for the text of an earlier carry-over. */
  ghost predicate SameButReasons(a: seq<Territory>, b: seq<Territory>) {
    && |a| == |b|
    && forall i :: 0 <= i < |a| ==> a[i] == b[i].(carriedOverReason := a[i].carriedOverReason)
  }

  lemma {:induction false} OutcomesRefine(sys: System, ps: seq<ListPointer>, prev: Option<Snapshot>, now: Instant, up: Upstream)
    requires CollisionFree(sys.w) && Truthful(sys.w, up)
    requires prev.Some? ==> WellFormed(sys.w, prev.value) && AutoHeld(sys, prev.value)
    requires forall code :: code in Expand(sys.cfg.territories, ps) ==> ReuseWouldBeAccepted(sys, ps, code, HeldEntry(prev, code), now, up)
    ensures var loud, quiet := Outcomes(sys.w, sys.cfg, ps, prev, now, up), Outcomes(sys.w, sys.cfg, ps, prev, now, Silent(up));
            && SameButReasons(Map(EntryOfOutcome, loud), Map(EntryOfOutcome, quiet))
            && |loud| == |quiet|
            && AllFailed(loud) == AllFailed(quiet)
  {
    hide IngestTerritory, TerritoryHeld, TerritoryOk, ReuseWouldBeAccepted, Silent, ContentId;
    var codes := Expand(sys.cfg.territories, ps);
    var loud, quiet := Outcomes(sys.w, sys.cfg, ps, prev, now, up), Outcomes(sys.w, sys.cfg, ps, prev, now, Silent(up));
    forall i | 0 <= i < |codes|
      ensures loud[i].entry == quiet[i].entry.(carriedOverReason := loud[i].entry.carriedOverReason)
      ensures loud[i].FailedEntry? == quiet[i].FailedEntry?
    {
      var held := HeldEntry(prev, codes[i]);
      if held.Some? {
        LookupOk(sys.w, prev.value, codes[i]);
        var j :| 0 <= j < |prev.value.territories| && prev.value.territories[j] == held.value;
      }
      TerritorySkipRefines(sys, ps, codes[i], held, now, up);
    }
  }

  lemma {:induction false} ReasonsOutsideId(a: seq<Territory>, b: seq<Territory>)
    requires SameButReasons(a, b)
    ensures Map(ProjectTerritory, Select(HasData, a)) == Map(ProjectTerritory, Select(HasData, b))
    decreases |a|
  {
    if a != [] {
      var n := |a| - 1;
      ReasonsOutsideId(a[..n], b[..n]);
      assert a[n] == b[n].(carriedOverReason := a[n].carriedOverReason);
      assert ProjectTerritory(a[n]) == ProjectTerritory(b[n]) && HasData(a[n]) == HasData(b[n]);
      if HasData(a[n]) {
        MapAppend(ProjectTerritory, Select(HasData, a[..n]), [a[n]]);
        MapAppend(ProjectTerritory, Select(HasData, b[..n]), [b[n]]);
        assert Map(ProjectTerritory, [a[n]]) == Map(ProjectTerritory, [b[n]]);
      }
    }
  }

  /** The two snapshots are one, but for the text of an earlier carry-over: in
      particular the id is the same. */
  ghost predicate SameSnapshot(a: Snapshot, b: Snapshot) {
    a == b.(territories := a.territories) && SameButReasons(a.territories, b.territories)
  }

  lemma {:induction false} AssembledRefines(sys: System, prev: Option<Snapshot>, in': CycleInput, l: LotlResult)
    requires !sys.cfg.hold
    requires SameButReasons(Map(EntryOfOutcome, Outcomes(sys.w, sys.cfg, l.pointers, prev, in'.now, in'.up)),
                            Map(EntryOfOutcome, Outcomes(sys.w, sys.cfg, l.pointers, prev, in'.now, Silent(in'.up))))
    ensures SameSnapshot(Assemble(sys.w, sys.cfg, prev, sys.boot, in', l),
                         Assemble(sys.w, sys.cfg, prev, sys.boot, in'.(up := Silent(in'.up)), l))
  {
    hide Outcomes, DeclaredSet, Silent, SameButReasons, ContentId;
    var quiet := in'.(up := Silent(in'.up));
    var a, b := DraftOf(sys.w, sys.cfg, prev, sys.boot, in', l), DraftOf(sys.w, sys.cfg, prev, sys.boot, quiet, l);
    ReasonsOutsideId(a.territories, b.territories);
    DraftIds(a, b);
  }

  lemma {:induction false} DraftIds(a: Snapshot, b: Snapshot)
    requires a == b.(territories := a.territories)
    requires Map(ProjectTerritory, Select(HasData, a.territories)) == Map(ProjectTerritory, Select(HasData, b.territories))
    ensures ContentId(a) == ContentId(b)
  {
  }

  /** Digest-skip refinement: in auto mode, at any point of any run, if the published
      digests are those of the published bytes and the lists the cycle skips would be
      accepted when downloaded, then skipping and downloading give the same verdict
      and the same snapshot. */
  lemma {:induction false} SkipRefinesDownload(sys: System, steps: seq<Step>, in': CycleInput)
    requires !sys.cfg.hold && CollisionFree(sys.w) && Truthful(sys.w, in'.up)
    requires SkipsAcceptable(sys, After(sys, steps).active, in')
    ensures var prev := After(sys, steps).active;
            var loud, quiet := RunCycle(sys.w, sys.cfg, prev, sys.boot, in'), RunCycle(sys.w, sys.cfg, prev, sys.boot, in'.(up := Silent(in'.up)));
            && loud.Ok? == quiet.Ok?
            && (loud.Ok? ==> SameSnapshot(loud.value, quiet.value))
  {
    hide After, StateOk, StateBacked, StateHeld;
    ReachableWellFormed(sys, steps);
    ChainOfTrust(sys, steps);
    ReachableHeld(sys, steps);
    RunInvariants(sys, After(sys, steps));
    CycleSkipRefines(sys, After(sys, steps).active, in');
  }

  lemma {:induction false} RunInvariants(sys: System, s: State)
    requires StateOk(sys.w, s) && StateBacked(sys, s) && StateHeld(sys, s)
    ensures s.active.Some? ==>
              WellFormed(sys.w, s.active.value) && AutoHeld(sys, s.active.value) && LotlHeldBy(sys, Carried(s.active.value))
  {
    hide WellFormed, AutoHeld, LotlHeldBy, SignersProven, AllBacked, PendingBacked;
  }

  lemma {:induction false} CycleSkipRefines(sys: System, prev: Option<Snapshot>, in': CycleInput)
    requires !sys.cfg.hold && CollisionFree(sys.w) && Truthful(sys.w, in'.up)
    requires prev.Some? ==> WellFormed(sys.w, prev.value) && AutoHeld(sys, prev.value) && LotlHeldBy(sys, Carried(prev.value))
    requires SkipsAcceptable(sys, prev, in')
    ensures var loud, quiet := RunCycle(sys.w, sys.cfg, prev, sys.boot, in'), RunCycle(sys.w, sys.cfg, prev, sys.boot, in'.(up := Silent(in'.up)));
            && loud.Ok? == quiet.Ok?
            && (loud.Ok? ==> SameSnapshot(loud.value, quiet.value))
  {
    hide IngestLotl, Outcomes, Assemble, WellFormed, AutoHeld, LotlHeldBy, Silent, FetchLotl, ReuseWouldBeAccepted, SameSnapshot,
         SameButReasons, AllFailed, Truthful, CollisionFree;
    LotlSkipRefines(sys, prev, in'.now, in'.up);
    if IngestLotl(sys.w, sys.cfg, prev, sys.boot, in'.now, in'.up).Ok? {
      var l := IngestLotl(sys.w, sys.cfg, prev, sys.boot, in'.now, in'.up).value;
      OutcomesRefine(sys, l.pointers, prev, in'.now, in'.up);
      AssembledRefines(sys, prev, in', l);
    }
  }
}
