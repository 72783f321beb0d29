/** Where every served or pending list anchor comes from: a national list signed by
    a certificate that a LOTL pins, that LOTL in turn verified against a signer set
    linked to the bootstrap by verified pivots. */
module Provenance {

  import opened Wrappers
  import opened Sequences
  import opened Order
  import opened Trust
  import opened World
  import opened Identity
  import opened Extraction
  import opened Declared
  import opened Lotl
  import opened LotlSource
  import opened National
  import opened Hold
  import opened Cycle
  import opened Manager
  import opened Invariant
  import opened Reachable
  import opened ListReading
  import opened TerritoryReading

  // ---- Proof objects ----

  /** The operator-pinned root of trust. */
  ghost function Root(sys: System): Rotation {
    Rotation(sys.boot.certs, 0)
  }

  /** A chain of verified pivots from the root to a signer set. */
  ghost predicate ChainTo(sys: System, links: seq<PivotLink>, signers: seq<Bytes>, pivotSeq: UInt64) {
    && Chain(sys.w, Root(sys), links, EndOf(Root(sys), links))
    && EndOf(Root(sys), links).signers == signers
    && EndOf(Root(sys), links).pivotSeq <= pivotSeq
  }

  ghost predicate SignersProven(sys: System, l: LotlResult) {
    exists links :: ChainTo(sys, links, l.signers, l.pivotSeq)
  }

  /** How a LOTL was authenticated. */
  datatype LotlProof = LotlProof(links: seq<PivotLink>, raw: Bytes, at: Instant)

  ghost predicate LotlProven(sys: System, p: LotlProof, list: TrustedList) {
    && Chain(sys.w, Root(sys), p.links, EndOf(Root(sys), p.links))
    && LotlVerified(sys.w, p.raw, EndOf(Root(sys), p.links).signers, p.at, list)
  }

  /** The LOTL state in hand is the projection of one authenticated document, whose
      digest it carries and none of whose pivots is newer than the progress. */
  ghost predicate LotlHeld(sys: System, l: LotlResult, p: LotlProof, list: TrustedList) {
    && LotlProven(sys, p, list)
    && l == FromList(sys.w, list, l.signers, l.pivotSeq, sys.w.sha256(p.raw))
    && Parse(sys.w, p.raw).Some?
    && MaxNumber(PivotRefs(sys.w, Parse(sys.w, p.raw).value.uris)) <= l.pivotSeq
  }

  ghost predicate LotlHeldBy(sys: System, l: LotlResult) {
    exists p, list :: LotlHeld(sys, l, p, list)
  }

  /** How a list anchor was obtained. */
  datatype ListProof = ListProof(lotl: LotlProof, lotlList: TrustedList, raw: Bytes, at: Instant, list: TrustedList)

  /** The LOTL's first XML pointer for the territory decodes to certificates, and the
      anchor is what a list signed by one of them says. */
  ghost predicate Proves(sys: System, p: ListProof, code: string, a: Anchor) {
    && LotlProven(sys, p.lotl, p.lotlList)
    && exists i ::
         && IsPointerFor(p.lotlList, code, i) && p.lotlList.pointers[i].certs.Ok?
         && ListProves(sys, p.lotlList.pointers[i].certs.value, p, code, a)
  }

  /** The anchor is what the services of a list of the territory call for, and the list is
      authentic under the pinned certificates. */
  ghost predicate ListProves(sys: System, signers: seq<Bytes>, p: ListProof, code: string, a: Anchor) {
    && (exists signed :: Authentic(sys.w, p.raw, signers, p.at, signed) && Reads(sys.w, signed.content, p.list))
    && p.list.schemeTerritory == code && p.list.providers.Some?
    && AnchorMeans(sys.w, sys.cfg, code, p.list.providers.value, a)
    && a.tlSequence == if p.list.sequence < 0x8000_0000_0000_0000 then p.list.sequence else p.list.sequence - 0x1_0000_0000_0000_0000
  }

  ghost predicate Backed(sys: System, code: string, a: Anchor) {
    exists p :: Proves(sys, p, code, a)
  }

  ghost predicate TerritoryBacked(sys: System, t: Territory) {
    forall i :: 0 <= i < |t.anchors| ==> Backed(sys, t.code, t.anchors[i])
  }

  ghost predicate AllBacked(sys: System, ts: seq<Territory>) {
    forall i :: 0 <= i < |ts| ==> TerritoryBacked(sys, ts[i])
  }

  ghost predicate PendingBacked(sys: System, ps: seq<PendingAnchor>) {
    forall i :: 0 <= i < |ps| ==> Backed(sys, ps[i].anchor.territory, ps[i].anchor)
  }

  ghost predicate SnapshotBacked(sys: System, s: Snapshot) {
    && AllBacked(sys, s.territories)
    && PendingBacked(sys, s.pending)
    && LotlHeldBy(sys, Carried(s))
    && SignersProven(sys, Carried(s))
  }

  // ---- The LOTL ----

  lemma {:induction false} ChainRebase(w: World, from: Rotation, onto: Rotation, links: seq<PivotLink>)
    requires Chain(w, from, links, EndOf(from, links))
    requires onto.signers == from.signers && onto.pivotSeq <= from.pivotSeq
    ensures Chain(w, onto, links, EndOf(onto, links))
    ensures EndOf(onto, links).signers == EndOf(from, links).signers
    ensures EndOf(onto, links).pivotSeq <= EndOf(from, links).pivotSeq
  {
    hide LinkVerified;
    forall i | 0 <= i < |links| ensures LinkFollows(links, onto, i) {
      assert LinkFollows(links, from, i);
    }
  }

  /** The pinned set of a cycle is linked to the root. */
  lemma {:induction false} PinnedProven(sys: System, prev: Option<Snapshot>) returns (links: seq<PivotLink>)
    requires Pinned(sys.w, prev, sys.boot).Ok?
    requires prev.Some? ==> SignersProven(sys, Carried(prev.value))
    ensures ChainTo(sys, links, Pinned(sys.w, prev, sys.boot).value.signers, Pinned(sys.w, prev, sys.boot).value.pivotSeq)
  {
    if prev.Some? && prev.value.lotlSigners != [] {
      links :| ChainTo(sys, links, prev.value.lotlSigners, prev.value.lotlPivotSeq);
    } else {
      links := [];
    }
  }

  lemma {:induction false} AcceptedProven(sys: System, up: Upstream, raw: Bytes, pin: Rotation, now: Instant, base: seq<PivotLink>)
    requires ChainTo(sys, base, pin.signers, pin.pivotSeq)
    requires VerifyLotl(sys.w, up, raw, pin, now).result.Ok?
    ensures var v := VerifyLotl(sys.w, up, raw, pin, now);
            var links := base + AcceptedLinks(sys.w, up, raw, pin, now);
            && ChainTo(sys, links, v.result.value.signers, v.pivotSeq)
            && LotlProven(sys, LotlProof(links, raw, now), v.result.value.list)
  {
    hide VerifyLotl, AcceptedLinks, LinkVerified;
    LotlAcceptance(sys.w, up, raw, pin, now);
    var more := AcceptedLinks(sys.w, up, raw, pin, now);
    var mid := EndOf(Root(sys), base);
    ChainRebase(sys.w, pin, mid, more);
    ChainAppend(sys.w, Root(sys), base, mid, more, EndOf(mid, more));
    LinkedAppend(Root(sys), base, more);
  }

  lemma {:induction false} IngestProven(sys: System, prev: Option<Snapshot>, now: Instant, up: Upstream)
    requires prev.Some? ==> SnapshotBacked(sys, prev.value)
    requires IngestLotl(sys.w, sys.cfg, prev, sys.boot, now, up).Ok?
    ensures var l := IngestLotl(sys.w, sys.cfg, prev, sys.boot, now, up).value;
            LotlHeldBy(sys, l) && SignersProven(sys, l)
  {
    hide AllBacked, PendingBacked, LotlHeldBy, SignersProven, VerifyLotl, FromList;
    match FetchLotl(sys.w, sys.cfg, prev, now, up)
    case Unchanged =>
    case Raw(bytes, digest) =>
      DownloadProven(sys, prev, now, up, bytes);
  }

  lemma {:induction false} DownloadProven(sys: System, prev: Option<Snapshot>, now: Instant, up: Upstream, raw: Bytes)
    requires prev.Some? ==> SignersProven(sys, Carried(prev.value))
    requires Pinned(sys.w, prev, sys.boot).Ok?
    requires VerifyLotl(sys.w, up, raw, Pinned(sys.w, prev, sys.boot).value, now).result.Ok?
    ensures var v := VerifyLotl(sys.w, up, raw, Pinned(sys.w, prev, sys.boot).value, now);
            var l := FromList(sys.w, v.result.value.list, v.result.value.signers, v.pivotSeq, sys.w.sha256(raw));
            LotlHeldBy(sys, l) && SignersProven(sys, l)
  {
    hide Chain, EndOf, PivotRefs, PointerSet, LotlVerified, AcceptedSoundly;
    var pin := Pinned(sys.w, prev, sys.boot).value;
    var v := VerifyLotl(sys.w, up, raw, pin, now);
    var l := FromList(sys.w, v.result.value.list, v.result.value.signers, v.pivotSeq, sys.w.sha256(raw));
    var base := PinnedProven(sys, prev);
    AcceptedProven(sys, up, raw, pin, now, base);
    LotlAcceptance(sys.w, up, raw, pin, now);
    var links := base + AcceptedLinks(sys.w, up, raw, pin, now);
    assert ChainTo(sys, links, l.signers, l.pivotSeq);
    assert LotlHeld(sys, l, LotlProof(links, raw, now), v.result.value.list);
  }

  // ---- The territories ----

  /** A usable pointer of the carried set is the LOTL's own. */
  lemma {:induction false} PointerStated(list: TrustedList, ps: seq<ListPointer>, code: string, lp: ListPointer) returns (i: int)
    requires PointersMean(list, ps) && UsablePointer(ps, code, lp)
    ensures 0 <= i < |list.pointers| && IsPointerFor(list, code, i) && list.pointers[i].certs == Ok(lp.signers)
  {
    assert PointsAs(list, lp);
    i :| IsPointerFor(list, lp.territory, i)
      && lp.url == list.pointers[i].location
      && match list.pointers[i].certs
         case Ok(ders) => lp.signers == ders && lp.failure == ""
         case Err(_) => lp.signers == [] && lp.failure != "";
  }

  lemma {:induction false} EntryAnchors(w: World, cfg: Config, code: string, list: TrustedList, raw: Bytes, t: Territory, i: nat)
    requires EntryMeans(w, cfg, code, list, raw, t) && i < |t.anchors|
    ensures AnchorMeans(w, cfg, code, list.providers.value, t.anchors[i])
    ensures t.anchors[i].tlSequence == if list.sequence < 0x8000_0000_0000_0000 then list.sequence else list.sequence - 0x1_0000_0000_0000_0000
  {
    hide AnchorMeans;
  }

  lemma {:induction false} FreshBacked(sys: System, l: LotlResult, code: string, prev: Option<Territory>, now: Instant, up: Upstream)
    requires LotlHeldBy(sys, l)
    requires IngestTerritory(sys.w, sys.cfg, l.pointers, code, prev, now, up).Fresh?
    ensures TerritoryBacked(sys, IngestTerritory(sys.w, sys.cfg, l.pointers, code, prev, now, up).entry)
  {
    hide IngestTerritory, LotlProven, PivotRefs, UsablePointer, EntryMeans, AnchorMeans, PointersMean, KeptOnDigest, Parse, PointerSet;
    var o := IngestTerritory(sys.w, sys.cfg, l.pointers, code, prev, now, up);
    TerritoryTurn(sys.w, sys.cfg, l.pointers, code, prev, now, up);
    var tl :| Downloads(sys.w, sys.cfg, o.pointer, code, prev, now, up, o.raw, tl) && EntryMeans(sys.w, sys.cfg, code, tl, o.raw, o.entry);
    EntryCode(sys.w, sys.cfg, code, tl, o.raw, o.entry);
    var p, list :| LotlHeld(sys, l, p, list);
    PointerSetExact(list);
    var k := PointerStated(list, l.pointers, code, o.pointer);
    var proof := ListProof(p, list, o.raw, now, tl);
    forall i | 0 <= i < |o.entry.anchors| ensures Backed(sys, o.entry.code, o.entry.anchors[i]) {
      EntryAnchors(sys.w, sys.cfg, code, tl, o.raw, o.entry, i);
      assert ListProves(sys, list.pointers[k].certs.value, proof, code, o.entry.anchors[i]);
      assert Proves(sys, proof, code, o.entry.anchors[i]);
    }
  }

  lemma {:induction false} EntryCode(w: World, cfg: Config, code: string, list: TrustedList, raw: Bytes, t: Territory)
    requires EntryMeans(w, cfg, code, list, raw, t)
    ensures t.code == code
  {
  }

  lemma {:induction false} OutcomeBacked(sys: System, l: LotlResult, prev: Option<Snapshot>, now: Instant, up: Upstream, code: string)
    requires prev.Some? ==> AllBacked(sys, prev.value.territories)
    requires LotlHeldBy(sys, l)
    ensures TerritoryBacked(sys, OutcomeOf(sys.w, sys.cfg, l.pointers, prev, now, up)(code).entry)
  {
    hide IngestTerritory, Backed, LotlHeldBy;
    var held := if prev.Some? then prev.value.Lookup(code) else None;
    var o := IngestTerritory(sys.w, sys.cfg, l.pointers, code, held, now, up);
    if o.Fresh? {
      FreshBacked(sys, l, code, held, now, up);
    } else {
      ReusedBacked(sys, l, code, held, now, up);
      if held.Some? {
        var i :| 0 <= i < |prev.value.territories| && prev.value.territories[i] == held.value;
        assert TerritoryBacked(sys, prev.value.territories[i]);
      }
    }
  }

  lemma {:induction false} ReusedBacked(sys: System, l: LotlResult, code: string, held: Option<Territory>, now: Instant, up: Upstream)
    requires !IngestTerritory(sys.w, sys.cfg, l.pointers, code, held, now, up).Fresh?
    ensures var t := IngestTerritory(sys.w, sys.cfg, l.pointers, code, held, now, up).entry;
            t.anchors == [] || (held.Some? && t.anchors == held.value.anchors && t.code == held.value.code)
  {
    hide VerifyNational, EntryFrom, PointerFor;
  }

  lemma {:induction false} IncomingBacked(sys: System, l: LotlResult, prev: Option<Snapshot>, now: Instant, up: Upstream)
    requires prev.Some? ==> AllBacked(sys, prev.value.territories)
    requires LotlHeldBy(sys, l)
    ensures AllBacked(sys, Map(EntryOfOutcome, Outcomes(sys.w, sys.cfg, l.pointers, prev, now, up)))
  {
    hide OutcomeOf, TerritoryBacked, LotlHeldBy;
    var codes := Expand(sys.cfg.territories, l.pointers);
    forall i | 0 <= i < |codes|
      ensures TerritoryBacked(sys, Map(EntryOfOutcome, Outcomes(sys.w, sys.cfg, l.pointers, prev, now, up))[i])
    {
      OutcomeBacked(sys, l, prev, now, up, codes[i]);
    }
  }

  lemma {:induction false} HoldBacked(sys: System, h: HoldContext, ts: seq<Territory>, ps: seq<PendingAnchor>)
    requires AllBacked(sys, ts)
    requires forall i :: 0 <= i < |ts| ==> TerritoryOk(sys.w, ts[i])
    requires multiset(ps) == multiset(AllHeld(h, ts))
    ensures AllBacked(sys, Map(HoldTerritory(h), ts)) && PendingBacked(sys, ps)
  {
    hide Backed, AllHeld;
    var kept := Map(HoldTerritory(h), ts);
    forall i, j | 0 <= i < |kept| && 0 <= j < |kept[i].anchors| ensures Backed(sys, kept[i].code, kept[i].anchors[j]) {
      SelectMembers(Keeping(h, ts[i].code), ts[i].anchors, kept[i].anchors[j]);
      var k :| 0 <= k < |ts[i].anchors| && ts[i].anchors[k] == kept[i].anchors[j];
      assert TerritoryBacked(sys, ts[i]);
    }
    forall i | 0 <= i < |ps| ensures Backed(sys, ps[i].anchor.territory, ps[i].anchor) {
      assert ps[i] in multiset(ps);
      AllHeldMembers(h, ts, ps[i]);
      var m :| 0 <= m < |ts| && HeldIn(h, ts[m], ps[i]);
      var k :| 0 <= k < |ts[m].anchors| && ts[m].anchors[k] == ps[i].anchor;
      assert TerritoryOk(sys.w, ts[m]) && TerritoryBacked(sys, ts[m]);
    }
  }

  // ---- Steps ----

  lemma {:induction false} CycleBacked(sys: System, prev: Option<Snapshot>, in': CycleInput)
    requires prev.Some? ==> WellFormed(sys.w, prev.value) && SnapshotBacked(sys, prev.value)
    requires RunCycle(sys.w, sys.cfg, prev, sys.boot, in').Ok?
    ensures SnapshotBacked(sys, RunCycle(sys.w, sys.cfg, prev, sys.boot, in').value)
  {
    hide RunCycle, Assemble, IngestLotl, Outcomes, LotlHeldBy, SignersProven, ApplyHold, DeclaredSet, ContentId, AllBacked,
         PendingBacked;
    CycleParts(sys.w, sys.cfg, prev, sys.boot, in');
    var l := IngestLotl(sys.w, sys.cfg, prev, sys.boot, in'.now, in'.up).value;
    IngestProven(sys, prev, in'.now, in'.up);
    IncomingBacked(sys, l, prev, in'.now, in'.up);
    CycleEntriesOk(sys.w, sys.cfg, l.pointers, prev, in'.now, in'.up);
    AssembledBacked(sys, prev, in', l);
  }

  lemma {:induction false} AssembledBacked(sys: System, prev: Option<Snapshot>, in': CycleInput, l: LotlResult)
    requires var ts := Map(EntryOfOutcome, Outcomes(sys.w, sys.cfg, l.pointers, prev, in'.now, in'.up));
             AllBacked(sys, ts) && TerritoriesOk(sys.w, ts)
    ensures var s := Assemble(sys.w, sys.cfg, prev, sys.boot, in', l);
            AllBacked(sys, s.territories) && PendingBacked(sys, s.pending) && Carried(s) == l
  {
    hide Assemble, Outcomes, ApplyHold, DeclaredSet, ContentId, AllBacked;
    var s, d := Assemble(sys.w, sys.cfg, prev, sys.boot, in', l), DraftOf(sys.w, sys.cfg, prev, sys.boot, in', l);
    AssembleFields(sys.w, sys.cfg, prev, sys.boot, in', l);
    ApplyHoldShape(sys.cfg, prev, d, in'.now);
    if sys.cfg.hold {
      HoldBacked(sys, ContextOf(sys.cfg, prev, in'.now), d.territories, s.pending);
    }
  }

  lemma {:induction false} ApprovedBacked(sys: System, cur: Snapshot, i: nat, at: Instant)
    requires WellFormed(sys.w, cur) && SnapshotBacked(sys, cur) && i < |cur.pending|
    ensures SnapshotBacked(sys, Approved(cur, i, at))
  {
    hide AddAnchor, LotlHeldBy, SignersProven, Approved, ContentId, Backed;
    ApprovedShape(cur, i, at);
    AddedBacked(sys, cur, i);
    var s := Approved(cur, i, at);
    assert Carried(s) == Carried(cur);
    forall j | 0 <= j < |s.pending| ensures Backed(sys, s.pending[j].anchor.territory, s.pending[j].anchor) {
      var m := if j < i then j else j + 1;
      assert s.pending[j] == cur.pending[m];
    }
  }

  lemma {:induction false} AddedBacked(sys: System, cur: Snapshot, i: nat)
    requires WellFormed(sys.w, cur) && i < |cur.pending|
    requires AllBacked(sys, cur.territories) && PendingBacked(sys, cur.pending)
    ensures AllBacked(sys, AddAnchor(cur.territories, cur.pending[i].anchor))
  {
    hide Backed, ContentId;
    var ts, a := cur.territories, cur.pending[i].anchor;
    var k := ApprovalTarget(sys.w, cur, i);
    var r := AddAnchor(ts, a);
    assert r == ts[k := WithAnchor(ts[k], a)];
    SortKeepsElements(CandidateLe, ts[k].anchors + [a]);
    forall m | 0 <= m < |r| ensures TerritoryBacked(sys, r[m]) {
      assert TerritoryBacked(sys, ts[m]);
      if m == k {
        forall j | 0 <= j < |r[k].anchors| ensures Backed(sys, r[k].code, r[k].anchors[j]) {
          assert r[k].anchors[j] in ts[k].anchors + [a];
          if r[k].anchors[j] in ts[k].anchors {
            var n :| 0 <= n < |ts[k].anchors| && ts[k].anchors[n] == r[k].anchors[j];
          }
        }
      }
    }
  }

  /** What the snapshot carries of its LOTL is what one authenticated document says: its
      sequence number, times, announcement and pointers; its digest; and no pivot it
      names is newer than the recorded progress. */
  ghost predicate LotlStated(sys: System, s: Snapshot) {
    exists p, list, doc ::
      && LotlProven(sys, p, list)
      && s.lotlSequence == list.sequence && s.lotlIssueTime == list.issueTime && s.lotlNextUpdate == list.nextUpdate
      && s.advertisedOJ == sys.w.ojReference(list.uris) && PointersMean(list, s.lotlPointers)
      && s.lotlDigest == sys.w.sha256(p.raw) && Reads(sys.w, p.raw, doc)
      && forall uri, n :: uri in doc.uris && sys.w.pivotNumber(uri) == Some(n) ==> n <= s.lotlPivotSeq
  }

  lemma {:induction false} HeldStated(sys: System, s: Snapshot)
    requires LotlHeldBy(sys, Carried(s))
    ensures LotlStated(sys, s)
  {
    hide LotlProven, PivotRefs, MaxNumber, PointersMean, PointerSet;
    var p, list :| LotlHeld(sys, Carried(s), p, list);
    var doc := Parse(sys.w, p.raw).value;
    ParseIff(sys.w, p.raw, doc);
    PointerSetExact(list);
    forall uri, n | uri in doc.uris && sys.w.pivotNumber(uri) == Some(n) ensures n <= s.lotlPivotSeq {
      var refs := PivotRefs(sys.w, doc.uris);
      RefsExact(sys.w, doc.uris);
      MaxIsMax(sys.w, doc.uris);
      assert PivotRef(uri, n) in refs;
      var i :| 0 <= i < |refs| && refs[i] == PivotRef(uri, n);
    }
  }

  ghost predicate StateBacked(sys: System, s: State) {
    && (s.active.Some? ==> SnapshotBacked(sys, s.active.value))
    && (s.stored.Some? ==> SnapshotBacked(sys, s.stored.value))
  }

  lemma {:induction false} ReconcileBacked(sys: System, s: State, file: DeclaredFile, at: Instant, saved: bool)
    requires StateBacked(sys, s)
    ensures StateBacked(sys, Reconcile(sys, s, file, at, saved))
  {
    hide RefreshDeclared, AllBacked, PendingBacked, LotlHeldBy, SignersProven, DeclaredSet, ContentId;
    if s.active.Some? && RefreshDeclared(sys.w, s.active.value, file, at).Some? {
      ReconciledFields(sys.w, s.active.value, file, at);
    }
  }

  lemma {:induction false} CycleStepBacked(sys: System, s: State, input: CycleInput, saved: bool)
    requires StateOk(sys.w, s) && StateBacked(sys, s)
    ensures StateBacked(sys, CycleStep(sys, s, input, saved))
  {
    hide RunCycle, WellFormed, SnapshotBacked, NeedsSave;
    if RunCycle(sys.w, sys.cfg, s.active, sys.boot, input).Ok? {
      CycleBacked(sys, s.active, input);
    }
  }

  lemma {:induction false} StepBacked(sys: System, s: State, step: Step)
    requires StateOk(sys.w, s) && StateBacked(sys, s)
    ensures StateBacked(sys, Next(sys, s, step))
  {
    hide CycleStep, Reconcile, WellFormed, SnapshotBacked, Approved;
    match step
    case RefreshStep(file, at, saved, input, cycleSaved) =>
      ReconcileBacked(sys, s, file, at, saved);
      ReconcileOk(sys, s, file, at, saved);
      CycleStepBacked(sys, Reconcile(sys, s, file, at, saved), input, cycleSaved);
    case ReconcileStep(file, at, saved) =>
      ReconcileBacked(sys, s, file, at, saved);
    case ApproveStep(fp, at, saved) =>
      if s.active.Some? && FindPending(s.active.value.pending, fp).Some? {
        ApprovedBacked(sys, s.active.value, FindPending(s.active.value.pending, fp).value, at);
      }
    case RestartStep =>
  }

  /** Chain of trust: after any run from an empty store with any upstream, every
      anchor served in a territory or held in Pending was extracted from a list
      verified against the pointer signers of a LOTL, and that LOTL was verified
      against a signer set linked to the bootstrap by a chain of verified pivots. */
  lemma {:induction false} ChainOfTrust(sys: System, steps: seq<Step>)
    ensures StateBacked(sys, After(sys, steps))
    ensures var s := After(sys, steps);
            && (s.active.Some? ==> LotlStated(sys, s.active.value))
            && (s.stored.Some? ==> LotlStated(sys, s.stored.value))
    decreases |steps|
  {
    hide Next, StateOk, AllBacked, PendingBacked, SignersProven, LotlHeldBy, LotlStated;
    var s := After(sys, steps);
    if steps != [] {
      var n := |steps| - 1;
      ChainOfTrust(sys, steps[..n]);
      ReachableWellFormed(sys, steps[..n]);
      StepBacked(sys, After(sys, steps[..n]), steps[n]);
      if s.active.Some? {
        HeldStated(sys, s.active.value);
      }
      if s.stored.Some? {
        HeldStated(sys, s.stored.value);
      }
    }
  }
}
