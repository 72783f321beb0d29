/** Runs from the empty store in which a stronger claim fails. */
module Witnesses {

  import opened Wrappers
  import opened Sequences
  import opened Order
  import opened Trust
  import opened World
  import opened Identity
  import opened Extraction
  import opened ExtractionSpec
  import opened Declared
  import opened Lotl
  import opened LotlSource
  import opened National
  import opened Hold
  import opened Cycle
  import opened Manager
  import opened Invariant
  import opened Reachable
  import opened HoldRuns
  import opened HoldSafety
  import opened SkipRefinement
  import opened Scenario

  // ---- One territory ----

  /** The pointer of a one-territory LOTL. */
  function Pin(signers: seq<Bytes>): ListPointer {
    ListPointer("DE", "list", signers, "")
  }

  lemma {:induction false} OnePin(signers: seq<Bytes>)
    ensures PointerSet(LotlDoc([PointsTo("DE", signers)])) == [Pin(signers)]
    ensures PointerFor([Pin(signers)], "DE") == Ok(Pin(signers))
    ensures Expand(["DE"], [Pin(signers)]) == ["DE"]
  {
    assert "DE"[0] != "EU"[0];
    OnePointer("DE", signers);
    OneCode("DE", [Pin(signers)]);
  }

  /** An entry downloaded from a page. */
  predicate FromPage(t: Territory, raw: Bytes) {
    && t.code == "DE" && !t.failed && !t.carriedOver && t.tlSequence == 1
    && t.nextUpdate == Some(10) && t.sourceDigest == Digest(raw)
  }

  /** A snapshot of one territory, downloaded from a page. */
  ghost predicate Holding1(s: Snapshot, raw: Bytes) {
    Ready(s) && |s.territories| == 1 && FromPage(s.territories[0], raw)
  }

  lemma {:induction false} Lookup1(s: Snapshot)
    requires |s.territories| == 1 && s.territories[0].code == "DE"
    ensures s.Lookup("DE") == Some(s.territories[0])
  {
  }

  function Pages(lotl: Bytes, list: Bytes): map<Requester, Bytes> {
    map[ForLotl := lotl, ForTerritory("DE") := list]
  }

  /** A page with a new digest is downloaded. */
  lemma {:induction false} DownloadDE(docs: map<Bytes, TrustedList>, cfg: Config, prev: Option<Snapshot>, lotl: Bytes, raw: Bytes, providers: seq<Provider>)
    requires raw in docs && docs[raw] == ListDoc("DE", providers)
    requires prev.Some? ==> exists was :: Holding1(prev.value, was) && was != raw
    ensures OutcomeOf(Book(docs), cfg, [Pin([SIGNER])], prev, 0, Serve(Pages(lotl, raw)))("DE")
         == Fresh(EntryOfPage(docs, cfg, "DE", raw, providers), raw, Pin([SIGNER]))
  {
    hide Digest, ContentId, EntryOfPage, ExtractEntries, IngestTerritory;
    OnePin([SIGNER]);
    var held := if prev.Some? then prev.value.Lookup("DE") else None;
    if prev.Some? {
      var was :| Holding1(prev.value, was) && was != raw;
      Lookup1(prev.value);
      if Digest(was) == Digest(raw) {
        DigestTells(was, raw);
      }
    }
    Downloaded(docs, cfg, [Pin([SIGNER])], "DE", held, Serve(Pages(lotl, raw)), raw, providers);
  }

  /** A page with the held digest is skipped, whoever the pointer pins. */
  lemma {:induction false} SkipDE(docs: map<Bytes, TrustedList>, cfg: Config, prev: Snapshot, t: Territory, lotl: Bytes, raw: Bytes, signers: seq<Bytes>)
    requires cfg.staleGrace == 0
    requires raw != [] && prev.Lookup("DE") == Some(t) && FromPage(t, raw)
    ensures OutcomeOf(Book(docs), cfg, [Pin(signers)], Some(prev), 0, Serve(Pages(lotl, raw)))("DE") == Reused(t)
  {
    hide Digest, ContentId, VerifyNational, EntryFrom;
    OnePin(signers);
    assert Digest(raw) != "" by {
      assert |Digest(raw)| == |raw|;
    }
    assert FetchNational(Book(docs), cfg, Pin(signers), "DE", Some(t), 0, Serve(Pages(lotl, raw))) == Unchanged;
  }

  /** A refresh that downloads the territory. */
  lemma {:induction false} RefreshDownloads(docs: map<Bytes, TrustedList>, hold: bool, prev: Option<Snapshot>, lotl: Bytes, raw: Bytes, providers: seq<Provider>)
    requires lotl in docs && docs[lotl] == LotlDoc([PointsTo("DE", [SIGNER])])
    requires raw in docs && docs[raw] == ListDoc("DE", providers)
    requires prev.Some? ==> exists was :: Holding1(prev.value, was) && was != raw
    ensures var cfg := Settings(["DE"], hold);
            var r := RunCycle(Book(docs), cfg, prev, BOOT, InputOf(Pages(lotl, raw)));
            && r.Ok? && Holding1(r.value, raw) && r.value.lotlPointers == [Pin([SIGNER])] && r.value.lotlDigest == Digest(lotl)
            && (!hold ==> r.value.pending == [] && r.value.territories == [EntryOfPage(docs, cfg, "DE", raw, providers)])
            && r.value.territories[0] == EntryOfPage(docs, cfg, "DE", raw, providers).(anchors := r.value.territories[0].anchors)
  {
    hide OutcomeOf, Expand, PointerSet, RunCycle, ContentId, Digest, ExtractEntries;
    var cfg := Settings(["DE"], hold);
    OnePin([SIGNER]);
    DownloadDE(docs, cfg, prev, lotl, raw, providers);
    RefreshBuilds(docs, cfg, prev, Pages(lotl, raw), [PointsTo("DE", [SIGNER])]);
  }

  /** A refresh that skips the territory. */
  lemma {:induction false} RefreshSkips(docs: map<Bytes, TrustedList>, hold: bool, prev: Snapshot, lotl: Bytes, raw: Bytes, signers: seq<Bytes>)
    requires lotl in docs && docs[lotl] == LotlDoc([PointsTo("DE", signers)])
    requires raw != [] && Holding1(prev, raw)
    ensures var cfg := Settings(["DE"], hold);
            var r := RunCycle(Book(docs), cfg, Some(prev), BOOT, InputOf(Pages(lotl, raw)));
            && r.Ok? && Holding1(r.value, raw) && r.value.lotlPointers == [Pin(signers)] && r.value.lotlDigest == Digest(lotl)
            && (!hold ==> r.value.territories == prev.territories && r.value.pending == [])
  {
    hide OutcomeOf, Expand, PointerSet, RunCycle, ContentId, Digest;
    var cfg := Settings(["DE"], hold);
    OnePin(signers);
    Lookup1(prev);
    SkipDE(docs, cfg, prev, prev.territories[0], lotl, raw, signers);
    RefreshBuilds(docs, cfg, Some(prev), Pages(lotl, raw), [PointsTo("DE", signers)]);
  }

  // ---- A digest skip drops what is held ----

  const EMPTY_LIST: Bytes := [4]
  const FULL_LIST: Bytes := [5]
  const COPY_LIST: Bytes := [10]
  const PROVIDERS := [Provider("p", [Grants("s", [])])]
  const HOLD_DOCS: map<Bytes, TrustedList> :=
    map[[0] := LotlDoc([PointsTo("DE", [SIGNER])]), EMPTY_LIST := ListDoc("DE", []), FULL_LIST := ListDoc("DE", PROVIDERS),
        COPY_LIST := ListDoc("DE", PROVIDERS)]
  const KEY: AnchorKey := ("DE", Digest(CERT))

  /** The list on the page grants the certificate. */
  lemma {:induction false} FullListLists(docs: map<Bytes, TrustedList>, cfg: Config)
    requires cfg.acceptedStatuses == ["granted"] && cfg.acceptedTypes == []
    ensures FindAnchor(EntryOfPage(docs, cfg, "DE", FULL_LIST, PROVIDERS).anchors, Digest(CERT)).Some?
  {
    hide ExtractEntries, Digest;
    var e := Entry("p", Grants("s", []));
    OneEntry("p", Grants("s", []));
    CertListed(docs, cfg, "DE", [e]);
    var anchors := ExtractEntries(Book(docs), PolicyFor(cfg), "DE", [e]).anchors;
    var i := FindAnchor(anchors, Digest(CERT)).value;
    assert Map(StampWith(1), anchors)[i].fingerprint == Digest(CERT);
  }

  lemma {:induction false} OneEntry(name: string, service: Service)
    ensures Entries([Provider(name, [service])]) == [Entry(name, service)]
  {
    var ps := [Provider(name, [service])];
    assert ProviderEntries(ps[0]) == [Entry(name, service)];
    assert Map(ProviderEntries, ps) == [[Entry(name, service)]];
    assert [[Entry(name, service)]][..0] == [];
    assert Flatten([[Entry(name, service)]]) == [] + [Entry(name, service)];
  }

  /** The anchors the granting lists give. */
  function Granted(): seq<Anchor> {
    EntryOfPage(HOLD_DOCS, Settings(["DE"], true), "DE", FULL_LIST, PROVIDERS).anchors
  }

  function Waits(a: Anchor): PendingAnchor {
    PendingAnchor(a, 0)
  }

  /** All of them waiting since the beginning. */
  function AllWaiting(): seq<PendingAnchor> {
    SortBy(PendingLe, Map(Waits, Granted()))
  }

  lemma {:induction false} HoldsEverything(h: HoldContext, t: Territory)
    requires !h.baseline && h.served == {} && h.autoRelease == 0 && h.now == 0
    requires forall k :: k in h.since ==> h.since[k] == 0
    ensures HoldTerritory(h)(t) == t.(anchors := [])
    ensures HeldFrom(h)(t) == Map(Waits, t.anchors)
  {
    HoldsAll(h, t.code, t.anchors);
  }

  lemma {:induction false} HoldsAll(h: HoldContext, code: string, anchors: seq<Anchor>)
    requires !h.baseline && h.served == {} && h.autoRelease == 0 && h.now == 0
    requires forall k :: k in h.since ==> h.since[k] == 0
    ensures Select(Keeping(h, code), anchors) == [] && Select(HoldingBack(h, code), anchors) == anchors
    ensures Map(PendingOf(h, code), anchors) == Map(Waits, anchors)
  {
    SelectNone(Keeping(h, code), anchors);
    SelectAll(HoldingBack(h, code), anchors);
  }

  /** Nothing is served and all that waits does so since the beginning. */
  ghost predicate AllHeldBack(s: Snapshot) {
    && |s.territories| == 1 && s.territories[0].anchors == []
    && forall p :: p in s.pending ==> p.firstSeen == 0
  }

  lemma {:induction false} NothingKept(s: Snapshot)
    requires AllHeldBack(s)
    ensures var h := ContextOf(Settings(["DE"], true), Some(s), 0);
            && !h.baseline && h.served == {} && h.autoRelease == 0 && h.now == 0
            && forall k :: k in h.since ==> h.since[k] == 0
  {
    hide ServedKeys, PendingSince;
    forall k ensures k !in ServedKeys(s.territories) {
      ServedKeysAt(s.territories, k);
    }
    forall k | k in PendingSince(s.pending) ensures PendingSince(s.pending)[k] == 0 {
      PendingSinceAt(s.pending, k);
    }
  }

  /** A granting list that is read puts everything on hold. */
  lemma {:induction false} ReadingHolds(prev: Snapshot, was: Bytes, raw: Bytes)
    requires raw == FULL_LIST || raw == COPY_LIST
    requires Holding1(prev, was) && was != raw && AllHeldBack(prev)
    ensures var r := RunCycle(Book(HOLD_DOCS), Settings(["DE"], true), Some(prev), BOOT, InputOf(Pages([0], raw)));
            && r.Ok? && Holding1(r.value, raw) && r.value.lotlDigest == Digest([0])
            && r.value.territories == [EntryOfPage(HOLD_DOCS, Settings(["DE"], true), "DE", raw, PROVIDERS).(anchors := [])]
            && r.value.pending == AllWaiting() && AllHeldBack(r.value)
  {
    hide RunCycle, ContentId, Digest, OutcomeOf, PointerSet, Expand, EntryOfPage, IngestLotl, Assemble, ContextOf, HoldTerritory, HeldFrom, PendingLe;
    var w, cfg, in' := Book(HOLD_DOCS), Settings(["DE"], true), InputOf(Pages([0], raw));
    var pointers := [PointsTo("DE", [SIGNER])];
    var l := PageLotl(Pages([0], raw), pointers);
    var t := EntryOfPage(HOLD_DOCS, cfg, "DE", raw, PROVIDERS);
    RefreshDownloads(HOLD_DOCS, true, Some(prev), [0], raw, PROVIDERS);
    DownloadDE(HOLD_DOCS, cfg, Some(prev), [0], raw, PROVIDERS);
    LotlAccepted(HOLD_DOCS, cfg, Some(prev), Pages([0], raw), pointers);
    OnePin([SIGNER]);
    CycleParts(w, cfg, Some(prev), BOOT, in');
    AssembleFields(w, cfg, Some(prev), BOOT, in', l);
    assert DraftOf(w, cfg, Some(prev), BOOT, in', l).territories == [t];
    NothingKept(prev);
    var h := ContextOf(cfg, Some(prev), 0);
    HoldsEverything(h, t);
    HoldOne(cfg, prev, DraftOf(w, cfg, Some(prev), BOOT, in', l), t);
    SameGrants(raw);
    AllWaitSince();
  }

  lemma {:induction false} HoldOne(cfg: Config, prev: Snapshot, d: Snapshot, t: Territory)
    requires cfg.hold && d.territories == [t] && d.pending == []
    ensures var h, r := ContextOf(cfg, Some(prev), 0), ApplyHold(cfg, Some(prev), d, 0);
            r.territories == [HoldTerritory(h)(t)] && r.pending == SortBy(PendingLe, HeldFrom(h)(t))
  {
    hide ContextOf, HoldTerritory, HeldFrom, SortBy;
    var h := ContextOf(cfg, Some(prev), 0);
    var held := HeldFrom(h)(t);
    assert Map(HeldFrom(h), [t]) == [held];
    assert [held][..0] == [];
    assert Flatten([held]) == [] + held;
    assert [] + held == held;
  }

  lemma {:induction false} SameGrants(raw: Bytes)
    ensures EntryOfPage(HOLD_DOCS, Settings(["DE"], true), "DE", raw, PROVIDERS).anchors == Granted()
    ensures EntryOfPage(HOLD_DOCS, Settings(["DE"], true), "DE", raw, PROVIDERS).skipped
         == EntryOfPage(HOLD_DOCS, Settings(["DE"], true), "DE", FULL_LIST, PROVIDERS).skipped
  {
    hide ExtractEntries, Digest;
  }

  lemma {:induction false} AllWaitSince()
    ensures forall p :: p in AllWaiting() ==> p.firstSeen == 0
    ensures KEY in PendingSince(AllWaiting())
  {
    hide Granted, PendingSince, Digest, PendingLe;
    var ps := Map(Waits, Granted());
    SortKeepsElements(PendingLe, ps);
    WaitsInDE();
    var i :| 0 <= i < |ps| && PendingKey(ps[i]) == KEY;
    assert ps[i] in AllWaiting();
    var j :| 0 <= j < |AllWaiting()| && AllWaiting()[j] == ps[i];
    PendingSinceAt(AllWaiting(), KEY);
  }

  lemma {:induction false} WaitsInDE()
    ensures exists i :: 0 <= i < |Granted()| && PendingKey(Waits(Granted()[i])) == KEY
  {
    hide ExtractEntries, Digest;
    var cfg := Settings(["DE"], true);
    FullListLists(HOLD_DOCS, cfg);
    var i := FindAnchor(Granted(), Digest(CERT)).value;
    GrantedInDE(i);
    assert PendingKey(Waits(Granted()[i])) == KEY;
  }

  lemma {:induction false} GrantedInDE(i: nat)
    requires i < |Granted()|
    ensures Granted()[i].territory == "DE"
  {
    hide ExtractEntries, Digest;
    AnchorDescribes(Book(HOLD_DOCS), PolicyFor(Settings(["DE"], true)), "DE", Entries(PROVIDERS), i);
  }

  /** A list that is skipped leaves nothing on hold. */
  lemma {:induction false} SkippingEmpties(prev: Snapshot, raw: Bytes)
    requires raw == FULL_LIST || raw == COPY_LIST
    requires Holding1(prev, raw) && AllHeldBack(prev)
    ensures var r := RunCycle(Book(HOLD_DOCS), Settings(["DE"], true), Some(prev), BOOT, InputOf(Pages([0], raw)));
            r.Ok? && Ready(r.value) && r.value.territories == prev.territories && r.value.pending == []
  {
    hide RunCycle, ContentId, Digest, OutcomeOf, PointerSet, Expand, IngestLotl, Assemble, ContextOf, HoldTerritory, HeldFrom;
    var w, cfg, in' := Book(HOLD_DOCS), Settings(["DE"], true), InputOf(Pages([0], raw));
    var pointers := [PointsTo("DE", [SIGNER])];
    var l := PageLotl(Pages([0], raw), pointers);
    RefreshSkips(HOLD_DOCS, true, prev, [0], raw, [SIGNER]);
    Lookup1(prev);
    var t := prev.territories[0];
    SkipDE(HOLD_DOCS, cfg, prev, t, [0], raw, [SIGNER]);
    LotlAccepted(HOLD_DOCS, cfg, Some(prev), Pages([0], raw), pointers);
    OnePin([SIGNER]);
    CycleParts(w, cfg, Some(prev), BOOT, in');
    AssembleFields(w, cfg, Some(prev), BOOT, in', l);
    assert DraftOf(w, cfg, Some(prev), BOOT, in', l).territories == [t];
    NothingKept(prev);
    HoldsEverything(ContextOf(cfg, Some(prev), 0), t);
    HoldOne(cfg, prev, DraftOf(w, cfg, Some(prev), BOOT, in', l), t);
    assert Map(Waits, t.anchors) == [];
  }

  lemma {:induction false} PageCode(docs: map<Bytes, TrustedList>, cfg: Config, raw: Bytes, providers: seq<Provider>)
    ensures EntryOfPage(docs, cfg, "DE", raw, providers).code == "DE"
  {
  }

  /** The first cycle serves an empty list. */
  lemma {:induction false} EmptyBaseline()
    ensures var r := RunCycle(Book(HOLD_DOCS), Settings(["DE"], true), None, BOOT, InputOf(Pages([0], EMPTY_LIST)));
            r.Ok? && Holding1(r.value, EMPTY_LIST) && r.value.territories[0].anchors == [] && r.value.pending == []
  {
    hide RunCycle, ContentId, Digest, ServedKeys, OutcomeOf, PointerSet, Expand, EntryOfPage;
    var w, cfg, in' := Book(HOLD_DOCS), Settings(["DE"], true), InputOf(Pages([0], EMPTY_LIST));
    RefreshDownloads(HOLD_DOCS, true, None, [0], EMPTY_LIST, []);
    DownloadDE(HOLD_DOCS, cfg, None, [0], EMPTY_LIST, []);
    LotlAccepted(HOLD_DOCS, cfg, None, Pages([0], EMPTY_LIST), [PointsTo("DE", [SIGNER])]);
    OnePin([SIGNER]);
    var s := RunCycle(w, cfg, None, BOOT, in').value;
    RunHoldDecides(w, cfg, None, BOOT, in');
    var l := PageLotl(Pages([0], EMPTY_LIST), [PointsTo("DE", [SIGNER])]);
    var ts := Incoming(w, cfg, None, in', l);
    assert ts == [EntryOfPage(HOLD_DOCS, cfg, "DE", EMPTY_LIST, [])];
    EmptyPage(HOLD_DOCS, cfg, EMPTY_LIST);
    forall key ensures key !in ServedKeys(ts) {
      ServedKeysAt(ts, key);
    }
    NoKeysNothing(s);
  }

  lemma {:induction false} EmptyPage(docs: map<Bytes, TrustedList>, cfg: Config, raw: Bytes)
    ensures EntryOfPage(docs, cfg, "DE", raw, []).anchors == []
  {
    assert Entries([]) == [];
    var w, p := Book(docs), PolicyFor(cfg);
    assert Candidates(w, p, "DE", []) == [];
  }

  lemma {:induction false} NoKeysNothing(s: Snapshot)
    requires |s.territories| == 1
    requires forall key :: key !in ServedKeys(s.territories) && key !in PendingSince(s.pending)
    ensures s.territories[0].anchors == [] && s.pending == []
  {
    hide ServedKeys, PendingSince;
    if s.pending != [] {
      PendingSinceAt(s.pending, PendingKey(s.pending[0]));
    }
    var t := s.territories[0];
    if t.anchors != [] {
      ServedKeysAt(s.territories, (t.code, t.anchors[0].fingerprint));
    }
  }

  function HoldRun(): System {
    Running(HOLD_DOCS, Settings(["DE"], true))
  }

  /** A baseline without the certificate, then a refresh that finds it. */
  function HoldSteps(): seq<Step> {
    [Refreshing(Pages([0], EMPTY_LIST), true), Refreshing(Pages([0], FULL_LIST), true)]
  }

  lemma {:induction false} WaitingIsChange(s: Snapshot, t: Snapshot)
    requires s.pending == [] && t.pending == AllWaiting()
    ensures NeedsSave(Some(s), t)
  {
    hide AllWaiting, PendingSince, Digest;
    AllWaitSince();
    PendingSinceAt(AllWaiting(), KEY);
  }

  lemma {:induction false} NewcomerRun()
    ensures var s := After(HoldRun(), HoldSteps());
            && s.active.Some? && s.stored == s.active && WellFormed(Book(HOLD_DOCS), s.active.value)
            && Holding1(s.active.value, FULL_LIST) && AllHeldBack(s.active.value)
            && s.active.value.lotlDigest == Digest([0])
            && s.active.value.territories == [EntryOfPage(HOLD_DOCS, Settings(["DE"], true), "DE", FULL_LIST, PROVIDERS).(anchors := [])]
            && s.active.value.pending == AllWaiting() && KEY in Waiting(s)
  {
    hide RunCycle, ContentId, Digest, PendingSince, Refreshing, Pages, WellFormed, NeedsSave, Settings, AllWaiting, EntryOfPage;
    var cfg := Settings(["DE"], true);
    var one, two := Refreshing(Pages([0], EMPTY_LIST), true), Refreshing(Pages([0], FULL_LIST), true);
    EmptyBaseline();
    assert After(HoldRun(), []) == State(None, None);
    RunsOn(HOLD_DOCS, cfg, [], Pages([0], EMPTY_LIST), true);
    assert [] + [one] == [one];
    var s1 := After(HoldRun(), [one]).active.value;
    assert EMPTY_LIST[0] != FULL_LIST[0];
    ReadingHolds(s1, EMPTY_LIST, FULL_LIST);
    RunsOn(HOLD_DOCS, cfg, [one], Pages([0], FULL_LIST), true);
    assert [one] + [two] == HoldSteps();
    WaitingIsChange(s1, After(HoldRun(), HoldSteps()).active.value);
    ReachableWellFormed(HoldRun(), HoldSteps());
    AllWaitSince();
  }

  /** The third refresh finds the same bytes, still granting the certificate. Reading
      their digest it drops the waiting anchor: neither pending nor served. Reading
      the bytes it keeps it. */
  lemma {:induction false} SkipDropsHeld()
    ensures var s := After(HoldRun(), HoldSteps());
            var skipping, reading := InputOf(Pages([0], FULL_LIST)), InputOf(Pages([0], FULL_LIST)).(up := Silent(Serve(Pages([0], FULL_LIST))));
            var dropped := Next(HoldRun(), s, RefreshStep(NotConfigured, 0, true, skipping, true));
            var kept := Next(HoldRun(), s, RefreshStep(NotConfigured, 0, true, reading, true));
            && CollisionFree(HoldRun().w)
            && KEY in Waiting(s)
            && KEY !in Waiting(dropped) && KEY !in Served(dropped)
            && KEY in Waiting(kept)
  {
    BookCollisionFree(HOLD_DOCS);
    hide CollisionFree, Book, AllWaiting, EntryOfPage;
    hide RunCycle, ContentId, Digest, PendingSince, ServedKeys, WellFormed, NeedsSave, After, Reconcile, Served, Waiting;
    var s := After(HoldRun(), HoldSteps());
    NewcomerRun();
    QuietReconcile(HoldRun(), s);
    WaitingIs(s);
    SkippingEmpties(s.active.value, FULL_LIST);
    NothingThere(RunCycle(Book(HOLD_DOCS), Settings(["DE"], true), s.active, BOOT, InputOf(Pages([0], FULL_LIST))).value);
    ReadingKeeps(s.active.value);
    var skipping, reading := InputOf(Pages([0], FULL_LIST)), InputOf(Pages([0], FULL_LIST)).(up := Silent(Serve(Pages([0], FULL_LIST))));
    WaitingIs(Next(HoldRun(), s, RefreshStep(NotConfigured, 0, true, skipping, true)));
    WaitingIs(Next(HoldRun(), s, RefreshStep(NotConfigured, 0, true, reading, true)));
  }

  lemma {:induction false} NothingThere(s: Snapshot)
    requires |s.territories| == 1 && s.territories[0].anchors == [] && s.pending == []
    ensures KEY !in PendingSince(s.pending) && KEY !in ServedKeys(s.territories)
  {
    ServedKeysAt(s.territories, KEY);
  }

  lemma {:induction false} WaitingIs(s: State)
    requires s.active.Some?
    ensures Waiting(s) == PendingSince(s.active.value.pending) && Served(s) == ServedKeys(s.active.value.territories)
  {
  }

  lemma {:induction false} ReadingKeeps(prev: Snapshot)
    requires WellFormed(Book(HOLD_DOCS), prev) && Holding1(prev, FULL_LIST) && KEY in PendingSince(prev.pending)
    ensures var in' := InputOf(Pages([0], FULL_LIST)).(up := Silent(Serve(Pages([0], FULL_LIST))));
            var r := RunCycle(Book(HOLD_DOCS), Settings(["DE"], true), Some(prev), BOOT, in');
            r.Ok? && KEY in PendingSince(r.value.pending)
  {
    hide RunCycle, ContentId, Digest, PendingSince, ServedKeys, WellFormed, OutcomeOf, PointerSet, Incoming, Expand;
    var w, cfg := Book(HOLD_DOCS), Settings(["DE"], true);
    var loud := InputOf(Pages([0], FULL_LIST));
    var in' := loud.(up := Silent(loud.up));
    OnePin([SIGNER]);
    var l := PageLotl(Pages([0], FULL_LIST), [PointsTo("DE", [SIGNER])]);
    SilentLotl(prev);
    SilentDE(prev);
    CycleSucceeds(w, cfg, Some(prev), BOOT, in', l, 0);
    RunHoldDecides(w, cfg, Some(prev), BOOT, in');
    IncomingListsKey(prev);
    PendingNotServed(w, prev, KEY);
  }

  lemma {:induction false} IncomingListsKey(prev: Snapshot)
    requires Holding1(prev, FULL_LIST)
    ensures var loud := InputOf(Pages([0], FULL_LIST));
            KEY in ServedKeys(Incoming(Book(HOLD_DOCS), Settings(["DE"], true), Some(prev), loud.(up := Silent(loud.up)),
                                       PageLotl(Pages([0], FULL_LIST), [PointsTo("DE", [SIGNER])])))
  {
    hide ContentId, Digest, ServedKeys, OutcomeOf, PointerSet, EntryOfPage, Expand;
    var w, cfg := Book(HOLD_DOCS), Settings(["DE"], true);
    var loud := InputOf(Pages([0], FULL_LIST));
    var l := PageLotl(Pages([0], FULL_LIST), [PointsTo("DE", [SIGNER])]);
    OnePin([SIGNER]);
    SilentDE(prev);
    var ts := Incoming(w, cfg, Some(prev), loud.(up := Silent(loud.up)), l);
    assert ts == [EntryOfPage(HOLD_DOCS, cfg, "DE", FULL_LIST, PROVIDERS)];
    PageCode(HOLD_DOCS, cfg, FULL_LIST, PROVIDERS);
    FullListLists(HOLD_DOCS, cfg);
    assert Map(TerritoryCode, ts) == ["DE"];
    EntryKey(ts, 0, KEY);
  }

  lemma {:induction false} SilentLotl(prev: Snapshot)
    requires Ready(prev)
    ensures IngestLotl(Book(HOLD_DOCS), Settings(["DE"], true), Some(prev), BOOT, 0, Silent(Serve(Pages([0], FULL_LIST))))
         == Ok(PageLotl(Pages([0], FULL_LIST), [PointsTo("DE", [SIGNER])]))
  {
    hide ContentId, Digest, PointerSet;
    var w, cfg, pages := Book(HOLD_DOCS), Settings(["DE"], true), Pages([0], FULL_LIST);
    LotlAccepted(HOLD_DOCS, cfg, Some(prev), pages, [PointsTo("DE", [SIGNER])]);
    assert FetchLotl(w, cfg, Some(prev), 0, Silent(Serve(pages))) == FetchLotl(w, cfg, Some(prev), 0, Serve(pages));
    assert PivotRefs(w, []) == [];
  }

  lemma {:induction false} SilentDE(prev: Snapshot)
    requires Holding1(prev, FULL_LIST)
    ensures var cfg := Settings(["DE"], true);
            OutcomeOf(Book(HOLD_DOCS), cfg, [Pin([SIGNER])], Some(prev), 0, Silent(Serve(Pages([0], FULL_LIST))))("DE")
            == Fresh(EntryOfPage(HOLD_DOCS, cfg, "DE", FULL_LIST, PROVIDERS), FULL_LIST, Pin([SIGNER]))
  {
    hide Digest, ContentId, EntryOfPage, ExtractEntries, IngestTerritory;
    OnePin([SIGNER]);
    Lookup1(prev);
    Downloaded(HOLD_DOCS, Settings(["DE"], true), [Pin([SIGNER])], "DE", Some(prev.territories[0]), Silent(Serve(Pages([0], FULL_LIST))),
               FULL_LIST, PROVIDERS);
  }

  // ---- A restart decides whether a waiting anchor survives ----

  /** The list is republished with other bytes and the same content. */
  function CopySteps(): seq<Step> {
    HoldSteps() + [Refreshing(Pages([0], COPY_LIST), true)]
  }

  /** The copy changes nothing that is compared. */
  lemma {:induction false} CopyIsQuiet(s: Snapshot, t: Snapshot)
    requires Ready(s) && Ready(t) && s.lotlDigest == t.lotlDigest && s.pending == t.pending
    requires var cfg := Settings(["DE"], true);
             && s.territories == [EntryOfPage(HOLD_DOCS, cfg, "DE", FULL_LIST, PROVIDERS).(anchors := [])]
             && t.territories == [EntryOfPage(HOLD_DOCS, cfg, "DE", COPY_LIST, PROVIDERS).(anchors := [])]
    ensures !NeedsSave(Some(s), t)
  {
    hide Digest, ExtractEntries, Entries, ContentId, FindTerritory;
    SameGrants(COPY_LIST);
    Lookup1(s);
    OneEntryIds(s, t);
    assert SkippedEqual(s.territories[0].skipped, t.territories[0].skipped);
    assert HealthKept(s, t.territories[0]);
  }

  /** Digests, skips and health are outside the id. */
  lemma {:induction false} OneEntryIds(s: Snapshot, t: Snapshot)
    requires Ready(s) && Ready(t) && s.pending == t.pending
    requires |s.territories| == |t.territories| == 1
    requires var x, y := s.territories[0], t.territories[0];
             !x.failed && !y.failed && x.code == y.code && x.tlSequence == y.tlSequence && x.anchors == y.anchors
    ensures s.id == t.id
  {
    hide SortBy, ProjectAnchor, Select;
    var x, y := s.territories[0], t.territories[0];
    assert ProjectTerritory(x) == ProjectTerritory(y);
    SelectAll(HasData, s.territories);
    SelectAll(HasData, t.territories);
    assert Map(ProjectTerritory, s.territories) == Map(ProjectTerritory, t.territories);
  }

  lemma {:induction false} CopyRun()
    ensures var s := After(HoldRun(), CopySteps());
            && s.active.Some? && s.stored.Some?
            && Holding1(s.active.value, COPY_LIST) && Holding1(s.stored.value, FULL_LIST)
            && AllHeldBack(s.active.value) && AllHeldBack(s.stored.value)
            && s.active.value.pending == AllWaiting() && s.stored.value.pending == AllWaiting()
  {
    hide After, RunCycle, ContentId, Digest, Refreshing, Pages, WellFormed, NeedsSave, Settings, AllWaiting, EntryOfPage, HoldSteps, Waiting;
    NewcomerRun();
    var s := After(HoldRun(), HoldSteps());
    assert FULL_LIST[0] != COPY_LIST[0];
    ReadingHolds(s.active.value, FULL_LIST, COPY_LIST);
    RunsOn(HOLD_DOCS, Settings(["DE"], true), HoldSteps(), Pages([0], COPY_LIST), true);
    CopyIsQuiet(s.active.value, After(HoldRun(), CopySteps()).active.value);
  }

  lemma {:induction false} ServedTruthfully(pages: map<Requester, Bytes>)
    ensures Truthful(Book(HOLD_DOCS), Serve(pages))
  {
    hide Digest;
  }

  function LastStep(): Step {
    Refreshing(Pages([0], COPY_LIST), true)
  }

  /** The next refresh, without and with a restart before it. */
  function Onward(): State {
    After(HoldRun(), CopySteps() + [LastStep()])
  }

  function Restarted(): State {
    After(HoldRun(), CopySteps() + [RestartStep] + [LastStep()])
  }

  lemma {:induction false} OnwardDrops()
    ensures var s := Onward(); s.active.Some? && Ready(s.active.value) && s.active.value.pending == [] && KEY !in Waiting(s) && KEY !in Served(s)
  {
    hide After, RunCycle, ContentId, Digest, Pages, NeedsSave, Settings, AllWaiting, CopySteps, Waiting, Served, Book, AllHeldBack;
    var s := After(HoldRun(), CopySteps());
    CopyRun();
    SkippingEmpties(s.active.value, COPY_LIST);
    RunsOn(HOLD_DOCS, Settings(["DE"], true), CopySteps(), Pages([0], COPY_LIST), true);
    WaitingIs(Onward());
    HeldShape(s.active.value);
    NothingThere(Onward().active.value);
  }

  lemma {:induction false} AfterRestart()
    ensures var s := After(HoldRun(), CopySteps() + [RestartStep]);
            s.active.Some? && Holding1(s.active.value, FULL_LIST) && AllHeldBack(s.active.value)
  {
    hide After, Digest, AllWaiting, CopySteps, AllHeldBack, ContentId;
    CopyRun();
    AfterOneMore(HoldRun(), CopySteps(), RestartStep);
  }

  lemma {:induction false} RestartedKeeps()
    ensures var s := Restarted(); s.active.Some? && Ready(s.active.value) && s.active.value.pending == AllWaiting() && KEY in Waiting(s)
  {
    hide After, RunCycle, ContentId, Digest, Pages, NeedsSave, Settings, AllWaiting, CopySteps, Waiting, Served, Book, AllHeldBack, PendingSince,
         EntryOfPage;
    AfterRestart();
    var s := After(HoldRun(), CopySteps() + [RestartStep]);
    assert FULL_LIST[0] != COPY_LIST[0];
    ReadingHolds(s.active.value, FULL_LIST, COPY_LIST);
    RunsOn(HOLD_DOCS, Settings(["DE"], true), CopySteps() + [RestartStep], Pages([0], COPY_LIST), true);
    WaitingIs(Restarted());
    AllWaitSince();
  }

  lemma {:induction false} CopyWaits()
    ensures KEY in Waiting(After(HoldRun(), CopySteps()))
  {
    hide After, Digest, AllWaiting, CopySteps, Waiting, PendingSince, AllHeldBack;
    CopyRun();
    AllWaitSince();
    WaitingIs(After(HoldRun(), CopySteps()));
  }

  /** Every save succeeds. A waiting anchor's list is republished as other bytes, which
      is served and not saved. The next refresh finds those bytes again: it drops the
      anchor, and with a restart in between it keeps it, under another id. */
  lemma {:induction false} RestartDecides()
    ensures CollisionFree(HoldRun().w) && Truthful(HoldRun().w, LastStep().input.up)
    ensures AllSaved(CopySteps() + [RestartStep] + [LastStep()]) && Settled(HoldRun(), CopySteps())
    ensures KEY in Waiting(After(HoldRun(), CopySteps()))
    ensures KEY !in Waiting(Onward()) && KEY !in Served(Onward())
    ensures KEY in Waiting(Restarted())
    ensures Onward().active.Some? && Restarted().active.Some? && Onward().active.value.id != Restarted().active.value.id
  {
    BookCollisionFree(HOLD_DOCS);
    ServedTruthfully(Pages([0], COPY_LIST));
    hide CollisionFree, Truthful, Book, Settled, AllSaved, Onward, Restarted, Waiting, Served, ContentId, Digest, AllWaiting, CopySteps, After;
    CopyWaits();
    OnwardDrops();
    RestartedKeeps();
    PendingInId(Onward().active.value, Restarted().active.value);
    CopySaved();
    AllSavedSettles(HoldRun(), CopySteps());
  }

  lemma {:induction false} HeldShape(s: Snapshot)
    requires AllHeldBack(s)
    ensures |s.territories| == 1 && s.territories[0].anchors == []
  {
  }

  lemma {:induction false} PendingInId(s: Snapshot, t: Snapshot)
    requires Ready(s) && Ready(t) && s.pending == [] && t.pending == AllWaiting()
    ensures s.id != t.id
  {
    hide AllWaiting, PendingSince, Digest;
    AllWaitSince();
    PendingSinceAt(AllWaiting(), KEY);
    assert |ContentId(s).pending| == 0 && |ContentId(t).pending| == |t.pending|;
  }

  lemma {:induction false} CopySaved()
    ensures AllSaved(CopySteps())
    ensures AllSaved(CopySteps() + [RestartStep] + [Refreshing(Pages([0], COPY_LIST), true)])
  {
    hide Digest;
  }

  // ---- A failed save is not retried ----

  lemma {:induction false} UnchangedIsQuiet(s: Snapshot, t: Snapshot)
    requires Holding1(s, FULL_LIST) && Ready(t) && s.territories == t.territories && s.pending == t.pending && s.lotlDigest == t.lotlDigest
    ensures !NeedsSave(Some(s), t)
  {
    hide Digest, ContentId, FindTerritory;
    Lookup1(s);
    OneEntryIds(s, t);
    assert HealthKept(s, t.territories[0]);
  }

  /** The key is served by the entry of a granting page. */
  lemma {:induction false} GrantServed(docs: map<Bytes, TrustedList>, hold: bool, s: Snapshot)
    requires s.territories == [EntryOfPage(docs, Settings(["DE"], hold), "DE", FULL_LIST, PROVIDERS)]
    ensures KEY in ServedKeys(s.territories)
  {
    hide ServedKeys, EntryOfPage, Digest;
    FullListLists(docs, Settings(["DE"], hold));
    PageCode(docs, Settings(["DE"], hold), FULL_LIST, PROVIDERS);
    assert Map(TerritoryCode, s.territories) == ["DE"];
    EntryKey(s.territories, 0, KEY);
  }

  function AutoRun(): System {
    Running(HOLD_DOCS, Settings(["DE"], false))
  }

  /** The comment beside the save promises a retry by the next cycle. Here the first
      save fails, the next cycle, with a working store, saves nothing, and a restart
      loses the anchor both cycles served. */
  lemma {:induction false} FailedSaveNotRetried()
    ensures var one, two := Refreshing(Pages([0], FULL_LIST), false), Refreshing(Pages([0], FULL_LIST), true);
            var s := After(AutoRun(), [one, two]);
            && KEY in Served(After(AutoRun(), [one])) && KEY in Served(s) && s.stored == None
            && KEY !in Served(Next(AutoRun(), s, RestartStep)) && Next(AutoRun(), s, RestartStep).active == None
  {
    hide RunCycle, Ready, NeedsSave, Refreshing, Pages, EntryOfPage, Settings, ServedKeys;
    var cfg, pages := Settings(["DE"], false), Pages([0], FULL_LIST);
    var one, two := Refreshing(pages, false), Refreshing(pages, true);
    RefreshDownloads(HOLD_DOCS, false, None, [0], FULL_LIST, PROVIDERS);
    assert After(AutoRun(), []) == State(None, None);
    RunsOn(HOLD_DOCS, cfg, [], pages, false);
    assert [] + [one] == [one];
    var s1 := After(AutoRun(), [one]).active.value;
    RefreshSkips(HOLD_DOCS, false, s1, [0], FULL_LIST, [SIGNER]);
    RunsOn(HOLD_DOCS, cfg, [one], pages, true);
    assert [one] + [two] == [one, two];
    UnchangedIsQuiet(s1, After(AutoRun(), [one, two]).active.value);
    GrantServed(HOLD_DOCS, false, s1);
  }

  // ---- Duplicates narrow an unrestricted anchor ----

  const FOR_SIGNATURES := ServiceExtension(Some(ASI_SIGNATURES), [])
  const UNRESTRICTED := Entry("p", Grants("a", []))
  const RESTRICTED := Entry("p", Grants("b", [FOR_SIGNATURES]))

  lemma {:induction false} RestrictedUses()
    ensures ServiceUses([]) == [] && ServiceUses([FOR_SIGNATURES]) == [USE_SIGNATURE]
  {
    assert [FOR_SIGNATURES][..0] == [];
  }

  /** The uses a list gives CERT. */
  lemma {:induction false} UsesGranted(p: Policy, entries: seq<Entry>)
    requires p == PolicyFor(Settings([], false))
    requires forall e :: e in entries ==> e == UNRESTRICTED || e == RESTRICTED
    ensures UsesOf(Book(map[]), p, entries, Digest(CERT)) == if RESTRICTED in entries then {USE_SIGNATURE} else {}
  {
    hide Digest, ServiceUses, PolicyFor, Extraction.Accepted;
    var w := Book(map[]);
    RestrictedUses();
    if RESTRICTED in entries {
      GrantedAccepted(Settings([], false), RESTRICTED);
      GrantsLists(map[], RESTRICTED, "b", [FOR_SIGNATURES]);
      assert Contributes(w, p, entries, RESTRICTED, Digest(CERT));
      assert USE_SIGNATURE in ServiceUses(RESTRICTED.service.extensions);
    }
  }

  lemma {:induction false} UsesFromList(entries: seq<Entry>) returns (a: Anchor)
    requires entries != [] && forall e :: e in entries ==> e == UNRESTRICTED || e == RESTRICTED
    ensures var anchors := ExtractEntries(Book(map[]), PolicyFor(Settings([], false)), "DE", entries).anchors;
            a in anchors && a.fingerprint == Digest(CERT)
    ensures Elements(a.uses) == if RESTRICTED in entries then {USE_SIGNATURE} else {}
  {
    hide ExtractEntries, Digest, ServiceUses, PolicyFor, UsesOf;
    var w, p := Book(map[]), PolicyFor(Settings([], false));
    forall e | e in entries ensures exists name, exts :: e.service == Grants(name, exts) {
    }
    CertListed(map[], Settings([], false), "DE", entries);
    var anchors := ExtractEntries(w, p, "DE", entries).anchors;
    var i := FindAnchor(anchors, Digest(CERT)).value;
    a := anchors[i];
    AnchorDescribes(w, p, "DE", entries, i);
    UsesGranted(p, entries);
  }

  /** A list that grants a certificate for every use serves seals with it; adding a
      second entry, for signatures, takes that away. */
  lemma {:induction false} MergeNarrows() returns (before: Anchor, after: Anchor)
    ensures var w, p := Book(map[]), PolicyFor(Settings([], false));
            && before in ExtractEntries(w, p, "DE", [UNRESTRICTED]).anchors
            && after in ExtractEntries(w, p, "DE", [UNRESTRICTED, RESTRICTED]).anchors
    ensures before.fingerprint == after.fingerprint == Digest(CERT)
    ensures before.MatchesUse(USE_SEAL) && !after.MatchesUse(USE_SEAL)
  {
    hide ExtractEntries, Digest;
    assert UNRESTRICTED.service.name[0] != RESTRICTED.service.name[0];
    before := UsesFromList([UNRESTRICTED]);
    after := UsesFromList([UNRESTRICTED, RESTRICTED]);
    assert RESTRICTED in [UNRESTRICTED, RESTRICTED];
    EmptyUses(before);
    assert USE_SEAL[1] != USE_SIGNATURE[1];
    assert USE_SEAL !in Elements(after.uses) && USE_SIGNATURE in Elements(after.uses);
    assert UseAlias(USE_SEAL) == USE_SEAL by {
      assert USE_SEAL[0] != USE_AUTHENTICATION[0];
    }
  }
}
