/** Runs from the empty store in which a change goes unreported, or is reported in an
    order that depends on how a map is read. */
module ReportWitnesses {

  import opened Wrappers
  import opened Sequences
  import opened Order
  import opened Trust
  import opened World
  import opened Identity
  import opened Differences
  import opened Extraction
  import opened ExtractionSpec
  import opened Declared
  import opened Lotl
  import opened LotlSource
  import opened National
  import opened Cycle
  import opened Hold
  import opened Manager
  import opened Invariant
  import opened Reachable
  import opened DiffOrder
  import opened Scenario
  import opened Witnesses

  // ---- A failed territory leaves the set ----

  const FEWER_LOTL: Bytes := [6]
  const BOTH := [PointsTo("DE", [SIGNER]), PointsTo("FR", [SIGNER])]
  const GROUP_DOCS: map<Bytes, TrustedList> :=
    map[[0] := LotlDoc(BOTH), FEWER_LOTL := LotlDoc([PointsTo("DE", [SIGNER])]), EMPTY_LIST := ListDoc("DE", [])]
  const FR_PIN := ListPointer("FR", "list", [SIGNER], "")

  function GroupConfig(): Config {
    Settings(["EU"], false)
  }

  function DeEntry(): Territory {
    EntryOfPage(GROUP_DOCS, GroupConfig(), "DE", EMPTY_LIST, [])
  }

  function FrEntry(): Territory {
    EmptyEntry("FR", FetchFailed("down"))
  }

  lemma {:induction false} GroupExpands(ps: seq<ListPointer>)
    ensures Expand(["EU"], ps) == SortBy(TextLe, MergeLists([], Map(PointerTerritory, ps)))
  {
    hide SortBy, MergeLists;
    assert ["EU"][..0] == [];
    assert ExpandList([], ps) == [];
  }

  lemma {:induction false} GroupLists()
    ensures MergeLists([], ["DE"]) == ["DE"] && MergeLists([], ["DE", "FR"]) == ["DE", "FR"]
  {
    assert "DE"[0] != "FR"[0];
    assert ["DE", "FR"][..1] == ["DE"] && ["DE"][..0] == [];
  }

  lemma {:induction false} BothCodes()
    ensures Expand(["EU"], [Pin([SIGNER]), FR_PIN]) == ["DE", "FR"]
  {
    hide Expand, MergeLists, SortBy, TextLe;
    var ps := [Pin([SIGNER]), FR_PIN];
    GroupExpands(ps);
    GroupLists();
    TwoSorted();
    assert Map(PointerTerritory, ps) == ["DE", "FR"];
  }

  lemma {:induction false} FewerCodes()
    ensures Expand(["EU"], [Pin([SIGNER])]) == ["DE"]
  {
    hide Expand, MergeLists;
    var ps := [Pin([SIGNER])];
    GroupExpands(ps);
    GroupLists();
    assert Map(PointerTerritory, ps) == ["DE"];
    assert ["DE"][..0] == [];
  }

  lemma {:induction false} FrIsDown()
    ensures OutcomeOf(Book(GROUP_DOCS), GroupConfig(), [Pin([SIGNER]), FR_PIN], None, 0, Serve(Pages([0], EMPTY_LIST)))("FR")
         == FailedEntry(FrEntry(), FetchFailed("down"))
  {
    hide Digest, VerifyNational, EntryFrom;
    var ps := [Pin([SIGNER]), FR_PIN];
    assert "DE"[0] != "FR"[0];
    assert ps[1..] == [FR_PIN];
    assert PointerFor([FR_PIN], "FR") == Ok(FR_PIN);
    assert PointerFor(ps, "FR") == Ok(FR_PIN);
    assert ForTerritory("FR") !in Pages([0], EMPTY_LIST);
  }

  lemma {:induction false} DeIsUp()
    ensures OutcomeOf(Book(GROUP_DOCS), GroupConfig(), [Pin([SIGNER]), FR_PIN], None, 0, Serve(Pages([0], EMPTY_LIST)))("DE")
         == Fresh(DeEntry(), EMPTY_LIST, Pin([SIGNER]))
  {
    hide Digest, ExtractEntries, IngestTerritory;
    assert PointerFor([Pin([SIGNER]), FR_PIN], "DE") == Ok(Pin([SIGNER]));
    Downloaded(GROUP_DOCS, GroupConfig(), [Pin([SIGNER]), FR_PIN], "DE", None, Serve(Pages([0], EMPTY_LIST)), EMPTY_LIST, []);
  }

  lemma {:induction false} GroupFirst()
    ensures var r := RunCycle(Book(GROUP_DOCS), GroupConfig(), None, BOOT, InputOf(Pages([0], EMPTY_LIST)));
            r.Ok? && Ready(r.value) && r.value.territories == [DeEntry(), FrEntry()] && r.value.pending == []
  {
    hide OutcomeOf, Expand, PointerSet, RunCycle, ContentId, Digest, ExtractEntries, EntryOfPage;
    TwoPointers([SIGNER]);
    BothCodes();
    DeIsUp();
    FrIsDown();
    RefreshBuilds(GROUP_DOCS, GroupConfig(), None, Pages([0], EMPTY_LIST), BOTH);
  }

  lemma {:induction false} GroupSecond(prev: Snapshot)
    requires Ready(prev) && prev.territories == [DeEntry(), FrEntry()]
    ensures var r := RunCycle(Book(GROUP_DOCS), GroupConfig(), Some(prev), BOOT, InputOf(Pages(FEWER_LOTL, EMPTY_LIST)));
            r.Ok? && Ready(r.value) && r.value.territories == [DeEntry()] && r.value.pending == []
  {
    hide OutcomeOf, Expand, PointerSet, RunCycle, ContentId, Digest, ExtractEntries;
    OnePin([SIGNER]);
    FewerCodes();
    assert prev.Lookup("DE") == Some(DeEntry());
    SkipDE(GROUP_DOCS, GroupConfig(), prev, DeEntry(), FEWER_LOTL, EMPTY_LIST, [SIGNER]);
    RefreshBuilds(GROUP_DOCS, GroupConfig(), Some(prev), Pages(FEWER_LOTL, EMPTY_LIST), [PointsTo("DE", [SIGNER])]);
  }

  lemma {:induction false} PageFields(de: Territory)
    requires de == DeEntry()
    ensures de.code == "DE" && !de.failed
  {
  }

  /** Failed entries are outside the id. */
  lemma {:induction false} FailedOutsideId(s: Snapshot, t: Snapshot, de: Territory, fr: Territory)
    requires Ready(s) && Ready(t) && s.pending == t.pending == []
    requires s.territories == [de, fr] && t.territories == [de] && !de.failed && fr.failed
    ensures s.id == t.id
  {
    assert [de, fr][..1] == [de] && [de][..0] == [];
    assert Select(HasData, [de]) == [de];
    assert Select(HasData, [de, fr]) == [de];
  }

  lemma {:induction false} VanishedIsQuiet(s: Snapshot, t: Snapshot)
    requires Ready(s) && Ready(t) && s.pending == t.pending == []
    requires s.territories == [DeEntry(), FrEntry()] && t.territories == [DeEntry()]
    ensures !CycleChanged(Some(s), t)
    ensures s.Lookup("FR") == Some(FrEntry()) && t.Lookup("FR") == None
  {
    hide Digest, ExtractEntries, ContentId, EntryOfPage;
    assert "DE"[0] != "FR"[0];
    var de, fr := DeEntry(), FrEntry();
    PageFields(de);
    assert [de, fr][1..] == [fr] && [de][1..] == [];
    assert FindTerritory([fr], "FR") == Some(fr);
    assert s.Lookup("DE") == Some(de);
    assert HealthKept(s, de);
    FailedOutsideId(s, t, de, fr);
  }

  /** The LOTL is republished, under the same sequence, without the pointer of a
      territory that had failed. The entry is gone, and no change is reported. */
  lemma {:induction false} FailedEntryVanishes()
    ensures var sys := Running(GROUP_DOCS, GroupConfig());
            var one, two := Refreshing(Pages([0], EMPTY_LIST), true), Refreshing(Pages(FEWER_LOTL, EMPTY_LIST), true);
            var s, t := After(sys, [one]).active, After(sys, [one, two]).active;
            && s.Some? && t.Some? && !CycleChanged(s, t.value)
            && s.value.Lookup("FR") == Some(FrEntry()) && t.value.Lookup("FR") == None
  {
    hide RunCycle, CycleChanged, Ready, Refreshing, Pages, FindTerritory, EntryOfPage, Settings;
    var sys := Running(GROUP_DOCS, GroupConfig());
    var one, two := Refreshing(Pages([0], EMPTY_LIST), true), Refreshing(Pages(FEWER_LOTL, EMPTY_LIST), true);
    GroupFirst();
    assert After(sys, []) == State(None, None);
    RunsOn(GROUP_DOCS, GroupConfig(), [], Pages([0], EMPTY_LIST), true);
    assert [] + [one] == [one];
    var s := After(sys, [one]).active.value;
    GroupSecond(s);
    RunsOn(GROUP_DOCS, GroupConfig(), [one], Pages(FEWER_LOTL, EMPTY_LIST), true);
    assert [one] + [two] == [one, two];
    VanishedIsQuiet(s, After(sys, [one, two]).active.value);
  }

  // ---- Two skips pass for one another ----

  const LIST_ONE: Bytes := [8]
  const LIST_TWO: Bytes := [9]

  function Nameless(name: string): Service {
    Service(name, SERVICE_TYPE_CAQC, GRANTED, 0, Ok([]), [])
  }

  const SLASH_DOCS: map<Bytes, TrustedList> :=
    map[[0] := LotlDoc([PointsTo("DE", [SIGNER])]),
        LIST_ONE := ListDoc("DE", [Provider("a/b", [Nameless("c")])]),
        LIST_TWO := ListDoc("DE", [Provider("a", [Nameless("b/c")])])]

  function SkipOf(tsp: string, name: string): SkippedService {
    SkippedService(tsp, name, SKIP_NONE, "no X509Certificate digital identity", "", "", "")
  }

  /** A service without a certificate: no anchor, one skip. */
  lemma {:induction false} NamelessSkipped(raw: Bytes, tsp: string, name: string)
    ensures var t := EntryOfPage(SLASH_DOCS, Settings(["DE"], false), "DE", raw, [Provider(tsp, [Nameless(name)])]);
            t.anchors == [] && t.skipped == [SkipOf(tsp, name)]
  {
    hide Digest;
    var w, p, e := Book(SLASH_DOCS), PolicyFor(Settings(["DE"], false)), Entry(tsp, Nameless(name));
    OneEntry(tsp, Nameless(name));
    GrantedAccepted(Settings(["DE"], false), e);
    assert ServiceCerts(w, e.service) == [] && IdentityWarnings(w, e) == [];
    var warning := Warning(tsp, name, "no X509Certificate digital identity", SKIP_NONE, "", "", "");
    assert EntryWarnings(w, p, e) == [warning];
    assert [e][..0] == [];
    assert Map(EntryCandidates(w, p, "DE"), [e]) == [[]];
    OnePart<Anchor>([]);
    assert Candidates(w, p, "DE", [e]) == [];
    assert Map(WarningsOf(w, p), [e]) == [[warning]];
    OnePart([warning]);
    assert ExtractEntries(w, p, "DE", [e]) == Extracted([], [warning]);
  }

  lemma {:induction false} OnePart<T>(s: seq<T>)
    ensures Flatten([s]) == s
  {
    assert [s][..0] == [];
    assert Flatten([s]) == [] + s;
  }

  lemma {:induction false} SlashQuiet(s: Snapshot, t: Snapshot)
    requires Ready(s) && Ready(t) && s.pending == t.pending == []
    requires var cfg := Settings(["DE"], false);
             && s.territories == [EntryOfPage(SLASH_DOCS, cfg, "DE", LIST_ONE, [Provider("a/b", [Nameless("c")])])]
             && t.territories == [EntryOfPage(SLASH_DOCS, cfg, "DE", LIST_TWO, [Provider("a", [Nameless("b/c")])])]
    ensures !CycleChanged(Some(s), t)
    ensures s.territories[0].skipped == [SkipOf("a/b", "c")] && t.territories[0].skipped == [SkipOf("a", "b/c")]
  {
    hide Digest, ExtractEntries, Entries, ContentId, SkippedEqual, FindTerritory;
    NamelessSkipped(LIST_ONE, "a/b", "c");
    NamelessSkipped(LIST_TWO, "a", "b/c");
    OneEntryIds(s, t);
    Lookup1(s);
    SlashSkips();
    assert HealthKept(s, t.territories[0]);
  }

  lemma {:induction false} SlashSkips()
    ensures SkippedEqual([SkipOf("a/b", "c")], [SkipOf("a", "b/c")])
  {
    var x, y := SkipOf("a/b", "c"), SkipOf("a", "b/c");
    assert "a/b" + "/" + "c" == "a" + "/" + "b/c";
    assert SkippedKey(x) == SkippedKey(y);
    assert Map(SkippedKey, [x]) == Map(SkippedKey, [y]);
  }

  /** A list is republished with the skipped service under another provider and
      another name. The skip has changed, and no change is reported. */
  lemma {:induction false} SlashHidesSkip()
    ensures var sys := Running(SLASH_DOCS, Settings(["DE"], false));
            var one, two := Refreshing(Pages([0], LIST_ONE), true), Refreshing(Pages([0], LIST_TWO), true);
            var s, t := After(sys, [one]).active, After(sys, [one, two]).active;
            && s.Some? && t.Some? && !CycleChanged(s, t.value)
            && |s.value.territories| == |t.value.territories| == 1
            && s.value.territories[0].skipped == [SkipOf("a/b", "c")] && t.value.territories[0].skipped == [SkipOf("a", "b/c")]
  {
    hide RunCycle, CycleChanged, Ready, Refreshing, Pages, EntryOfPage, Settings;
    var cfg := Settings(["DE"], false);
    var sys := Running(SLASH_DOCS, cfg);
    var one, two := Refreshing(Pages([0], LIST_ONE), true), Refreshing(Pages([0], LIST_TWO), true);
    RefreshDownloads(SLASH_DOCS, false, None, [0], LIST_ONE, [Provider("a/b", [Nameless("c")])]);
    assert After(sys, []) == State(None, None);
    RunsOn(SLASH_DOCS, cfg, [], Pages([0], LIST_ONE), true);
    assert [] + [one] == [one];
    var s := After(sys, [one]).active.value;
    assert LIST_ONE[0] != LIST_TWO[0];
    RefreshDownloads(SLASH_DOCS, false, Some(s), [0], LIST_TWO, [Provider("a", [Nameless("b/c")])]);
    RunsOn(SLASH_DOCS, cfg, [one], Pages([0], LIST_TWO), true);
    assert [one] + [two] == [one, two];
    SlashQuiet(s, After(sys, [one, two]).active.value);
  }

  // ---- A territory coded like the declared plane ----

  const TIE_DOCS: map<Bytes, TrustedList> :=
    map[[0] := LotlDoc([PointsTo(INTERNAL, [SIGNER])]), FULL_LIST := ListDoc(INTERNAL, PROVIDERS)]
  const TIE_PAGES: map<Requester, Bytes> := map[ForLotl := [0], ForTerritory(INTERNAL) := FULL_LIST]
  const DECLARATION := DeclaredEntry("n", true, false, "", false, [], "DE", "", Ok([CERT]), None, [])
  const TIE_INPUT := CycleInput(Serve(TIE_PAGES), Decoded([DECLARATION]), 0)

  function TieConfig(): Config {
    Settings([INTERNAL], false)
  }

  lemma {:induction false} DeclarationLoads()
    ensures LoadDeclared(Book(TIE_DOCS), Decoded([DECLARATION]), 0)
         == Ok([DeclaredAnchor(Book(TIE_DOCS), DECLARATION, CERT, "")])
  {
    hide Digest;
    var w, e := Book(TIE_DOCS), DECLARATION;
    assert TrimSpace("") == "" && TrimSpace("DE") == "DE";
    assert ToUpper("DE") == "DE";
    assert DeclaredTypes(e) == Ok([""]);
    assert [""][..0] == [];
    assert ValidTerritory(ToUpper(TrimSpace(e.territory)));
    assert FactsOf(w, CERT) == FACTS;
    assert Map(DeclaredAnchorOf(w, e, CERT), [""]) == [DeclaredAnchor(w, e, CERT, "")];
    assert BuildEntry(w, e, 0) == Ok([DeclaredAnchor(w, e, CERT, "")]);
    assert [e][..0] == [];
    assert CollectEntries(w, [], 0) == Ok(Loaded([], {}));
    var a := DeclaredAnchor(w, e, CERT, "");
    assert CollectEntries(w, [e], 0) == Ok(Loaded([] + [a], {} + {a.fingerprint}));
    assert [a][..0] == [];
    assert SortBy(DeclaredLe, [a]) == [a];
  }

  lemma {:induction false} QualifiedCaIsUntyped()
    ensures TypeKey(SERVICE_TYPE_CAQC) == ""
  {
    var n := |SVCTYPE_BASE|;
    var s := SERVICE_TYPE_CAQC;
    assert s[n] == 'C';
    assert (SVCTYPE_BASE + "EAA/Q")[n] == 'E' && (SVCTYPE_BASE + "EAA")[n] == 'E';
    assert SVCTYPE_BASE[20] != LOTE_BASE[20] && s[20] == SVCTYPE_BASE[20];
    assert (LOTE_BASE + "EUPIDProvidersList")[20] == LOTE_BASE[20];
    assert (LOTE_BASE + "EUWalletProvidersList")[20] == LOTE_BASE[20];
    assert (LOTE_BASE + "EUWRPACProvidersList")[20] == LOTE_BASE[20];
    assert (LOTE_BASE + "EUWRPRCProvidersList")[20] == LOTE_BASE[20];
    assert (LOTE_BASE + "EUPubEAAProvidersList")[20] == LOTE_BASE[20];
  }

  /** Anchors of granted services sit on the untyped plane. */
  lemma {:induction false} AnchorUntyped(w: World, p: Policy, code: string, entries: seq<Entry>, i: nat)
    requires forall e :: e in entries ==> e.service.typeIdentifier == SERVICE_TYPE_CAQC
    requires i < |ExtractEntries(w, p, code, entries).anchors|
    ensures ExtractEntries(w, p, code, entries).anchors[i].anchorType == ""
  {
    hide TypeKey;
    QualifiedCaIsUntyped();
    var cs := SortedCandidates(w, p, code, entries);
    DedupInv(StatusesByCert(w, p, entries), cs);
    var a := ExtractEntries(w, p, code, entries).anchors[i];
    assert MergeOf(cs, a);
    var c := MergedFrom(cs, a);
    var e, der := CandidateHasEntry(w, p, code, entries, c);
    assert c.anchorType == Bare(c).anchorType == Bare(a).anchorType == a.anchorType;
  }

  lemma {:induction false} TieEntry() returns (a: Anchor)
    ensures a in EntryOfPage(TIE_DOCS, TieConfig(), INTERNAL, FULL_LIST, PROVIDERS).anchors
    ensures a.fingerprint == Digest(CERT) && a.anchorType == ""
  {
    hide ExtractEntries, Digest;
    var e := Entry("p", Grants("s", []));
    OneEntry("p", Grants("s", []));
    CertListed(TIE_DOCS, TieConfig(), INTERNAL, [e]);
    var anchors := ExtractEntries(Book(TIE_DOCS), PolicyFor(TieConfig()), INTERNAL, [e]).anchors;
    var i := FindAnchor(anchors, Digest(CERT)).value;
    AnchorUntyped(Book(TIE_DOCS), PolicyFor(TieConfig()), INTERNAL, [e], i);
    a := Map(StampWith(1), anchors)[i];
  }

  lemma {:induction false} TieOutcome()
    ensures Expand([INTERNAL], PointerSet(LotlDoc([PointsTo(INTERNAL, [SIGNER])]))) == [INTERNAL]
    ensures OutcomeOf(Book(TIE_DOCS), TieConfig(), PointerSet(LotlDoc([PointsTo(INTERNAL, [SIGNER])])), None, 0, Serve(TIE_PAGES))(INTERNAL)
         == Fresh(EntryOfPage(TIE_DOCS, TieConfig(), INTERNAL, FULL_LIST, PROVIDERS), FULL_LIST, ListPointer(INTERNAL, "list", [SIGNER], ""))
  {
    hide Digest, ExtractEntries, IngestTerritory, EntryOfPage;
    assert INTERNAL[0] != "EU"[0];
    OnePointer(INTERNAL, [SIGNER]);
    var ps := [ListPointer(INTERNAL, "list", [SIGNER], "")];
    OneCode(INTERNAL, ps);
    assert PointerFor(ps, INTERNAL) == Ok(ps[0]);
    Downloaded(TIE_DOCS, TieConfig(), ps, INTERNAL, None, Serve(TIE_PAGES), FULL_LIST, PROVIDERS);
  }

  lemma {:induction false} TieCycle()
    ensures var r := RunCycle(Book(TIE_DOCS), TieConfig(), None, BOOT, TIE_INPUT);
            && r.Ok?
            && r.value.territories == [EntryOfPage(TIE_DOCS, TieConfig(), INTERNAL, FULL_LIST, PROVIDERS)]
            && r.value.declared == [DeclaredAnchor(Book(TIE_DOCS), DECLARATION, CERT, "")]
  {
    hide OutcomeOf, Expand, PointerSet, RunCycle, Assemble, ContentId, Digest, EntryOfPage, IngestLotl, LoadDeclared, ApplyHold;
    var w, cfg, pointers := Book(TIE_DOCS), TieConfig(), [PointsTo(INTERNAL, [SIGNER])];
    var l := PageLotl(TIE_PAGES, pointers);
    LotlAccepted(TIE_DOCS, cfg, None, TIE_PAGES, pointers);
    TieOutcome();
    DeclarationLoads();
    CycleSucceeds(w, cfg, None, BOOT, TIE_INPUT, l, 0);
    AssembleFields(w, cfg, None, BOOT, TIE_INPUT, l);
    ApplyHoldShape(cfg, None, DraftOf(w, cfg, None, BOOT, TIE_INPUT, l), 0);
  }

  /** A territory coded "internal" and a declaration of the same certificate: the first
      refresh adds both under one sort key, so its diff has more than one order. */
  lemma {:induction false} InternalCodeTies(one: seq<DiffEntry>)
    requires var s := After(Running(TIE_DOCS, TieConfig()), [RefreshStep(Decoded([DECLARATION]), 0, true, TIE_INPUT, true)]).active;
             s.Some? ==> IsDiff(None, s.value, one)
    ensures var s := After(Running(TIE_DOCS, TieConfig()), [RefreshStep(Decoded([DECLARATION]), 0, true, TIE_INPUT, true)]).active;
            s.Some? && Tied(None, s.value) && exists two :: IsDiff(None, s.value, two) && two != one
  {
    hide RunCycle, IsDiff, Fate, WellFormed, NeedsSave, Identifiable;
    var sys := Running(TIE_DOCS, TieConfig());
    var step := RefreshStep(Decoded([DECLARATION]), 0, true, TIE_INPUT, true);
    TieCycle();
    assert After(sys, []) == State(None, None);
    AfterOneMore(sys, [], step);
    assert [] + [step] == [step];
    var s := After(sys, [step]).active.value;
    var a := TieEntry();
    TieFates(s, a);
    ReachableWellFormed(sys, [step]);
    WellFormedServes(sys.w, s);
    DiffDeterministicIff(None, s, one);
  }

  lemma {:induction false} TieFates(s: Snapshot, a: Anchor)
    requires s.territories == [EntryOfPage(TIE_DOCS, TieConfig(), INTERNAL, FULL_LIST, PROVIDERS)]
    requires s.declared == [DeclaredAnchor(Book(TIE_DOCS), DECLARATION, CERT, "")]
    requires a in s.territories[0].anchors && a.fingerprint == Digest(CERT) && a.anchorType == ""
    ensures Tied(None, s)
  {
    hide Digest, ExtractEntries;
    var b := s.declared[0];
    assert b.fingerprint == Digest(CERT) && b.anchorType == "";
    assert At(Some(s), Listed(INTERNAL, a.fingerprint), a) by {
      assert s.territories[0].code == INTERNAL;
    }
    assert At(Some(s), Key.Declared(b.fingerprint, b.anchorType), b);
    assert FaresAlike(None, s, Added, a, b);
  }
}
