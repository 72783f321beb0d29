/** Small concrete worlds for runs that exhibit a behaviour: a book of documents, all
    signed by one certificate, and an upstream that hands them out. */
module Scenario {

  import opened Wrappers
  import opened Sequences
  import opened Order
  import opened Trust
  import opened World
  import opened Identity
  import opened Extraction
  import opened ExtractionSpec
  import opened Declared
  import opened Lotl
  import opened LotlSource
  import opened National
  import opened Hold
  import opened Cycle
  import opened Manager
  import opened Invariant

  const SIGNER: Bytes := [1]
  const CERT: Bytes := [3]
  const FACTS := CertFacts("CN=a", "a", 0, 10, "rsa", "")
  const BOOT := Bootstrap(1, "oj", [SIGNER])

  /** One character per byte: no two byte strings share a digest. */
  function Digest(raw: Bytes): (r: string)
    ensures |r| == |raw|
  {
    seq(|raw|, i requires 0 <= i < |raw| => raw[i] as int as char)
  }

  lemma {:induction false} DigestTells(a: Bytes, b: Bytes)
    requires Digest(a) == Digest(b)
    ensures a == b
  {
    assert |Digest(a)| == |Digest(b)|;
    forall i | 0 <= i < |a| ensures a[i] == b[i] {
      assert Digest(a)[i] == Digest(b)[i];
    }
  }

  /** The world of a book: its documents parse, everything is signed by SIGNER. */
  function Book(docs: map<Bytes, TrustedList>): World {
    World((raw: Bytes) => if raw in docs then Some(docs[raw]) else None,
          (raw: Bytes) => Some(Signed(raw, SIGNER)),
          (der: Bytes, at: Instant) => true,
          Digest,
          (der: Bytes) => Parsed(FACTS),
          (uri: string) => None,
          (uris: seq<string>) => "")
  }

  lemma {:induction false} BookCollisionFree(docs: map<Bytes, TrustedList>)
    ensures CollisionFree(Book(docs))
  {
    forall a, b | Digest(a) == Digest(b) ensures a == b {
      DigestTells(a, b);
    }
  }

  /** An upstream that hands out pages and their true digests, and is down otherwise. */
  function Serve(pages: map<Requester, Bytes>): Upstream {
    Upstream((who: Requester, url: string) => true,
             (who: Requester, url: string) => if who in pages then Ok(pages[who]) else Err("down"),
             (who: Requester, url: string) => if who in pages then Some(Digest(pages[who])) else None)
  }

  function Refreshing(pages: map<Requester, Bytes>, cycleSaved: bool): Step {
    RefreshStep(NotConfigured, 0, true, InputOf(pages), cycleSaved)
  }

  function InputOf(pages: map<Requester, Bytes>): CycleInput {
    CycleInput(Serve(pages), NotConfigured, 0)
  }

  // ---- Documents ----

  const SELF := Pointer("EU", MIME_TSL_XML, TSL_TYPE_LOTL, "lotl", Ok([SIGNER]))

  function PointsTo(code: string, signers: seq<Bytes>): Pointer {
    Pointer(code, MIME_TSL_XML, "", "list", Ok(signers))
  }

  function LotlDoc(pointers: seq<Pointer>): TrustedList {
    TrustedList(TSL_TYPE_LOTL, 1, "EU", 0, None, [], [SELF] + pointers, None)
  }

  function ListDoc(code: string, providers: seq<Provider>): TrustedList {
    TrustedList("", 1, code, 0, Some(10), [], [], Some(providers))
  }

  /** A granted service for one certificate. */
  function Grants(name: string, exts: seq<ServiceExtension>): Service {
    Service(name, SERVICE_TYPE_CAQC, GRANTED, 0, Ok([CERT]), exts)
  }

  function Settings(territories: seq<string>, hold: bool): Config {
    Config("lotl", territories, ["granted"], [], hold, 0, 0)
  }

  // ---- The LOTL ----

  lemma {:induction false} OnePointer(code: string, signers: seq<Bytes>)
    requires code != "" && code != "EU"
    ensures PointerSet(LotlDoc([PointsTo(code, signers)])) == [ListPointer(code, "list", signers, "")]
  {
    var p := PointsTo(code, signers);
    var all := [SELF, p];
    assert LotlDoc([p]).pointers == all;
    assert all[..1] == [SELF] && [SELF][..0] == [] && all[1..] == [p];
    assert !Advertises(SELF) && Advertises(p) by {
      assert TSL_TYPE_LOTL != "";
    }
    assert CodesIn([SELF]) == [];
    assert CodesIn(all) == [code];
    assert [code][..0] == [];
    assert SortBy(TextLe, [code]) == [code];
    assert FindPointer(all, code) == Some(p);
  }

  lemma {:induction false} TwoCodes(signers: seq<Bytes>)
    ensures PointerCodes(LotlDoc([PointsTo("DE", signers), PointsTo("FR", signers)])) == ["DE", "FR"]
  {
    var p, q := PointsTo("DE", signers), PointsTo("FR", signers);
    var all := [SELF, p, q];
    assert LotlDoc([p, q]).pointers == all;
    assert all[..2] == [SELF, p] && [SELF, p][..1] == [SELF] && [SELF][..0] == [];
    assert !Advertises(SELF) && Advertises(p) && Advertises(q) by {
      assert TSL_TYPE_LOTL != "";
    }
    assert "DE"[0] < "FR"[0];
    assert CodesIn([SELF]) == [];
    assert CodesIn([SELF, p]) == ["DE"];
    assert CodesIn(all) == ["DE", "FR"];
    TwoSorted();
  }

  lemma {:induction false} TwoFound(signers: seq<Bytes>)
    ensures var p, q := PointsTo("DE", signers), PointsTo("FR", signers);
            FindPointer([SELF, p, q], "DE") == Some(p) && FindPointer([SELF, p, q], "FR") == Some(q)
  {
    var p, q := PointsTo("DE", signers), PointsTo("FR", signers);
    var all := [SELF, p, q];
    assert all[1..] == [p, q] && [p, q][1..] == [q];
    assert "EU"[0] != "DE"[0] && "EU"[0] != "FR"[0] && "DE"[0] != "FR"[0];
    assert FindPointer([q], "FR") == Some(q);
    assert FindPointer([p, q], "FR") == Some(q) && FindPointer([p, q], "DE") == Some(p);
  }

  lemma {:induction false} TwoPointers(signers: seq<Bytes>)
    ensures PointerSet(LotlDoc([PointsTo("DE", signers), PointsTo("FR", signers)]))
         == [ListPointer("DE", "list", signers, ""), ListPointer("FR", "list", signers, "")]
  {
    hide PointerCodes, FindPointer;
    var p, q := PointsTo("DE", signers), PointsTo("FR", signers);
    assert LotlDoc([p, q]).pointers == [SELF, p, q];
    TwoCodes(signers);
    TwoFound(signers);
  }

  lemma {:induction false} TwoSorted()
    ensures SortBy(TextLe, ["DE", "FR"]) == ["DE", "FR"]
  {
    assert ["DE", "FR"][..1] == ["DE"] && ["DE"][..0] == [];
    assert SortBy(TextLe, ["DE"]) == ["DE"];
    assert "DE"[0] < "FR"[0];
    assert TextLe("DE", "FR");
  }

  /** Whatever the previous snapshot, the LOTL on the page is accepted directly. */
  lemma {:induction false} LotlAccepted(docs: map<Bytes, TrustedList>, cfg: Config, prev: Option<Snapshot>, pages: map<Requester, Bytes>, pointers: seq<Pointer>)
    requires ForLotl in pages && pages[ForLotl] in docs && docs[pages[ForLotl]] == LotlDoc(pointers)
    requires prev.Some? ==> prev.value.lotlSigners == [SIGNER] && prev.value.lotlNextUpdate == None && prev.value.lotlPivotSeq == 0
    ensures IngestLotl(Book(docs), cfg, prev, BOOT, 0, Serve(pages))
         == Ok(LotlResult(1, 0, None, 0, "", [SIGNER], Digest(pages[ForLotl]), PointerSet(LotlDoc(pointers))))
  {
    hide PointerSet, Digest;
    var w, up, raw, list := Book(docs), Serve(pages), pages[ForLotl], LotlDoc(pointers);
    assert FetchLotl(w, cfg, prev, 0, up) == Raw(raw, Digest(raw));
    assert Pinned(w, prev, BOOT) == Ok(Rotation([SIGNER], 0));
    assert RefsIn(w, []) == [] && PivotRefs(w, []) == [];
    assert Verify(w, raw, [SIGNER], 0) == Some(Signed(raw, SIGNER));
    assert FindSelf(list.pointers) == Some(SELF);
    assert SelfCerts(w, list) == Ok([SIGNER]);
    assert VerifyLotl(w, up, raw, Rotation([SIGNER], 0), 0) == Verdict(0, Ok(LotlSource.Accepted(list, [SIGNER], SIGNER, true)));
  }

  // ---- One territory ----

  /** A page that is not skipped is downloaded, accepted and extracted. */
  lemma {:induction false} Downloaded(docs: map<Bytes, TrustedList>, cfg: Config, ps: seq<ListPointer>, code: string, prev: Option<Territory>, up: Upstream, raw: Bytes, providers: seq<Provider>)
    requires raw in docs && docs[raw] == ListDoc(code, providers)
    requires PointerFor(ps, code).Ok? && SIGNER in PointerFor(ps, code).value.signers
    requires FetchNational(Book(docs), cfg, PointerFor(ps, code).value, code, prev, 0, up) == Raw(raw, Digest(raw))
    requires prev.Some? ==> prev.value.tlSequence <= 1
    ensures IngestTerritory(Book(docs), cfg, ps, code, prev, 0, up)
         == Fresh(EntryOfPage(docs, cfg, code, raw, providers), raw, PointerFor(ps, code).value)
  {
    hide ExtractEntries, Entries, PointerFor, FetchNational, Digest;
    var w, lp := Book(docs), PointerFor(ps, code).value;
    assert AllParse(w, lp.signers);
    assert Verify(w, raw, lp.signers, 0) == Some(Signed(raw, SIGNER));
    assert VerifyNational(w, raw, lp.signers, code, prev, 0) == Ok(ListDoc(code, providers));
  }

  /** The entry a page yields. */
  function EntryOfPage(docs: map<Bytes, TrustedList>, cfg: Config, code: string, raw: Bytes, providers: seq<Provider>): Territory {
    var ex := ExtractEntries(Book(docs), PolicyFor(cfg), code, Entries(providers));
    Territory(code, 1, 0, Some(10), Digest(raw), false, None, false, None, Map(StampWith(1), ex.anchors), Skipped(ex.warnings))
  }

  // ---- Extraction ----

  lemma {:induction false} NoColonNoURI(s: string)
    requires ':' !in s
    ensures !IsURI(s)
    decreases |s|
  {
    if |s| >= 3 {
      assert s[..3][0] == s[0];
      NoColonNoURI(s[1..]);
    }
  }

  lemma {:induction false} GrantedAccepted(cfg: Config, e: Entry)
    requires cfg.acceptedStatuses == ["granted"] && cfg.acceptedTypes == []
    requires e.service.typeIdentifier == SERVICE_TYPE_CAQC && e.service.status == GRANTED
    ensures Extraction.Accepted(PolicyFor(cfg), e)
  {
    var s := "granted";
    assert s[0] == 'g' && s[6] == 'd';
    assert TrimLeft(s) == s && TrimRight(s) == s;
    NoColonNoURI(s);
    assert NormalizeStatus(s) == GRANTED;
    assert s in cfg.acceptedStatuses;
    assert GRANTED in PolicyFor(cfg).statuses;
  }

  lemma {:induction false} GrantsLists(docs: map<Bytes, TrustedList>, e: Entry, name: string, exts: seq<ServiceExtension>)
    requires e.service == Grants(name, exts)
    ensures Lists(Book(docs), e, Digest(CERT))
  {
    hide Digest;
    var w := Book(docs);
    assert Held(w, CERT);
    SelectMembers(Holding(w), [CERT], CERT);
    assert CERT in ServiceCerts(w, e.service);
    assert w.sha256(CERT) == Digest(CERT);
  }

  /** A list of granted entries for CERT yields its anchor. */
  lemma {:induction false} CertListed(docs: map<Bytes, TrustedList>, cfg: Config, code: string, entries: seq<Entry>)
    requires cfg.acceptedStatuses == ["granted"] && cfg.acceptedTypes == []
    requires entries != []
    requires forall e :: e in entries ==> exists name, exts :: e.service == Grants(name, exts)
    ensures FindAnchor(ExtractEntries(Book(docs), PolicyFor(cfg), code, entries).anchors, Digest(CERT)).Some?
  {
    hide ExtractEntries, Digest;
    var w, p := Book(docs), PolicyFor(cfg);
    forall e | e in entries ensures Contributes(w, p, entries, e, Digest(CERT)) && e.service.status == GRANTED {
      GrantedAccepted(cfg, e);
      var name, exts :| e.service == Grants(name, exts);
      GrantsLists(docs, e, name, exts);
    }
    assert Contributes(w, p, entries, entries[0], Digest(CERT));
    assert StatusesOf(w, p, entries, Digest(CERT)) == {GRANTED} by {
      assert Admitted(p, entries[0]) && Lists(w, entries[0], Digest(CERT)) && entries[0].service.status == GRANTED;
    }
    ExtractRefinesSpec(w, p, code, entries);
  }

  // ---- One cycle ----

  lemma {:induction false} OneCode(code: string, ps: seq<ListPointer>)
    requires code != TERRITORY_GROUP_EU
    ensures Expand([code], ps) == [code]
  {
    assert [code][..0] == [];
    assert ExpandList([code], ps) == [code];
    assert SortBy(TextLe, []) == [];
  }

  /** A cycle with its LOTL and a territory with data succeeds. */
  lemma {:induction false} CycleSucceeds(w: World, cfg: Config, prev: Option<Snapshot>, boot: Bootstrap, in': CycleInput, l: LotlResult, i: nat)
    requires IngestLotl(w, cfg, prev, boot, in'.now, in'.up) == Ok(l)
    requires prev.Some? ==> l.sequence >= prev.value.lotlSequence
    requires i < |Expand(cfg.territories, l.pointers)|
    requires !OutcomeOf(w, cfg, l.pointers, prev, in'.now, in'.up)(Expand(cfg.territories, l.pointers)[i]).FailedEntry?
    ensures RunCycle(w, cfg, prev, boot, in') == Ok(Assemble(w, cfg, prev, boot, in', l))
  {
    hide IngestLotl, Assemble, OutcomeOf, Expand;
    var os := Outcomes(w, cfg, l.pointers, prev, in'.now, in'.up);
    assert !os[i].FailedEntry?;
  }

  /** Without declared sources the declared half of a refresh does nothing. */
  lemma {:induction false} QuietReconcile(sys: System, s: State)
    requires s.active.Some? ==> s.active.value.declared == [] && s.active.value.id == ContentId(s.active.value)
    ensures Reconcile(sys, s, NotConfigured, 0, true) == s
  {
    hide ContentId;
    if s.active.Some? {
      assert s.active.value.(declared := []) == s.active.value;
      IdIgnoresId(s.active.value);
    }
  }

  /** What the next cycle needs of a snapshot. */
  ghost predicate Ready(s: Snapshot) {
    && s.lotlSigners == [SIGNER] && s.lotlNextUpdate == None && s.lotlPivotSeq == 0 && s.lotlSequence == 1
    && s.declared == [] && s.id == ContentId(s)
  }

  function PageLotl(pages: map<Requester, Bytes>, pointers: seq<Pointer>): LotlResult
    requires ForLotl in pages
  {
    LotlResult(1, 0, None, 0, "", [SIGNER], Digest(pages[ForLotl]), PointerSet(LotlDoc(pointers)))
  }

  /** The snapshot a cycle of a scenario builds. */
  ghost predicate Built(w: World, cfg: Config, prev: Option<Snapshot>, pages: map<Requester, Bytes>, pointers: seq<Pointer>, s: Snapshot)
    requires ForLotl in pages
  {
    var ps := PointerSet(LotlDoc(pointers));
    var codes := Expand(cfg.territories, ps);
    && Ready(s)
    && s.lotlDigest == Digest(pages[ForLotl]) && s.lotlPointers == ps
    && |s.territories| == |codes|
    && (forall i :: 0 <= i < |codes| ==>
          s.territories[i] == OutcomeOf(w, cfg, ps, prev, 0, Serve(pages))(codes[i]).entry.(anchors := s.territories[i].anchors))
    && (!cfg.hold ==> s.pending == [])
    && (!cfg.hold ==> forall i :: 0 <= i < |codes| ==> s.territories[i] == OutcomeOf(w, cfg, ps, prev, 0, Serve(pages))(codes[i]).entry)
  }

  lemma {:induction false} BuildsSnapshot(w: World, cfg: Config, prev: Option<Snapshot>, pages: map<Requester, Bytes>, pointers: seq<Pointer>)
    requires ForLotl in pages
    ensures Built(w, cfg, prev, pages, pointers, Assemble(w, cfg, prev, BOOT, InputOf(pages), PageLotl(pages, pointers)))
  {
    hide OutcomeOf, Expand, PointerSet, ApplyHold, Assemble, ContentId, Digest;
    var l, in' := PageLotl(pages, pointers), InputOf(pages);
    var s := Assemble(w, cfg, prev, BOOT, in', l);
    AssembleFields(w, cfg, prev, BOOT, in', l);
    AssembledEntries(w, cfg, prev, BOOT, in', l);
    ApplyHoldShape(cfg, prev, DraftOf(w, cfg, prev, BOOT, in', l), 0);
  }

  /** One more refresh of a scenario, when some territory has data or there is none. */
  lemma {:induction false} RefreshBuilds(docs: map<Bytes, TrustedList>, cfg: Config, prev: Option<Snapshot>, pages: map<Requester, Bytes>, pointers: seq<Pointer>)
    requires ForLotl in pages && pages[ForLotl] in docs && docs[pages[ForLotl]] == LotlDoc(pointers)
    requires prev.Some? ==> Ready(prev.value)
    requires var ps := PointerSet(LotlDoc(pointers));
             var codes := Expand(cfg.territories, ps);
             codes == [] || !OutcomeOf(Book(docs), cfg, ps, prev, 0, Serve(pages))(codes[0]).FailedEntry?
    ensures var r := RunCycle(Book(docs), cfg, prev, BOOT, InputOf(pages));
            r.Ok? && Built(Book(docs), cfg, prev, pages, pointers, r.value)
  {
    hide OutcomeOf, Expand, PointerSet, Assemble, IngestLotl, Built, ContentId, Digest;
    var w, l := Book(docs), PageLotl(pages, pointers);
    LotlAccepted(docs, cfg, prev, pages, pointers);
    BuildsSnapshot(w, cfg, prev, pages, pointers);
    var os := Outcomes(w, cfg, l.pointers, prev, 0, Serve(pages));
    if Expand(cfg.territories, l.pointers) != [] {
      assert !os[0].FailedEntry?;
    }
  }

  function Running(docs: map<Bytes, TrustedList>, cfg: Config): System {
    System(Book(docs), cfg, BOOT)
  }

  /** The state after one more refresh. */
  lemma {:induction false} RunsOn(docs: map<Bytes, TrustedList>, cfg: Config, steps: seq<Step>, pages: map<Requester, Bytes>, saved: bool)
    requires var s := After(Running(docs, cfg), steps);
             && (s.active.Some? ==> Ready(s.active.value))
             && RunCycle(Book(docs), cfg, s.active, BOOT, InputOf(pages)).Ok?
    ensures var s := After(Running(docs, cfg), steps);
            var next := RunCycle(Book(docs), cfg, s.active, BOOT, InputOf(pages)).value;
            After(Running(docs, cfg), steps + [Refreshing(pages, saved)]) == State(Some(next), Save(s, next, saved && NeedsSave(s.active, next)))
  {
    hide RunCycle, After, NeedsSave, Reconcile, ContentId;
    AfterOneMore(Running(docs, cfg), steps, Refreshing(pages, saved));
    QuietReconcile(Running(docs, cfg), After(Running(docs, cfg), steps));
  }
}
