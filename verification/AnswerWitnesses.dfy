/** A run from the empty store in which the answers change under one id. */
module AnswerWitnesses {

  import opened Wrappers
  import opened Sequences
  import opened Order
  import opened Trust
  import opened World
  import opened Identity
  import opened Filter
  import opened Extraction
  import opened ExtractionSpec
  import opened Declared
  import opened Lotl
  import opened National
  import opened Cycle
  import opened Manager
  import opened Invariant
  import opened Reachable
  import opened Answers
  import opened Scenario
  import opened Witnesses
  import opened ReportWitnesses

  const OTHER_CERT: Bytes := [12]
  const NAMED: Bytes := [13]
  const RENAMED: Bytes := [14]

  function Certified(name: string, der: Bytes): Service {
    Service(name, SERVICE_TYPE_CAQC, GRANTED, 0, Ok([der]), [])
  }

  /** Two services of one provider, each with a certificate of its own. */
  function Pair(first: string, second: string): seq<Provider> {
    [Provider("p", [Certified(first, CERT), Certified(second, OTHER_CERT)])]
  }

  function PairEntries(first: string, second: string): seq<Entry> {
    [Entry("p", Certified(first, CERT)), Entry("p", Certified(second, OTHER_CERT))]
  }

  const RENAME_DOCS: map<Bytes, TrustedList> :=
    map[[0] := LotlDoc([PointsTo("DE", [SIGNER])]), NAMED := ListDoc("DE", Pair("a", "b")), RENAMED := ListDoc("DE", Pair("b", "a"))]

  function RenameConfig(): Config {
    Settings(["DE"], false)
  }

  function RenameWorld(): World {
    Book(RENAME_DOCS)
  }

  function AnchorNamed(name: string, der: Bytes): Anchor {
    Candidate(RenameWorld(), "DE", Entry("p", Certified(name, der)), der)
  }

  // ---- What the two lists give ----

  lemma {:induction false} EntriesOfPair(first: string, second: string)
    ensures Entries(Pair(first, second)) == PairEntries(first, second)
  {
    var p := Pair(first, second)[0];
    assert ProviderEntries(p) == PairEntries(first, second);
    assert Map(ProviderEntries, Pair(first, second)) == [PairEntries(first, second)];
    OnePart(PairEntries(first, second));
  }

  lemma {:induction false} OneCandidate(name: string, der: Bytes)
    ensures var e := Entry("p", Certified(name, der));
            && ServiceCerts(RenameWorld(), e.service) == [der]
            && EntryCandidates(RenameWorld(), PolicyFor(RenameConfig()), "DE")(e) == [AnchorNamed(name, der)]
  {
    hide Digest, Candidate;
    var w, e := RenameWorld(), Entry("p", Certified(name, der));
    GrantedAccepted(RenameConfig(), e);
    assert [der][..0] == [];
    assert Held(w, der);
    SelectOne(Holding(w), der);
    assert Map(CandidateFor(w, "DE", e), [der]) == [AnchorNamed(name, der)];
  }

  lemma {:induction false} PairCandidates(first: string, second: string)
    ensures Candidates(RenameWorld(), PolicyFor(RenameConfig()), "DE", PairEntries(first, second))
         == [AnchorNamed(first, CERT), AnchorNamed(second, OTHER_CERT)]
  {
    hide AnchorNamed, PolicyFor, EntryCandidates, RenameWorld, RenameConfig, ServiceCerts, Certified;
    var w, p := RenameWorld(), PolicyFor(RenameConfig());
    OneCandidate(first, CERT);
    OneCandidate(second, OTHER_CERT);
    var x, y := [AnchorNamed(first, CERT)], [AnchorNamed(second, OTHER_CERT)];
    assert Map(EntryCandidates(w, p, "DE"), PairEntries(first, second)) == [x, y];
    assert [x, y][..1] == [x];
    OnePart(x);
    assert Flatten([x, y]) == x + y;
  }

  /** One status per certificate. */
  lemma {:induction false} NoConflict(first: string, second: string, fp: string)
    ensures !Conflicted(StatusesByCert(RenameWorld(), PolicyFor(RenameConfig()), PairEntries(first, second)), fp)
  {
    hide PolicyFor, Digest;
    var w, p, es := RenameWorld(), PolicyFor(RenameConfig()), PairEntries(first, second);
    StatusesByCertAt(w, p, es, fp);
    var all := StatusesOf(w, p, es, fp);
    assert all <= {GRANTED};
    SmallSet(all, GRANTED);
  }

  lemma {:induction false} SmallSet(s: set<string>, x: string)
    requires s <= {x}
    ensures |s| <= 1
  {
    if x in s {
      assert s == {x};
    } else {
      assert s == {};
    }
  }

  lemma {:induction false} DigestsDiffer()
    ensures Digest(CERT) != Digest(OTHER_CERT)
  {
    assert CERT[0] != OTHER_CERT[0];
    if Digest(CERT) == Digest(OTHER_CERT) {
      DigestTells(CERT, OTHER_CERT);
    }
  }

  lemma {:induction false} NothingToMerge(m: StatusMap, x: Anchor, y: Anchor)
    requires x.fingerprint != y.fingerprint && !Conflicted(m, x.fingerprint) && !Conflicted(m, y.fingerprint)
    ensures Dedup(m, [x, y]).kept == [x, y]
  {
    assert [x, y][..1] == [x] && [x][..0] == [];
    assert Dedup(m, []) == Merged([], []);
    assert Dedup(m, [x]) == Merged([] + [x], []);
    assert [] + [x] == [x];
    assert FindAnchor([x], y.fingerprint) == None;
  }

  lemma {:induction false} NamesOrder(x: Anchor, y: Anchor)
    requires x.tspName == y.tspName == "p" && x.serviceName == "a" && y.serviceName == "b"
    ensures CandidateLe(x, y) && !CandidateLe(y, x)
  {
    var k, l := [x.tspName, x.serviceName, x.fingerprint], [y.tspName, y.serviceName, y.fingerprint];
    assert "a"[0] < "b"[0];
    assert k[1..] == ["a", x.fingerprint] && l[1..] == ["b", y.fingerprint];
    assert k[0] == l[0] && k[1..][0] == "a" && l[1..][0] == "b";
    assert StringLe("a", "b") && !StringLe("b", "a");
    assert KeyLe(k, l) == KeyLe(k[1..], l[1..]);
    assert KeyLe(l, k) == KeyLe(l[1..], k[1..]);
  }

  lemma {:induction false} NamedFields(name: string, der: Bytes)
    ensures var a := AnchorNamed(name, der);
            && a.tspName == "p" && a.serviceName == name && a.certDER == der && a.fingerprint == Digest(der) && a.anchorType == ""
            && ProjectAnchor(a) == ProjectAnchor(AnchorNamed("", der))
  {
    hide Digest, TypeKey;
    QualifiedCaIsUntyped();
  }

  /** In service-name order. */
  lemma {:induction false} PairExtracted(raw: Bytes, first: string, second: string, sorted: seq<Anchor>)
    requires (first, second) == ("a", "b") || (first, second) == ("b", "a")
    requires var x, y := AnchorNamed(first, CERT), AnchorNamed(second, OTHER_CERT); sorted == if first == "a" then [x, y] else [y, x]
    ensures EntryOfPage(RENAME_DOCS, RenameConfig(), "DE", raw, Pair(first, second)).anchors == Map(StampWith(1), sorted)
  {
    hide AnchorNamed, PolicyFor, Digest, StatusesByCert, Candidates, Dedup, CandidateLe, Entries;
    var w, p, es := RenameWorld(), PolicyFor(RenameConfig()), PairEntries(first, second);
    var x, y := AnchorNamed(first, CERT), AnchorNamed(second, OTHER_CERT);
    EntriesOfPair(first, second);
    PairCandidates(first, second);
    NamedFields(first, CERT);
    NamedFields(second, OTHER_CERT);
    DigestsDiffer();
    NoConflict(first, second, x.fingerprint);
    NoConflict(first, second, y.fingerprint);
    assert "a"[0] != "b"[0];
    if first == "a" {
      NamesOrder(x, y);
    } else {
      NamesOrder(y, x);
    }
    SortTwo(CandidateLe, x, y);
    var m := StatusesByCert(w, p, es);
    if first == "a" {
      NothingToMerge(m, x, y);
    } else {
      NothingToMerge(m, y, x);
    }
    assert ExtractEntries(w, p, "DE", es).anchors == sorted;
  }

  // ---- The run ----

  function Stamped(name: string, der: Bytes): Anchor {
    StampWith(1)(AnchorNamed(name, der))
  }

  lemma {:induction false} StampedFields(name: string, der: Bytes)
    ensures var a := Stamped(name, der);
            && a.serviceName == name && a.certDER == der && a.anchorType == ""
            && ProjectAnchor(a) == ProjectAnchor(Stamped("", der))
  {
    hide AnchorNamed;
    NamedFields(name, der);
    NamedFields("", der);
  }

  /** The two lists in the order they are served. */
  function Before(): seq<Anchor> {
    [Stamped("a", CERT), Stamped("b", OTHER_CERT)]
  }

  function Afterwards(): seq<Anchor> {
    [Stamped("a", OTHER_CERT), Stamped("b", CERT)]
  }

  lemma {:induction false} PagesGive()
    ensures EntryOfPage(RENAME_DOCS, RenameConfig(), "DE", NAMED, Pair("a", "b")).anchors == Before()
    ensures EntryOfPage(RENAME_DOCS, RenameConfig(), "DE", RENAMED, Pair("b", "a")).anchors == Afterwards()
  {
    hide AnchorNamed, EntryOfPage;
    assert "a"[0] != "b"[0];
    var x, y := [AnchorNamed("a", CERT), AnchorNamed("b", OTHER_CERT)], [AnchorNamed("a", OTHER_CERT), AnchorNamed("b", CERT)];
    PairExtracted(NAMED, "a", "b", x);
    PairExtracted(RENAMED, "b", "a", y);
    assert Map(StampWith(1), x) == Before() && Map(StampWith(1), y) == Afterwards();
  }

  /** Names are outside the trust content. */
  lemma {:induction false} SameProjections()
    ensures multiset(Map(ProjectAnchor, Before())) == multiset(Map(ProjectAnchor, Afterwards()))
  {
    hide Stamped, ProjectAnchor;
    StampedFields("a", CERT);
    StampedFields("b", CERT);
    StampedFields("a", OTHER_CERT);
    StampedFields("b", OTHER_CERT);
    var p, q := ProjectAnchor(Stamped("", CERT)), ProjectAnchor(Stamped("", OTHER_CERT));
    assert Map(ProjectAnchor, Before()) == [p, q];
    assert Map(ProjectAnchor, Afterwards()) == [q, p];
  }

  lemma {:induction false} OneTrust(s: Snapshot)
    requires |s.territories| == 1 && !s.territories[0].failed
    ensures Map(TrustOfTerritory, Select(HasData, s.territories)) == [TrustOfTerritory(s.territories[0])]
  {
    var t := s.territories[0];
    assert s.territories == [t];
    assert [t][..0] == [];
    assert Select(HasData, [t]) == [t];
  }

  lemma {:induction false} RenamedIds(w: World, s: Snapshot, t: Snapshot)
    requires WellFormed(w, s) && WellFormed(w, t) && Holding1(s, NAMED) && Holding1(t, RENAMED)
    requires s.territories[0].anchors == Before() && t.territories[0].anchors == Afterwards() && s.pending == t.pending == []
    ensures s.id == t.id
  {
    hide ContentId, Digest, TerritoriesOk, PendingOk, DeclaredOk, Before, Afterwards, ProjectAnchor, Identifiable, Servable;
    SameProjections();
    OneTrust(s);
    OneTrust(t);
    WellFormedServes(w, s);
    WellFormedServes(w, t);
    assert TrustContentOf(s) == TrustContentOf(t);
    TrustDeterminesId(s, t);
  }

  lemma {:induction false} WholeOfOne(s: Snapshot, x: Anchor, y: Anchor)
    requires |s.territories| == 1 && s.territories[0].anchors == [x, y] && s.declared == []
    requires x.anchorType == y.anchorType == ""
    ensures Bundle(s, Whole("")) == Ok([x, y])
  {
    hide ServableType;
    var t := s.territories[0];
    assert s.territories == [t] && [t][..0] == [];
    WholeEntry("", t);
    assert [x, y][..1] == [x] && [x][..0] == [];
    assert Select(OfType(""), [x]) == [x];
    assert Select(OfType(""), [x, y]) == [x, y];
    assert TerritoriesBundle(Whole(""), [t]) == [] + [x, y];
    assert Select(Serving(Whole("")), s.declared) == [];
    assert [] + [x, y] + [] == [x, y];
  }

  lemma {:induction false} AnswersSwap(s: Snapshot, t: Snapshot)
    requires |s.territories| == |t.territories| == 1 && s.territories[0].anchors == Before() && t.territories[0].anchors == Afterwards()
    requires s.declared == t.declared == []
    ensures Bundle(s, Whole("")).Ok? && Map(AnchorCert, Bundle(s, Whole("")).value) == [CERT, OTHER_CERT]
    ensures Bundle(t, Whole("")).Ok? && Map(AnchorCert, Bundle(t, Whole("")).value) == [OTHER_CERT, CERT]
  {
    hide Stamped;
    StampedFields("a", CERT);
    StampedFields("b", CERT);
    StampedFields("a", OTHER_CERT);
    StampedFields("b", OTHER_CERT);
    WholeOfOne(s, Stamped("a", CERT), Stamped("b", OTHER_CERT));
    WholeOfOne(t, Stamped("a", OTHER_CERT), Stamped("b", CERT));
  }

  function RenameRun(): System {
    Running(RENAME_DOCS, RenameConfig())
  }

  lemma {:induction false} RenameSnapshots()
    ensures var one, two := Refreshing(Pages([0], NAMED), true), Refreshing(Pages([0], RENAMED), true);
            var s, t := After(RenameRun(), [one]).active, After(RenameRun(), [one, two]).active;
            && s.Some? && t.Some?
            && Holding1(s.value, NAMED) && s.value.pending == [] && s.value.territories[0].anchors == Before()
            && Holding1(t.value, RENAMED) && t.value.pending == [] && t.value.territories[0].anchors == Afterwards()
  {
    hide RunCycle, ContentId, Refreshing, Pages, EntryOfPage, Settings, NeedsSave, Before, Afterwards, Digest;
    var cfg := Settings(["DE"], false);
    var one, two := Refreshing(Pages([0], NAMED), true), Refreshing(Pages([0], RENAMED), true);
    PagesGive();
    RefreshDownloads(RENAME_DOCS, false, None, [0], NAMED, Pair("a", "b"));
    assert After(RenameRun(), []) == State(None, None);
    RunsOn(RENAME_DOCS, cfg, [], Pages([0], NAMED), true);
    assert [] + [one] == [one];
    var s := After(RenameRun(), [one]).active.value;
    assert NAMED[0] != RENAMED[0];
    RefreshDownloads(RENAME_DOCS, false, Some(s), [0], RENAMED, Pair("b", "a"));
    RunsOn(RENAME_DOCS, cfg, [one], Pages([0], RENAMED), true);
    assert [one] + [two] == [one, two];
  }

  /** A list is republished with its two services named the other way round. The id is
      the same, so a poll is answered with 304; the bundle has the same certificates in
      another order, and the names beside them have changed. */
  lemma {:induction false} RenameReorders()
    ensures var one, two := Refreshing(Pages([0], NAMED), true), Refreshing(Pages([0], RENAMED), true);
            var s, t := After(RenameRun(), [one]).active, After(RenameRun(), [one, two]).active;
            && s.Some? && t.Some? && s.value.id == t.value.id
            && Bundle(s.value, Whole("")).Ok? && Map(AnchorCert, Bundle(s.value, Whole("")).value) == [CERT, OTHER_CERT]
            && Bundle(t.value, Whole("")).Ok? && Map(AnchorCert, Bundle(t.value, Whole("")).value) == [OTHER_CERT, CERT]
            && JsonBody(s.value, Whole("")) != JsonBody(t.value, Whole(""))
  {
    hide After, Refreshing, Pages, Before, Afterwards, Digest, WellFormed, Bundle, ContentId;
    var one, two := Refreshing(Pages([0], NAMED), true), Refreshing(Pages([0], RENAMED), true);
    RenameSnapshots();
    ReachableWellFormed(RenameRun(), [one]);
    ReachableWellFormed(RenameRun(), [one, two]);
    var s, t := After(RenameRun(), [one]).active.value, After(RenameRun(), [one, two]).active.value;
    RenamedIds(RenameWorld(), s, t);
    AnswersSwap(s, t);
    assert CERT[0] != OTHER_CERT[0];
    assert [CERT, OTHER_CERT][0] != [OTHER_CERT, CERT][0];
  }
}
