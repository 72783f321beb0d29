/** trust/filter.go: bundle selection, and why a 304 answer keyed by the content
    id never hides a changed certificate set. */
module Filter {

  import opened Wrappers
  import opened Sequences
  import opened Order
  import opened Trust
  import opened World
  import opened Identity

  datatype Query = Query(
    territories: seq<string>,
    use: string,
    qscdOnly: bool,
    anchorType: string,
    keys: string)

  const KEYS_COMMON := "common"
  const KEYS_ALL := "all"
  const VALID_USES: set<string> := {USE_SIGNATURE, USE_AUTHENTICATION, USE_SEAL, USE_WEBSITE}

  predicate ValidQuery(q: Query) {
    && (q.use == "" || q.use in VALID_USES)
    && (q.anchorType == "" || q.anchorType in ANCHOR_TYPES)
    && (q.keys == "" || q.keys == KEYS_COMMON || q.keys == KEYS_ALL)
  }

  function FoldChar(c: char): char {
    if 'A' <= c <= 'Z' then (c as int + 32) as char else c
  }

  /** Case-insensitive equality of territory codes (ASCII letters). */
  predicate EqualFold(a: string, b: string) {
    Map(FoldChar, a) == Map(FoldChar, b)
  }

  predicate Includes(q: Query, code: string) {
    q.territories == [] || exists i :: 0 <= i < |q.territories| && EqualFold(q.territories[i], code)
  }

  predicate Matches(a: Anchor, q: Query) {
    && a.anchorType == q.anchorType
    && (q.qscdOnly ==> a.qcWithQSCD)
    && a.MatchesUse(q.use)
  }

  predicate Serves(q: Query, a: Anchor) {
    Matches(a, q) && (q.keys == KEYS_ALL || a.KeyCommon())
  }

  function Serving(q: Query): Anchor -> bool {
    a => Serves(q, a)
  }

  function TerritoryBundle(q: Query, t: Territory): seq<Anchor> {
    if Includes(q, t.code) then Select(Serving(q), t.anchors) else []
  }

  function TerritoriesBundle(q: Query, ts: seq<Territory>): seq<Anchor> {
    if ts == [] then []
    else TerritoriesBundle(q, ts[..|ts| - 1]) + TerritoryBundle(q, ts[|ts| - 1])
  }

  /** The bundle served for a query, or the refusal of an invalid one. */
  function Bundle(s: Snapshot, q: Query): Result<seq<Anchor>, Query> {
    if !ValidQuery(q) then Err(q)
    else Ok(TerritoriesBundle(q, s.territories) + Select(Serving(q), s.declared))
  }

  /** The source's nested append loops. */
  method Filter(s: Snapshot, q: Query) returns (r: Result<seq<Anchor>, Query>)
    ensures r == Bundle(s, q)
    ensures if Answerable(q) then r == Ok(WantedOf(q, Everything(s))) else r == Err(q)
  {
    hide Answerable, WantedOf, Everything, ValidQuery, Includes;
    BundleMeans(s, q);
    if !ValidQuery(q) {
      return Err(q);
    }
    var out := [];
    for i := 0 to |s.territories|
      invariant out == TerritoriesBundle(q, s.territories[..i])
    {
      var t := s.territories[i];
      assert s.territories[..i + 1][..i] == s.territories[..i];
      if Includes(q, t.code) {
        var kept := AppendServed(q, t.anchors);
        out := out + kept;
      }
    }
    assert s.territories[..|s.territories|] == s.territories;
    var rest := AppendServed(q, s.declared);
    return Ok(out + rest);
  }

  method AppendServed(q: Query, anchors: seq<Anchor>) returns (out: seq<Anchor>)
    ensures out == Select(Serving(q), anchors)
  {
    out := [];
    for i := 0 to |anchors|
      invariant out == Select(Serving(q), anchors[..i])
    {
      assert anchors[..i + 1][..i] == anchors[..i];
      if Serves(q, anchors[i]) {
        out := out + [anchors[i]];
      }
    }
    assert anchors[..|anchors|] == anchors;
  }

  // ---- What a bundle holds ----

  /** The same letter, in either case. */
  ghost predicate SameLetter(c: char, d: char) {
    || c == d
    || ('A' <= c <= 'Z' && d as int == c as int + 32)
    || ('A' <= d <= 'Z' && c as int == d as int + 32)
  }

  ghost predicate SameCode(a: string, b: string) {
    |a| == |b| && forall i :: 0 <= i < |a| ==> SameLetter(a[i], b[i])
  }

  /** Asked for: every territory when none is named, and the declared anchors always. */
  ghost predicate Asked(q: Query, code: Option<string>) {
    || code.None?
    || q.territories == []
    || exists i :: 0 <= i < |q.territories| && SameCode(q.territories[i], code.value)
  }

  /** Fit for the query: its type; in a device if that is asked; unrestricted or for the
      use, authentication being signature; and a key everyone can verify, unless all are asked. */
  ghost predicate Fit(q: Query, a: Anchor) {
    && a.anchorType == q.anchorType
    && (q.qscdOnly ==> a.qcWithQSCD)
    && (q.use == "" || a.uses == [] || (if q.use == "authentication" then "signature" else q.use) in a.uses)
    && (q.keys == "all" || a.keyAlgorithm != "ecdsa" || a.curve in {"", "P-224", "P-256", "P-384", "P-521"})
  }

  /** The queries that are answered at all. */
  ghost predicate Answerable(q: Query) {
    && q.use in {"", "signature", "authentication", "seal", "website"}
    && q.anchorType in {
         "", "pid_provider", "qeaa_provider", "pub_eaa_provider", "eaa_provider", "wallet_provider", "access_ca", "wrprc_issuer",
         "pid_provider_status", "qeaa_provider_status", "pub_eaa_provider_status", "eaa_provider_status"}
    && q.keys in {"", "common", "all"}
  }

  lemma {:induction false} FoldIff(c: char, d: char)
    ensures FoldChar(c) == FoldChar(d) <==> SameLetter(c, d)
  {
  }

  lemma {:induction false} SameCodeIff(a: string, b: string)
    ensures EqualFold(a, b) <==> SameCode(a, b)
  {
    hide FoldChar, SameLetter;
    var x, y := Map(FoldChar, a), Map(FoldChar, b);
    if EqualFold(a, b) {
      assert |x| == |a| && |y| == |b|;
      forall i | 0 <= i < |a| ensures SameLetter(a[i], b[i]) {
        assert x[i] == y[i];
        FoldIff(a[i], b[i]);
      }
    }
    if SameCode(a, b) {
      forall i | 0 <= i < |a| ensures x[i] == y[i] {
        FoldIff(a[i], b[i]);
      }
    }
  }

  lemma {:induction false} AskedIff(q: Query, code: string)
    ensures Includes(q, code) <==> Asked(q, Some(code))
  {
    hide EqualFold, SameCode;
    forall i | 0 <= i < |q.territories| ensures EqualFold(q.territories[i], code) <==> SameCode(q.territories[i], code) {
      SameCodeIff(q.territories[i], code);
    }
  }

  lemma {:induction false} FitIff(q: Query, a: Anchor)
    ensures Serves(q, a) <==> Fit(q, a)
  {
  }

  /** An anchor and the territory it is listed under (None: declared). */
  datatype Listing = Listing(code: Option<string>, anchor: Anchor)

  ghost function ListedUnder(code: Option<string>): Anchor -> Listing {
    a => Listing(code, a)
  }

  ghost function ListedIn(t: Territory): seq<Listing> {
    Map(ListedUnder(Some(t.code)), t.anchors)
  }

  /** Everything a snapshot lists: the territories in order, then the declared anchors. */
  ghost function Everything(s: Snapshot): seq<Listing> {
    Flatten(Map(ListedIn, s.territories)) + Map(ListedUnder(None), s.declared)
  }

  ghost function Wanted(q: Query): Listing -> bool {
    (l: Listing) => Asked(q, l.code) && Fit(q, l.anchor)
  }

  ghost function ListedAnchor(l: Listing): Anchor {
    l.anchor
  }

  ghost function WantedOf(q: Query, ls: seq<Listing>): seq<Anchor> {
    Map(ListedAnchor, Select(Wanted(q), ls))
  }

  lemma {:induction false} WantedListed(q: Query, code: Option<string>, anchors: seq<Anchor>)
    ensures WantedOf(q, Map(ListedUnder(code), anchors)) == if Asked(q, code) then Select(Serving(q), anchors) else []
    decreases |anchors|
  {
    hide Asked, Fit, Serves;
    if anchors != [] {
      var n := |anchors| - 1;
      var l := Listing(code, anchors[n]);
      WantedListed(q, code, anchors[..n]);
      FitIff(q, anchors[n]);
      assert Map(ListedUnder(code), anchors) == Map(ListedUnder(code), anchors[..n]) + [l];
      MapSelectAppend(ListedAnchor, Wanted(q), Map(ListedUnder(code), anchors[..n]), [l]);
      SelectOne(Wanted(q), l);
    }
  }

  lemma {:induction false} WantedTerritories(q: Query, ts: seq<Territory>)
    ensures WantedOf(q, Flatten(Map(ListedIn, ts))) == TerritoriesBundle(q, ts)
    decreases |ts|
  {
    hide Asked, Includes, Wanted;
    if ts != [] {
      var n := |ts| - 1;
      WantedTerritories(q, ts[..n]);
      assert Map(ListedIn, ts)[..n] == Map(ListedIn, ts[..n]);
      MapSelectAppend(ListedAnchor, Wanted(q), Flatten(Map(ListedIn, ts[..n])), ListedIn(ts[n]));
      WantedListed(q, Some(ts[n].code), ts[n].anchors);
      AskedIff(q, ts[n].code);
    }
  }

  lemma {:induction false} AnswerableIff(q: Query)
    ensures ValidQuery(q) <==> Answerable(q)
  {
  }

  /** A query is refused or answered with exactly the listed anchors that are asked for
      and fit, in listing order. */
  lemma {:induction false} BundleMeans(s: Snapshot, q: Query)
    ensures if Answerable(q) then Bundle(s, q) == Ok(WantedOf(q, Everything(s))) else Bundle(s, q) == Err(q)
  {
    hide Asked, Fit, ValidQuery, Answerable, Wanted, Serving;
    AnswerableIff(q);
    WantedTerritories(q, s.territories);
    WantedListed(q, None, s.declared);
    assert Asked(q, None) by {
      DeclaredAsked(q);
    }
    MapSelectAppend(ListedAnchor, Wanted(q), Flatten(Map(ListedIn, s.territories)), Map(ListedUnder(None), s.declared));
  }

  lemma {:induction false} DeclaredAsked(q: Query)
    ensures Asked(q, None)
  {
  }

  lemma {:induction false} EverythingMembers(s: Snapshot, l: Listing)
    ensures l in Everything(s)
       <==> match l.code
            case None => l.anchor in s.declared
            case Some(code) => exists t :: t in s.territories && t.code == code && l.anchor in t.anchors
  {
    var parts := Map(ListedIn, s.territories);
    FlattenMembers(parts, l);
    if i :| 0 <= i < |parts| && l in parts[i] {
      var j :| 0 <= j < |parts[i]| && parts[i][j] == l;
      assert parts[i] == Map(ListedUnder(Some(s.territories[i].code)), s.territories[i].anchors);
      assert s.territories[i] in s.territories && l == ListedUnder(Some(s.territories[i].code))(s.territories[i].anchors[j]);
    }
    var ds := Map(ListedUnder(None), s.declared);
    if l in ds {
      var j :| 0 <= j < |ds| && ds[j] == l;
      assert s.declared[j] == l.anchor;
    }
    match l.code
    case None =>
      if l.anchor in s.declared {
        var j :| 0 <= j < |s.declared| && s.declared[j] == l.anchor;
        assert ds[j] == l;
      }
    case Some(code) =>
      if t :| t in s.territories && t.code == code && l.anchor in t.anchors {
        var i :| 0 <= i < |s.territories| && s.territories[i] == t;
        var j :| 0 <= j < |t.anchors| && t.anchors[j] == l.anchor;
        assert parts[i] == Map(ListedUnder(Some(code)), t.anchors);
        assert parts[i][j] == l;
      }
  }

  /** An anchor is in the bundle exactly when a territory that is asked for lists it, or
      it is declared, and it fits. */
  lemma {:induction false} InBundleIff(s: Snapshot, q: Query, a: Anchor)
    requires Answerable(q)
    ensures Bundle(s, q).Ok?
    ensures a in Bundle(s, q).value
       <==> Fit(q, a) && (a in s.declared || exists t :: t in s.territories && a in t.anchors && Asked(q, Some(t.code)))
  {
    hide Asked, Fit, Answerable, Everything;
    BundleMeans(s, q);
    DeclaredAsked(q);
    var sel := Select(Wanted(q), Everything(s));
    var out := WantedOf(q, Everything(s));
    if a in out {
      var i :| 0 <= i < |out| && out[i] == a;
      SelectMembers(Wanted(q), Everything(s), sel[i]);
      EverythingMembers(s, sel[i]);
    }
    if Fit(q, a) && a in s.declared {
      Included(s, q, Listing(None, a));
    }
    if t :| Fit(q, a) && t in s.territories && a in t.anchors && Asked(q, Some(t.code)) {
      Included(s, q, Listing(Some(t.code), a));
    }
  }

  lemma {:induction false} Included(s: Snapshot, q: Query, l: Listing)
    requires Asked(q, l.code) && Fit(q, l.anchor)
    requires match l.code
             case None => l.anchor in s.declared
             case Some(code) => exists t :: t in s.territories && t.code == code && l.anchor in t.anchors
    ensures l.anchor in WantedOf(q, Everything(s))
  {
    hide Asked, Fit, Everything;
    EverythingMembers(s, l);
    SelectMembers(Wanted(q), Everything(s), l);
    var sel := Select(Wanted(q), Everything(s));
    var i :| 0 <= i < |sel| && sel[i] == l;
    assert WantedOf(q, Everything(s))[i] == l.anchor;
  }

  // ---- ETag soundness ----

  /** The names the structural read gives a certificate's key. */
  function KeyNames(w: World, der: Bytes): (string, string) {
    match w.certificate(der)
    case Parsed(f) => (f.keyAlgorithm, f.curve)
    case Structural(f) => (f.keyAlgorithm, f.curve)
    case Refused(_, alg, curve) => (alg, curve)
  }

  /** Fingerprint and key names are those of the anchor's own certificate. */
  predicate CertConsistent(w: World, a: Anchor) {
    && a.fingerprint == w.sha256(a.certDER)
    && (a.keyAlgorithm, a.curve) == KeyNames(w, a.certDER)
  }

  ghost predicate AllConsistent(w: World, anchors: seq<Anchor>) {
    forall i :: 0 <= i < |anchors| ==> CertConsistent(w, anchors[i])
  }

  /** What serving needs of a snapshot (kept by every run, see Reachable). */
  ghost predicate Servable(w: World, s: Snapshot) {
    && s.id == ContentId(s)
    && (forall i :: 0 <= i < |s.territories| ==> AllConsistent(w, s.territories[i].anchors))
    && (forall i :: 0 <= i < |s.territories| && s.territories[i].failed ==> s.territories[i].anchors == [])
    && AllConsistent(w, s.declared)
  }

  /** One projected anchor with the territory it is listed under (None: declared). */
  datatype Row = Row(code: Option<string>, anchor: IdAnchor)

  /** The certificate a fingerprint names. */
  ghost function CertOf(w: World, fingerprint: string): Bytes {
    if exists der :: w.sha256(der) == fingerprint
    then var der :| w.sha256(der) == fingerprint; der
    else []
  }

  ghost function RowCert(w: World): Row -> Bytes {
    (r: Row) => CertOf(w, r.anchor.fingerprint)
  }

  function AnchorCert(a: Anchor): Bytes {
    a.certDER
  }

  predicate RowUse(a: IdAnchor, use: string) {
    use == "" || a.uses == [] || UseAlias(use) in a.uses
  }

  ghost predicate RowServed(w: World, q: Query, r: Row) {
    var names := KeyNames(w, CertOf(w, r.anchor.fingerprint));
    && (r.code.Some? ==> Includes(q, r.code.value))
    && r.anchor.anchorType == q.anchorType
    && (q.qscdOnly ==> r.anchor.qscd)
    && RowUse(r.anchor, q.use)
    && (q.keys == KEYS_ALL || CommonKey(names.0, names.1))
  }

  ghost function RowServing(w: World, q: Query): Row -> bool {
    r => RowServed(w, q, r)
  }

  function RowIn(code: Option<string>): IdAnchor -> Row {
    a => Row(code, a)
  }

  function RowsIn(code: Option<string>, anchors: seq<IdAnchor>): seq<Row> {
    Map(RowIn(code), anchors)
  }

  function TerritoryRows(t: Territory): seq<Row> {
    RowsIn(Some(t.code), Map(ProjectAnchor, t.anchors))
  }

  function ProjectedRows(t: IdTerritory): seq<Row> {
    RowsIn(Some(t.code), t.anchors)
  }

  function SnapshotRows(s: Snapshot): seq<Row> {
    Flatten(Map(TerritoryRows, s.territories)) + RowsIn(None, Map(ProjectAnchor, s.declared))
  }

  /** The rows of a content id: what the id alone says is listed. */
  function ContentRows(c: IdContent): seq<Row> {
    Flatten(Map(ProjectedRows, c.territories)) + RowsIn(None, c.declared)
  }

  /** The certificates served from one listing, selected row by row. */
  ghost function RowCerts(w: World, q: Query, rows: seq<Row>): seq<Bytes> {
    Map(RowCert(w), Select(RowServing(w, q), rows))
  }

  lemma {:induction false} RowCertsAppend(w: World, q: Query, a: seq<Row>, b: seq<Row>)
    ensures RowCerts(w, q, a + b) == RowCerts(w, q, a) + RowCerts(w, q, b)
  {
    MapSelectAppend(RowCert(w), RowServing(w, q), a, b);
  }

  predicate Reaches(q: Query, code: Option<string>) {
    code.Some? ==> Includes(q, code.value)
  }

  lemma {:induction false} RowCertsOne(w: World, q: Query, code: Option<string>, a: Anchor)
    requires CollisionFree(w)
    requires CertConsistent(w, a)
    ensures RowCerts(w, q, [Row(code, ProjectAnchor(a))]) == CertIf(Reaches(q, code) && Serves(q, a), a)
  {
    RowMirrorsAnchor(w, q, code, a);
    SelectOne(RowServing(w, q), Row(code, ProjectAnchor(a)));
  }

  function ServedCerts(q: Query, code: Option<string>, anchors: seq<Anchor>): seq<Bytes> {
    if Reaches(q, code) then Map(AnchorCert, Select(Serving(q), anchors)) else []
  }

  function CertIf(serve: bool, a: Anchor): seq<Bytes> {
    if serve then [a.certDER] else []
  }

  lemma {:induction false} ServedCertsLast(q: Query, code: Option<string>, anchors: seq<Anchor>, a: Anchor)
    ensures ServedCerts(q, code, anchors + [a])
         == ServedCerts(q, code, anchors) + CertIf(Reaches(q, code) && Serves(q, a), a)
  {
    MapSelectAppend(AnchorCert, Serving(q), anchors, [a]);
    SelectOne(Serving(q), a);
    assert Map(AnchorCert, [a]) == [a.certDER];
  }

  lemma {:induction false} RowsOfAnchors(w: World, q: Query, code: Option<string>, anchors: seq<Anchor>)
    requires CollisionFree(w)
    requires AllConsistent(w, anchors)
    ensures RowCerts(w, q, RowsIn(code, Map(ProjectAnchor, anchors))) == ServedCerts(q, code, anchors)
    decreases |anchors|
  {
    if anchors != [] {
      var n := |anchors| - 1;
      RowsOfAnchors(w, q, code, anchors[..n]);
      var rows := RowsIn(code, Map(ProjectAnchor, anchors[..n]));
      var last := Row(code, ProjectAnchor(anchors[n]));
      assert RowsIn(code, Map(ProjectAnchor, anchors)) == rows + [last];
      RowCertsAppend(w, q, rows, [last]);
      RowCertsOne(w, q, code, anchors[n]);
      ServedCertsLast(q, code, anchors[..n], anchors[n]);
      assert anchors == anchors[..n] + [anchors[n]];
    }
  }

  lemma {:induction false} RowMirrorsAnchor(w: World, q: Query, code: Option<string>, a: Anchor)
    requires CollisionFree(w)
    requires CertConsistent(w, a)
    ensures CertOf(w, a.fingerprint) == a.certDER
    ensures RowServed(w, q, Row(code, ProjectAnchor(a)))
        <==> (code.Some? ==> Includes(q, code.value)) && Serves(q, a)
  {
    assert w.sha256(a.certDER) == a.fingerprint;
  }

  /** Selecting by row and selecting by anchor serve the same certificates. */
  lemma {:induction false} RowsOfTerritories(w: World, q: Query, ts: seq<Territory>)
    requires CollisionFree(w)
    requires forall i :: 0 <= i < |ts| ==> AllConsistent(w, ts[i].anchors)
    ensures RowCerts(w, q, Flatten(Map(TerritoryRows, ts))) == Map(AnchorCert, TerritoriesBundle(q, ts))
    decreases |ts|
  {
    if ts != [] {
      var n := |ts| - 1;
      RowsOfTerritories(w, q, ts[..n]);
      assert Map(TerritoryRows, ts)[..n] == Map(TerritoryRows, ts[..n]);
      RowCertsAppend(w, q, Flatten(Map(TerritoryRows, ts[..n])), TerritoryRows(ts[n]));
      RowsOfAnchors(w, q, Some(ts[n].code), ts[n].anchors);
      MapAppend(AnchorCert, TerritoriesBundle(q, ts[..n]), TerritoryBundle(q, ts[n]));
    }
  }

  lemma {:induction false} BundleCerts(w: World, q: Query, s: Snapshot)
    requires CollisionFree(w)
    requires Servable(w, s)
    requires ValidQuery(q)
    ensures Map(AnchorCert, Bundle(s, q).value) == RowCerts(w, q, SnapshotRows(s))
  {
    RowsOfTerritories(w, q, s.territories);
    RowsOfAnchors(w, q, None, s.declared);
    RowCertsAppend(w, q, Flatten(Map(TerritoryRows, s.territories)), RowsIn(None, Map(ProjectAnchor, s.declared)));
    MapAppend(AnchorCert, TerritoriesBundle(q, s.territories), Select(Serving(q), s.declared));
  }

  lemma {:induction false} NoRows(t: Territory)
    requires t.anchors == []
    ensures TerritoryRows(t) == []
  {
  }

  lemma {:induction false} FailedRowsVanish(ts: seq<Territory>)
    requires forall i :: 0 <= i < |ts| && ts[i].failed ==> ts[i].anchors == []
    ensures Flatten(Map(TerritoryRows, Select(HasData, ts))) == Flatten(Map(TerritoryRows, ts))
    decreases |ts|
  {
    hide TerritoryRows;
    if ts != [] {
      var n := |ts| - 1;
      FailedRowsVanish(ts[..n]);
      assert Map(TerritoryRows, ts)[..n] == Map(TerritoryRows, ts[..n]);
      if HasData(ts[n]) {
        var sel := Select(HasData, ts[..n]);
        assert Map(TerritoryRows, sel + [ts[n]])[..|sel|] == Map(TerritoryRows, sel);
      } else {
        NoRows(ts[n]);
      }
    }
  }

  lemma {:induction false} ProjectedRowsPermute(t: Territory)
    ensures multiset(ProjectedRows(ProjectTerritory(t))) == multiset(TerritoryRows(t))
  {
    MapPermutation(RowIn(Some(t.code)), ProjectTerritory(t).anchors, Map(ProjectAnchor, t.anchors));
  }

  lemma {:induction false} TerritoryRowsPermute(ts: seq<Territory>)
    ensures multiset(Flatten(Map(ProjectedRows, SortBy(CodeLe, Map(ProjectTerritory, ts)))))
         == multiset(Flatten(Map(TerritoryRows, ts)))
  {
    var ps := Map(ProjectTerritory, ts);
    MapPermutation(ProjectedRows, SortBy(CodeLe, ps), ps);
    FlattenPermutation(Map(ProjectedRows, SortBy(CodeLe, ps)), Map(ProjectedRows, ps));
    forall i | 0 <= i < |ts|
      ensures multiset(Map(ProjectedRows, ps)[i]) == multiset(Map(TerritoryRows, ts)[i])
    {
      ProjectedRowsPermute(ts[i]);
    }
    FlattenPointwise(Map(ProjectedRows, ps), Map(TerritoryRows, ts));
  }

  /** What a snapshot lists is what its id says it lists. */
  lemma {:induction false} RowsFromContent(s: Snapshot)
    requires forall i :: 0 <= i < |s.territories| && s.territories[i].failed ==> s.territories[i].anchors == []
    ensures multiset(SnapshotRows(s)) == multiset(ContentRows(ContentId(s)))
  {
    TerritoryRowsPermute(Select(HasData, s.territories));
    FailedRowsVanish(s.territories);
    MapPermutation(RowIn(None), ContentId(s).declared, Map(ProjectAnchor, s.declared));
  }

  /** The served certificates are a function of the id and the query alone. */
  lemma {:induction false} BundleFromId(w: World, q: Query, s: Snapshot)
    requires CollisionFree(w)
    requires Servable(w, s)
    requires ValidQuery(q)
    ensures multiset(Map(AnchorCert, Bundle(s, q).value))
         == multiset(RowCerts(w, q, ContentRows(s.id)))
  {
    BundleCerts(w, q, s);
    RowsFromContent(s);
    SelectPermutation(RowServing(w, q), SnapshotRows(s), ContentRows(s.id));
    MapPermutation(RowCert(w), Select(RowServing(w, q), SnapshotRows(s)), Select(RowServing(w, q), ContentRows(s.id)));
  }

  /** ETag soundness: with equal ids every query is answered alike, and with the
      same certificates. */
  lemma {:induction false} EtagSound(w: World, a: Snapshot, b: Snapshot, q: Query)
    requires CollisionFree(w)
    requires Servable(w, a) && Servable(w, b)
    requires a.id == b.id
    ensures Bundle(a, q).Ok? == Bundle(b, q).Ok? == ValidQuery(q)
    ensures ValidQuery(q) ==>
              multiset(Map(AnchorCert, Bundle(a, q).value)) == multiset(Map(AnchorCert, Bundle(b, q).value))
  {
    if ValidQuery(q) {
      BundleFromId(w, q, a);
      BundleFromId(w, q, b);
    }
  }
}
