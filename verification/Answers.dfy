/** How far a snapshot id determines the answers served under it. The certificates of
    every answer are fixed as a multiset (Filter); here, when the answers are equal as
    sequences, and with their metadata. */
module Answers {

  import opened Sequences
  import opened Order
  import opened Trust
  import opened World
  import opened Identity
  import opened Filter
  import opened Differences
  import opened Manager
  import opened Invariant
  import opened Reachable

  // ---- The condition ----

  predicate ServableType(t: string) {
    t == "" || t in ANCHOR_TYPES
  }

  function OfType(t: string): Anchor -> bool {
    (a: Anchor) => a.anchorType == t
  }

  /** Two anchor lists show the same, type by type. */
  ghost predicate SameByType<V(!new)>(f: Anchor -> V, xs: seq<Anchor>, ys: seq<Anchor>) {
    forall t :: ServableType(t) ==> Map(f, Select(OfType(t), xs)) == Map(f, Select(OfType(t), ys))
  }

  /** The snapshots show the same, territory by territory and type by type. */
  ghost predicate SameOrder<V(!new)>(f: Anchor -> V, a: Snapshot, b: Snapshot) {
    var xs, ys := Select(HasData, a.territories), Select(HasData, b.territories);
    && |xs| == |ys|
    && (forall i :: 0 <= i < |xs| ==> SameByType(f, xs[i].anchors, ys[i].anchors))
    && SameByType(f, a.declared, b.declared)
  }

  /** What is shown of an anchor tells its certificate. */
  ghost predicate ShowsCert<V(!new)>(f: Anchor -> V) {
    forall x, y :: f(x) == f(y) ==> x.certDER == y.certDER
  }

  ghost predicate SameAnswers<V(!new)>(f: Anchor -> V, a: Snapshot, b: Snapshot) {
    forall q :: ValidQuery(q) ==> Map(f, Bundle(a, q).value) == Map(f, Bundle(b, q).value)
  }

  // ---- Equal ids: the same territories in the same order ----

  lemma {:induction false} SelectSorted(ts: seq<Territory>)
    requires Ascending(Map(TerritoryCode, ts))
    ensures SortedBy(CodeLe, Map(ProjectTerritory, Select(HasData, ts)))
    decreases |ts|
  {
    hide ProjectTerritory, TextLe, CodeLe;
    if ts != [] {
      var n := |ts| - 1;
      var codes := Map(TerritoryCode, ts);
      assert codes[..n] == Map(TerritoryCode, ts[..n]);
      SelectSorted(ts[..n]);
      var sel := Select(HasData, ts[..n]);
      if HasData(ts[n]) {
        assert Select(HasData, ts) == sel + [ts[n]];
        MapAppend(ProjectTerritory, sel, [ts[n]]);
        forall i | 0 <= i < |sel| ensures CodeLe(ProjectTerritory(sel[i]), ProjectTerritory(ts[n])) {
          SelectMembers(HasData, ts[..n], sel[i]);
          var j :| 0 <= j < n && ts[..n][j] == sel[i];
          assert TextLe(codes[j], codes[n]);
          CodesCompare(sel[i], ts[n]);
        }
      }
    }
  }

  lemma {:induction false} CodesCompare(s: Territory, t: Territory)
    requires TextLe(s.code, t.code)
    ensures CodeLe(ProjectTerritory(s), ProjectTerritory(t))
  {
  }

  /** In a well-formed snapshot the projection is in order as it stands. */
  lemma {:induction false} ProjectionInOrder(w: World, s: Snapshot)
    requires WellFormed(w, s)
    ensures Map(ProjectTerritory, Select(HasData, s.territories)) == s.id.territories
  {
    hide PendingOk, DeclaredOk, ProjectTerritory, CodeLe, TerritoryOk, Identifiable, Servable;
    var ps := Map(ProjectTerritory, Select(HasData, s.territories));
    WellFormedServes(w, s);
    SelectSorted(s.territories);
    SelectedCodesSeparate(s);
    IdOrders();
    SortBySorted(CodeLe, ps);
    SortedUnique(CodeLe, ps, SortBy(CodeLe, ps));
  }

  /** Two lists of the same anchors, each certificate once. */
  ghost predicate SameListed(w: World, xs: seq<Anchor>, ys: seq<Anchor>) {
    && multiset(Map(ProjectAnchor, xs)) == multiset(Map(ProjectAnchor, ys))
    && AllConsistent(w, xs) && AllConsistent(w, ys)
  }

  lemma {:induction false} EntriesMatch(w: World, a: Snapshot, b: Snapshot)
    requires WellFormed(w, a) && WellFormed(w, b) && a.id == b.id
    ensures var xs, ys := Select(HasData, a.territories), Select(HasData, b.territories);
            && |xs| == |ys|
            && forall i :: 0 <= i < |xs| ==>
                 && xs[i].code == ys[i].code && SameListed(w, xs[i].anchors, ys[i].anchors)
                 && Distinct(Map(AnchorFingerprint, ys[i].anchors))
  {
    hide ContentId, TerritoriesOk, PendingOk, DeclaredOk, WellFormed, AllConsistent, CertConsistent;
    ProjectionInOrder(w, a);
    ProjectionInOrder(w, b);
    var xs, ys := Select(HasData, a.territories), Select(HasData, b.territories);
    assert |Map(ProjectTerritory, xs)| == |Map(ProjectTerritory, ys)|;
    forall i | 0 <= i < |xs|
      ensures xs[i].code == ys[i].code && SameListed(w, xs[i].anchors, ys[i].anchors) && Distinct(Map(AnchorFingerprint, ys[i].anchors))
    {
      assert Map(ProjectTerritory, xs)[i] == Map(ProjectTerritory, ys)[i];
      assert multiset(ProjectTerritory(xs[i]).anchors) == multiset(ProjectTerritory(ys[i]).anchors);
      SelectedOk(w, a, i);
      SelectedOk(w, b, i);
    }
  }

  lemma {:induction false} SelectedOk(w: World, s: Snapshot, i: nat)
    requires WellFormed(w, s) && i < |Select(HasData, s.territories)|
    ensures var t := Select(HasData, s.territories)[i]; AllConsistent(w, t.anchors) && Distinct(Map(AnchorFingerprint, t.anchors))
  {
    hide ContentId, PendingOk, DeclaredOk, CertConsistent;
    var t := Select(HasData, s.territories)[i];
    SelectMembers(HasData, s.territories, t);
    var j :| 0 <= j < |s.territories| && s.territories[j] == t;
    assert TerritoryOk(w, s.territories[j]);
  }

  lemma {:induction false} DeclaredMatch(w: World, a: Snapshot, b: Snapshot)
    requires WellFormed(w, a) && WellFormed(w, b) && a.id == b.id
    ensures SameListed(w, a.declared, b.declared) && Distinct(Map(DeclaredKey, b.declared))
  {
    hide ContentId, TerritoriesOk, PendingOk, CertConsistent;
    IdDeterminesTrust(a, b);
  }

  // ---- One list ----

  /** The key that makes an anchor unique in its list. */
  lemma {:induction false} SameRow(w: World, xs: seq<Anchor>, ys: seq<Anchor>, x: Anchor, y: Anchor)
    requires SameListed(w, xs, ys) && x in xs && y in ys && x.certDER == y.certDER && x.anchorType == y.anchorType
    requires Distinct(Map(DeclaredKey, ys))
    ensures ProjectAnchor(x) == ProjectAnchor(y)
    ensures CertConsistent(w, x) && CertConsistent(w, y)
  {
    var i :| 0 <= i < |xs| && xs[i] == x;
    var j :| 0 <= j < |ys| && ys[j] == y;
    assert CertConsistent(w, xs[i]) && CertConsistent(w, ys[j]);
    MapHasImage(ProjectAnchor, xs, x);
    var z := MapMember(ProjectAnchor, ys, ProjectAnchor(x));
    var k :| 0 <= k < |ys| && ys[k] == z;
    assert Map(DeclaredKey, ys)[j] == Map(DeclaredKey, ys)[k];
  }

  lemma {:induction false} FingerprintsAreKeys(ys: seq<Anchor>)
    requires Distinct(Map(AnchorFingerprint, ys))
    ensures Distinct(Map(DeclaredKey, ys))
  {
    var fps, ks := Map(AnchorFingerprint, ys), Map(DeclaredKey, ys);
    forall i, j | 0 <= i < j < |ks| ensures ks[i] != ks[j] {
      assert fps[i] != fps[j];
    }
  }

  lemma {:induction false} ServesAlike(w: World, q: Query, x: Anchor, y: Anchor)
    requires CertConsistent(w, x) && CertConsistent(w, y) && x.certDER == y.certDER && ProjectAnchor(x) == ProjectAnchor(y)
    ensures Serves(q, x) <==> Serves(q, y)
  {
  }

  lemma {:induction false} SelectAligned<V>(f: Anchor -> V, q: Query, us: seq<Anchor>, vs: seq<Anchor>)
    requires |us| == |vs| && forall k :: 0 <= k < |us| ==> f(us[k]) == f(vs[k]) && (Serves(q, us[k]) <==> Serves(q, vs[k]))
    ensures Map(f, Select(Serving(q), us)) == Map(f, Select(Serving(q), vs))
    decreases |us|
  {
    hide Serves;
    if us != [] {
      var n := |us| - 1;
      SelectAligned(f, q, us[..n], vs[..n]);
      if Serves(q, us[n]) {
        MapAppend(f, Select(Serving(q), us[..n]), [us[n]]);
        MapAppend(f, Select(Serving(q), vs[..n]), [vs[n]]);
        assert Map(f, [us[n]]) == Map(f, [vs[n]]);
      }
    }
  }

  /** A query sees the anchors of its type. */
  lemma {:induction false} SelectOfType(q: Query, xs: seq<Anchor>)
    ensures Select(Serving(q), Select(OfType(q.anchorType), xs)) == Select(Serving(q), xs)
    decreases |xs|
  {
    if xs != [] {
      var n := |xs| - 1;
      SelectOfType(q, xs[..n]);
      if xs[n].anchorType == q.anchorType {
        assert Select(OfType(q.anchorType), xs) == Select(OfType(q.anchorType), xs[..n]) + [xs[n]];
        SelectAppend(Serving(q), Select(OfType(q.anchorType), xs[..n]), [xs[n]]);
        SelectOne(Serving(q), xs[n]);
      }
    }
  }

  /** Lists that show the same, type by type, answer alike. */
  lemma {:induction false} ListAnswersAlike<V(!new)>(w: World, f: Anchor -> V, q: Query, xs: seq<Anchor>, ys: seq<Anchor>)
    requires ShowsCert(f) && ServableType(q.anchorType)
    requires SameListed(w, xs, ys) && Distinct(Map(DeclaredKey, ys)) && SameByType(f, xs, ys)
    ensures Map(f, Select(Serving(q), xs)) == Map(f, Select(Serving(q), ys))
  {
    hide Serves, SameListed, CertConsistent, ProjectAnchor;
    var us, vs := Select(OfType(q.anchorType), xs), Select(OfType(q.anchorType), ys);
    assert Map(f, us) == Map(f, vs);
    assert |us| == |Map(f, us)| && |vs| == |Map(f, vs)|;
    forall k | 0 <= k < |us| ensures f(us[k]) == f(vs[k]) && (Serves(q, us[k]) <==> Serves(q, vs[k])) {
      assert Map(f, us)[k] == f(us[k]) && Map(f, vs)[k] == f(vs[k]);
      SelectMembers(OfType(q.anchorType), xs, us[k]);
      SelectMembers(OfType(q.anchorType), ys, vs[k]);
      SameRow(w, xs, ys, us[k], vs[k]);
      ServesAlike(w, q, us[k], vs[k]);
    }
    SelectAligned(f, q, us, vs);
    SelectOfType(q, xs);
    SelectOfType(q, ys);
  }

  // ---- From the condition to the answers ----

  lemma {:induction false} FailedBundle(q: Query, ts: seq<Territory>)
    requires forall t :: t in ts && t.failed ==> t.anchors == []
    ensures TerritoriesBundle(q, ts) == TerritoriesBundle(q, Select(HasData, ts))
    decreases |ts|
  {
    if ts != [] {
      var n := |ts| - 1;
      FailedBundle(q, ts[..n]);
      if HasData(ts[n]) {
        var sel := Select(HasData, ts[..n]);
        assert Select(HasData, ts) == sel + [ts[n]];
        assert (sel + [ts[n]])[..|sel|] == sel;
      } else {
        assert ts[n] in ts;
        assert Select(Serving(q), ts[n].anchors) == [];
      }
    }
  }

  lemma {:induction false} BundlesAlike<V(!new)>(f: Anchor -> V, q: Query, xs: seq<Territory>, ys: seq<Territory>)
    requires |xs| == |ys|
    requires forall i :: 0 <= i < |xs| ==> Map(f, TerritoryBundle(q, xs[i])) == Map(f, TerritoryBundle(q, ys[i]))
    ensures Map(f, TerritoriesBundle(q, xs)) == Map(f, TerritoriesBundle(q, ys))
    decreases |xs|
  {
    hide TerritoryBundle;
    if xs != [] {
      var n := |xs| - 1;
      BundlesAlike(f, q, xs[..n], ys[..n]);
      MapAppend(f, TerritoriesBundle(q, xs[..n]), TerritoryBundle(q, xs[n]));
      MapAppend(f, TerritoriesBundle(q, ys[..n]), TerritoryBundle(q, ys[n]));
    }
  }

  lemma {:induction false} OrderGivesAnswers<V(!new)>(w: World, f: Anchor -> V, a: Snapshot, b: Snapshot, q: Query)
    requires WellFormed(w, a) && WellFormed(w, b) && a.id == b.id
    requires ShowsCert(f) && SameOrder(f, a, b) && ValidQuery(q)
    ensures Map(f, Bundle(a, q).value) == Map(f, Bundle(b, q).value)
  {
    hide WellFormed, SameListed, SameByType, Serves, Includes, TerritoriesBundle, ShowsCert;
    var xs, ys := Select(HasData, a.territories), Select(HasData, b.territories);
    EntriesMatch(w, a, b);
    DeclaredMatch(w, a, b);
    forall i | 0 <= i < |xs| ensures Map(f, TerritoryBundle(q, xs[i])) == Map(f, TerritoryBundle(q, ys[i])) {
      FingerprintsAreKeys(ys[i].anchors);
      ListAnswersAlike(w, f, q, xs[i].anchors, ys[i].anchors);
    }
    BundlesAlike(f, q, xs, ys);
    WellFormedServes(w, a);
    WellFormedServes(w, b);
    FailedBundle(q, a.territories);
    FailedBundle(q, b.territories);
    ListAnswersAlike(w, f, q, a.declared, b.declared);
    MapAppend(f, TerritoriesBundle(q, a.territories), Select(Serving(q), a.declared));
    MapAppend(f, TerritoriesBundle(q, b.territories), Select(Serving(q), b.declared));
  }

  // ---- From the answers to the condition ----

  /** Everything of one type. */
  function Whole(t: string): Query {
    Query([], "", false, t, KEYS_ALL)
  }

  lemma {:induction false} WholeSelects(t: string, xs: seq<Anchor>)
    ensures Select(Serving(Whole(t)), xs) == Select(OfType(t), xs)
    decreases |xs|
  {
    if xs != [] {
      WholeSelects(t, xs[..|xs| - 1]);
    }
  }

  function IdOfType(t: string): IdAnchor -> bool {
    (a: IdAnchor) => a.anchorType == t
  }

  lemma {:induction false} TypesProject(t: string, xs: seq<Anchor>)
    ensures Select(IdOfType(t), Map(ProjectAnchor, xs)) == Map(ProjectAnchor, Select(OfType(t), xs))
    decreases |xs|
  {
    if xs != [] {
      var n := |xs| - 1;
      TypesProject(t, xs[..n]);
      assert Map(ProjectAnchor, xs)[..n] == Map(ProjectAnchor, xs[..n]);
      if xs[n].anchorType == t {
        MapAppend(ProjectAnchor, Select(OfType(t), xs[..n]), [xs[n]]);
        assert Map(ProjectAnchor, [xs[n]]) == [ProjectAnchor(xs[n])];
      }
    }
  }

  /** The same anchors: as many of each type. */
  lemma {:induction false} TypesCount(w: World, t: string, xs: seq<Anchor>, ys: seq<Anchor>)
    requires SameListed(w, xs, ys)
    ensures |Select(OfType(t), xs)| == |Select(OfType(t), ys)|
  {
    TypesProject(t, xs);
    TypesProject(t, ys);
    SelectPermutation(IdOfType(t), Map(ProjectAnchor, xs), Map(ProjectAnchor, ys));
    SameLength(Select(IdOfType(t), Map(ProjectAnchor, xs)), Select(IdOfType(t), Map(ProjectAnchor, ys)));
  }

  lemma {:induction false} SplitEqual<V>(a: seq<V>, b: seq<V>, c: seq<V>, d: seq<V>)
    requires a + b == c + d && |b| == |d|
    ensures a == c && b == d
  {
    var s := a + b;
    assert s == c + d;
    assert |a| == |c|;
    assert a == s[..|a|] && c == s[..|c|];
    assert b == s[|a|..] && d == s[|c|..];
  }

  lemma {:induction false} WholeEntry(t: string, x: Territory)
    ensures TerritoryBundle(Whole(t), x) == Select(OfType(t), x.anchors)
  {
    WholeSelects(t, x.anchors);
  }

  lemma {:induction false} WholeBlocks<V(!new)>(w: World, f: Anchor -> V, t: string, xs: seq<Territory>, ys: seq<Territory>)
    requires |xs| == |ys| && forall i :: 0 <= i < |xs| ==> SameListed(w, xs[i].anchors, ys[i].anchors)
    requires Map(f, TerritoriesBundle(Whole(t), xs)) == Map(f, TerritoriesBundle(Whole(t), ys))
    ensures forall i :: 0 <= i < |xs| ==> Map(f, Select(OfType(t), xs[i].anchors)) == Map(f, Select(OfType(t), ys[i].anchors))
    decreases |xs|
  {
    hide SameListed, TerritoryBundle, Select, Map, OfType;
    if xs != [] {
      var n := |xs| - 1;
      var q := Whole(t);
      WholeEntry(t, xs[n]);
      WholeEntry(t, ys[n]);
      TypesCount(w, t, xs[n].anchors, ys[n].anchors);
      MapAppend(f, TerritoriesBundle(q, xs[..n]), TerritoryBundle(q, xs[n]));
      MapAppend(f, TerritoriesBundle(q, ys[..n]), TerritoryBundle(q, ys[n]));
      SplitEqual(Map(f, TerritoriesBundle(q, xs[..n])), Map(f, TerritoryBundle(q, xs[n])),
                 Map(f, TerritoriesBundle(q, ys[..n])), Map(f, TerritoryBundle(q, ys[n])));
      WholeBlocks(w, f, t, xs[..n], ys[..n]);
    }
  }

  lemma {:induction false} WholeAnswer<V(!new)>(w: World, f: Anchor -> V, a: Snapshot, b: Snapshot, t: string)
    requires WellFormed(w, a) && WellFormed(w, b) && a.id == b.id && ServableType(t)
    requires Map(f, Bundle(a, Whole(t)).value) == Map(f, Bundle(b, Whole(t)).value)
    ensures var xs, ys := Select(HasData, a.territories), Select(HasData, b.territories);
            && |xs| == |ys|
            && (forall i :: 0 <= i < |xs| ==> Map(f, Select(OfType(t), xs[i].anchors)) == Map(f, Select(OfType(t), ys[i].anchors)))
            && Map(f, Select(OfType(t), a.declared)) == Map(f, Select(OfType(t), b.declared))
  {
    hide WellFormed, SameListed, TerritoriesBundle;
    var q, xs, ys := Whole(t), Select(HasData, a.territories), Select(HasData, b.territories);
    EntriesMatch(w, a, b);
    DeclaredMatch(w, a, b);
    WellFormedServes(w, a);
    WellFormedServes(w, b);
    FailedBundle(q, a.territories);
    FailedBundle(q, b.territories);
    WholeSelects(t, a.declared);
    WholeSelects(t, b.declared);
    TypesCount(w, t, a.declared, b.declared);
    MapAppend(f, TerritoriesBundle(q, xs), Select(OfType(t), a.declared));
    MapAppend(f, TerritoriesBundle(q, ys), Select(OfType(t), b.declared));
    SplitEqual(Map(f, TerritoriesBundle(q, xs)), Map(f, Select(OfType(t), a.declared)),
               Map(f, TerritoriesBundle(q, ys)), Map(f, Select(OfType(t), b.declared)));
    WholeBlocks(w, f, t, xs, ys);
  }

  /** Under one id, all answers show the same sequences exactly when the snapshots list
      the same, territory by territory and type by type. */
  lemma {:induction false} AnswersAlikeIff<V(!new)>(w: World, f: Anchor -> V, a: Snapshot, b: Snapshot)
    requires WellFormed(w, a) && WellFormed(w, b) && a.id == b.id && ShowsCert(f)
    ensures SameAnswers(f, a, b) <==> SameOrder(f, a, b)
  {
    hide WellFormed, ShowsCert, TerritoriesBundle, OfType, Select, Map;
    if SameOrder(f, a, b) {
      forall q | ValidQuery(q) ensures Map(f, Bundle(a, q).value) == Map(f, Bundle(b, q).value) {
        OrderGivesAnswers(w, f, a, b, q);
      }
    }
    if SameAnswers(f, a, b) {
      EntriesMatch(w, a, b);
      forall t | ServableType(t)
        ensures var xs, ys := Select(HasData, a.territories), Select(HasData, b.territories);
                && (forall i :: 0 <= i < |xs| ==> Map(f, Select(OfType(t), xs[i].anchors)) == Map(f, Select(OfType(t), ys[i].anchors)))
                && Map(f, Select(OfType(t), a.declared)) == Map(f, Select(OfType(t), b.declared))
      {
        assert ValidQuery(Whole(t));
        WholeAnswer(w, f, a, b, t);
      }
    }
  }

  // ---- The two routes ----

  function Itself(a: Anchor): Anchor {
    a
  }

  /** The body of the JSON route, as far as the snapshot determines it. */
  datatype AnchorsBody = AnchorsBody(snapshot: SnapshotId, generatedAt: Instant, anchors: seq<Anchor>)

  function JsonBody(s: Snapshot, q: Query): AnchorsBody
    requires ValidQuery(q)
  {
    AnchorsBody(s.id, s.generatedAt, Bundle(s, q).value)
  }

  lemma {:induction false} MapItself(s: seq<Anchor>)
    ensures Map(Itself, s) == s
  {
  }

  /** PEM: two snapshots served in any two runs under one id give the same bundles, in
      the same order, for every query, exactly when they list the same certificates in
      the same order, territory by territory and type by type. */
  lemma {:induction false} PemAlikeIff(one: System, a: seq<Step>, two: System, b: seq<Step>)
    requires one.w == two.w
    requires After(one, a).active.Some? && After(two, b).active.Some?
    requires After(one, a).active.value.id == After(two, b).active.value.id
    ensures var x, y := After(one, a).active.value, After(two, b).active.value;
            SameAnswers(AnchorCert, x, y) <==> SameOrder(AnchorCert, x, y)
  {
    hide After, WellFormed, SameAnswers, SameOrder;
    ReachableWellFormed(one, a);
    ReachableWellFormed(two, b);
    AnswersAlikeIff(one.w, AnchorCert, After(one, a).active.value, After(two, b).active.value);
  }

  /** JSON: the bodies are equal for every query exactly when the snapshots were
      generated at the same time and list the same anchors with the same metadata, in
      the same order. */
  lemma {:induction false} JsonAlikeIff(one: System, a: seq<Step>, two: System, b: seq<Step>)
    requires one.w == two.w
    requires After(one, a).active.Some? && After(two, b).active.Some?
    requires After(one, a).active.value.id == After(two, b).active.value.id
    ensures var x, y := After(one, a).active.value, After(two, b).active.value;
            (forall q :: ValidQuery(q) ==> JsonBody(x, q) == JsonBody(y, q)) <==> x.generatedAt == y.generatedAt && SameOrder(Itself, x, y)
  {
    hide After, WellFormed, SameOrder, Bundle;
    ReachableWellFormed(one, a);
    ReachableWellFormed(two, b);
    var x, y := After(one, a).active.value, After(two, b).active.value;
    AnswersAlikeIff(one.w, Itself, x, y);
    BodiesAreAnswers(x, y);
  }

  lemma {:induction false} BodiesAreAnswers(x: Snapshot, y: Snapshot)
    requires x.id == y.id
    ensures (forall q :: ValidQuery(q) ==> JsonBody(x, q) == JsonBody(y, q)) <==> x.generatedAt == y.generatedAt && SameAnswers(Itself, x, y)
  {
    hide TerritoriesBundle, Select;
    forall q | ValidQuery(q) ensures Map(Itself, Bundle(x, q).value) == Bundle(x, q).value && Map(Itself, Bundle(y, q).value) == Bundle(y, q).value {
      MapItself(Bundle(x, q).value);
      MapItself(Bundle(y, q).value);
    }
    assert ValidQuery(Whole(""));
    if forall q :: ValidQuery(q) ==> JsonBody(x, q) == JsonBody(y, q) {
      assert JsonBody(x, Whole("")) == JsonBody(y, Whole(""));
      forall q | ValidQuery(q) ensures Map(Itself, Bundle(x, q).value) == Map(Itself, Bundle(y, q).value) {
        assert JsonBody(x, q) == JsonBody(y, q);
      }
    }
    if x.generatedAt == y.generatedAt && SameAnswers(Itself, x, y) {
      forall q | ValidQuery(q) ensures JsonBody(x, q) == JsonBody(y, q) {
        assert Map(Itself, Bundle(x, q).value) == Map(Itself, Bundle(y, q).value);
      }
    }
  }
}
