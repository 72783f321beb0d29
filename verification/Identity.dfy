/** trust/anchor.go: the content id. The id is a sorted projection; the theorem
    here is that two snapshots have one id exactly when they have the same trust
    content, where trust content is stated without any order. */
module Identity {

  import opened Sequences
  import opened Order
  import opened Trust

  function ProjectAnchor(a: Anchor): IdAnchor {
    IdAnchor(a.fingerprint, a.status, a.qcWithQSCD, a.uses, a.source, a.anchorType, a.useCases)
  }

  predicate FingerprintLe(a: IdAnchor, b: IdAnchor) {
    KeyLe([a.fingerprint], [b.fingerprint])
  }

  predicate FingerprintTypeLe(a: IdAnchor, b: IdAnchor) {
    KeyLe([a.fingerprint, a.anchorType], [b.fingerprint, b.anchorType])
  }

  predicate CodeLe(a: IdTerritory, b: IdTerritory) {
    KeyLe([a.code], [b.code])
  }

  predicate TextLe(a: string, b: string) {
    KeyLe([a], [b])
  }

  lemma IdOrders()
    ensures TotalPreorder(FingerprintLe)
    ensures TotalPreorder(FingerprintTypeLe)
    ensures TotalPreorder(CodeLe)
    ensures TotalPreorder(TextLe)
  {
    KeyOrder();
  }

  predicate HasData(t: Territory) {
    !t.failed
  }

  function ProjectTerritory(t: Territory): IdTerritory {
    IdTerritory(t.code, t.tlSequence, SortBy(FingerprintLe, Map(ProjectAnchor, t.anchors)))
  }

  function PendingFingerprint(p: PendingAnchor): string {
    p.anchor.fingerprint
  }

  function ContentId(s: Snapshot): SnapshotId {
    IdContent(
      s.lotlSequence,
      SortBy(CodeLe, Map(ProjectTerritory, Select(HasData, s.territories))),
      SortBy(FingerprintTypeLe, Map(ProjectAnchor, s.declared)),
      SortBy(TextLe, Map(PendingFingerprint, s.pending)))
  }

  /** The projection of one anchor list, appended anchor by anchor. */
  method ProjectAnchors(anchors: seq<Anchor>) returns (out: seq<IdAnchor>)
    ensures out == Map(ProjectAnchor, anchors)
  {
    out := [];
    for i := 0 to |anchors|
      invariant out == Map(ProjectAnchor, anchors[..i])
    {
      assert anchors[..i + 1] == anchors[..i] + [anchors[i]];
      var a := anchors[i];
      out := out + [IdAnchor(a.fingerprint, a.status, a.qcWithQSCD, a.uses, a.source, a.anchorType, a.useCases)];
    }
    assert anchors[..|anchors|] == anchors;
  }

  /** The loop over the territories: failed ones contribute nothing. */
  method ProjectTerritories(ts: seq<Territory>) returns (out: seq<IdTerritory>)
    ensures out == Map(ProjectTerritory, Select(HasData, ts))
  {
    out := [];
    for i := 0 to |ts|
      invariant out == Map(ProjectTerritory, Select(HasData, ts[..i]))
    {
      assert ts[..i + 1][..i] == ts[..i];
      if !ts[i].failed {
        var anchors := ProjectAnchors(ts[i].anchors);
        out := out + [IdTerritory(ts[i].code, ts[i].tlSequence, SortBy(FingerprintLe, anchors))];
      }
    }
    assert ts[..|ts|] == ts;
  }

  /** ComputeID: build the projection, sorting as it goes. */
  method ComputeID(s: Snapshot) returns (id: SnapshotId)
    ensures id == ContentId(s)
  {
    var territories := ProjectTerritories(s.territories);
    var declared := ProjectAnchors(s.declared);
    var pending: seq<string> := [];
    for i := 0 to |s.pending|
      invariant pending == Map(PendingFingerprint, s.pending[..i])
    {
      assert s.pending[..i + 1] == s.pending[..i] + [s.pending[i]];
      pending := pending + [s.pending[i].anchor.fingerprint];
    }
    assert s.pending[..|s.pending|] == s.pending;
    id := IdContent(s.lotlSequence, SortBy(CodeLe, territories), SortBy(FingerprintTypeLe, declared), SortBy(TextLe, pending));
  }

  // ---- Trust content, free of order ----

  datatype TerritoryTrust = TerritoryTrust(code: string, tlSequence: UInt64, anchors: multiset<IdAnchor>)

  datatype TrustContent = TrustContent(
    lotlSequence: UInt64,
    territories: multiset<TerritoryTrust>,
    declared: multiset<IdAnchor>,
    pending: multiset<string>)

  ghost function TrustOfTerritory(t: Territory): TerritoryTrust {
    TerritoryTrust(t.code, t.tlSequence, multiset(Map(ProjectAnchor, t.anchors)))
  }

  /** Everything that can change what a consumer receives, with no order, no
      failed entries, no health flags, digests, pointers or times. */
  ghost function TrustContentOf(s: Snapshot): TrustContent {
    TrustContent(
      s.lotlSequence,
      multiset(Map(TrustOfTerritory, Select(HasData, s.territories))),
      multiset(Map(ProjectAnchor, s.declared)),
      multiset(Map(PendingFingerprint, s.pending)))
  }

  function AnchorFingerprint(a: Anchor): string {
    a.fingerprint
  }

  function TerritoryCode(t: Territory): string {
    t.code
  }

  function DeclaredKey(a: Anchor): (string, string) {
    (a.fingerprint, a.anchorType)
  }

  /** The uniqueness the id relies on: one entry per code, one anchor per
      fingerprint in a territory, one declared anchor per certificate and type. */
  ghost predicate Identifiable(s: Snapshot) {
    && Distinct(Map(TerritoryCode, s.territories))
    && (forall t :: t in s.territories ==> Distinct(Map(AnchorFingerprint, t.anchors)))
    && Distinct(Map(DeclaredKey, s.declared))
  }

  ghost function TrustOfProjection(t: IdTerritory): TerritoryTrust {
    TerritoryTrust(t.code, t.tlSequence, multiset(t.anchors))
  }

  /** A projected territory in canonical form. */
  ghost predicate Canonical(t: IdTerritory) {
    SortedBy(FingerprintLe, t.anchors) && Separates(FingerprintLe, t.anchors)
  }

  /** The one canonical projection with the given trust content, when there is one. */
  ghost function Arrange(m: TerritoryTrust): IdTerritory {
    if exists t :: Canonical(t) && TrustOfProjection(t) == m
    then var t :| Canonical(t) && TrustOfProjection(t) == m; t
    else IdTerritory(m.code, m.tlSequence, [])
  }

  lemma {:induction false} DistinctFingerprintsSeparate(anchors: seq<Anchor>)
    requires Distinct(Map(AnchorFingerprint, anchors))
    ensures Separates(FingerprintLe, Map(ProjectAnchor, anchors))
  {
    var ps := Map(ProjectAnchor, anchors);
    forall x, y | x in ps && y in ps && FingerprintLe(x, y) && FingerprintLe(y, x) ensures x == y {
      var i :| 0 <= i < |ps| && ps[i] == x;
      var j :| 0 <= j < |ps| && ps[j] == y;
      SingleKeyTie(x.fingerprint, y.fingerprint);
      assert Map(AnchorFingerprint, anchors)[i] == Map(AnchorFingerprint, anchors)[j];
    }
  }

  lemma {:induction false} ProjectionIsCanonical(t: Territory)
    requires Distinct(Map(AnchorFingerprint, t.anchors))
    ensures Canonical(ProjectTerritory(t))
    ensures Arrange(TrustOfTerritory(t)) == ProjectTerritory(t)
  {
    IdOrders();
    DistinctFingerprintsSeparate(t.anchors);
    var p := ProjectTerritory(t);
    SortBySorted(FingerprintLe, Map(ProjectAnchor, t.anchors));
    SortKeepsElements(FingerprintLe, Map(ProjectAnchor, t.anchors));
    assert Canonical(p) && TrustOfProjection(p) == TrustOfTerritory(t);
    var q := Arrange(TrustOfTerritory(t));
    assert Canonical(q) && TrustOfProjection(q) == TrustOfTerritory(t);
    SortedUnique(FingerprintLe, p.anchors, q.anchors);
  }

  lemma {:induction false} SelectedCodesSeparate(s: Snapshot)
    requires Identifiable(s)
    ensures Separates(CodeLe, Map(ProjectTerritory, Select(HasData, s.territories)))
  {
    var sel := Select(HasData, s.territories);
    var ps := Map(ProjectTerritory, sel);
    forall x, y | x in ps && y in ps && CodeLe(x, y) && CodeLe(y, x) ensures x == y {
      var i :| 0 <= i < |ps| && ps[i] == x;
      var j :| 0 <= j < |ps| && ps[j] == y;
      SingleKeyTie(x.code, y.code);
      SelectMembers(HasData, s.territories, sel[i]);
      SelectMembers(HasData, s.territories, sel[j]);
      CodeDeterminesEntry(s.territories, sel[i], sel[j]);
    }
  }

  lemma {:induction false} CodeDeterminesEntry(ts: seq<Territory>, a: Territory, b: Territory)
    requires Distinct(Map(TerritoryCode, ts))
    requires a in ts && b in ts && a.code == b.code
    ensures a == b
  {
    var i :| 0 <= i < |ts| && ts[i] == a;
    var j :| 0 <= j < |ts| && ts[j] == b;
    assert Map(TerritoryCode, ts)[i] == Map(TerritoryCode, ts)[j];
  }

  lemma {:induction false} DeclaredKeysSeparate(anchors: seq<Anchor>)
    requires Distinct(Map(DeclaredKey, anchors))
    ensures Separates(FingerprintTypeLe, Map(ProjectAnchor, anchors))
  {
    var ps := Map(ProjectAnchor, anchors);
    forall x, y | x in ps && y in ps && FingerprintTypeLe(x, y) && FingerprintTypeLe(y, x) ensures x == y {
      var i :| 0 <= i < |ps| && ps[i] == x;
      var j :| 0 <= j < |ps| && ps[j] == y;
      PairKeyTie(x.fingerprint, x.anchorType, y.fingerprint, y.anchorType);
      assert Map(DeclaredKey, anchors)[i] == Map(DeclaredKey, anchors)[j];
    }
  }

  /** Same id, same trust content: the id hides nothing. */
  lemma {:induction false} IdDeterminesTrust(a: Snapshot, b: Snapshot)
    requires ContentId(a) == ContentId(b)
    ensures TrustContentOf(a) == TrustContentOf(b)
  {
    var ta, tb := Select(HasData, a.territories), Select(HasData, b.territories);
    assert multiset(Map(ProjectTerritory, ta)) == multiset(Map(ProjectTerritory, tb)) by {
      assert multiset(ContentId(a).territories) == multiset(ContentId(b).territories);
    }
    MapPermutation(TrustOfProjection, Map(ProjectTerritory, ta), Map(ProjectTerritory, tb));
    assert Map(TrustOfProjection, Map(ProjectTerritory, ta)) == Map(TrustOfTerritory, ta);
    assert Map(TrustOfProjection, Map(ProjectTerritory, tb)) == Map(TrustOfTerritory, tb);
    assert multiset(ContentId(a).declared) == multiset(ContentId(b).declared);
    assert multiset(ContentId(a).pending) == multiset(ContentId(b).pending);
  }

  lemma {:induction false} ArrangeRecovers(s: Snapshot)
    requires Identifiable(s)
    ensures Map(Arrange, Map(TrustOfTerritory, Select(HasData, s.territories)))
         == Map(ProjectTerritory, Select(HasData, s.territories))
  {
    var sel := Select(HasData, s.territories);
    forall i | 0 <= i < |sel|
      ensures Map(Arrange, Map(TrustOfTerritory, sel))[i] == Map(ProjectTerritory, sel)[i]
    {
      SelectMembers(HasData, s.territories, sel[i]);
      ProjectionIsCanonical(sel[i]);
    }
  }

  lemma {:induction false} TerritoriesArranged(a: Snapshot, b: Snapshot)
    requires Identifiable(a) && Identifiable(b)
    requires TrustContentOf(a).territories == TrustContentOf(b).territories
    ensures ContentId(a).territories == ContentId(b).territories
  {
    IdOrders();
    var ta, tb := Select(HasData, a.territories), Select(HasData, b.territories);
    MapPermutation(Arrange, Map(TrustOfTerritory, ta), Map(TrustOfTerritory, tb));
    ArrangeRecovers(a);
    ArrangeRecovers(b);
    SelectedCodesSeparate(a);
    SortByPermutation(CodeLe, Map(ProjectTerritory, ta), Map(ProjectTerritory, tb));
  }

  lemma {:induction false} TextSeparates(s: seq<string>)
    ensures Separates(TextLe, s)
  {
    forall x, y | TextLe(x, y) && TextLe(y, x) ensures x == y {
      SingleKeyTie(x, y);
    }
  }

  /** Same trust content, same id: order and health never move the id. */
  lemma {:induction false} TrustDeterminesId(a: Snapshot, b: Snapshot)
    requires Identifiable(a) && Identifiable(b)
    requires TrustContentOf(a) == TrustContentOf(b)
    ensures ContentId(a) == ContentId(b)
  {
    TerritoriesArranged(a, b);
    IdOrders();
    DeclaredKeysSeparate(a.declared);
    SortByPermutation(FingerprintTypeLe, Map(ProjectAnchor, a.declared), Map(ProjectAnchor, b.declared));
    TextSeparates(Map(PendingFingerprint, a.pending));
    SortByPermutation(TextLe, Map(PendingFingerprint, a.pending), Map(PendingFingerprint, b.pending));
  }

  /** The content id is a complete invariant of the order-free trust content. */
  lemma {:induction false} SameIdIffSameTrust(a: Snapshot, b: Snapshot)
    requires Identifiable(a) && Identifiable(b)
    ensures ContentId(a) == ContentId(b) <==> TrustContentOf(a) == TrustContentOf(b)
  {
    if ContentId(a) == ContentId(b) {
      IdDeterminesTrust(a, b);
    }
    if TrustContentOf(a) == TrustContentOf(b) {
      TrustDeterminesId(a, b);
    }
  }

  // ---- The compared fields, written out ----

  /** The two anchors agree on everything the id is about. */
  ghost predicate SameAnchor(x: Anchor, y: Anchor) {
    && x.fingerprint == y.fingerprint && x.status == y.status && x.qcWithQSCD == y.qcWithQSCD && x.uses == y.uses
    && x.source == y.source && x.anchorType == y.anchorType && x.useCases == y.useCases
  }

  ghost predicate AnchorsWithin(xs: seq<Anchor>, ys: seq<Anchor>) {
    forall x :: x in xs ==> exists y :: y in ys && SameAnchor(x, y)
  }

  /** Every anchor of either list is in the other. */
  ghost predicate SameAnchors(xs: seq<Anchor>, ys: seq<Anchor>) {
    AnchorsWithin(xs, ys) && AnchorsWithin(ys, xs)
  }

  ghost predicate SameList(t: Territory, u: Territory) {
    t.code == u.code && t.tlSequence == u.tlSequence && SameAnchors(t.anchors, u.anchors)
  }

  ghost predicate ListsWithin(ts: seq<Territory>, us: seq<Territory>) {
    forall t :: t in ts && !t.failed ==> exists u :: u in us && !u.failed && SameList(t, u)
  }

  /** Every territory with data of either snapshot is in the other. */
  ghost predicate SameLists(ts: seq<Territory>, us: seq<Territory>) {
    ListsWithin(ts, us) && ListsWithin(us, ts)
  }

  /** The fingerprints held back, each as often as it is held. */
  ghost function HeldBack(s: Snapshot): multiset<string> {
    multiset(seq(|s.pending|, i requires 0 <= i < |s.pending| => s.pending[i].anchor.fingerprint))
  }

  ghost predicate SameFields(a: Snapshot, b: Snapshot) {
    && a.lotlSequence == b.lotlSequence
    && SameLists(a.territories, b.territories)
    && SameAnchors(a.declared, b.declared)
    && HeldBack(a) == HeldBack(b)
  }

  lemma {:induction false} ProjectedAlike(x: Anchor, y: Anchor)
    ensures ProjectAnchor(x) == ProjectAnchor(y) <==> SameAnchor(x, y)
  {
  }

  lemma {:induction false} ProjectedMember(ys: seq<Anchor>, x: Anchor)
    ensures ProjectAnchor(x) in Map(ProjectAnchor, ys) <==> exists y :: y in ys && SameAnchor(x, y)
  {
    var ps := Map(ProjectAnchor, ys);
    if ProjectAnchor(x) in ps {
      var i :| 0 <= i < |ps| && ps[i] == ProjectAnchor(x);
      ProjectedAlike(x, ys[i]);
    }
    if y :| y in ys && SameAnchor(x, y) {
      var i :| 0 <= i < |ys| && ys[i] == y;
      ProjectedAlike(x, y);
      assert ps[i] == ProjectAnchor(x);
    }
  }

  lemma {:induction false} AnchorsWithinIff(xs: seq<Anchor>, ys: seq<Anchor>)
    ensures AnchorsWithin(xs, ys) <==> forall p :: p in Map(ProjectAnchor, xs) ==> p in Map(ProjectAnchor, ys)
  {
    hide SameAnchor, ProjectAnchor;
    var ps, qs := Map(ProjectAnchor, xs), Map(ProjectAnchor, ys);
    if AnchorsWithin(xs, ys) {
      forall p | p in ps ensures p in qs {
        var i :| 0 <= i < |ps| && ps[i] == p;
        assert xs[i] in xs;
        ProjectedMember(ys, xs[i]);
      }
    }
    if forall p :: p in ps ==> p in qs {
      forall x | x in xs ensures exists y :: y in ys && SameAnchor(x, y) {
        var i :| 0 <= i < |xs| && xs[i] == x;
        assert ps[i] in ps;
        ProjectedMember(ys, x);
      }
    }
  }

  lemma {:induction false} DistinctProjections(anchors: seq<Anchor>)
    requires Distinct(Map(DeclaredKey, anchors))
    ensures Distinct(Map(ProjectAnchor, anchors))
  {
    var ps, ks := Map(ProjectAnchor, anchors), Map(DeclaredKey, anchors);
    forall i, j | 0 <= i < j < |ps| ensures ps[i] != ps[j] {
      assert ks[i] != ks[j];
    }
  }

  lemma {:induction false} FingerprintsSeparate(anchors: seq<Anchor>)
    requires Distinct(Map(AnchorFingerprint, anchors))
    ensures Distinct(Map(DeclaredKey, anchors))
  {
    var fs, ks := Map(AnchorFingerprint, anchors), Map(DeclaredKey, anchors);
    forall i, j | 0 <= i < j < |ks| ensures ks[i] != ks[j] {
      assert fs[i] != fs[j];
    }
  }

  /** Where no certificate and type repeats, agreeing lists are the same multiset. */
  lemma {:induction false} SameAnchorsIff(xs: seq<Anchor>, ys: seq<Anchor>)
    requires Distinct(Map(DeclaredKey, xs)) && Distinct(Map(DeclaredKey, ys))
    ensures multiset(Map(ProjectAnchor, xs)) == multiset(Map(ProjectAnchor, ys)) <==> SameAnchors(xs, ys)
  {
    hide AnchorsWithin, ProjectAnchor;
    var ps, qs := Map(ProjectAnchor, xs), Map(ProjectAnchor, ys);
    AnchorsWithinIff(xs, ys);
    AnchorsWithinIff(ys, xs);
    if SameAnchors(xs, ys) {
      DistinctProjections(xs);
      DistinctProjections(ys);
      DistinctSame(ps, qs);
    }
    if multiset(ps) == multiset(qs) {
      forall p ensures p in ps <==> p in qs {
        assert p in ps <==> p in multiset(ps);
        assert p in qs <==> p in multiset(qs);
      }
    }
  }

  lemma {:induction false} SameListIff(t: Territory, u: Territory)
    requires Distinct(Map(AnchorFingerprint, t.anchors)) && Distinct(Map(AnchorFingerprint, u.anchors))
    ensures TrustOfTerritory(t) == TrustOfTerritory(u) <==> SameList(t, u)
  {
    hide SameAnchors, ProjectAnchor;
    FingerprintsSeparate(t.anchors);
    FingerprintsSeparate(u.anchors);
    SameAnchorsIff(t.anchors, u.anchors);
  }

  lemma {:induction false} DistinctTrust(s: Snapshot)
    requires Identifiable(s)
    ensures Distinct(Map(TrustOfTerritory, Select(HasData, s.territories)))
  {
    var sel := Select(HasData, s.territories);
    SelectDistinct(TerritoryCode, HasData, s.territories);
    var ts, cs := Map(TrustOfTerritory, sel), Map(TerritoryCode, sel);
    forall i, j | 0 <= i < j < |ts| ensures ts[i] != ts[j] {
      assert cs[i] != cs[j];
    }
  }

  lemma {:induction false} LiveMember(s: Snapshot, x: TerritoryTrust)
    ensures x in Map(TrustOfTerritory, Select(HasData, s.territories))
       <==> exists t :: t in s.territories && !t.failed && TrustOfTerritory(t) == x
  {
    hide TrustOfTerritory;
    var sel := Select(HasData, s.territories);
    var ts := Map(TrustOfTerritory, sel);
    if x in ts {
      var i :| 0 <= i < |ts| && ts[i] == x;
      SelectMembers(HasData, s.territories, sel[i]);
    }
    if t :| t in s.territories && !t.failed && TrustOfTerritory(t) == x {
      SelectMembers(HasData, s.territories, t);
      var i :| 0 <= i < |sel| && sel[i] == t;
      assert ts[i] == x;
    }
  }

  lemma {:induction false} ListsWithinIff(a: Snapshot, b: Snapshot)
    requires Identifiable(a) && Identifiable(b)
    ensures ListsWithin(a.territories, b.territories)
       <==> Elements(Map(TrustOfTerritory, Select(HasData, a.territories))) <= Elements(Map(TrustOfTerritory, Select(HasData, b.territories)))
  {
    hide SameList, TrustOfTerritory, HasData, Distinct;
    var xs, ys := Map(TrustOfTerritory, Select(HasData, a.territories)), Map(TrustOfTerritory, Select(HasData, b.territories));
    if ListsWithin(a.territories, b.territories) {
      forall x | x in Elements(xs) ensures x in Elements(ys) {
        LiveMember(a, x);
        var t :| t in a.territories && !t.failed && TrustOfTerritory(t) == x;
        var u :| u in b.territories && !u.failed && SameList(t, u);
        SameListIff(t, u);
        LiveMember(b, x);
      }
    }
    if Elements(xs) <= Elements(ys) {
      forall t | t in a.territories && !t.failed ensures exists u :: u in b.territories && !u.failed && SameList(t, u) {
        LiveMember(a, TrustOfTerritory(t));
        assert TrustOfTerritory(t) in Elements(xs);
        LiveMember(b, TrustOfTerritory(t));
        var u :| u in b.territories && !u.failed && TrustOfTerritory(u) == TrustOfTerritory(t);
        SameListIff(t, u);
      }
    }
  }

  lemma {:induction false} SameListsIff(a: Snapshot, b: Snapshot)
    requires Identifiable(a) && Identifiable(b)
    ensures TrustContentOf(a).territories == TrustContentOf(b).territories <==> SameLists(a.territories, b.territories)
  {
    hide ListsWithin, Identifiable;
    var xs, ys := Map(TrustOfTerritory, Select(HasData, a.territories)), Map(TrustOfTerritory, Select(HasData, b.territories));
    ListsWithinIff(a, b);
    ListsWithinIff(b, a);
    if SameLists(a.territories, b.territories) {
      DistinctTrust(a);
      DistinctTrust(b);
      forall x ensures x in xs <==> x in ys {
        assert x in Elements(xs) <==> x in Elements(ys);
      }
      DistinctSame(xs, ys);
    }
    if multiset(xs) == multiset(ys) {
      forall x ensures x in Elements(xs) <==> x in Elements(ys) {
        assert x in xs <==> x in multiset(xs);
        assert x in ys <==> x in multiset(ys);
      }
    }
  }

  /** Two snapshots have one id exactly when they agree, up to order and repetition of
      entries, on the LOTL sequence number, on every territory with data (its code, its
      sequence number and its anchors), on the declared anchors and on the fingerprints
      held back; an anchor is compared by seven fields and by nothing else. */
  lemma {:induction false} SameIdIffSameFields(a: Snapshot, b: Snapshot)
    requires Identifiable(a) && Identifiable(b)
    ensures ContentId(a) == ContentId(b) <==> SameFields(a, b)
  {
    hide SameLists, SameAnchors, TrustOfTerritory, HasData, ContentId, ProjectAnchor;
    SameIdIffSameTrust(a, b);
    SameListsIff(a, b);
    SameAnchorsIff(a.declared, b.declared);
    assert HeldBack(a) == multiset(Map(PendingFingerprint, a.pending)) by {
      assert seq(|a.pending|, i requires 0 <= i < |a.pending| => a.pending[i].anchor.fingerprint) == Map(PendingFingerprint, a.pending);
    }
    assert HeldBack(b) == multiset(Map(PendingFingerprint, b.pending)) by {
      assert seq(|b.pending|, i requires 0 <= i < |b.pending| => b.pending[i].anchor.fingerprint) == Map(PendingFingerprint, b.pending);
    }
  }

  /** One territory's anchors in another order, with any health, digests or times. */
  ghost predicate Reordered(s: Territory, t: Territory) {
    s.code == t.code && s.tlSequence == t.tlSequence && multiset(s.anchors) == multiset(t.anchors)
  }

  /** Reordering territories, anchors, declared or pending entries, and adding or
      removing failed territories, leaves the id alone; nothing else is compared. */
  lemma {:induction false} ReorderedSameId(a: Snapshot, b: Snapshot, order: seq<Territory>)
    requires Identifiable(a) && Identifiable(b)
    requires a.lotlSequence == b.lotlSequence
    requires multiset(order) == multiset(Select(HasData, a.territories))
    requires var tb := Select(HasData, b.territories);
             |order| == |tb| && forall i :: 0 <= i < |tb| ==> Reordered(order[i], tb[i])
    requires multiset(a.declared) == multiset(b.declared)
    requires multiset(a.pending) == multiset(b.pending)
    ensures ContentId(a) == ContentId(b)
  {
    var tb := Select(HasData, b.territories);
    MapPermutation(TrustOfTerritory, Select(HasData, a.territories), order);
    forall i | 0 <= i < |tb| ensures TrustOfTerritory(order[i]) == TrustOfTerritory(tb[i]) {
      assert Reordered(order[i], tb[i]);
      MapPermutation(ProjectAnchor, order[i].anchors, tb[i].anchors);
    }
    assert Map(TrustOfTerritory, order) == Map(TrustOfTerritory, tb);
    MapPermutation(ProjectAnchor, a.declared, b.declared);
    MapPermutation(PendingFingerprint, a.pending, b.pending);
    TrustDeterminesId(a, b);
  }
}
