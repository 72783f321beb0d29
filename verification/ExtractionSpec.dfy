/** What extraction means, stated over the set of service entries, and the proof
    that the sort, the in-place merge and the conflict rule compute exactly that. */
module ExtractionSpec {

  import opened Wrappers
  import opened Sequences
  import opened Order
  import opened Trust
  import opened World
  import opened Filter
  import opened Identity
  import opened Extraction
  import opened Vocabulary

  ghost predicate Lists(w: World, e: Entry, fp: string) {
    exists der :: der in ServiceCerts(w, e.service) && w.sha256(der) == fp
  }

  /** An accepted entry listing the certificate. */
  ghost predicate Contributes(w: World, p: Policy, entries: seq<Entry>, e: Entry, fp: string) {
    e in entries && Accepted(p, e) && Lists(w, e, fp)
  }

  /** The statuses of a certificate across all entries of admitted types. */
  ghost function StatusesOf(w: World, p: Policy, entries: seq<Entry>, fp: string): set<string> {
    set e | e in entries && Admitted(p, e) && Lists(w, e, fp) :: e.service.status
  }

  // ---- Statuses ----

  lemma {:induction false} AddStatusesAt(w: World, m: StatusMap, ders: seq<Bytes>, status: string, fp: string)
    ensures var r := AddStatuses(w, m, ders, status);
            if exists der :: der in ders && w.sha256(der) == fp
            then fp in r && r[fp] == (if fp in m then m[fp] else {}) + {status}
            else (fp in r <==> fp in m) && (fp in r ==> r[fp] == m[fp])
    decreases |ders|
  {
    if ders != [] {
      var n := |ders| - 1;
      AddStatusesAt(w, m, ders[..n], status, fp);
      assert ders == ders[..n] + [ders[n]];
    }
  }

  lemma {:induction false} StatusesByCertAt(w: World, p: Policy, entries: seq<Entry>, fp: string)
    ensures var m := StatusesByCert(w, p, entries);
            && (fp in m <==> StatusesOf(w, p, entries, fp) != {})
            && (fp in m ==> m[fp] == StatusesOf(w, p, entries, fp))
    decreases |entries|
  {
    if entries != [] {
      var n := |entries| - 1;
      var e := entries[n];
      StatusesByCertAt(w, p, entries[..n], fp);
      assert entries == entries[..n] + [e];
      var before := StatusesOf(w, p, entries[..n], fp);
      AddStatusesAt(w, StatusesByCert(w, p, entries[..n]), ServiceCerts(w, e.service), e.service.status, fp);
      if Admitted(p, e) && Lists(w, e, fp) {
        assert StatusesOf(w, p, entries, fp) == before + {e.service.status};
      } else {
        assert StatusesOf(w, p, entries, fp) == before;
      }
    }
  }

  // ---- Candidates ----

  /** An accepted entry and one of its certificates, as a candidate anchor. */
  ghost predicate IsCandidate(w: World, p: Policy, territory: string, entries: seq<Entry>, c: Anchor) {
    exists e, der :: e in entries && Accepted(p, e) && der in ServiceCerts(w, e.service)
                  && c == CandidateFor(w, territory, e)(der)
  }

  lemma {:induction false} EntryCandidateMembers(w: World, p: Policy, territory: string, e: Entry, c: Anchor)
    ensures c in EntryCandidates(w, p, territory)(e)
       <==> Accepted(p, e) && exists der :: der in ServiceCerts(w, e.service) && c == CandidateFor(w, territory, e)(der)
  {
    if Accepted(p, e) {
      var ders := ServiceCerts(w, e.service);
      var cs := Map(CandidateFor(w, territory, e), ders);
      if c in cs {
        var j :| 0 <= j < |cs| && cs[j] == c;
        assert ders[j] in ders;
      }
      if der :| der in ders && c == CandidateFor(w, territory, e)(der) {
        var j :| 0 <= j < |ders| && ders[j] == der;
        assert cs[j] == c;
      }
    }
  }

  lemma {:induction false} CandidateMembers(w: World, p: Policy, territory: string, entries: seq<Entry>, c: Anchor)
    ensures c in Candidates(w, p, territory, entries) <==> IsCandidate(w, p, territory, entries, c)
  {
    var parts := Map(EntryCandidates(w, p, territory), entries);
    FlattenMembers(parts, c);
    if c in Candidates(w, p, territory, entries) {
      var i :| 0 <= i < |parts| && c in parts[i];
      EntryCandidateMembers(w, p, territory, entries[i], c);
    }
    if IsCandidate(w, p, territory, entries, c) {
      var e, der :| e in entries && Accepted(p, e) && der in ServiceCerts(w, e.service) && c == CandidateFor(w, territory, e)(der);
      var i :| 0 <= i < |entries| && entries[i] == e;
      EntryCandidateMembers(w, p, territory, e, c);
      assert c in parts[i];
    }
  }

  // ---- The merge ----

  ghost function UsesIn(cs: seq<Anchor>, fp: string): set<string> {
    set c, u | c in cs && c.fingerprint == fp && u in c.uses :: u
  }

  ghost function QualifiersIn(cs: seq<Anchor>, fp: string): set<string> {
    set c, q | c in cs && c.fingerprint == fp && q in c.qualifiers :: q
  }

  ghost predicate QscdIn(cs: seq<Anchor>, fp: string) {
    exists c :: c in cs && c.fingerprint == fp && c.qcWithQSCD
  }

  ghost predicate Occurs(cs: seq<Anchor>, fp: string) {
    exists c :: c in cs && c.fingerprint == fp
  }

  function Bare(a: Anchor): Anchor {
    a.(uses := [], qualifiers := [], qcWithQSCD := false)
  }

  /** Candidate i of `cs` is the first with a's certificate, and a but for the merged metadata. */
  ghost predicate FirstAt(cs: seq<Anchor>, i: int, a: Anchor) {
    0 <= i < |cs| && Bare(cs[i]) == Bare(a) && forall j :: 0 <= j < i ==> cs[j].fingerprint != a.fingerprint
  }

  /** `a` is the first candidate of its certificate with the merged metadata of all of them. */
  ghost predicate MergeOf(cs: seq<Anchor>, a: Anchor) {
    && Elements(a.uses) == UsesIn(cs, a.fingerprint)
    && Elements(a.qualifiers) == QualifiersIn(cs, a.fingerprint)
    && (a.qcWithQSCD <==> QscdIn(cs, a.fingerprint))
    && exists i :: FirstAt(cs, i, a)
  }

  lemma {:induction false} MergeListsMembers(a: seq<string>, b: seq<string>, u: string)
    ensures u in MergeLists(a, b) <==> u in a || u in b
    decreases |b|
  {
    if b != [] {
      var n := |b| - 1;
      MergeListsMembers(a, b[..n], u);
      assert b == b[..n] + [b[n]];
    }
  }

  lemma {:induction false} AddNewDistinct(list: seq<string>, x: string)
    requires Distinct(list)
    ensures Distinct(AddNew(list, x))
    ensures forall y :: y in AddNew(list, x) <==> y in list || y == x
  {
  }

  lemma {:induction false} MergeListsDistinct(a: seq<string>, b: seq<string>)
    requires Distinct(a)
    ensures Distinct(MergeLists(a, b))
    decreases |b|
  {
    if b != [] {
      MergeListsDistinct(a, b[..|b| - 1]);
      AddNewDistinct(MergeLists(a, b[..|b| - 1]), b[|b| - 1]);
    }
  }

  lemma {:induction false} MergeListsUnion(a: seq<string>, b: seq<string>)
    ensures Elements(MergeLists(a, b)) == Elements(a) + Elements(b)
  {
    forall u ensures u in MergeLists(a, b) <==> u in a || u in b {
      MergeListsMembers(a, b, u);
    }
  }

  /** The state of the merge after any prefix of the sorted candidates. */
  ghost predicate MergeInv(m: StatusMap, cs: seq<Anchor>, st: Merged) {
    && Distinct(Map(AnchorFingerprint, st.kept))
    && (forall i :: 0 <= i < |st.kept| ==> !Conflicted(m, st.kept[i].fingerprint) && MergeOf(cs, st.kept[i]))
    && (forall fp :: Occurs(cs, fp) && !Conflicted(m, fp) ==> FindAnchor(st.kept, fp).Some?)
    && (forall fp :: Reported(st.conflicts, fp) <==> Occurs(cs, fp) && Conflicted(m, fp))
    && (forall i :: 0 <= i < |st.conflicts| ==> st.conflicts[i].code == SKIP_CONFLICT)
  }

  lemma {:induction false} FirstGrows(cs: seq<Anchor>, i: int, a: Anchor, x: Anchor)
    requires FirstAt(cs, i, a)
    ensures FirstAt(cs + [x], i, a)
  {
  }

  lemma {:induction false} MergeOfGrows(cs: seq<Anchor>, a: Anchor, x: Anchor)
    requires MergeOf(cs, a)
    requires x.fingerprint != a.fingerprint
    ensures MergeOf(cs + [x], a)
  {
    assert UsesIn(cs + [x], a.fingerprint) == UsesIn(cs, a.fingerprint);
    assert QualifiersIn(cs + [x], a.fingerprint) == QualifiersIn(cs, a.fingerprint);
    var i :| FirstAt(cs, i, a);
    FirstGrows(cs, i, a, x);
  }

  lemma {:induction false} ListsMerge(cs: seq<Anchor>, a: Anchor, x: Anchor)
    requires Elements(a.uses) == UsesIn(cs, a.fingerprint) && Elements(a.qualifiers) == QualifiersIn(cs, a.fingerprint)
    requires x.fingerprint == a.fingerprint
    ensures Elements(MergeLists(a.uses, x.uses)) == UsesIn(cs + [x], a.fingerprint)
    ensures Elements(MergeLists(a.qualifiers, x.qualifiers)) == QualifiersIn(cs + [x], a.fingerprint)
  {
    MergeListsUnion(a.uses, x.uses);
    MergeListsUnion(a.qualifiers, x.qualifiers);
    assert x in cs + [x];
    assert UsesIn(cs + [x], a.fingerprint) == UsesIn(cs, a.fingerprint) + Elements(x.uses);
    assert QualifiersIn(cs + [x], a.fingerprint) == QualifiersIn(cs, a.fingerprint) + Elements(x.qualifiers);
  }

  lemma {:induction false} MergeOfMerges(cs: seq<Anchor>, a: Anchor, x: Anchor)
    requires MergeOf(cs, a)
    requires x.fingerprint == a.fingerprint
    ensures MergeOf(cs + [x], MergeDuplicate(a, x))
  {
    var fp := a.fingerprint;
    ListsMerge(cs, a, x);
    assert x in cs + [x];
    var i :| FirstAt(cs, i, a);
    assert Bare(MergeDuplicate(a, x)) == Bare(a);
    FirstGrows(cs, i, MergeDuplicate(a, x), x);
    if QscdIn(cs, fp) {
      var d :| d in cs && d.fingerprint == fp && d.qcWithQSCD;
      assert d in cs + [x];
    }
  }

  lemma {:induction false} MergeOfFirst(cs: seq<Anchor>, x: Anchor)
    requires !Occurs(cs, x.fingerprint)
    ensures MergeOf(cs + [x], x)
  {
    assert x in cs + [x];
    assert UsesIn(cs + [x], x.fingerprint) == Elements(x.uses);
    assert QualifiersIn(cs + [x], x.fingerprint) == Elements(x.qualifiers);
    assert FirstAt(cs + [x], |cs|, x);
  }

  lemma {:induction false} MergedFrom(cs: seq<Anchor>, a: Anchor) returns (c: Anchor)
    requires MergeOf(cs, a)
    ensures c in cs && Bare(c) == Bare(a)
    ensures SortedBy(CandidateLe, cs) ==> forall d :: d in cs && d.fingerprint == a.fingerprint ==> CandidateLe(c, d)
  {
    var i :| FirstAt(cs, i, a);
    c := cs[i];
    BareKeeps(a, c);
    if SortedBy(CandidateLe, cs) {
      forall d | d in cs && d.fingerprint == a.fingerprint ensures CandidateLe(c, d) {
        var j :| 0 <= j < |cs| && cs[j] == d;
        KeyLeTotal([c.tspName, c.serviceName, c.fingerprint], [c.tspName, c.serviceName, c.fingerprint]);
        assert i <= j;
      }
    }
  }

  lemma {:induction false} OccursGrows(cs: seq<Anchor>, x: Anchor, fp: string)
    ensures Occurs(cs + [x], fp) <==> Occurs(cs, fp) || x.fingerprint == fp
  {
    assert x in cs + [x];
    if Occurs(cs, fp) {
      var c :| c in cs && c.fingerprint == fp;
      assert c in cs + [x];
    }
  }

  lemma {:induction false} FindKept(kept: seq<Anchor>, i: nat)
    requires i < |kept|
    requires Distinct(Map(AnchorFingerprint, kept))
    ensures FindAnchor(kept, kept[i].fingerprint) == Some(i)
  {
    var fps := Map(AnchorFingerprint, kept);
    var r := FindAnchor(kept, kept[i].fingerprint);
    assert r.Some?;
    assert fps[i] == fps[r.value];
  }

  lemma {:induction false} ConflictStep(m: StatusMap, cs: seq<Anchor>, st: Merged, x: Anchor)
    requires MergeInv(m, cs, st)
    requires Conflicted(m, x.fingerprint)
    ensures MergeInv(m, cs + [x], Absorb(m, st, x))
  {
    var r := Absorb(m, st, x);
    forall fp ensures Occurs(cs + [x], fp) <==> Occurs(cs, fp) || x.fingerprint == fp {
      OccursGrows(cs, x, fp);
    }
    forall i | 0 <= i < |st.kept| ensures MergeOf(cs + [x], st.kept[i]) {
      MergeOfGrows(cs, st.kept[i], x);
    }
    forall fp ensures Reported(r.conflicts, fp) <==> Occurs(cs + [x], fp) && Conflicted(m, fp) {
      ReportedGrows(st.conflicts, ConflictWarning(x), fp);
    }
  }

  lemma {:induction false} ReportedGrows(ws: seq<Warning>, x: Warning, fp: string)
    ensures Reported(ws + [x], fp) <==> Reported(ws, fp) || x.fingerprint == fp
  {
    assert (ws + [x])[|ws|] == x;
    if Reported(ws, fp) {
      var i :| 0 <= i < |ws| && ws[i].fingerprint == fp;
      assert (ws + [x])[i] == ws[i];
    }
  }

  lemma {:induction false} MergeStep(m: StatusMap, cs: seq<Anchor>, st: Merged, x: Anchor)
    requires MergeInv(m, cs, st)
    requires !Conflicted(m, x.fingerprint)
    requires FindAnchor(st.kept, x.fingerprint).Some?
    ensures MergeInv(m, cs + [x], Absorb(m, st, x))
  {
    hide MergeOf, Occurs, MergeLists;
    var r := Absorb(m, st, x);
    var k := FindAnchor(st.kept, x.fingerprint).value;
    assert Map(AnchorFingerprint, r.kept) == Map(AnchorFingerprint, st.kept);
    forall i | 0 <= i < |r.kept| ensures MergeOf(cs + [x], r.kept[i]) {
      if i == k {
        MergeOfMerges(cs, st.kept[i], x);
      } else {
        FindKept(st.kept, i);
        MergeOfGrows(cs, st.kept[i], x);
      }
    }
    forall fp ensures Occurs(cs + [x], fp) <==> Occurs(cs, fp) || x.fingerprint == fp {
      OccursGrows(cs, x, fp);
    }
    forall fp | Occurs(cs + [x], fp) && !Conflicted(m, fp) ensures FindAnchor(r.kept, fp).Some? {
      var j := FindAnchor(st.kept, fp).value;
      assert r.kept[j].fingerprint == fp;
    }
  }

  lemma {:induction false} AppendStep(m: StatusMap, cs: seq<Anchor>, st: Merged, x: Anchor)
    requires MergeInv(m, cs, st)
    requires !Conflicted(m, x.fingerprint)
    requires FindAnchor(st.kept, x.fingerprint).None?
    ensures MergeInv(m, cs + [x], Absorb(m, st, x))
  {
    hide MergeOf, Occurs, FindAnchor;
    var r := Absorb(m, st, x);
    forall i | 0 <= i < |r.kept| ensures MergeOf(cs + [x], r.kept[i]) {
      if i == |st.kept| {
        MergeOfFirst(cs, x);
      } else {
        MergeOfGrows(cs, st.kept[i], x);
      }
    }
    forall fp ensures Occurs(cs + [x], fp) <==> Occurs(cs, fp) || x.fingerprint == fp {
      OccursGrows(cs, x, fp);
    }
    forall fp | Occurs(cs + [x], fp) && !Conflicted(m, fp) ensures FindAnchor(r.kept, fp).Some? {
      if fp == x.fingerprint {
        assert r.kept[|st.kept|].fingerprint == fp;
      } else {
        var j := FindAnchor(st.kept, fp).value;
        assert r.kept[j].fingerprint == fp;
      }
    }
  }

  lemma {:induction false} DedupInv(m: StatusMap, cs: seq<Anchor>)
    ensures MergeInv(m, cs, Dedup(m, cs))
    decreases |cs|
  {
    if cs != [] {
      var n := |cs| - 1;
      DedupInv(m, cs[..n]);
      assert cs == cs[..n] + [cs[n]];
      var st := Dedup(m, cs[..n]);
      if Conflicted(m, cs[n].fingerprint) {
        ConflictStep(m, cs[..n], st, cs[n]);
      } else if FindAnchor(st.kept, cs[n].fingerprint).Some? {
        MergeStep(m, cs[..n], st, cs[n]);
      } else {
        AppendStep(m, cs[..n], st, cs[n]);
      }
    }
  }

  // ---- The declarative specification ----

  /** The use set of a certificate: the union over its accepted entries. */
  ghost function UsesOf(w: World, p: Policy, entries: seq<Entry>, fp: string): set<string> {
    set e, u | e in entries && Contributes(w, p, entries, e, fp) && u in ServiceUses(e.service.extensions) :: u
  }

  ghost function QualifiersOf(w: World, p: Policy, entries: seq<Entry>, fp: string): set<string> {
    set e, q | e in entries && Contributes(w, p, entries, e, fp) && q in AllQualifiers(e.service.extensions) :: q
  }

  ghost predicate QscdOf(w: World, p: Policy, entries: seq<Entry>, fp: string) {
    exists e :: Contributes(w, p, entries, e, fp) && QscdPositive(e.service.extensions)
  }

  ghost function SortedCandidates(w: World, p: Policy, territory: string, entries: seq<Entry>): seq<Anchor> {
    SortBy(CandidateLe, Candidates(w, p, territory, entries))
  }

  lemma {:induction false} CandidateHasEntry(w: World, p: Policy, territory: string, entries: seq<Entry>, c: Anchor) returns (e: Entry, der: Bytes)
    requires c in SortedCandidates(w, p, territory, entries)
    ensures Contributes(w, p, entries, e, c.fingerprint)
    ensures der in ServiceCerts(w, e.service) && c == Candidate(w, territory, e, der)
  {
    SortKeepsElements(CandidateLe, Candidates(w, p, territory, entries));
    CandidateMembers(w, p, territory, entries, c);
    e, der :| e in entries && Accepted(p, e) && der in ServiceCerts(w, e.service) && c == CandidateFor(w, territory, e)(der);
  }

  lemma {:induction false} EntryHasCandidate(w: World, p: Policy, territory: string, entries: seq<Entry>, e: Entry, fp: string) returns (c: Anchor)
    requires Contributes(w, p, entries, e, fp)
    ensures c in SortedCandidates(w, p, territory, entries) && c.fingerprint == fp
    ensures c.uses == ServiceUses(e.service.extensions) && c.qcWithQSCD == QscdPositive(e.service.extensions)
    ensures c.qualifiers == SortBy(TextLe, AllQualifiers(e.service.extensions))
    ensures c.tspName == e.tspName && c.serviceName == e.service.name
  {
    var der :| der in ServiceCerts(w, e.service) && w.sha256(der) == fp;
    c := CandidateFor(w, territory, e)(der);
    CandidateMembers(w, p, territory, entries, c);
    SortKeepsElements(CandidateLe, Candidates(w, p, territory, entries));
  }

  lemma {:induction false} OccursIffContributed(w: World, p: Policy, territory: string, entries: seq<Entry>, fp: string)
    ensures Occurs(SortedCandidates(w, p, territory, entries), fp) <==> exists e :: Contributes(w, p, entries, e, fp)
  {
    if Occurs(SortedCandidates(w, p, territory, entries), fp) {
      var c :| c in SortedCandidates(w, p, territory, entries) && c.fingerprint == fp;
      var _, _ := CandidateHasEntry(w, p, territory, entries, c);
    }
    if e :| Contributes(w, p, entries, e, fp) {
      var _ := EntryHasCandidate(w, p, territory, entries, e, fp);
    }
  }

  lemma {:induction false} UsesAgree(w: World, p: Policy, territory: string, entries: seq<Entry>, fp: string)
    ensures UsesIn(SortedCandidates(w, p, territory, entries), fp) == UsesOf(w, p, entries, fp)
  {
    var cs := SortedCandidates(w, p, territory, entries);
    forall u | u in UsesIn(cs, fp) ensures u in UsesOf(w, p, entries, fp) {
      var c :| c in cs && c.fingerprint == fp && u in c.uses;
      var e, der := CandidateHasEntry(w, p, territory, entries, c);
    }
    forall u | u in UsesOf(w, p, entries, fp) ensures u in UsesIn(cs, fp) {
      var e :| Contributes(w, p, entries, e, fp) && u in ServiceUses(e.service.extensions);
      var c := EntryHasCandidate(w, p, territory, entries, e, fp);
    }
  }

  lemma {:induction false} QualifiersAgree(w: World, p: Policy, territory: string, entries: seq<Entry>, fp: string)
    ensures QualifiersIn(SortedCandidates(w, p, territory, entries), fp) == QualifiersOf(w, p, entries, fp)
  {
    var cs := SortedCandidates(w, p, territory, entries);
    forall q | q in QualifiersIn(cs, fp) ensures q in QualifiersOf(w, p, entries, fp) {
      var c :| c in cs && c.fingerprint == fp && q in c.qualifiers;
      var e, der := CandidateHasEntry(w, p, territory, entries, c);
      SortKeepsElements(TextLe, AllQualifiers(e.service.extensions));
    }
    forall q | q in QualifiersOf(w, p, entries, fp) ensures q in QualifiersIn(cs, fp) {
      var e :| Contributes(w, p, entries, e, fp) && q in AllQualifiers(e.service.extensions);
      var c := EntryHasCandidate(w, p, territory, entries, e, fp);
      SortKeepsElements(TextLe, AllQualifiers(e.service.extensions));
    }
  }

  lemma {:induction false} QscdAgrees(w: World, p: Policy, territory: string, entries: seq<Entry>, fp: string)
    ensures QscdIn(SortedCandidates(w, p, territory, entries), fp) <==> QscdOf(w, p, entries, fp)
  {
    var cs := SortedCandidates(w, p, territory, entries);
    if QscdIn(cs, fp) {
      var c :| c in cs && c.fingerprint == fp && c.qcWithQSCD;
      var e, der := CandidateHasEntry(w, p, territory, entries, c);
    }
    if QscdOf(w, p, entries, fp) {
      var e :| Contributes(w, p, entries, e, fp) && QscdPositive(e.service.extensions);
      var c := EntryHasCandidate(w, p, territory, entries, e, fp);
    }
  }

  /** A single status: the certificate never fails closed. */
  ghost predicate SingleStatus(w: World, p: Policy, entries: seq<Entry>, fp: string) {
    |StatusesOf(w, p, entries, fp)| == 1
  }

  lemma {:induction false} ConflictedIff(w: World, p: Policy, entries: seq<Entry>, e: Entry, fp: string)
    requires Contributes(w, p, entries, e, fp)
    ensures e.service.status in StatusesOf(w, p, entries, fp)
    ensures Conflicted(StatusesByCert(w, p, entries), fp) <==> !SingleStatus(w, p, entries, fp)
    ensures SingleStatus(w, p, entries, fp) ==> StatusesOf(w, p, entries, fp) == {e.service.status}
  {
    StatusesByCertAt(w, p, entries, fp);
    var all := StatusesOf(w, p, entries, fp);
    assert e.service.status in all;
    assert |all - {e.service.status}| == |all| - 1;
  }

  /** What a list says about one certificate. */
  datatype Meta = Meta(certDER: Bytes, status: string, uses: set<string>, qscd: bool)

  ghost function MetaOf(a: Anchor): Meta {
    Meta(a.certDER, a.status, Elements(a.uses), a.qcWithQSCD)
  }

  ghost predicate Listed(w: World, p: Policy, entries: seq<Entry>, fp: string) {
    (exists e :: Contributes(w, p, entries, e, fp)) && SingleStatus(w, p, entries, fp)
  }

  /** The entry gives the anchor its names, its type and the type key it is served under. */
  ghost predicate NamedAfter(e: Entry, a: Anchor) {
    && a.tspName == e.tspName && a.serviceName == e.service.name
    && a.serviceType == e.service.typeIdentifier && a.statusStartingTime == e.service.statusStartingTime
    && ServedUnder(e.service.typeIdentifier, a.anchorType)
  }

  /** Provider names first, service names where those are the same. */
  predicate NamesLe(a: Entry, b: Entry) {
    if a.tspName == b.tspName then StringLe(a.service.name, b.service.name) else StringLe(a.tspName, b.tspName)
  }

  /** The first entry by name among those that contribute the certificate. */
  ghost predicate FirstNamed(w: World, p: Policy, entries: seq<Entry>, e: Entry, fp: string) {
    Contributes(w, p, entries, e, fp) && forall d :: Contributes(w, p, entries, d, fp) ==> NamesLe(e, d)
  }

  /** The anchor carries the facts of its parsed or structurally read certificate. */
  ghost predicate FactsFrom(w: World, a: Anchor, f: CertFacts) {
    && (w.certificate(a.certDER) == Parsed(f) || w.certificate(a.certDER) == Structural(f))
    && a.fingerprint == w.sha256(a.certDER)
    && a.subject == f.subject && a.notBefore == f.notBefore && a.notAfter == f.notAfter
    && a.keyAlgorithm == f.keyAlgorithm && a.curve == f.curve
  }

  /** An extracted anchor, described by the entries of its certificate alone. */
  ghost predicate Describes(w: World, p: Policy, territory: string, entries: seq<Entry>, a: Anchor) {
    && Listed(w, p, entries, a.fingerprint)
    && a.territory == territory && a.source == SOURCE_TL && a.useCases == [] && a.tlSequence == 0
    && CertConsistent(w, a)
    && Held(w, a.certDER)
    && StatusesOf(w, p, entries, a.fingerprint) == {a.status}
    && Elements(a.uses) == UsesOf(w, p, entries, a.fingerprint)
    && Elements(a.qualifiers) == QualifiersOf(w, p, entries, a.fingerprint)
    && (a.qcWithQSCD <==> QscdOf(w, p, entries, a.fingerprint))
    && (exists f :: FactsFrom(w, a, f))
    && exists e :: FirstNamed(w, p, entries, e, a.fingerprint) && NamedAfter(e, a)
  }

  lemma {:induction false} CandidateOrder()
    ensures TotalPreorder(CandidateLe)
  {
    KeyOrder();
  }

  lemma {:induction false} SameCertNames(c: Anchor, d: Anchor, a: Entry, b: Entry)
    requires CandidateLe(c, d) && c.fingerprint == d.fingerprint
    requires c.tspName == a.tspName && c.serviceName == a.service.name
    requires d.tspName == b.tspName && d.serviceName == b.service.name
    ensures NamesLe(a, b)
  {
    KeyLeThree(c.tspName, c.serviceName, c.fingerprint, d.tspName, d.serviceName, d.fingerprint);
    StringLeTotal(c.serviceName, c.serviceName);
  }

  lemma {:induction false} FirstCandidateNames(w: World, p: Policy, territory: string, entries: seq<Entry>, a: Anchor, c: Anchor, e: Entry)
    requires c in SortedCandidates(w, p, territory, entries)
    requires forall d :: d in SortedCandidates(w, p, territory, entries) && d.fingerprint == c.fingerprint ==> CandidateLe(c, d)
    requires Contributes(w, p, entries, e, c.fingerprint) && c.tspName == e.tspName && c.serviceName == e.service.name
    ensures FirstNamed(w, p, entries, e, c.fingerprint)
  {
    forall d | Contributes(w, p, entries, d, c.fingerprint) ensures NamesLe(e, d) {
      var x := EntryHasCandidate(w, p, territory, entries, d, c.fingerprint);
      SameCertNames(c, x, e, d);
    }
  }

  lemma {:induction false} CandidateNamed(w: World, territory: string, e: Entry, der: Bytes)
    requires Held(w, der)
    ensures NamedAfter(e, Candidate(w, territory, e, der))
    ensures exists f :: FactsFrom(w, Candidate(w, territory, e, der), f)
  {
    TypeKeyServes(e.service.typeIdentifier);
    assert FactsFrom(w, Candidate(w, territory, e, der), FactsOf(w, der));
  }

  lemma {:induction false} BareNamed(w: World, e: Entry, a: Anchor, c: Anchor, f: CertFacts)
    requires Bare(c) == Bare(a) && NamedAfter(e, c) && FactsFrom(w, c, f)
    ensures NamedAfter(e, a) && FactsFrom(w, a, f)
  {
    BareKeeps(a, c);
  }

  lemma {:induction false} AnchorMerged(w: World, p: Policy, territory: string, entries: seq<Entry>, i: nat)
    requires i < |ExtractEntries(w, p, territory, entries).anchors|
    ensures var a := ExtractEntries(w, p, territory, entries).anchors[i];
            MergeOf(SortedCandidates(w, p, territory, entries), a) && !Conflicted(StatusesByCert(w, p, entries), a.fingerprint)
  {
    DedupInv(StatusesByCert(w, p, entries), SortedCandidates(w, p, territory, entries));
  }

  /** The names and facts of a merged anchor. */
  lemma {:induction false} MergedNames(w: World, p: Policy, territory: string, entries: seq<Entry>, a: Anchor)
    requires MergeOf(SortedCandidates(w, p, territory, entries), a)
    ensures exists f :: FactsFrom(w, a, f)
    ensures exists e :: FirstNamed(w, p, entries, e, a.fingerprint) && NamedAfter(e, a)
  {
    hide NamedAfter, FactsFrom, FirstNamed, MergeOf, Bare, TotalPreorder;
    CandidateOrder();
    SortBySorted(CandidateLe, Candidates(w, p, territory, entries));
    var c := MergedFrom(SortedCandidates(w, p, territory, entries), a);
    var e, der := CandidateHasEntry(w, p, territory, entries, c);
    BareKeeps(a, c);
    SelectedCert(w, e.service, der);
    FirstCandidateNames(w, p, territory, entries, a, c, e);
    CandidateNamed(w, territory, e, der);
    var f :| FactsFrom(w, c, f);
    BareNamed(w, e, a, c, f);
  }

  /** The certificate, the status and the marks of a merged anchor. */
  lemma {:induction false} MergedMarks(w: World, p: Policy, territory: string, entries: seq<Entry>, a: Anchor)
    requires MergeOf(SortedCandidates(w, p, territory, entries), a)
    requires !Conflicted(StatusesByCert(w, p, entries), a.fingerprint)
    ensures Listed(w, p, entries, a.fingerprint) && StatusesOf(w, p, entries, a.fingerprint) == {a.status}
    ensures a.territory == territory && a.source == SOURCE_TL && a.useCases == [] && a.tlSequence == 0
    ensures CertConsistent(w, a) && Held(w, a.certDER)
  {
    hide MergeOf, Bare, StatusesByCert, StatusesOf;
    var c := MergedFrom(SortedCandidates(w, p, territory, entries), a);
    var e, der := CandidateHasEntry(w, p, territory, entries, c);
    BareKeeps(a, c);
    CandidateConsistent(w, territory, e, der);
    ConflictedIff(w, p, entries, e, a.fingerprint);
    SelectedCert(w, e.service, der);
  }

  lemma {:induction false} AnchorDescribes(w: World, p: Policy, territory: string, entries: seq<Entry>, i: nat)
    requires i < |ExtractEntries(w, p, territory, entries).anchors|
    ensures Describes(w, p, territory, entries, ExtractEntries(w, p, territory, entries).anchors[i])
  {
    hide NamedAfter, FactsFrom, FirstNamed, SortedCandidates, StatusesByCert, ExtractEntries, CertConsistent;
    var a := ExtractEntries(w, p, territory, entries).anchors[i];
    AnchorMerged(w, p, territory, entries, i);
    MergedMarks(w, p, territory, entries, a);
    MergedNames(w, p, territory, entries, a);
    UsesAgree(w, p, territory, entries, a.fingerprint);
    QualifiersAgree(w, p, territory, entries, a.fingerprint);
    QscdAgrees(w, p, territory, entries, a.fingerprint);
  }

  lemma {:induction false} BareKeeps(a: Anchor, c: Anchor)
    requires Bare(c) == Bare(a)
    ensures a.territory == c.territory && a.source == c.source && a.useCases == c.useCases && a.status == c.status
    ensures a.certDER == c.certDER && a.fingerprint == c.fingerprint && a.keyAlgorithm == c.keyAlgorithm && a.curve == c.curve
    ensures a.tlSequence == c.tlSequence && a.tspName == c.tspName && a.serviceName == c.serviceName
    ensures a.serviceType == c.serviceType && a.statusStartingTime == c.statusStartingTime && a.anchorType == c.anchorType
    ensures a.subject == c.subject && a.notBefore == c.notBefore && a.notAfter == c.notAfter
  {
    assert Bare(a).territory == Bare(c).territory;
  }

  lemma {:induction false} CandidateConsistent(w: World, territory: string, e: Entry, der: Bytes)
    ensures CertConsistent(w, Candidate(w, territory, e, der))
  {
  }

  lemma {:induction false} SelectedCert(w: World, s: Service, der: Bytes)
    requires der in ServiceCerts(w, s)
    ensures Held(w, der) && s.identities.Ok? && der in s.identities.value
  {
    SelectMembers(Holding(w), s.identities.value, der);
  }

  /** Extraction refines its specification: one anchor per certificate, exactly for
      the certificates with an accepted entry and a single status among all
      admitted entries, each described by those entries alone. */
  lemma {:induction false} ExtractRefinesSpec(w: World, p: Policy, territory: string, entries: seq<Entry>)
    ensures var out := ExtractEntries(w, p, territory, entries).anchors;
            && Distinct(Map(AnchorFingerprint, out))
            && (forall fp :: FindAnchor(out, fp).Some? <==> Listed(w, p, entries, fp))
            && (forall i :: 0 <= i < |out| ==> Describes(w, p, territory, entries, out[i]))
  {
    var m := StatusesByCert(w, p, entries);
    var cs := SortedCandidates(w, p, territory, entries);
    DedupInv(m, cs);
    var out := ExtractEntries(w, p, territory, entries).anchors;
    forall i | 0 <= i < |out| ensures Describes(w, p, territory, entries, out[i]) {
      AnchorDescribes(w, p, territory, entries, i);
    }
    forall fp ensures FindAnchor(out, fp).Some? <==> Listed(w, p, entries, fp) {
      if Listed(w, p, entries, fp) {
        OccursIffContributed(w, p, territory, entries, fp);
        var e :| Contributes(w, p, entries, e, fp);
        ConflictedIff(w, p, entries, e, fp);
      }
    }
  }

  /** Two listings with the same entries, in any provider or service order. */
  ghost predicate SameEntries(a: seq<Entry>, b: seq<Entry>) {
    forall e :: e in a <==> e in b
  }

  lemma {:induction false} ContributesOrderFree(w: World, p: Policy, a: seq<Entry>, b: seq<Entry>, fp: string)
    requires SameEntries(a, b)
    ensures forall e :: Contributes(w, p, a, e, fp) <==> Contributes(w, p, b, e, fp)
  {
  }

  lemma {:induction false} SpecOrderFree(w: World, p: Policy, a: seq<Entry>, b: seq<Entry>, fp: string)
    requires SameEntries(a, b)
    ensures StatusesOf(w, p, a, fp) == StatusesOf(w, p, b, fp)
    ensures Listed(w, p, a, fp) <==> Listed(w, p, b, fp)
    ensures UsesOf(w, p, a, fp) == UsesOf(w, p, b, fp)
    ensures QscdOf(w, p, a, fp) <==> QscdOf(w, p, b, fp)
  {
    ContributesOrderFree(w, p, a, b, fp);
    forall s ensures s in StatusesOf(w, p, a, fp) <==> s in StatusesOf(w, p, b, fp) {
      assert SameEntries(a, b);
    }
    forall u ensures u in UsesOf(w, p, a, fp) <==> u in UsesOf(w, p, b, fp) {
      if u in UsesOf(w, p, a, fp) {
        var e :| Contributes(w, p, a, e, fp) && u in ServiceUses(e.service.extensions);
        assert Contributes(w, p, b, e, fp);
      }
      if u in UsesOf(w, p, b, fp) {
        var e :| Contributes(w, p, b, e, fp) && u in ServiceUses(e.service.extensions);
        assert Contributes(w, p, a, e, fp);
      }
    }
  }

  lemma {:induction false} DescriptionFixesMeta(w: World, p: Policy, territory: string, a: seq<Entry>, b: seq<Entry>, x: Anchor, y: Anchor)
    requires CollisionFree(w)
    requires SameEntries(a, b)
    requires Describes(w, p, territory, a, x) && Describes(w, p, territory, b, y)
    requires x.fingerprint == y.fingerprint
    ensures MetaOf(x) == MetaOf(y)
  {
    SpecOrderFree(w, p, a, b, x.fingerprint);
    assert x.status in {y.status};
    assert w.sha256(x.certDER) == w.sha256(y.certDER);
  }

  /** The fingerprint-to-metadata map does not depend on the order of the list. */
  lemma {:induction false} ExtractOrderFree(w: World, p: Policy, territory: string, a: seq<Entry>, b: seq<Entry>, fp: string)
    requires CollisionFree(w)
    requires SameEntries(a, b)
    ensures var x, y := ExtractEntries(w, p, territory, a).anchors, ExtractEntries(w, p, territory, b).anchors;
            match (FindAnchor(x, fp), FindAnchor(y, fp))
            case (Some(i), Some(j)) => MetaOf(x[i]) == MetaOf(y[j])
            case (Some(_), None) => false
            case (None, Some(_)) => false
            case (None, None) => true
  {
    var x, y := ExtractEntries(w, p, territory, a).anchors, ExtractEntries(w, p, territory, b).anchors;
    ExtractRefinesSpec(w, p, territory, a);
    ExtractRefinesSpec(w, p, territory, b);
    SpecOrderFree(w, p, a, b, fp);
    if FindAnchor(x, fp).Some? && FindAnchor(y, fp).Some? {
      DescriptionFixesMeta(w, p, territory, a, b, x[FindAnchor(x, fp).value], y[FindAnchor(y, fp).value]);
    }
  }

  // ---- Uses after a merge ----

  predicate EntryMatchesUse(e: Entry, use: string) {
    ServiceUses(e.service.extensions) == [] || UseAlias(use) in ServiceUses(e.service.extensions)
  }

  ghost predicate SomeEntryMatches(w: World, p: Policy, entries: seq<Entry>, fp: string, use: string) {
    exists e :: Contributes(w, p, entries, e, fp) && EntryMatchesUse(e, use)
  }

  ghost predicate SomeUnrestricted(w: World, p: Policy, entries: seq<Entry>, fp: string) {
    exists e :: Contributes(w, p, entries, e, fp) && ServiceUses(e.service.extensions) == []
  }

  /** The merged anchor answers a use query as its entries do. */
  ghost predicate MergeKeepsUses(w: World, p: Policy, entries: seq<Entry>, a: Anchor) {
    forall use :: use in VALID_USES ==> (a.MatchesUse(use) <==> SomeEntryMatches(w, p, entries, a.fingerprint, use))
  }

  lemma {:induction false} UseMember(w: World, p: Policy, entries: seq<Entry>, a: Anchor, u: string)
    requires Elements(a.uses) == UsesOf(w, p, entries, a.fingerprint)
    ensures u in a.uses <==> exists e :: Contributes(w, p, entries, e, a.fingerprint) && u in ServiceUses(e.service.extensions)
  {
    assert u in a.uses <==> u in Elements(a.uses);
    assert u in a.uses <==> u in UsesOf(w, p, entries, a.fingerprint);
  }

  lemma {:induction false} RestrictedUses(w: World, p: Policy, entries: seq<Entry>, a: Anchor, use: string)
    requires Elements(a.uses) == UsesOf(w, p, entries, a.fingerprint)
    requires !SomeUnrestricted(w, p, entries, a.fingerprint)
    requires exists e :: Contributes(w, p, entries, e, a.fingerprint)
    requires use != ""
    ensures a.MatchesUse(use) <==> SomeEntryMatches(w, p, entries, a.fingerprint, use)
  {
    var fp := a.fingerprint;
    var e :| Contributes(w, p, entries, e, fp);
    UseMember(w, p, entries, a, ServiceUses(e.service.extensions)[0]);
    UseMember(w, p, entries, a, UseAlias(use));
    if d :| Contributes(w, p, entries, d, fp) && UseAlias(use) in ServiceUses(d.service.extensions) {
      assert EntryMatchesUse(d, use);
    }
  }

  lemma {:induction false} UsesCovered(a: Anchor)
    ensures (forall use :: use in VALID_USES ==> a.MatchesUse(use))
       <==> a.uses == [] || {USE_SIGNATURE, USE_SEAL, USE_WEBSITE} <= Elements(a.uses)
  {
    if forall use :: use in VALID_USES ==> a.MatchesUse(use) {
      assert a.MatchesUse(USE_SIGNATURE) && a.MatchesUse(USE_SEAL) && a.MatchesUse(USE_WEBSITE);
    }
  }

  /** Merging keeps the uses exactly when no merged entry is unrestricted, or none
      is restricted, or the restricted ones already name every use. Otherwise an
      unrestricted entry (which stands for all uses) is narrowed by its duplicates. */
  lemma {:induction false} MergeKeepsUsesIff(w: World, p: Policy, territory: string, entries: seq<Entry>, a: Anchor)
    requires Describes(w, p, territory, entries, a)
    ensures MergeKeepsUses(w, p, entries, a)
       <==> (!SomeUnrestricted(w, p, entries, a.fingerprint)
             || UsesOf(w, p, entries, a.fingerprint) == {}
             || {USE_SIGNATURE, USE_SEAL, USE_WEBSITE} <= UsesOf(w, p, entries, a.fingerprint))
  {
    var fp := a.fingerprint;
    if SomeUnrestricted(w, p, entries, fp) {
      UnrestrictedMatches(w, p, entries, fp);
      UsesCovered(a);
      EmptyUses(a);
    } else {
      forall use | use in VALID_USES
        ensures a.MatchesUse(use) <==> SomeEntryMatches(w, p, entries, fp, use)
      {
        RestrictedUses(w, p, entries, a, use);
      }
    }
  }

  lemma {:induction false} UnrestrictedMatches(w: World, p: Policy, entries: seq<Entry>, fp: string)
    requires SomeUnrestricted(w, p, entries, fp)
    ensures forall use :: SomeEntryMatches(w, p, entries, fp, use)
  {
    var e :| Contributes(w, p, entries, e, fp) && ServiceUses(e.service.extensions) == [];
    forall use ensures SomeEntryMatches(w, p, entries, fp, use) {
      assert EntryMatchesUse(e, use);
    }
  }

  lemma {:induction false} EmptyUses(a: Anchor)
    ensures a.uses == [] <==> Elements(a.uses) == {}
  {
    if a.uses != [] {
      assert a.uses[0] in Elements(a.uses);
    }
  }

  // ---- Accounting ----

  ghost predicate WarnedFor(ws: seq<Warning>, code: string, fp: string) {
    exists i :: 0 <= i < |ws| && ws[i].code == code && ws[i].fingerprint == fp
  }

  ghost predicate WarnedService(ws: seq<Warning>, code: string, e: Entry) {
    exists i :: 0 <= i < |ws| && ws[i].code == code && ws[i].tspName == e.tspName && ws[i].serviceName == e.service.name
  }

  lemma {:induction false} EntryWarningIncluded(w: World, p: Policy, territory: string, entries: seq<Entry>, e: Entry, x: Warning) returns (i: nat)
    requires e in entries && x in EntryWarnings(w, p, e)
    ensures i < |ExtractEntries(w, p, territory, entries).warnings| && ExtractEntries(w, p, territory, entries).warnings[i] == x
  {
    var parts := Map(WarningsOf(w, p), entries);
    var j :| 0 <= j < |entries| && entries[j] == e;
    FlattenMembers(parts, x);
    assert x in parts[j];
    i :| 0 <= i < |Flatten(parts)| && Flatten(parts)[i] == x;
  }

  lemma {:induction false} ConflictIncluded(w: World, p: Policy, territory: string, entries: seq<Entry>, fp: string)
    requires Reported(Dedup(StatusesByCert(w, p, entries), SortedCandidates(w, p, territory, entries)).conflicts, fp)
    ensures WarnedFor(ExtractEntries(w, p, territory, entries).warnings, SKIP_CONFLICT, fp)
  {
    var merged := Dedup(StatusesByCert(w, p, entries), SortedCandidates(w, p, territory, entries));
    DedupInv(StatusesByCert(w, p, entries), SortedCandidates(w, p, territory, entries));
    var i :| 0 <= i < |merged.conflicts| && merged.conflicts[i].fingerprint == fp;
    var head := Flatten(Map(WarningsOf(w, p), entries));
    assert ExtractEntries(w, p, territory, entries).warnings[|head| + i] == merged.conflicts[i];
  }

  /** Every certificate of an accepted service is an anchor or a coded skip. */
  lemma {:induction false} CertificateAccounted(w: World, p: Policy, territory: string, entries: seq<Entry>, e: Entry, der: Bytes)
    requires e in entries && Accepted(p, e)
    requires e.service.identities.Ok? && der in e.service.identities.value
    ensures var r := ExtractEntries(w, p, territory, entries);
            || FindAnchor(r.anchors, w.sha256(der)).Some?
            || WarnedFor(r.warnings, SKIP_CONFLICT, w.sha256(der))
            || WarnedFor(r.warnings, SKIP_INVALID, w.sha256(der))
  {
    var fp := w.sha256(der);
    if Held(w, der) {
      SelectMembers(Holding(w), e.service.identities.value, der);
      assert Contributes(w, p, entries, e, fp);
      ExtractRefinesSpec(w, p, territory, entries);
      ConflictedIff(w, p, entries, e, fp);
      if !SingleStatus(w, p, entries, fp) {
        OccursIffContributed(w, p, territory, entries, fp);
        DedupInv(StatusesByCert(w, p, entries), SortedCandidates(w, p, territory, entries));
        ConflictIncluded(w, p, territory, entries, fp);
      }
    } else {
      var refused := Select(Refusing(w), e.service.identities.value);
      SelectMembers(Refusing(w), e.service.identities.value, der);
      var j :| 0 <= j < |refused| && refused[j] == der;
      var x := IdentityWarnings(w, e)[j];
      assert x == RefusalWarning(w, e)(der);
      assert x in IdentityWarnings(w, e);
      var i := EntryWarningIncluded(w, p, territory, entries, e, x);
    }
  }

  /** Every accepted service leaves a trace: an anchor of one of its certificates, a
      skip naming one of them, or a skip naming the service. */
  lemma {:induction false} ServiceAccounted(w: World, p: Policy, territory: string, entries: seq<Entry>, e: Entry)
    requires e in entries && Accepted(p, e)
    ensures var r := ExtractEntries(w, p, territory, entries);
            match e.service.identities
            case Err(_) => WarnedService(r.warnings, SKIP_INVALID, e)
            case Ok(ders) =>
              if ders == [] then WarnedService(r.warnings, SKIP_NONE, e)
              else
                || FindAnchor(r.anchors, w.sha256(ders[0])).Some?
                || WarnedFor(r.warnings, SKIP_CONFLICT, w.sha256(ders[0]))
                || WarnedFor(r.warnings, SKIP_INVALID, w.sha256(ders[0]))
  {
    match e.service.identities
    case Err(_) =>
      var x := IdentityWarnings(w, e)[0];
      var i := EntryWarningIncluded(w, p, territory, entries, e, x);
    case Ok(ders) =>
      if ders == [] {
        var x := EntryWarnings(w, p, e)[0];
        var i := EntryWarningIncluded(w, p, territory, entries, e, x);
      } else {
        CertificateAccounted(w, p, territory, entries, e, ders[0]);
      }
  }

  lemma {:induction false} InvalidIsRefused(w: World, p: Policy, e: Entry, x: Warning)
    requires x in EntryWarnings(w, p, e) && x.fingerprint != ""
    ensures x.code == SKIP_INVALID
    ensures exists der :: w.sha256(der) == x.fingerprint && !Held(w, der)
  {
    var ders := e.service.identities.value;
    var i :| 0 <= i < |IdentityWarnings(w, e)| && IdentityWarnings(w, e)[i] == x;
    var der := Select(Refusing(w), ders)[i];
    SelectMembers(Refusing(w), ders, der);
    assert w.sha256(der) == x.fingerprint && !Held(w, der);
  }

  /** No certificate is both served and skipped as invalid or conflicting. */
  lemma {:induction false} NeverBothAnchorAndSkip(w: World, p: Policy, territory: string, entries: seq<Entry>, i: nat, j: nat)
    requires CollisionFree(w)
    requires i < |ExtractEntries(w, p, territory, entries).anchors|
    requires j < |ExtractEntries(w, p, territory, entries).warnings|
    requires ExtractEntries(w, p, territory, entries).warnings[j].fingerprint != ""
    ensures ExtractEntries(w, p, territory, entries).anchors[i].fingerprint
         != ExtractEntries(w, p, territory, entries).warnings[j].fingerprint
  {
    var r := ExtractEntries(w, p, territory, entries);
    var a, x := r.anchors[i], r.warnings[j];
    var parts := Map(WarningsOf(w, p), entries);
    AnchorDescribes(w, p, territory, entries, i);
    if j < |Flatten(parts)| {
      FlattenMembers(parts, x);
      var k :| 0 <= k < |parts| && x in parts[k];
      InvalidIsRefused(w, p, entries[k], x);
    } else {
      var m, cs := StatusesByCert(w, p, entries), SortedCandidates(w, p, territory, entries);
      DedupInv(m, cs);
      assert x == Dedup(m, cs).conflicts[j - |Flatten(parts)|];
      assert Reported(Dedup(m, cs).conflicts, x.fingerprint);
    }
  }
}
