/** What a verified national list says, read off its services alone: which
    certificates become anchors, what every field of an anchor is, and which
    services are skipped for which reason. */
module ListReading {

  import opened Wrappers
  import opened Sequences
  import opened Order
  import opened Trust
  import opened World
  import opened Identity
  import opened Extraction
  import opened ExtractionSpec
  import opened Lotl
  import opened National
  import opened Vocabulary

  // ---- Services and certificates ----

  /** The list has the service under the provider name. */
  ghost predicate Publishing(providers: seq<Provider>, tsp: string, s: Service) {
    exists i, j :: 0 <= i < |providers| && 0 <= j < |providers[i].services| && providers[i].name == tsp && providers[i].services[j] == s
  }

  /** The service has a certificate of the fingerprint that parses or at least reads structurally. */
  ghost predicate Offers(w: World, s: Service, fp: string) {
    exists der :: s.identities.Ok? && der in s.identities.value && !w.certificate(der).Refused? && w.sha256(der) == fp
  }

  /** An accepted service of the list vouches for the certificate. */
  ghost predicate Vouches(w: World, cfg: Config, providers: seq<Provider>, tsp: string, s: Service, fp: string) {
    Publishing(providers, tsp, s) && Accepts(cfg, s) && Offers(w, s, fp)
  }

  /** Every service of an accepted type that offers the certificate has the status. */
  ghost predicate OneStatus(w: World, cfg: Config, providers: seq<Provider>, fp: string, status: string) {
    forall tsp, s :: Publishing(providers, tsp, s) && TypeAccepted(cfg, s.typeIdentifier) && Offers(w, s, fp) ==> s.status == status
  }

  /** By provider name, then by service name. */
  predicate NamedBefore(tsp: string, name: string, tsp': string, name': string) {
    if tsp == tsp' then StringLe(name, name') else StringLe(tsp, tsp')
  }

  /** The service vouches, and no vouching one is named before it. */
  ghost predicate VouchesFirst(w: World, cfg: Config, providers: seq<Provider>, tsp: string, s: Service, fp: string) {
    && Vouches(w, cfg, providers, tsp, s, fp)
    && forall tsp', s' :: Vouches(w, cfg, providers, tsp', s', fp) ==> NamedBefore(tsp, s.name, tsp', s'.name)
  }

  // ---- Anchors ----

  /** The anchor's names, type, type key and status time are those of the first service
      that vouches for its certificate. */
  ghost predicate NamesMean(w: World, cfg: Config, providers: seq<Provider>, a: Anchor) {
    exists tsp, s ::
      && VouchesFirst(w, cfg, providers, tsp, s, a.fingerprint)
      && a.tspName == tsp && a.serviceName == s.name && a.serviceType == s.typeIdentifier
      && a.statusStartingTime == s.statusStartingTime && ServedUnder(s.typeIdentifier, a.anchorType)
  }

  /** The anchor's uses, qualifiers and device mark are those of all services that vouch for it. */
  ghost predicate MarksMean(w: World, cfg: Config, providers: seq<Provider>, a: Anchor) {
    && (forall u :: u in a.uses <==> exists tsp, s :: Vouches(w, cfg, providers, tsp, s, a.fingerprint) && ServiceGrants(s, u))
    && (forall q :: q in a.qualifiers <==> exists tsp, s :: Vouches(w, cfg, providers, tsp, s, a.fingerprint) && ServiceQualifier(s, q))
    && (a.qcWithQSCD <==> exists tsp, s :: Vouches(w, cfg, providers, tsp, s, a.fingerprint) && InDevice(s))
  }

  ghost predicate AnchorMeans(w: World, cfg: Config, code: string, providers: seq<Provider>, a: Anchor) {
    && a.territory == code && a.source == "tl" && a.useCases == []
    && (exists f :: FactsFrom(w, a, f))
    && NamesMean(w, cfg, providers, a)
    && OneStatus(w, cfg, providers, a.fingerprint, a.status)
    && MarksMean(w, cfg, providers, a)
  }

  // ---- Bridges ----

  lemma {:induction false} EntriesMembers(providers: seq<Provider>, tsp: string, s: Service)
    ensures Entry(tsp, s) in Entries(providers) <==> Publishing(providers, tsp, s)
  {
    var parts := Map(ProviderEntries, providers);
    var e := Entry(tsp, s);
    FlattenMembers(parts, e);
    if i :| 0 <= i < |parts| && e in parts[i] {
      var j :| 0 <= j < |parts[i]| && parts[i][j] == e;
      assert parts[i] == Map(EntryOf(providers[i].name), providers[i].services);
      assert EntryOf(providers[i].name)(providers[i].services[j]) == e;
    }
    if i, j :| 0 <= i < |providers| && 0 <= j < |providers[i].services| && providers[i].name == tsp && providers[i].services[j] == s {
      assert parts[i] == Map(EntryOf(providers[i].name), providers[i].services);
      assert parts[i][j] == e;
    }
  }

  lemma {:induction false} OffersIff(w: World, e: Entry, fp: string)
    ensures Lists(w, e, fp) <==> Offers(w, e.service, fp)
  {
    if e.service.identities.Ok? {
      forall der ensures der in ServiceCerts(w, e.service) <==> der in e.service.identities.value && !w.certificate(der).Refused? {
        SelectMembers(Holding(w), e.service.identities.value, der);
      }
    }
  }

  lemma {:induction false} VouchesIff(w: World, cfg: Config, providers: seq<Provider>, tsp: string, s: Service, fp: string)
    ensures Contributes(w, PolicyFor(cfg), Entries(providers), Entry(tsp, s), fp) <==> Vouches(w, cfg, providers, tsp, s, fp)
  {
    hide Publishing, Accepts, Offers, Entries, Accepted, PolicyFor;
    var e := Entry(tsp, s);
    EntriesMembers(providers, tsp, s);
    AcceptedIff(cfg, e);
    OffersIff(w, e, fp);
  }

  lemma {:induction false} StatusIff(w: World, cfg: Config, providers: seq<Provider>, fp: string, status: string)
    requires exists tsp, s :: Vouches(w, cfg, providers, tsp, s, fp)
    ensures StatusesOf(w, PolicyFor(cfg), Entries(providers), fp) == {status} <==> OneStatus(w, cfg, providers, fp, status)
  {
    hide Publishing, Accepts, Offers, Entries, TypeAccepted, PolicyFor, Admitted, Accepted, Lists;
    var all := StatusesOf(w, PolicyFor(cfg), Entries(providers), fp);
    forall tsp, s ensures (Entry(tsp, s) in Entries(providers) <==> Publishing(providers, tsp, s))
                       && (Admitted(PolicyFor(cfg), Entry(tsp, s)) <==> TypeAccepted(cfg, s.typeIdentifier))
                       && (Lists(w, Entry(tsp, s), fp) <==> Offers(w, s, fp))
    {
      EntriesMembers(providers, tsp, s);
      TypeAcceptedIff(cfg, Entry(tsp, s));
      OffersIff(w, Entry(tsp, s), fp);
    }
    var tsp, s :| Vouches(w, cfg, providers, tsp, s, fp);
    assert TypeAccepted(cfg, s.typeIdentifier) by {
      AcceptsType(cfg, s);
    }
    assert s.status in all by {
      assert Entry(tsp, s) in Entries(providers);
    }
    if OneStatus(w, cfg, providers, fp, status) {
      forall x | x in all ensures x == status {
        var e :| e in Entries(providers) && Admitted(PolicyFor(cfg), e) && Lists(w, e, fp) && e.service.status == x;
        assert e == Entry(e.tspName, e.service);
      }
    }
    if all == {status} {
      forall t, v | Publishing(providers, t, v) && TypeAccepted(cfg, v.typeIdentifier) && Offers(w, v, fp) ensures v.status == status {
        assert Entry(t, v).service.status in all;
      }
    }
  }

  lemma {:induction false} AcceptsType(cfg: Config, s: Service)
    requires Accepts(cfg, s)
    ensures TypeAccepted(cfg, s.typeIdentifier)
  {
  }

  lemma {:induction false} NamesRead(w: World, cfg: Config, providers: seq<Provider>, a: Anchor, e: Entry)
    requires FirstNamed(w, PolicyFor(cfg), Entries(providers), e, a.fingerprint) && NamedAfter(e, a)
    ensures NamesMean(w, cfg, providers, a)
  {
    hide Vouches, Contributes, ServedUnder;
    VouchesIff(w, cfg, providers, e.tspName, e.service, a.fingerprint);
    assert e == Entry(e.tspName, e.service);
    forall tsp, s | Vouches(w, cfg, providers, tsp, s, a.fingerprint) ensures NamedBefore(e.tspName, e.service.name, tsp, s.name) {
      VouchesIff(w, cfg, providers, tsp, s, a.fingerprint);
      assert NamesLe(e, Entry(tsp, s));
    }
    assert VouchesFirst(w, cfg, providers, e.tspName, e.service, a.fingerprint);
  }

  lemma {:induction false} UsesRead(w: World, cfg: Config, providers: seq<Provider>, a: Anchor, u: string)
    requires Elements(a.uses) == UsesOf(w, PolicyFor(cfg), Entries(providers), a.fingerprint)
    ensures u in a.uses <==> exists tsp, s :: Vouches(w, cfg, providers, tsp, s, a.fingerprint) && ServiceGrants(s, u)
  {
    hide Vouches, Contributes, ServiceUses, ServiceGrants, PolicyFor, Entries;
    var p, es, fp := PolicyFor(cfg), Entries(providers), a.fingerprint;
    UseMember(w, p, es, a, u);
    if u in a.uses {
      var e :| Contributes(w, p, es, e, fp) && u in ServiceUses(e.service.extensions);
      assert e == Entry(e.tspName, e.service);
      VouchesIff(w, cfg, providers, e.tspName, e.service, fp);
      GrantsIff(e.service, u);
    }
    if tsp, s :| Vouches(w, cfg, providers, tsp, s, fp) && ServiceGrants(s, u) {
      VouchesIff(w, cfg, providers, tsp, s, fp);
      GrantsIff(s, u);
      assert Contributes(w, p, es, Entry(tsp, s), fp) && u in ServiceUses(Entry(tsp, s).service.extensions);
    }
  }

  lemma {:induction false} GrantsIff(s: Service, u: string)
    ensures u in ServiceUses(s.extensions) <==> ServiceGrants(s, u)
  {
    hide ServiceUses, GrantsUse;
    ServiceUsesIff(s.extensions, u);
  }

  lemma {:induction false} QualifiersRead(w: World, cfg: Config, providers: seq<Provider>, a: Anchor, q: string)
    requires Elements(a.qualifiers) == QualifiersOf(w, PolicyFor(cfg), Entries(providers), a.fingerprint)
    ensures q in a.qualifiers <==> exists tsp, s :: Vouches(w, cfg, providers, tsp, s, a.fingerprint) && ServiceQualifier(s, q)
  {
    hide Vouches, Contributes, AllQualifiers, ServiceQualifier, PolicyFor, Entries;
    var p, es, fp := PolicyFor(cfg), Entries(providers), a.fingerprint;
    assert q in a.qualifiers <==> q in Elements(a.qualifiers);
    if q in a.qualifiers {
      var e :| e in es && Contributes(w, p, es, e, fp) && q in AllQualifiers(e.service.extensions);
      assert e == Entry(e.tspName, e.service);
      VouchesIff(w, cfg, providers, e.tspName, e.service, fp);
      QualifiersIff(e.service, q);
    }
    if tsp, s :| Vouches(w, cfg, providers, tsp, s, fp) && ServiceQualifier(s, q) {
      VouchesIff(w, cfg, providers, tsp, s, fp);
      QualifiersIff(s, q);
      Contributed(w, p, es, Entry(tsp, s), fp);
      assert q in QualifiersOf(w, p, es, fp);
    }
  }

  lemma {:induction false} Contributed(w: World, p: Policy, es: seq<Entry>, e: Entry, fp: string)
    requires Contributes(w, p, es, e, fp)
    ensures e in es
  {
  }

  lemma {:induction false} DeviceRead(w: World, cfg: Config, providers: seq<Provider>, fp: string)
    ensures QscdOf(w, PolicyFor(cfg), Entries(providers), fp) <==> exists tsp, s :: Vouches(w, cfg, providers, tsp, s, fp) && InDevice(s)
  {
    hide Vouches, Contributes, QscdPositive, InDevice, PolicyFor, Entries;
    var p, es := PolicyFor(cfg), Entries(providers);
    if QscdOf(w, p, es, fp) {
      var e :| Contributes(w, p, es, e, fp) && QscdPositive(e.service.extensions);
      assert e == Entry(e.tspName, e.service);
      VouchesIff(w, cfg, providers, e.tspName, e.service, fp);
      DeviceIff(e.service);
    }
    if tsp, s :| Vouches(w, cfg, providers, tsp, s, fp) && InDevice(s) {
      VouchesIff(w, cfg, providers, tsp, s, fp);
      DeviceIff(s);
      assert Contributes(w, p, es, Entry(tsp, s), fp) && QscdPositive(Entry(tsp, s).service.extensions);
    }
  }

  /** An anchor described by the entries means what the list says. */
  lemma {:induction false} AnchorRead(w: World, cfg: Config, code: string, providers: seq<Provider>, a: Anchor)
    requires Describes(w, PolicyFor(cfg), code, Entries(providers), a)
    ensures AnchorMeans(w, cfg, code, providers, a)
  {
    hide Vouches, Contributes, NamedAfter, PolicyFor, Entries, FactsFrom, FirstNamed, NamesMean, StatusesOf, UsesOf, QualifiersOf, QscdOf,
         ServiceGrants, ServiceQualifier, InDevice;
    var p, es := PolicyFor(cfg), Entries(providers);
    var e :| FirstNamed(w, p, es, e, a.fingerprint) && NamedAfter(e, a);
    NamesRead(w, cfg, providers, a, e);
    FirstContributes(w, p, es, e, a.fingerprint);
    assert e == Entry(e.tspName, e.service);
    VouchesIff(w, cfg, providers, e.tspName, e.service, a.fingerprint);
    StatusIff(w, cfg, providers, a.fingerprint, a.status);
    forall u ensures u in a.uses <==> exists tsp, s :: Vouches(w, cfg, providers, tsp, s, a.fingerprint) && ServiceGrants(s, u) {
      UsesRead(w, cfg, providers, a, u);
    }
    forall q ensures q in a.qualifiers <==> exists tsp, s :: Vouches(w, cfg, providers, tsp, s, a.fingerprint) && ServiceQualifier(s, q) {
      QualifiersRead(w, cfg, providers, a, q);
    }
    DeviceRead(w, cfg, providers, a.fingerprint);
  }

  lemma {:induction false} FirstContributes(w: World, p: Policy, es: seq<Entry>, e: Entry, fp: string)
    requires FirstNamed(w, p, es, e, fp)
    ensures Contributes(w, p, es, e, fp)
  {
  }

  // ---- Order and repetition ----

  /** By provider name, then service name, then fingerprint. */
  predicate AnchorBefore(a: Anchor, b: Anchor) {
    if a.tspName != b.tspName then StringLe(a.tspName, b.tspName)
    else if a.serviceName != b.serviceName then StringLe(a.serviceName, b.serviceName)
    else StringLe(a.fingerprint, b.fingerprint)
  }

  lemma {:induction false} CandidateBefore(a: Anchor, b: Anchor)
    requires CandidateLe(a, b)
    ensures AnchorBefore(a, b)
  {
    KeyLeThree(a.tspName, a.serviceName, a.fingerprint, b.tspName, b.serviceName, b.fingerprint);
  }

  /** Sorted candidates merge into sorted anchors. */
  lemma {:induction false} DedupSorted(m: StatusMap, cs: seq<Anchor>)
    requires SortedBy(CandidateLe, cs)
    ensures SortedBy(CandidateLe, Dedup(m, cs).kept)
    decreases |cs|
  {
    hide CandidateLe, Conflicted, Reported, MergeOf, Bare, FindAnchor, Occurs;
    if cs != [] {
      var n := |cs| - 1;
      var x := cs[n];
      DedupSorted(m, cs[..n]);
      var st := Dedup(m, cs[..n]);
      DedupInv(m, cs[..n]);
      if !Conflicted(m, x.fingerprint) {
        if FindAnchor(st.kept, x.fingerprint).Some? {
          MergeSorted(st.kept, x);
        } else {
          forall y | y in st.kept ensures CandidateLe(y, x) {
            var i :| 0 <= i < |st.kept| && st.kept[i] == y;
            var c := MergedFrom(cs[..n], y);
            SameKey(y, c, x);
          }
          AppendSorted(CandidateLe, st.kept, x);
        }
      }
    }
  }

  lemma {:induction false} SameKey(y: Anchor, c: Anchor, x: Anchor)
    requires Bare(c) == Bare(y)
    ensures CandidateLe(c, x) <==> CandidateLe(y, x)
    ensures CandidateLe(x, c) <==> CandidateLe(x, y)
  {
    BareKeeps(y, c);
  }

  lemma {:induction false} MergeSorted(kept: seq<Anchor>, x: Anchor)
    requires SortedBy(CandidateLe, kept) && FindAnchor(kept, x.fingerprint).Some?
    ensures SortedBy(CandidateLe, MergeInto(kept, x))
  {
    hide CandidateLe, FindAnchor, MergeLists;
    var k := FindAnchor(kept, x.fingerprint).value;
    var r := MergeInto(kept, x);
    assert Bare(r[k]) == Bare(kept[k]);
    forall i, j | 0 <= i < j < |r| ensures CandidateLe(r[i], r[j]) {
      assert CandidateLe(kept[i], kept[j]);
      if i == k {
        SameKey(kept[k], r[k], kept[j]);
      }
      if j == k {
        SameKey(kept[k], r[k], kept[i]);
      }
    }
  }

  lemma {:induction false} UsesDistinct(m: StatusMap, cs: seq<Anchor>)
    requires forall i :: 0 <= i < |cs| ==> Distinct(cs[i].uses)
    ensures forall i :: 0 <= i < |Dedup(m, cs).kept| ==> Distinct(Dedup(m, cs).kept[i].uses)
    decreases |cs|
  {
    hide Distinct, Conflicted, Reported, FindAnchor, MergeLists;
    if cs != [] {
      var n := |cs| - 1;
      UsesDistinct(m, cs[..n]);
      var st := Dedup(m, cs[..n]);
      forall i | 0 <= i < |st.kept| ensures Distinct(MergeLists(st.kept[i].uses, cs[n].uses)) {
        MergeListsDistinct(st.kept[i].uses, cs[n].uses);
      }
    }
  }

  lemma {:induction false} CandidateUsesDistinct(w: World, p: Policy, territory: string, entries: seq<Entry>, c: Anchor)
    requires c in SortedCandidates(w, p, territory, entries)
    ensures Distinct(c.uses)
  {
    var e, der := CandidateHasEntry(w, p, territory, entries, c);
    ServiceUsesIff(e.service.extensions, "");
  }

  /** The anchors come in name order, each with every use once. */
  lemma {:induction false} AnchorsOrdered(w: World, p: Policy, territory: string, entries: seq<Entry>)
    ensures var out := ExtractEntries(w, p, territory, entries).anchors;
            && (forall i, j :: 0 <= i < j < |out| ==> AnchorBefore(out[i], out[j]))
            && (forall i :: 0 <= i < |out| ==> Distinct(out[i].uses))
  {
    hide Dedup, CandidateLe, TotalPreorder, AnchorBefore, StatusesByCert, Distinct, Candidates;
    var out := ExtractEntries(w, p, territory, entries).anchors;
    var cs := SortedCandidates(w, p, territory, entries);
    CandidateOrder();
    SortBySorted(CandidateLe, Candidates(w, p, territory, entries));
    DedupSorted(StatusesByCert(w, p, entries), cs);
    forall i | 0 <= i < |cs| ensures Distinct(cs[i].uses) {
      CandidateUsesDistinct(w, p, territory, entries, cs[i]);
    }
    UsesDistinct(StatusesByCert(w, p, entries), cs);
    forall i, j | 0 <= i < j < |out| ensures AnchorBefore(out[i], out[j]) {
      CandidateBefore(out[i], out[j]);
    }
  }

  // ---- Skips ----

  /** The skip an accepted service yields for its identities: they do not decode, one
      of them is refused, or there is none. */
  ghost predicate IdentitySkip(w: World, s: Service, sk: SkippedService) {
    match s.identities
    case Err(text) =>
      sk == SkippedService(sk.tspName, s.name, "invalid-certificate", text, "", "", "")
    case Ok(ders) =>
      || (exists der :: der in ders && RefusedAs(w, s, der, sk))
      || (ders == [] && sk == SkippedService(sk.tspName, s.name, "no-certificate", "no X509Certificate digital identity", "", "", ""))
  }

  ghost predicate RefusedAs(w: World, s: Service, der: Bytes, sk: SkippedService) {
    match w.certificate(der)
    case Refused(text, alg, curve) =>
      sk == SkippedService(sk.tspName, s.name, "invalid-certificate", text, w.sha256(der), alg, curve)
    case Parsed(_) => false
    case Structural(_) => false
  }

  /** The skip of a certificate whose services of accepted types disagree on its status,
      named after the first service that vouches for it. */
  ghost predicate ConflictSkip(w: World, cfg: Config, providers: seq<Provider>, sk: SkippedService) {
    && (forall status :: !OneStatus(w, cfg, providers, sk.fingerprint, status))
    && exists tsp, s ::
         && VouchesFirst(w, cfg, providers, tsp, s, sk.fingerprint)
         && sk == SkippedService(tsp, s.name, "status-conflict", "conflicting statuses across duplicate service entries", sk.fingerprint, "", "")
  }

  ghost predicate SkipMeans(w: World, cfg: Config, providers: seq<Provider>, sk: SkippedService) {
    || (exists s :: Publishing(providers, sk.tspName, s) && Accepts(cfg, s) && IdentitySkip(w, s, sk))
    || ConflictSkip(w, cfg, providers, sk)
  }

  lemma {:induction false} RefusalIff(w: World, e: Entry, der: Bytes, x: Warning)
    ensures !Held(w, der) && x == RefusalWarning(w, e)(der) <==> x.tspName == e.tspName && RefusedAs(w, e.service, der, Skip(x))
  {
  }

  lemma {:induction false} RefusalsIff(w: World, e: Entry, ders: seq<Bytes>, x: Warning)
    ensures x in Map(RefusalWarning(w, e), Select(Refusing(w), ders))
       <==> x.tspName == e.tspName && exists der :: der in ders && RefusedAs(w, e.service, der, Skip(x))
  {
    hide RefusedAs;
    var refused := Select(Refusing(w), ders);
    var ws := Map(RefusalWarning(w, e), refused);
    if x in ws {
      var i :| 0 <= i < |ws| && ws[i] == x;
      SelectMembers(Refusing(w), ders, refused[i]);
      RefusalIff(w, e, refused[i], x);
    }
    if der :| x.tspName == e.tspName && der in ders && RefusedAs(w, e.service, der, Skip(x)) {
      RefusalIff(w, e, der, x);
      SelectMembers(Refusing(w), ders, der);
      var i :| 0 <= i < |refused| && refused[i] == der;
      assert ws[i] == x;
    }
  }

  lemma {:induction false} NothingIff(w: World, e: Entry)
    ensures ServiceCerts(w, e.service) == [] && IdentityWarnings(w, e) == [] <==> e.service.identities == Ok([])
  {
    if e.service.identities.Ok? && e.service.identities.value != [] {
      var ders := e.service.identities.value;
      SelectMembers(Holding(w), ders, ders[0]);
      SelectMembers(Refusing(w), ders, ders[0]);
      assert |Map(RefusalWarning(w, e), Select(Refusing(w), ders))| == |Select(Refusing(w), ders)|;
    }
  }

  lemma {:induction false} EntryWarningIff(w: World, p: Policy, e: Entry, x: Warning)
    ensures x in EntryWarnings(w, p, e) <==> Accepted(p, e) && x.tspName == e.tspName && IdentitySkip(w, e.service, Skip(x))
  {
    hide Accepted, RefusedAs, RefusalWarning, Refusing, ServiceCerts;
    NothingIff(w, e);
    match e.service.identities
    case Err(text) =>
    case Ok(ders) =>
      RefusalsIff(w, e, ders, x);
  }

  /** The conflict warnings: one per certificate, from its first candidate. */
  ghost predicate FirstConflict(m: StatusMap, cs: seq<Anchor>, x: Warning) {
    exists i :: ConflictAt(m, cs, x, i)
  }

  ghost predicate ConflictAt(m: StatusMap, cs: seq<Anchor>, x: Warning, i: int) {
    && 0 <= i < |cs| && x == ConflictWarning(cs[i]) && Conflicted(m, cs[i].fingerprint)
    && forall j :: 0 <= j < i ==> cs[j].fingerprint != cs[i].fingerprint
  }

  lemma {:induction false} FirstOccurs(m: StatusMap, cs: seq<Anchor>, a: Anchor, x: Warning)
    requires ConflictAt(m, cs + [a], x, |cs|)
    ensures !Occurs(cs, a.fingerprint)
  {
    forall c | c in cs ensures c.fingerprint != a.fingerprint {
      var j :| 0 <= j < |cs| && cs[j] == c;
      assert (cs + [a])[j] == c;
    }
  }

  lemma {:induction false} ConflictGrows(m: StatusMap, cs: seq<Anchor>, a: Anchor, x: Warning)
    ensures FirstConflict(m, cs + [a], x)
       <==> FirstConflict(m, cs, x) || (x == ConflictWarning(a) && Conflicted(m, a.fingerprint) && !Occurs(cs, a.fingerprint))
  {
    hide Conflicted;
    if i :| ConflictAt(m, cs, x, i) {
      assert ConflictAt(m, cs + [a], x, i);
    }
    if x == ConflictWarning(a) && Conflicted(m, a.fingerprint) && !Occurs(cs, a.fingerprint) {
      assert ConflictAt(m, cs + [a], x, |cs|);
    }
    if i :| ConflictAt(m, cs + [a], x, i) {
      if i < |cs| {
        assert forall j :: 0 <= j <= i ==> cs[j] == (cs + [a])[j];
        assert ConflictAt(m, cs, x, i);
      } else {
        FirstOccurs(m, cs, a, x);
      }
    }
  }

  lemma {:induction false} ConflictsIff(m: StatusMap, cs: seq<Anchor>, x: Warning)
    ensures x in Dedup(m, cs).conflicts <==> FirstConflict(m, cs, x)
    decreases |cs|
  {
    hide Conflicted, MergeInto, FirstConflict, Occurs, Reported, MergeInv, ConflictWarning;
    if cs == [] {
      NoConflict(m, x);
    } else {
      var n := |cs| - 1;
      ConflictsIff(m, cs[..n], x);
      if Conflicted(m, cs[n].fingerprint) {
        ConflictReported(m, cs[..n], cs[n].fingerprint);
      }
      assert cs == cs[..n] + [cs[n]];
      ConflictGrows(m, cs[..n], cs[n], x);
    }
  }

  lemma {:induction false} NoConflict(m: StatusMap, x: Warning)
    ensures !FirstConflict(m, [], x)
  {
  }

  lemma {:induction false} ConflictReported(m: StatusMap, cs: seq<Anchor>, fp: string)
    requires Conflicted(m, fp)
    ensures Reported(Dedup(m, cs).conflicts, fp) <==> Occurs(cs, fp)
  {
    hide Reported, Occurs;
    DedupInv(m, cs);
  }

  lemma {:induction false} VouchingCandidate(w: World, cfg: Config, code: string, providers: seq<Provider>, tsp: string, s: Service, fp: string) returns (c: Anchor)
    requires Vouches(w, cfg, providers, tsp, s, fp)
    ensures c in SortedCandidates(w, PolicyFor(cfg), code, Entries(providers))
    ensures c.fingerprint == fp && c.tspName == tsp && c.serviceName == s.name
  {
    VouchesIff(w, cfg, providers, tsp, s, fp);
    c := EntryHasCandidate(w, PolicyFor(cfg), code, Entries(providers), Entry(tsp, s), fp);
  }

  lemma {:induction false} CandidateVouches(w: World, cfg: Config, code: string, providers: seq<Provider>, c: Anchor) returns (tsp: string, s: Service)
    requires c in SortedCandidates(w, PolicyFor(cfg), code, Entries(providers))
    ensures Vouches(w, cfg, providers, tsp, s, c.fingerprint) && c.tspName == tsp && c.serviceName == s.name
  {
    var e, der := CandidateHasEntry(w, PolicyFor(cfg), code, Entries(providers), c);
    tsp, s := e.tspName, e.service;
    assert e == Entry(tsp, s);
    VouchesIff(w, cfg, providers, tsp, s, c.fingerprint);
  }

  /** A certificate some service vouches for conflicts when no status is everyone's. */
  lemma {:induction false} ConflictIff(w: World, cfg: Config, providers: seq<Provider>, tsp: string, s: Service, fp: string)
    requires Vouches(w, cfg, providers, tsp, s, fp)
    ensures Conflicted(StatusesByCert(w, PolicyFor(cfg), Entries(providers)), fp)
       <==> forall status :: !OneStatus(w, cfg, providers, fp, status)
  {
    hide Vouches, OneStatus, StatusesByCert, StatusesOf, Contributes, PolicyFor, Entries, Conflicted;
    var all := StatusesOf(w, PolicyFor(cfg), Entries(providers), fp);
    VouchesIff(w, cfg, providers, tsp, s, fp);
    ConflictedIff(w, PolicyFor(cfg), Entries(providers), Entry(tsp, s), fp);
    forall status ensures all == {status} <==> OneStatus(w, cfg, providers, fp, status) {
      StatusIff(w, cfg, providers, fp, status);
    }
    if OneStatus(w, cfg, providers, fp, s.status) {
      assert |all| == 1;
    }
    if status :| OneStatus(w, cfg, providers, fp, status) {
      assert |{status}| == 1;
    }
  }

  lemma {:induction false} NamesTie(tsp: string, name: string, tsp': string, name': string)
    requires NamedBefore(tsp, name, tsp', name') && NamedBefore(tsp', name', tsp, name)
    ensures tsp == tsp' && name == name'
  {
    StringLeTotal(tsp, tsp');
    StringLeTotal(name, name');
  }

  lemma {:induction false} CandidateNames(c: Anchor, d: Anchor)
    requires CandidateLe(c, d) && c.fingerprint == d.fingerprint
    ensures NamedBefore(c.tspName, c.serviceName, d.tspName, d.serviceName)
  {
    KeyLeThree(c.tspName, c.serviceName, c.fingerprint, d.tspName, d.serviceName, d.fingerprint);
    StringLeTotal(c.serviceName, c.serviceName);
  }

  /** The first candidate of a certificate is named like the first service that vouches for it. */
  lemma {:induction false} FirstCandidate(w: World, cfg: Config, code: string, providers: seq<Provider>, i: nat)
    requires var cs := SortedCandidates(w, PolicyFor(cfg), code, Entries(providers));
             i < |cs| && forall j :: 0 <= j < i ==> cs[j].fingerprint != cs[i].fingerprint
    ensures var c := SortedCandidates(w, PolicyFor(cfg), code, Entries(providers))[i];
            exists tsp, s :: VouchesFirst(w, cfg, providers, tsp, s, c.fingerprint) && tsp == c.tspName && s.name == c.serviceName
  {
    hide Vouches, PolicyFor, Entries, CandidateLe, TotalPreorder, NamedBefore, Candidates;
    var cs := SortedCandidates(w, PolicyFor(cfg), code, Entries(providers));
    var c := cs[i];
    CandidateOrder();
    SortBySorted(CandidateLe, Candidates(w, PolicyFor(cfg), code, Entries(providers)));
    var tsp, s := CandidateVouches(w, cfg, code, providers, c);
    forall tsp', s' | Vouches(w, cfg, providers, tsp', s', c.fingerprint) ensures NamedBefore(tsp, s.name, tsp', s'.name) {
      var d := VouchingCandidate(w, cfg, code, providers, tsp', s', c.fingerprint);
      var j :| 0 <= j < |cs| && cs[j] == d;
      CandidateReflexive(c);
      assert CandidateLe(c, d);
      CandidateNames(c, d);
    }
    assert VouchesFirst(w, cfg, providers, tsp, s, c.fingerprint);
  }

  lemma {:induction false} CandidateReflexive(c: Anchor)
    ensures CandidateLe(c, c)
  {
    KeyLeTotal([c.tspName, c.serviceName, c.fingerprint], [c.tspName, c.serviceName, c.fingerprint]);
  }

  lemma {:induction false} ConflictSkipIff(w: World, cfg: Config, code: string, providers: seq<Provider>, x: Warning)
    ensures FirstConflict(StatusesByCert(w, PolicyFor(cfg), Entries(providers)), SortedCandidates(w, PolicyFor(cfg), code, Entries(providers)), x)
       <==> ConflictSkip(w, cfg, providers, Skip(x))
  {
    hide Vouches, PolicyFor, Entries, NamedBefore, StatusesByCert, OneStatus, SortedCandidates, Conflicted;
    var m := StatusesByCert(w, PolicyFor(cfg), Entries(providers));
    var cs := SortedCandidates(w, PolicyFor(cfg), code, Entries(providers));
    if FirstConflict(m, cs, x) {
      var i :| ConflictAt(m, cs, x, i);
      FirstCandidate(w, cfg, code, providers, i);
      var tsp, s :| VouchesFirst(w, cfg, providers, tsp, s, x.fingerprint) && tsp == cs[i].tspName && s.name == cs[i].serviceName;
      ConflictIff(w, cfg, providers, tsp, s, x.fingerprint);
    }
    if ConflictSkip(w, cfg, providers, Skip(x)) {
      var tsp, s :| VouchesFirst(w, cfg, providers, tsp, s, x.fingerprint)
                 && Skip(x) == SkippedService(tsp, s.name, "status-conflict", "conflicting statuses across duplicate service entries", x.fingerprint, "", "");
      ConflictIff(w, cfg, providers, tsp, s, x.fingerprint);
      var d := VouchingCandidate(w, cfg, code, providers, tsp, s, x.fingerprint);
      var i := FirstWith(cs, d);
      FirstCandidate(w, cfg, code, providers, i);
      var tsp', s' :| VouchesFirst(w, cfg, providers, tsp', s', x.fingerprint) && tsp' == cs[i].tspName && s'.name == cs[i].serviceName;
      NamesTie(tsp, s.name, tsp', s'.name);
      assert ConflictAt(m, cs, x, i);
    }
  }

  lemma {:induction false} FirstWith(cs: seq<Anchor>, d: Anchor) returns (i: nat)
    requires d in cs
    ensures i < |cs| && cs[i].fingerprint == d.fingerprint && forall j :: 0 <= j < i ==> cs[j].fingerprint != d.fingerprint
    decreases |cs|
  {
    var n := |cs| - 1;
    if k :| 0 <= k < n && cs[k].fingerprint == d.fingerprint {
      assert cs[..n][k] == cs[k];
      i := FirstWith(cs[..n], cs[k]);
    } else {
      i := n;
    }
  }

  /** The skips are exactly those the list calls for. */
  lemma {:induction false} SkipsExact(w: World, cfg: Config, code: string, providers: seq<Provider>, sk: SkippedService)
    ensures sk in Skipped(ExtractEntries(w, PolicyFor(cfg), code, Entries(providers)).warnings) <==> SkipMeans(w, cfg, providers, sk)
  {
    hide Vouches, PolicyFor, Entries, StatusesByCert, IdentitySkip, ConflictSkip, Accepts, Accepted, EntryWarnings, Dedup, Publishing,
         SortedCandidates, FirstConflict;
    var p, es := PolicyFor(cfg), Entries(providers);
    var ws := ExtractEntries(w, p, code, es).warnings;
    var x := Warning(sk.tspName, sk.serviceName, sk.detail, sk.reason, sk.fingerprint, sk.keyAlgorithm, sk.curve);
    assert Skip(x) == sk;
    SkippedMembers(ws, x);
    EntryWarningsIff(w, p, es, x);
    forall s ensures Entry(sk.tspName, s) in es && Accepted(p, Entry(sk.tspName, s)) <==> Publishing(providers, sk.tspName, s) && Accepts(cfg, s) {
      EntriesMembers(providers, sk.tspName, s);
      AcceptedIff(cfg, Entry(sk.tspName, s));
    }
    WarningParts(w, p, code, es, x);
    ConflictSkipIff(w, cfg, code, providers, x);
  }

  lemma {:induction false} SkippedMembers(ws: seq<Warning>, x: Warning)
    ensures Skip(x) in Skipped(ws) <==> x in ws
  {
    var sks := Skipped(ws);
    if Skip(x) in sks {
      var i :| 0 <= i < |sks| && sks[i] == Skip(x);
      assert Skip(ws[i]) == Skip(x) && ws[i] == x;
    }
    if x in ws {
      var i :| 0 <= i < |ws| && ws[i] == x;
      assert sks[i] == Skip(x);
    }
  }

  /** Some accepted entry of the provider yields the warning. */
  ghost predicate EntryWarned(w: World, p: Policy, es: seq<Entry>, x: Warning) {
    exists s :: Entry(x.tspName, s) in es && Accepted(p, Entry(x.tspName, s)) && IdentitySkip(w, s, Skip(x))
  }

  lemma {:induction false} EntryWarningsIff(w: World, p: Policy, es: seq<Entry>, x: Warning)
    ensures x in Flatten(Map(WarningsOf(w, p), es)) <==> EntryWarned(w, p, es, x)
  {
    hide IdentitySkip, Accepted, EntryWarnings;
    var parts := Map(WarningsOf(w, p), es);
    FlattenMembers(parts, x);
    if i :| 0 <= i < |parts| && x in parts[i] {
      EntryWarningIff(w, p, es[i], x);
      assert es[i] == Entry(x.tspName, es[i].service);
    }
    if s :| Entry(x.tspName, s) in es && Accepted(p, Entry(x.tspName, s)) && IdentitySkip(w, s, Skip(x)) {
      var i :| 0 <= i < |es| && es[i] == Entry(x.tspName, s);
      EntryWarningIff(w, p, es[i], x);
      assert x in parts[i];
    }
  }

  lemma {:induction false} WarningParts(w: World, p: Policy, code: string, es: seq<Entry>, x: Warning)
    ensures x in ExtractEntries(w, p, code, es).warnings
       <==> x in Flatten(Map(WarningsOf(w, p), es)) || FirstConflict(StatusesByCert(w, p, es), SortedCandidates(w, p, code, es), x)
  {
    hide FirstConflict, Flatten, Dedup;
    ConflictsIff(StatusesByCert(w, p, es), SortedCandidates(w, p, code, es), x);
  }

  // ---- The list as a whole ----

  /** The anchors and skips a list's services call for: one anchor per certificate that
      an accepted service vouches for and whose services agree on one status. */
  ghost predicate ListMeans(w: World, cfg: Config, code: string, providers: seq<Provider>, anchors: seq<Anchor>, skips: seq<SkippedService>) {
    && (forall i :: 0 <= i < |anchors| ==> AnchorMeans(w, cfg, code, providers, anchors[i]) && Distinct(anchors[i].uses))
    && (forall i, j :: 0 <= i < j < |anchors| ==> anchors[i].fingerprint != anchors[j].fingerprint && AnchorBefore(anchors[i], anchors[j]))
    && (forall tsp, s, fp, status :: Vouches(w, cfg, providers, tsp, s, fp) && OneStatus(w, cfg, providers, fp, status)
          ==> exists i :: 0 <= i < |anchors| && anchors[i].fingerprint == fp)
    && (forall sk :: sk in skips <==> SkipMeans(w, cfg, providers, sk))
  }

  lemma {:induction false} VouchedKept(w: World, cfg: Config, code: string, providers: seq<Provider>, tsp: string, s: Service, fp: string, status: string)
    requires Vouches(w, cfg, providers, tsp, s, fp) && OneStatus(w, cfg, providers, fp, status)
    ensures var out := ExtractEntries(w, PolicyFor(cfg), code, Entries(providers)).anchors;
            exists i :: 0 <= i < |out| && out[i].fingerprint == fp
  {
    hide Vouches, OneStatus, StatusesOf, Contributes, PolicyFor, Entries, ExtractEntries, Describes;
    VouchesIff(w, cfg, providers, tsp, s, fp);
    StatusIff(w, cfg, providers, fp, status);
    ExtractRefinesSpec(w, PolicyFor(cfg), code, Entries(providers));
    assert |{status}| == 1;
    var out := ExtractEntries(w, PolicyFor(cfg), code, Entries(providers)).anchors;
    assert FindAnchor(out, fp).Some?;
  }

  /** Extraction yields exactly what the list's services call for. */
  lemma {:induction false} ListRead(w: World, cfg: Config, code: string, providers: seq<Provider>)
    ensures var ex := ExtractEntries(w, PolicyFor(cfg), code, Entries(providers));
            ListMeans(w, cfg, code, providers, ex.anchors, Skipped(ex.warnings))
  {
    hide AnchorMeans, SkipMeans, Vouches, OneStatus, PolicyFor, Entries, ExtractEntries, Describes, AnchorBefore, Skipped, Listed;
    var p, es := PolicyFor(cfg), Entries(providers);
    var ex := ExtractEntries(w, p, code, es);
    ExtractRefinesSpec(w, p, code, es);
    AnchorsOrdered(w, p, code, es);
    forall i | 0 <= i < |ex.anchors| ensures AnchorMeans(w, cfg, code, providers, ex.anchors[i]) {
      AnchorRead(w, cfg, code, providers, ex.anchors[i]);
    }
    forall i, j | 0 <= i < j < |ex.anchors| ensures ex.anchors[i].fingerprint != ex.anchors[j].fingerprint {
      var fps := Map(AnchorFingerprint, ex.anchors);
      assert fps[i] != fps[j];
    }
    forall tsp, s, fp, status | Vouches(w, cfg, providers, tsp, s, fp) && OneStatus(w, cfg, providers, fp, status)
      ensures exists i :: 0 <= i < |ex.anchors| && ex.anchors[i].fingerprint == fp
    {
      VouchedKept(w, cfg, code, providers, tsp, s, fp, status);
    }
    forall sk ensures sk in Skipped(ex.warnings) <==> SkipMeans(w, cfg, providers, sk) {
      SkipsExact(w, cfg, code, providers, sk);
    }
  }
}
