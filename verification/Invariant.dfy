/** The structural invariant of every snapshot a run builds. */
module Invariant {

  import opened Wrappers
  import opened Sequences
  import opened Order
  import opened Trust
  import opened World
  import opened Identity
  import opened Filter
  import opened Differences
  import opened Extraction
  import opened ExtractionSpec
  import opened Declared
  import opened Lotl
  import opened LotlSource
  import opened National
  import opened Hold
  import opened Cycle

  // ---- The invariant ----

  /** A list anchor describes its own certificate and carries its source. */
  predicate ListAnchorOk(w: World, a: Anchor) {
    CertConsistent(w, a) && a.source == SOURCE_TL
  }

  /** A skip names one of the reason codes and no certificate, or a digest. */
  ghost predicate SkipOk(w: World, s: SkippedService) {
    && s.reason in {SKIP_INVALID, SKIP_NONE, SKIP_CONFLICT}
    && (s.fingerprint == "" || exists der :: w.sha256(der) == s.fingerprint)
  }

  ghost predicate SkipsOk(w: World, skipped: seq<SkippedService>) {
    forall i :: 0 <= i < |skipped| ==> SkipOk(w, skipped[i])
  }

  /** One territory: a failed entry is empty; its anchors carry its code, describe
      their own certificate and have distinct fingerprints; its skips are coded. */
  ghost predicate TerritoryOk(w: World, t: Territory) {
    && (t.failed ==> t.anchors == [] && t.sourceDigest == "" && t.tlSequence == 0)
    && SkipsOk(w, t.skipped)
    && (forall i :: 0 <= i < |t.anchors| ==> t.anchors[i].territory == t.code && ListAnchorOk(w, t.anchors[i]))
    && Distinct(Map(AnchorFingerprint, t.anchors))
  }

  ghost predicate Ascending(codes: seq<string>) {
    Distinct(codes) && SortedBy(TextLe, codes)
  }

  ghost predicate TerritoriesOk(w: World, ts: seq<Territory>) {
    && Ascending(Map(TerritoryCode, ts))
    && (forall i :: 0 <= i < |ts| ==> TerritoryOk(w, ts[i]))
  }

  /** The code of a present, non-failed entry. */
  ghost predicate Present(ts: seq<Territory>, code: string) {
    exists i :: 0 <= i < |ts| && ts[i].code == code && !ts[i].failed
  }

  /** Pending keys are distinct, disjoint from the served ones, and belong to
      present territories with data. */
  ghost predicate PendingOk(w: World, ts: seq<Territory>, ps: seq<PendingAnchor>) {
    && Distinct(Map(PendingKey, ps))
    && (forall i :: 0 <= i < |ps| ==> ListAnchorOk(w, ps[i].anchor))
    && (forall i :: 0 <= i < |ps| ==> PendingKey(ps[i]) !in ServedKeys(ts))
    && (forall i :: 0 <= i < |ps| ==> Present(ts, ps[i].anchor.territory))
  }

  ghost predicate DeclaredOk(w: World, anchors: seq<Anchor>) {
    Distinct(Map(DeclaredKey, anchors)) && AllConsistent(w, anchors) && AllFrom(SOURCE_INTERNAL, anchors)
  }

  ghost predicate WellFormed(w: World, s: Snapshot) {
    && TerritoriesOk(w, s.territories)
    && PendingOk(w, s.territories, s.pending)
    && DeclaredOk(w, s.declared)
    && s.lotlSigners != []
    && s.id == ContentId(s)
  }

  lemma {:induction false} WellFormedServes(w: World, s: Snapshot)
    requires WellFormed(w, s)
    ensures Identifiable(s) && Servable(w, s)
    ensures SourcesMarked(Some(s))
    ensures forall t :: t in s.territories && t.failed ==> t.anchors == []
  {
    forall t | t in s.territories ensures Distinct(Map(AnchorFingerprint, t.anchors)) && (t.failed ==> t.anchors == []) {
      var i :| 0 <= i < |s.territories| && s.territories[i] == t;
      assert TerritoryOk(w, s.territories[i]);
    }
    forall i | 0 <= i < |s.territories|
      ensures AllConsistent(w, s.territories[i].anchors) && AllFrom(SOURCE_TL, s.territories[i].anchors)
    {
      assert TerritoryOk(w, s.territories[i]);
    }
  }

  // ---- Territory expansion ----

  /** The configured set: explicit codes, and the LOTL's territories for EU. */
  ghost predicate Configured(configured: seq<string>, ps: seq<ListPointer>, code: string) {
    || (code in configured && code != TERRITORY_GROUP_EU)
    || (TERRITORY_GROUP_EU in configured && code in Map(PointerTerritory, ps))
  }

  lemma {:induction false} ExpandListExact(configured: seq<string>, ps: seq<ListPointer>, code: string)
    ensures Distinct(ExpandList(configured, ps))
    ensures code in ExpandList(configured, ps) <==> Configured(configured, ps, code)
    decreases |configured|
  {
    if configured != [] {
      var n := |configured| - 1;
      ExpandListExact(configured[..n], ps, code);
      var rest, c := ExpandList(configured[..n], ps), configured[n];
      assert configured == configured[..n] + [c];
      if c == TERRITORY_GROUP_EU {
        MergeListsDistinct(rest, Map(PointerTerritory, ps));
        MergeListsMembers(rest, Map(PointerTerritory, ps), code);
      } else {
        AddNewDistinct(rest, c);
      }
    }
  }

  /** Each cycle's codes are exactly the expanded configured set, ascending. */
  lemma {:induction false} ExpandExact(configured: seq<string>, ps: seq<ListPointer>)
    ensures Ascending(Expand(configured, ps))
    ensures forall code :: code in Expand(configured, ps) <==> Configured(configured, ps, code)
  {
    var list := ExpandList(configured, ps);
    IdOrders();
    SortBySorted(TextLe, list);
    SortKeepsElements(TextLe, list);
    ExpandListExact(configured, ps, "");
    DistinctPermutation(list, Expand(configured, ps));
    forall code ensures code in Expand(configured, ps) <==> Configured(configured, ps, code) {
      ExpandListExact(configured, ps, code);
    }
  }

  // ---- One territory ----

  lemma {:induction false} StampKeeps(w: World, t: Territory, anchors: seq<Anchor>, n: UInt64)
    requires !t.failed && SkipsOk(w, t.skipped)
    requires t.anchors == Map(StampWith(n), anchors)
    requires Distinct(Map(AnchorFingerprint, anchors))
    requires forall i :: 0 <= i < |anchors| ==> anchors[i].territory == t.code && ListAnchorOk(w, anchors[i])
    ensures TerritoryOk(w, t)
  {
    assert Map(AnchorFingerprint, t.anchors) == Map(AnchorFingerprint, anchors);
    forall i | 0 <= i < |t.anchors| ensures t.anchors[i].territory == t.code && ListAnchorOk(w, t.anchors[i]) {
      assert ListAnchorOk(w, anchors[i]);
    }
  }

  lemma {:induction false} EntrySkipsOk(w: World, p: Policy, e: Entry, x: Warning)
    requires x in EntryWarnings(w, p, e)
    ensures SkipOk(w, Skip(x))
  {
    if e.service.identities.Ok? && x in IdentityWarnings(w, e) {
      var ders := Select(Refusing(w), e.service.identities.value);
      var i :| 0 <= i < |ders| && x == RefusalWarning(w, e)(ders[i]);
      assert w.sha256(ders[i]) == x.fingerprint;
    }
  }

  lemma {:induction false} ConflictSkipOk(w: World, p: Policy, code: string, entries: seq<Entry>, x: Warning)
    requires x in Dedup(StatusesByCert(w, p, entries), SortedCandidates(w, p, code, entries)).conflicts
    ensures SkipOk(w, Skip(x))
  {
    var m, cs := StatusesByCert(w, p, entries), SortedCandidates(w, p, code, entries);
    DedupInv(m, cs);
    var conflicts := Dedup(m, cs).conflicts;
    var i :| 0 <= i < |conflicts| && conflicts[i] == x;
    assert Reported(conflicts, x.fingerprint);
    var c :| c in cs && c.fingerprint == x.fingerprint;
    var e, der := CandidateHasEntry(w, p, code, entries, c);
    assert w.sha256(der) == x.fingerprint;
  }

  lemma {:induction false} ExtractedSkipsOk(w: World, p: Policy, code: string, entries: seq<Entry>)
    ensures SkipsOk(w, Skipped(ExtractEntries(w, p, code, entries).warnings))
  {
    hide SkipOk, EntryWarnings, Dedup, StatusesByCert, SortBy;
    var parts := Map(WarningsOf(w, p), entries);
    var conflicts := Dedup(StatusesByCert(w, p, entries), SortedCandidates(w, p, code, entries)).conflicts;
    var ws := ExtractEntries(w, p, code, entries).warnings;
    assert ws == Flatten(parts) + conflicts;
    forall i | 0 <= i < |ws| ensures SkipOk(w, Skip(ws[i])) {
      if i < |Flatten(parts)| {
        FlattenMembers(parts, ws[i]);
        var j :| 0 <= j < |parts| && ws[i] in parts[j];
        EntrySkipsOk(w, p, entries[j], ws[i]);
      } else {
        ConflictSkipOk(w, p, code, entries, ws[i]);
      }
    }
  }

  lemma {:induction false} EntryOk(w: World, p: Policy, code: string, list: TrustedList, digest: string)
    requires EntryFrom(w, p, code, list, digest).Ok?
    ensures TerritoryOk(w, EntryFrom(w, p, code, list, digest).value)
  {
    var entries := Entries(list.providers.value);
    ExtractRefinesSpec(w, p, code, entries);
    var t := EntryFrom(w, p, code, list, digest).value;
    var anchors := ExtractEntries(w, p, code, entries).anchors;
    forall i | 0 <= i < |anchors| ensures anchors[i].territory == t.code && ListAnchorOk(w, anchors[i]) {
      assert Describes(w, p, code, entries, anchors[i]);
    }
    ExtractedSkipsOk(w, p, code, entries);
    StampKeeps(w, t, anchors, list.sequence);
  }

  lemma {:induction false} OutcomeOk(w: World, cfg: Config, ps: seq<ListPointer>, code: string, prev: Option<Territory>, now: Instant, up: Upstream)
    requires prev.Some? ==> TerritoryOk(w, prev.value) && prev.value.code == code
    ensures TerritoryOk(w, IngestTerritory(w, cfg, ps, code, prev, now, up).entry)
    ensures IngestTerritory(w, cfg, ps, code, prev, now, up).entry.code == code
  {
    TerritoryProgress(w, cfg, ps, code, prev, now, up);
    var o := IngestTerritory(w, cfg, ps, code, prev, now, up);
    match o
    case Fresh(t, raw, lp) =>
      FreshIsVerified(w, cfg, ps, code, prev, now, up);
      EntryOk(w, PolicyFor(cfg), code, VerifyNational(w, raw, lp.signers, code, prev, now).value, w.sha256(raw));
    case Reused(t) =>
      SameAnchorsOk(w, prev.value, t);
    case CarriedOver(t, _) =>
      SameAnchorsOk(w, prev.value, t);
    case FailedEntry(t, _) =>
  }

  lemma {:induction false} SameAnchorsOk(w: World, p: Territory, t: Territory)
    requires TerritoryOk(w, p)
    requires t.anchors == p.anchors && t.code == p.code && t.failed == p.failed && t.sourceDigest == p.sourceDigest
    requires t.tlSequence == p.tlSequence && t.skipped == p.skipped
    ensures TerritoryOk(w, t)
  {
  }

  lemma {:induction false} LookupOk(w: World, s: Snapshot, code: string)
    requires TerritoriesOk(w, s.territories)
    requires s.Lookup(code).Some?
    ensures TerritoryOk(w, s.Lookup(code).value) && s.Lookup(code).value.code == code
  {
    var t := s.Lookup(code).value;
    var i :| 0 <= i < |s.territories| && s.territories[i] == t;
  }

  // ---- Hold mode ----

  lemma {:induction false} HoldTerritoryOk(w: World, h: HoldContext, t: Territory)
    requires TerritoryOk(w, t)
    ensures TerritoryOk(w, HoldTerritory(h)(t))
  {
    var r := HoldTerritory(h)(t);
    SelectDistinct(AnchorFingerprint, Keeping(h, t.code), t.anchors);
    forall i | 0 <= i < |r.anchors| ensures r.anchors[i].territory == r.code && ListAnchorOk(w, r.anchors[i]) {
      SelectMembers(Keeping(h, t.code), t.anchors, r.anchors[i]);
      var j :| 0 <= j < |t.anchors| && t.anchors[j] == r.anchors[i];
    }
  }

  /** After hold mode only keys the decision keeps are served, and all of those. */
  lemma {:induction false} ServedAfterHold(h: HoldContext, ts: seq<Territory>, key: AnchorKey)
    ensures key in ServedKeys(Map(HoldTerritory(h), ts)) <==> key in ServedKeys(ts) && Keeps(h, key)
  {
    hide ServedKeys, Keeps, Select;
    var held := Map(HoldTerritory(h), ts);
    ServedKeysAt(ts, key);
    ServedKeysAt(held, key);
    if key in ServedKeys(held) {
      var i, j :| 0 <= i < |held| && 0 <= j < |held[i].anchors| && held[i].code == key.0 && held[i].anchors[j].fingerprint == key.1;
      SelectMembers(Keeping(h, ts[i].code), ts[i].anchors, held[i].anchors[j]);
      var k :| 0 <= k < |ts[i].anchors| && ts[i].anchors[k] == held[i].anchors[j];
      assert ts[i].code == key.0 && ts[i].anchors[k].fingerprint == key.1;
    }
    if key in ServedKeys(ts) && Keeps(h, key) {
      var i, k :| 0 <= i < |ts| && 0 <= k < |ts[i].anchors| && ts[i].code == key.0 && ts[i].anchors[k].fingerprint == key.1;
      SelectMembers(Keeping(h, ts[i].code), ts[i].anchors, ts[i].anchors[k]);
      var j :| 0 <= j < |held[i].anchors| && held[i].anchors[j] == ts[i].anchors[k];
      assert held[i].code == key.0 && held[i].anchors[j].fingerprint == key.1;
    }
  }

  /** A pending entry comes from an anchor of a territory that is not kept. */
  ghost predicate HeldIn(h: HoldContext, t: Territory, p: PendingAnchor) {
    && p.anchor in t.anchors
    && !Keeps(h, (t.code, p.anchor.fingerprint))
    && p == PendingOf(h, t.code)(p.anchor)
  }

  lemma {:induction false} HeldFromMembers(h: HoldContext, t: Territory, p: PendingAnchor)
    ensures p in HeldFrom(h)(t) <==> HeldIn(h, t, p)
  {
    var sel := Select(HoldingBack(h, t.code), t.anchors);
    var held := HeldFrom(h)(t);
    assert held == Map(PendingOf(h, t.code), sel);
    if p in held {
      var i :| 0 <= i < |held| && held[i] == p;
      SelectMembers(HoldingBack(h, t.code), t.anchors, sel[i]);
      assert p.anchor == sel[i];
    }
    if HeldIn(h, t, p) {
      SelectMembers(HoldingBack(h, t.code), t.anchors, p.anchor);
      var i :| 0 <= i < |sel| && sel[i] == p.anchor;
      assert held[i] == p;
    }
  }

  function AllHeld(h: HoldContext, ts: seq<Territory>): seq<PendingAnchor> {
    Flatten(Map(HeldFrom(h), ts))
  }

  lemma {:induction false} AllHeldMembers(h: HoldContext, ts: seq<Territory>, p: PendingAnchor)
    ensures p in AllHeld(h, ts) <==> exists i :: 0 <= i < |ts| && HeldIn(h, ts[i], p)
  {
    var parts := Map(HeldFrom(h), ts);
    FlattenMembers(parts, p);
    if p in AllHeld(h, ts) {
      var i :| 0 <= i < |parts| && p in parts[i];
      HeldFromMembers(h, ts[i], p);
    }
    if i :| 0 <= i < |ts| && HeldIn(h, ts[i], p) {
      HeldFromMembers(h, ts[i], p);
      assert p in parts[i];
    }
  }

  lemma {:induction false} HeldKeys(w: World, h: HoldContext, t: Territory)
    requires TerritoryOk(w, t)
    ensures Distinct(Map(PendingKey, HeldFrom(h)(t)))
    ensures forall k :: k in Map(PendingKey, HeldFrom(h)(t)) ==> k.0 == t.code
  {
    var sel := Select(HoldingBack(h, t.code), t.anchors);
    var held := HeldFrom(h)(t);
    SelectDistinct(AnchorFingerprint, HoldingBack(h, t.code), t.anchors);
    assert held == Map(PendingOf(h, t.code), sel);
    forall i | 0 <= i < |held| ensures PendingKey(held[i]) == (t.code, sel[i].fingerprint) {
      SelectMembers(HoldingBack(h, t.code), t.anchors, sel[i]);
      var j :| 0 <= j < |t.anchors| && t.anchors[j] == sel[i];
    }
    var ks, fps := Map(PendingKey, held), Map(AnchorFingerprint, sel);
    forall i, j | 0 <= i < j < |ks| ensures ks[i] != ks[j] {
      assert fps[i] != fps[j];
    }
  }

  lemma {:induction false} AllHeldKeys(w: World, h: HoldContext, ts: seq<Territory>)
    requires forall i :: 0 <= i < |ts| ==> TerritoryOk(w, ts[i])
    requires Distinct(Map(TerritoryCode, ts))
    ensures Distinct(Map(PendingKey, AllHeld(h, ts)))
    ensures forall k :: k in Map(PendingKey, AllHeld(h, ts)) ==> k.0 in Map(TerritoryCode, ts)
    decreases |ts|
  {
    if ts != [] {
      var n := |ts| - 1;
      assert Map(TerritoryCode, ts) == Map(TerritoryCode, ts[..n]) + [ts[n].code];
      assert Map(TerritoryCode, ts)[..n] == Map(TerritoryCode, ts[..n]);
      AllHeldKeys(w, h, ts[..n]);
      HeldKeys(w, h, ts[n]);
      assert Map(HeldFrom(h), ts)[..n] == Map(HeldFrom(h), ts[..n]);
      MapAppend(PendingKey, AllHeld(h, ts[..n]), HeldFrom(h)(ts[n]));
      assert ts[n].code !in Map(TerritoryCode, ts[..n]);
      DistinctConcat(Map(PendingKey, AllHeld(h, ts[..n])), Map(PendingKey, HeldFrom(h)(ts[n])));
    }
  }

  lemma {:induction false} HeldEntryOk(w: World, h: HoldContext, ts: seq<Territory>, p: PendingAnchor)
    requires forall i :: 0 <= i < |ts| ==> TerritoryOk(w, ts[i])
    requires p in AllHeld(h, ts)
    ensures ListAnchorOk(w, p.anchor)
    ensures !Keeps(h, PendingKey(p)) && PendingKey(p) in ServedKeys(ts)
    ensures p.firstSeen == if PendingKey(p) in h.since then h.since[PendingKey(p)] else h.now
    ensures Present(Map(HoldTerritory(h), ts), p.anchor.territory)
  {
    AllHeldMembers(h, ts, p);
    var i :| 0 <= i < |ts| && HeldIn(h, ts[i], p);
    var j :| 0 <= j < |ts[i].anchors| && ts[i].anchors[j] == p.anchor;
    assert TerritoryOk(w, ts[i]);
    assert p.anchor.territory == ts[i].code;
    ServedKeysAt(ts, PendingKey(p));
    assert Map(HoldTerritory(h), ts)[i].code == ts[i].code;
  }

  lemma {:induction false} SortedPendingOk(w: World, ts: seq<Territory>, a: seq<PendingAnchor>, b: seq<PendingAnchor>)
    requires PendingOk(w, ts, a)
    requires multiset(a) == multiset(b)
    ensures PendingOk(w, ts, b)
  {
    MapPermutation(PendingKey, a, b);
    DistinctPermutation(Map(PendingKey, a), Map(PendingKey, b));
    forall i | 0 <= i < |b|
      ensures ListAnchorOk(w, b[i].anchor) && PendingKey(b[i]) !in ServedKeys(ts) && Present(ts, b[i].anchor.territory)
    {
      assert b[i] in multiset(b);
      var j :| 0 <= j < |a| && a[j] == b[i];
    }
  }

  lemma {:induction false} HoldOk(w: World, h: HoldContext, ts: seq<Territory>)
    requires TerritoriesOk(w, ts)
    ensures TerritoriesOk(w, Map(HoldTerritory(h), ts))
    ensures PendingOk(w, Map(HoldTerritory(h), ts), AllHeld(h, ts))
  {
    var held, ps := Map(HoldTerritory(h), ts), AllHeld(h, ts);
    assert Map(TerritoryCode, held) == Map(TerritoryCode, ts);
    forall i | 0 <= i < |held| ensures TerritoryOk(w, held[i]) {
      HoldTerritoryOk(w, h, ts[i]);
    }
    AllHeldKeys(w, h, ts);
    forall i | 0 <= i < |ps|
      ensures ListAnchorOk(w, ps[i].anchor) && PendingKey(ps[i]) !in ServedKeys(held) && Present(held, ps[i].anchor.territory)
    {
      HeldEntryOk(w, h, ts, ps[i]);
      ServedAfterHold(h, ts, PendingKey(ps[i]));
    }
  }

  /** What hold mode changes of a snapshot without pending entries. */
  lemma {:induction false} ApplyHoldShape(cfg: Config, prev: Option<Snapshot>, next: Snapshot, now: Instant)
    requires next.pending == []
    ensures var r, h := ApplyHold(cfg, prev, next, now), ContextOf(cfg, prev, now);
            && r == next.(territories := r.territories, pending := r.pending)
            && (cfg.hold ==> r.territories == Map(HoldTerritory(h), next.territories)
                             && multiset(r.pending) == multiset(AllHeld(h, next.territories)))
            && (!cfg.hold ==> r == next)
  {
    if cfg.hold {
      var held := AllHeld(ContextOf(cfg, prev, now), next.territories);
      assert next.pending + held == held;
    }
  }

  lemma {:induction false} ApplyHoldOk(w: World, cfg: Config, prev: Option<Snapshot>, next: Snapshot, now: Instant)
    requires TerritoriesOk(w, next.territories)
    requires next.pending == []
    ensures var r := ApplyHold(cfg, prev, next, now);
            TerritoriesOk(w, r.territories) && PendingOk(w, r.territories, r.pending)
  {
    ApplyHoldShape(cfg, prev, next, now);
    if cfg.hold {
      hide ApplyHold;
      var h := ContextOf(cfg, prev, now);
      HoldOk(w, h, next.territories);
      SortedPendingOk(w, Map(HoldTerritory(h), next.territories), AllHeld(h, next.territories),
                      ApplyHold(cfg, prev, next, now).pending);
    }
  }

  // ---- The cycle ----

  lemma {:induction false} CycleEntriesOk(w: World, cfg: Config, ps: seq<ListPointer>, prev: Option<Snapshot>, now: Instant, up: Upstream)
    requires prev.Some? ==> TerritoriesOk(w, prev.value.territories)
    ensures var entries := Map(EntryOfOutcome, Outcomes(w, cfg, ps, prev, now, up));
            && TerritoriesOk(w, entries)
            && Map(TerritoryCode, entries) == Expand(cfg.territories, ps)
  {
    var codes := Expand(cfg.territories, ps);
    var entries := Map(EntryOfOutcome, Outcomes(w, cfg, ps, prev, now, up));
    ExpandExact(cfg.territories, ps);
    forall i | 0 <= i < |codes| ensures TerritoryOk(w, entries[i]) && entries[i].code == codes[i] {
      OneEntryOk(w, cfg, ps, prev, now, up, codes[i]);
    }
  }

  lemma {:induction false} OneEntryOk(w: World, cfg: Config, ps: seq<ListPointer>, prev: Option<Snapshot>, now: Instant, up: Upstream, code: string)
    requires prev.Some? ==> TerritoriesOk(w, prev.value.territories)
    ensures TerritoryOk(w, OutcomeOf(w, cfg, ps, prev, now, up)(code).entry)
    ensures OutcomeOf(w, cfg, ps, prev, now, up)(code).entry.code == code
  {
    hide IngestTerritory;
    var held := if prev.Some? then prev.value.Lookup(code) else None;
    if held.Some? {
      LookupOk(w, prev.value, code);
    }
    OutcomeOk(w, cfg, ps, code, held, now, up);
  }

  lemma {:induction false} DeclaredSetOk(w: World, prev: Option<Snapshot>, file: DeclaredFile, now: Instant)
    requires prev.Some? ==> DeclaredOk(w, prev.value.declared)
    ensures DeclaredOk(w, DeclaredSet(w, prev, file, now))
  {
    if file.Decoded? {
      LoadExact(w, file.entries, now);
      var r := LoadDeclared(w, file, now);
      if r.Ok? {
        forall i | 0 <= i < |r.value| ensures CertConsistent(w, r.value[i]) && r.value[i].source == SOURCE_INTERNAL {
          assert WellDeclared(w, now, r.value[i]);
        }
      }
    }
  }

  lemma {:induction false} LotlSignersNonEmpty(w: World, cfg: Config, prev: Option<Snapshot>, boot: Bootstrap, now: Instant, up: Upstream)
    requires IngestLotl(w, cfg, prev, boot, now, up).Ok?
    ensures IngestLotl(w, cfg, prev, boot, now, up).value.signers != []
  {
    match FetchLotl(w, cfg, prev, now, up)
    case Unchanged =>
    case Raw(bytes, digest) =>
      LotlAcceptance(w, up, bytes, Pinned(w, prev, boot).value, now);
  }

  /** What a successful cycle is made of. */
  lemma {:induction false} CycleParts(w: World, cfg: Config, prev: Option<Snapshot>, boot: Bootstrap, in': CycleInput)
    requires RunCycle(w, cfg, prev, boot, in').Ok?
    ensures IngestLotl(w, cfg, prev, boot, in'.now, in'.up).Ok?
    ensures var l := IngestLotl(w, cfg, prev, boot, in'.now, in'.up).value;
            && RunCycle(w, cfg, prev, boot, in').value == Assemble(w, cfg, prev, boot, in', l)
            && (prev.Some? ==> l.sequence >= prev.value.lotlSequence)
            && (Outcomes(w, cfg, l.pointers, prev, in'.now, in'.up) == [] || !AllFailed(Outcomes(w, cfg, l.pointers, prev, in'.now, in'.up)))
  {
    hide IngestLotl, Assemble, Outcomes;
  }

  /** The snapshot before hold mode. */
  ghost function DraftOf(w: World, cfg: Config, prev: Option<Snapshot>, boot: Bootstrap, in': CycleInput, l: LotlResult): Snapshot {
    Draft(boot, prev, l, Map(EntryOfOutcome, Outcomes(w, cfg, l.pointers, prev, in'.now, in'.up)),
          DeclaredSet(w, prev, in'.file, in'.now), in'.now)
  }

  lemma {:induction false} AssembleFields(w: World, cfg: Config, prev: Option<Snapshot>, boot: Bootstrap, in': CycleInput, l: LotlResult)
    ensures var s, d := Assemble(w, cfg, prev, boot, in', l), DraftOf(w, cfg, prev, boot, in', l);
            && s == WithId(ApplyHold(cfg, prev, d, in'.now))
            && s.territories == ApplyHold(cfg, prev, d, in'.now).territories
            && s.pending == ApplyHold(cfg, prev, d, in'.now).pending
            && s == d.(territories := s.territories, pending := s.pending, id := s.id)
            && s.id == ContentId(s)
  {
    hide Outcomes, DeclaredSet;
    var d := DraftOf(w, cfg, prev, boot, in', l);
    ApplyHoldShape(cfg, prev, d, in'.now);
    IdIgnoresId(ApplyHold(cfg, prev, d, in'.now));
  }

  /** Hold mode touches nothing of an entry but its anchors. */
  lemma {:induction false} AssembledEntries(w: World, cfg: Config, prev: Option<Snapshot>, boot: Bootstrap, in': CycleInput, l: LotlResult)
    ensures var s, ts := Assemble(w, cfg, prev, boot, in', l), Map(EntryOfOutcome, Outcomes(w, cfg, l.pointers, prev, in'.now, in'.up));
            && |s.territories| == |ts|
            && forall i :: 0 <= i < |ts| ==> s.territories[i] == ts[i].(anchors := s.territories[i].anchors)
  {
    hide Assemble, Outcomes, ApplyHold, DeclaredSet, ContentId;
    AssembleFields(w, cfg, prev, boot, in', l);
    ApplyHoldShape(cfg, prev, DraftOf(w, cfg, prev, boot, in', l), in'.now);
  }

  lemma {:induction false} IdIgnoresId(s: Snapshot)
    ensures ContentId(WithId(s)) == ContentId(s)
  {
  }

  lemma {:induction false} AssembleWellFormed(w: World, cfg: Config, prev: Option<Snapshot>, boot: Bootstrap, in': CycleInput, l: LotlResult)
    requires prev.Some? ==> WellFormed(w, prev.value)
    requires l.signers != []
    ensures WellFormed(w, Assemble(w, cfg, prev, boot, in', l))
  {
    hide Outcomes, DeclaredSet, ApplyHold, ContentId, Assemble;
    CycleEntriesOk(w, cfg, l.pointers, prev, in'.now, in'.up);
    DeclaredSetOk(w, prev, in'.file, in'.now);
    AssembleFields(w, cfg, prev, boot, in', l);
    ApplyHoldOk(w, cfg, prev, DraftOf(w, cfg, prev, boot, in', l), in'.now);
  }

  lemma {:induction false} CycleWellFormed(w: World, cfg: Config, prev: Option<Snapshot>, boot: Bootstrap, in': CycleInput)
    requires prev.Some? ==> WellFormed(w, prev.value)
    requires RunCycle(w, cfg, prev, boot, in').Ok?
    ensures WellFormed(w, RunCycle(w, cfg, prev, boot, in').value)
  {
    hide Assemble, IngestLotl, RunCycle;
    CycleParts(w, cfg, prev, boot, in');
    LotlSignersNonEmpty(w, cfg, prev, boot, in'.now, in'.up);
    AssembleWellFormed(w, cfg, prev, boot, in', IngestLotl(w, cfg, prev, boot, in'.now, in'.up).value);
  }
}
