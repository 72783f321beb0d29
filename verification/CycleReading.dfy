/** What one cycle comes to: when it succeeds, and every field of the snapshot it builds. */
module CycleReading {

  import opened Wrappers
  import opened Sequences
  import opened Order
  import opened Trust
  import opened World
  import opened Identity
  import opened Declared
  import opened Lotl
  import opened LotlSource
  import opened National
  import opened Hold
  import opened Cycle
  import opened TerritoryReading
  import opened Invariant

  // ---- Territories ----

  /** A territory of the configuration: named, or published by the LOTL when "EU" is named. */
  ghost predicate Wanted(cfg: Config, ps: seq<ListPointer>, code: string) {
    || (code != "EU" && exists i :: 0 <= i < |cfg.territories| && cfg.territories[i] == code)
    || ((exists i :: 0 <= i < |cfg.territories| && cfg.territories[i] == "EU") && exists i :: 0 <= i < |ps| && ps[i].territory == code)
  }

  /** The entry the previous snapshot has for the code. */
  ghost predicate EntryHeld(prev: Option<Snapshot>, code: string, held: Option<Territory>) {
    match held
    case Some(t) => prev.Some? && t.code == code && exists i :: 0 <= i < |prev.value.territories| && prev.value.territories[i] == t
    case None => prev.Some? ==> forall i :: 0 <= i < |prev.value.territories| ==> prev.value.territories[i].code != code
  }

  /** The territory's turn came to the outcome. */
  ghost predicate TurnMeans(w: World, cfg: Config, ps: seq<ListPointer>, prev: Option<Snapshot>, now: Instant, up: Upstream, code: string, o: Outcome) {
    o.entry.code == code && exists held :: EntryHeld(prev, code, held) && OutcomeMeans(w, cfg, ps, code, held, now, up, o)
  }

  /** One turn per wanted territory, in ascending order. */
  ghost predicate TurnsMean(w: World, cfg: Config, ps: seq<ListPointer>, prev: Option<Snapshot>, now: Instant, up: Upstream, os: seq<Outcome>) {
    && (forall i :: 0 <= i < |os| ==> TurnMeans(w, cfg, ps, prev, now, up, os[i].entry.code, os[i]))
    && (forall i, j :: 0 <= i < j < |os| ==> os[i].entry.code != os[j].entry.code && StringLe(os[i].entry.code, os[j].entry.code))
    && (forall code :: Wanted(cfg, ps, code) <==> exists i :: 0 <= i < |os| && os[i].entry.code == code)
  }

  lemma {:induction false} WantedIff(cfg: Config, ps: seq<ListPointer>, code: string)
    ensures Configured(cfg.territories, ps, code) <==> Wanted(cfg, ps, code)
  {
    var all := Map(PointerTerritory, ps);
    if code in all {
      var i :| 0 <= i < |all| && all[i] == code;
      assert ps[i].territory == code;
    }
    if i :| 0 <= i < |ps| && ps[i].territory == code {
      assert all[i] == code;
    }
  }

  lemma {:induction false} HeldEntry(prev: Option<Snapshot>, code: string)
    ensures EntryHeld(prev, code, if prev.Some? then prev.value.Lookup(code) else None)
  {
    hide FindTerritory;
  }

  lemma {:induction false} TurnTaken(w: World, cfg: Config, ps: seq<ListPointer>, prev: Option<Snapshot>, now: Instant, up: Upstream, code: string)
    requires prev.Some? ==> TerritoriesOk(w, prev.value.territories)
    ensures TurnMeans(w, cfg, ps, prev, now, up, code, OutcomeOf(w, cfg, ps, prev, now, up)(code))
  {
    hide OutcomeMeans, EntryHeld, IngestTerritory, TerritoriesOk, FindTerritory;
    var held := if prev.Some? then prev.value.Lookup(code) else None;
    HeldEntry(prev, code);
    TerritoryTurn(w, cfg, ps, code, held, now, up);
    OneEntryOk(w, cfg, ps, prev, now, up, code);
  }

  lemma {:induction false} TurnsTaken(w: World, cfg: Config, ps: seq<ListPointer>, prev: Option<Snapshot>, now: Instant, up: Upstream)
    requires prev.Some? ==> TerritoriesOk(w, prev.value.territories)
    ensures TurnsMean(w, cfg, ps, prev, now, up, Outcomes(w, cfg, ps, prev, now, up))
  {
    hide OutcomeMeans, EntryHeld, TerritoriesOk, OutcomeOf, Wanted, Configured, Expand, TextLe;
    var os, codes := Outcomes(w, cfg, ps, prev, now, up), Expand(cfg.territories, ps);
    ExpandExact(cfg.territories, ps);
    forall i | 0 <= i < |os| ensures TurnMeans(w, cfg, ps, prev, now, up, codes[i], os[i]) && os[i].entry.code == codes[i] {
      TurnTaken(w, cfg, ps, prev, now, up, codes[i]);
    }
    forall i, j | 0 <= i < j < |os| ensures codes[i] != codes[j] && StringLe(codes[i], codes[j]) {
      assert TextLe(codes[i], codes[j]);
      TextLeIs(codes[i], codes[j]);
    }
    forall code ensures Wanted(cfg, ps, code) <==> exists i :: 0 <= i < |os| && os[i].entry.code == code {
      WantedIff(cfg, ps, code);
      if code in codes {
        var i :| 0 <= i < |codes| && codes[i] == code;
        assert os[i].entry.code == code;
      }
      if i :| 0 <= i < |os| && os[i].entry.code == code {
        assert codes[i] in codes;
      }
    }
  }

  // ---- Hold mode ----

  /** Served before under the code, whatever else became of it. */
  ghost predicate ServedBefore(prev: Snapshot, code: string, fp: string) {
    exists i, j :: 0 <= i < |prev.territories| && 0 <= j < |prev.territories[i].anchors|
                && prev.territories[i].code == code && prev.territories[i].anchors[j].fingerprint == fp
  }

  /** Held since the time. */
  ghost predicate HeldSinceTime(prev: Snapshot, code: string, fp: string, since: Instant) {
    exists i :: 0 <= i < |prev.pending| && prev.pending[i].anchor.territory == code && prev.pending[i].anchor.fingerprint == fp
             && prev.pending[i].firstSeen == since
  }

  /** The certificate is served in this cycle: hold mode is off, nothing was served
      before, this was, or it has waited out a release window that is set. */
  ghost predicate Goes(cfg: Config, prev: Option<Snapshot>, now: Instant, code: string, fp: string) {
    || !cfg.hold
    || prev.None?
    || ServedBefore(prev.value, code, fp)
    || (cfg.holdAutoRelease > 0 && exists since :: HeldSinceTime(prev.value, code, fp, since) && now - since >= cfg.holdAutoRelease)
  }

  /** The time a held certificate waits since. */
  ghost predicate WaitsSince(prev: Option<Snapshot>, now: Instant, code: string, fp: string, since: Instant) {
    if prev.Some? && exists t :: HeldSinceTime(prev.value, code, fp, t) then HeldSinceTime(prev.value, code, fp, since) else since == now
  }

  lemma {:induction false} SinceIff(prev: Snapshot, code: string, fp: string, since: Instant)
    requires Distinct(Map(PendingKey, prev.pending))
    ensures HeldSinceTime(prev, code, fp, since) <==> (code, fp) in PendingSince(prev.pending) && PendingSince(prev.pending)[(code, fp)] == since
  {
    hide PendingSince;
    PendingSinceAt(prev.pending, (code, fp));
    if HeldSinceTime(prev, code, fp, since) {
      var i :| 0 <= i < |prev.pending| && prev.pending[i].anchor.territory == code && prev.pending[i].anchor.fingerprint == fp
            && prev.pending[i].firstSeen == since;
      PendingSinceUnique(prev.pending, i);
    }
    if (code, fp) in PendingSince(prev.pending) && PendingSince(prev.pending)[(code, fp)] == since {
      var i :| 0 <= i < |prev.pending| && PendingKey(prev.pending[i]) == (code, fp) && prev.pending[i].firstSeen == since;
    }
  }

  lemma {:induction false} ServedIff(prev: Snapshot, code: string, fp: string)
    ensures ServedBefore(prev, code, fp) <==> (code, fp) in ServedKeys(prev.territories)
  {
    hide ServedKeys;
    ServedKeysAt(prev.territories, (code, fp));
  }

  lemma {:induction false} GoesIff(cfg: Config, prev: Option<Snapshot>, now: Instant, code: string, fp: string)
    requires cfg.hold && (prev.Some? ==> Distinct(Map(PendingKey, prev.value.pending)))
    ensures Keeps(ContextOf(cfg, prev, now), (code, fp)) <==> Goes(cfg, prev, now, code, fp)
    ensures forall since :: WaitsSince(prev, now, code, fp, since)
              <==> since == var h := ContextOf(cfg, prev, now); if (code, fp) in h.since then h.since[(code, fp)] else h.now
  {
    hide ServedKeys, PendingSince, HeldSinceTime, ServedBefore;
    if prev.Some? {
      ServedIff(prev.value, code, fp);
      forall since ensures HeldSinceTime(prev.value, code, fp, since)
                      <==> (code, fp) in PendingSince(prev.value.pending) && PendingSince(prev.value.pending)[(code, fp)] == since
      {
        SinceIff(prev.value, code, fp, since);
      }
      if (code, fp) in PendingSince(prev.value.pending) {
        assert HeldSinceTime(prev.value, code, fp, PendingSince(prev.value.pending)[(code, fp)]);
      }
    }
  }

  ghost function Going(cfg: Config, prev: Option<Snapshot>, now: Instant, code: string): Anchor -> bool {
    (a: Anchor) => Goes(cfg, prev, now, code, a.fingerprint)
  }

  /** The entry keeps, in order, the anchors that go, and everything else. */
  ghost predicate ServedEntry(cfg: Config, prev: Option<Snapshot>, now: Instant, t: Territory, u: Territory) {
    && u.anchors == Select(Going(cfg, prev, now, t.code), t.anchors)
    && u.code == t.code && u.tlSequence == t.tlSequence && u.issueTime == t.issueTime && u.nextUpdate == t.nextUpdate
    && u.sourceDigest == t.sourceDigest && u.carriedOver == t.carriedOver && u.carriedOverReason == t.carriedOverReason
    && u.failed == t.failed && u.failureReason == t.failureReason && u.skipped == t.skipped
  }

  /** The anchor of an entry is held back. */
  ghost predicate HeldBackFrom(cfg: Config, prev: Option<Snapshot>, now: Instant, t: Territory, p: PendingAnchor) {
    && p.anchor in t.anchors
    && !Goes(cfg, prev, now, t.code, p.anchor.fingerprint)
    && WaitsSince(prev, now, t.code, p.anchor.fingerprint, p.firstSeen)
  }

  lemma {:induction false} SelectSame<T(!new)>(f: T -> bool, g: T -> bool, s: seq<T>)
    requires forall x :: f(x) == g(x)
    ensures Select(f, s) == Select(g, s)
    decreases |s|
  {
    if s != [] {
      SelectSame(f, g, s[..|s| - 1]);
    }
  }

  lemma {:induction false} AllGo(cfg: Config, prev: Option<Snapshot>, now: Instant, t: Territory)
    requires !cfg.hold
    ensures ServedEntry(cfg, prev, now, t, t)
  {
    SelectAll(Going(cfg, prev, now, t.code), t.anchors);
  }

  lemma {:induction false} HoldServes(cfg: Config, prev: Option<Snapshot>, now: Instant, t: Territory)
    requires cfg.hold && (prev.Some? ==> Distinct(Map(PendingKey, prev.value.pending)))
    ensures ServedEntry(cfg, prev, now, t, HoldTerritory(ContextOf(cfg, prev, now))(t))
  {
    hide Keeps, Goes, ContextOf;
    var h := ContextOf(cfg, prev, now);
    forall a ensures Keeping(h, t.code)(a) == Going(cfg, prev, now, t.code)(a) {
      GoesIff(cfg, prev, now, t.code, a.fingerprint);
    }
    SelectSame(Keeping(h, t.code), Going(cfg, prev, now, t.code), t.anchors);
  }

  lemma {:induction false} HeldBackIff(cfg: Config, prev: Option<Snapshot>, now: Instant, t: Territory, p: PendingAnchor)
    requires cfg.hold && (prev.Some? ==> Distinct(Map(PendingKey, prev.value.pending)))
    ensures HeldIn(ContextOf(cfg, prev, now), t, p) <==> HeldBackFrom(cfg, prev, now, t, p)
  {
    hide Keeps, Goes, ContextOf, WaitsSince;
    GoesIff(cfg, prev, now, t.code, p.anchor.fingerprint);
    assert p == PendingAnchor(p.anchor, p.firstSeen);
  }

  /** Hold mode over the entries of a cycle. */
  ghost predicate HoldMeans(cfg: Config, prev: Option<Snapshot>, now: Instant, ts: seq<Territory>, s: Snapshot) {
    && |s.territories| == |ts|
    && (forall i :: 0 <= i < |ts| ==> ServedEntry(cfg, prev, now, ts[i], s.territories[i]))
    && (forall p :: p in s.pending <==> exists i :: 0 <= i < |ts| && HeldBackFrom(cfg, prev, now, ts[i], p))
    && (forall i, j :: 0 <= i < j < |s.pending| ==> StringLe(s.pending[i].anchor.fingerprint, s.pending[j].anchor.fingerprint))
  }

  lemma PendingOrder()
    ensures TotalPreorder(PendingLe)
  {
    KeyOrder();
  }

  lemma {:induction false} NothingHeld(cfg: Config, prev: Option<Snapshot>, now: Instant, t: Territory, p: PendingAnchor)
    requires !cfg.hold
    ensures !HeldBackFrom(cfg, prev, now, t, p)
  {
  }

  lemma {:induction false} HeldSorted(cfg: Config, prev: Option<Snapshot>, next: Snapshot, now: Instant)
    requires cfg.hold
    ensures var ps := ApplyHold(cfg, prev, next, now).pending;
            forall i, j :: 0 <= i < j < |ps| ==> StringLe(ps[i].anchor.fingerprint, ps[j].anchor.fingerprint)
  {
    hide PendingLe, TotalPreorder, ContextOf, HeldFrom, Flatten;
    var ps := ApplyHold(cfg, prev, next, now).pending;
    PendingOrder();
    SortBySorted(PendingLe, next.pending + Flatten(Map(HeldFrom(ContextOf(cfg, prev, now)), next.territories)));
    forall i, j | 0 <= i < j < |ps| ensures StringLe(ps[i].anchor.fingerprint, ps[j].anchor.fingerprint) {
      PendingLeMeans(ps[i], ps[j]);
    }
  }

  lemma {:induction false} HoldOff(cfg: Config, prev: Option<Snapshot>, next: Snapshot, now: Instant)
    requires next.pending == [] && !cfg.hold
    ensures HoldMeans(cfg, prev, now, next.territories, next)
  {
    hide HeldBackFrom, ServedEntry;
    forall i | 0 <= i < |next.territories| ensures ServedEntry(cfg, prev, now, next.territories[i], next.territories[i]) {
      AllGo(cfg, prev, now, next.territories[i]);
    }
    forall t, p ensures !HeldBackFrom(cfg, prev, now, t, p) {
      NothingHeld(cfg, prev, now, t, p);
    }
  }

  lemma {:induction false} HoldApplied(cfg: Config, prev: Option<Snapshot>, next: Snapshot, now: Instant)
    requires next.pending == [] && (prev.Some? ==> Distinct(Map(PendingKey, prev.value.pending)))
    ensures HoldMeans(cfg, prev, now, next.territories, ApplyHold(cfg, prev, next, now))
  {
    hide ContextOf, HeldBackFrom, ServedEntry, AllHeld, HoldTerritory, StringLe, ApplyHold, PendingKey;
    var ts, r := next.territories, ApplyHold(cfg, prev, next, now);
    ApplyHoldShape(cfg, prev, next, now);
    if cfg.hold {
      forall i | 0 <= i < |ts| ensures ServedEntry(cfg, prev, now, ts[i], r.territories[i]) {
        HoldServes(cfg, prev, now, ts[i]);
      }
      forall p ensures p in r.pending <==> exists i :: 0 <= i < |ts| && HeldBackFrom(cfg, prev, now, ts[i], p) {
        PendingFromEntries(cfg, prev, now, ts, r.pending, p);
      }
      HeldSorted(cfg, prev, next, now);
    } else {
      HoldOff(cfg, prev, next, now);
    }
  }

  lemma {:induction false} PendingLeMeans(a: PendingAnchor, b: PendingAnchor)
    ensures PendingLe(a, b) <==> StringLe(a.anchor.fingerprint, b.anchor.fingerprint)
  {
    KeyLeOne(a.anchor.fingerprint, b.anchor.fingerprint);
  }

  lemma {:induction false} PendingFromEntries(cfg: Config, prev: Option<Snapshot>, now: Instant, ts: seq<Territory>, ps: seq<PendingAnchor>, p: PendingAnchor)
    requires cfg.hold && (prev.Some? ==> Distinct(Map(PendingKey, prev.value.pending)))
    requires multiset(ps) == multiset(AllHeld(ContextOf(cfg, prev, now), ts))
    ensures p in ps <==> exists i :: 0 <= i < |ts| && HeldBackFrom(cfg, prev, now, ts[i], p)
  {
    hide ContextOf, HeldBackFrom, AllHeld, HeldIn;
    var h := ContextOf(cfg, prev, now);
    AllHeldMembers(h, ts, p);
    assert p in ps <==> p in multiset(ps);
    assert p in AllHeld(h, ts) <==> p in multiset(AllHeld(h, ts));
    forall i | 0 <= i < |ts| ensures HeldIn(h, ts[i], p) <==> HeldBackFrom(cfg, prev, now, ts[i], p) {
      HeldBackIff(cfg, prev, now, ts[i], p);
    }
  }

  // ---- The cycle ----

  /** The declared anchors of the next snapshot: those loaded, else those from before. */
  ghost predicate DeclaredMean(w: World, prev: Option<Snapshot>, file: DeclaredFile, now: Instant, declared: seq<Anchor>) {
    match LoadDeclared(w, file, now)
    case Ok(loaded) => declared == loaded
    case Err(_) => if prev.Some? then declared == prev.value.declared else declared == []
  }

  /** The snapshot a cycle builds from its LOTL and its territories' turns. */
  ghost predicate Built(w: World, cfg: Config, prev: Option<Snapshot>, boot: Bootstrap, in': CycleInput, l: LotlResult, os: seq<Outcome>, s: Snapshot) {
    && s.prevID == (if prev.Some? then Some(prev.value.id) else None) && s.generatedAt == in'.now
    && s.lotlSequence == l.sequence && s.lotlIssueTime == l.issueTime && s.lotlNextUpdate == l.nextUpdate
    && s.lotlSigners == l.signers && s.lotlPivotSeq == l.pivotSeq && s.lotlDigest == l.digest && s.lotlPointers == l.pointers
    && s.advertisedOJ == l.advertisedOJ && s.bootstrapOJRef == boot.ojReference && s.bootstrapVersion == boot.version
    && DeclaredMean(w, prev, in'.file, in'.now, s.declared)
    && HoldMeans(cfg, prev, in'.now, seq(|os|, i requires 0 <= i < |os| => os[i].entry), s)
    && s.id == ContentId(s)
  }

  /** A cycle ends with a snapshot exactly when it has a LOTL that is not older than the
      previous one's and, unless no territory is wanted, one territory with data; the
      snapshot is then built from that LOTL and the turns of the wanted territories. */
  ghost predicate CycleMeans(w: World, cfg: Config, prev: Option<Snapshot>, boot: Bootstrap, in': CycleInput, l: LotlResult, os: seq<Outcome>, r: Result<Snapshot, Failure>) {
    && TurnsMean(w, cfg, l.pointers, prev, in'.now, in'.up, os)
    && (if prev.Some? && l.sequence < prev.value.lotlSequence
        then r == Err(LotlSequenceRegression(l.sequence, prev.value.lotlSequence))
        else if os != [] && forall i :: 0 <= i < |os| ==> os[i].FailedEntry?
        then r == Err(NoVerifiedTerritory)
        else r.Ok? && Built(w, cfg, prev, boot, in', l, os, r.value))
  }

  lemma {:induction false} AssembledMeans(w: World, cfg: Config, prev: Option<Snapshot>, boot: Bootstrap, in': CycleInput, l: LotlResult)
    requires prev.Some? ==> Distinct(Map(PendingKey, prev.value.pending))
    ensures Built(w, cfg, prev, boot, in', l, Outcomes(w, cfg, l.pointers, prev, in'.now, in'.up), Assemble(w, cfg, prev, boot, in', l))
  {
    hide Outcomes, ApplyHold, Assemble, ContentId, LoadDeclared, ServedEntry, HeldBackFrom;
    var os, s := Outcomes(w, cfg, l.pointers, prev, in'.now, in'.up), Assemble(w, cfg, prev, boot, in', l);
    var d := DraftOf(w, cfg, prev, boot, in', l);
    AssembleFields(w, cfg, prev, boot, in', l);
    HoldApplied(cfg, prev, d, in'.now);
    assert seq(|os|, i requires 0 <= i < |os| => os[i].entry) == d.territories;
  }

  /** Every cycle, from any snapshot a run can serve. */
  lemma {:induction false} CycleExact(w: World, cfg: Config, prev: Option<Snapshot>, boot: Bootstrap, in': CycleInput)
    requires prev.Some? ==> WellFormed(w, prev.value)
    ensures match IngestLotl(w, cfg, prev, boot, in'.now, in'.up)
            case Err(f) => RunCycle(w, cfg, prev, boot, in') == Err(f)
            case Ok(l) => exists os :: CycleMeans(w, cfg, prev, boot, in', l, os, RunCycle(w, cfg, prev, boot, in'))
  {
    hide IngestLotl, TurnsMean, Built, Outcomes, Assemble, ContentId, TerritoriesOk, DeclaredOk, ServedKeys;
    var l := IngestLotl(w, cfg, prev, boot, in'.now, in'.up);
    if l.Ok? {
      var os := Outcomes(w, cfg, l.value.pointers, prev, in'.now, in'.up);
      TurnsTaken(w, cfg, l.value.pointers, prev, in'.now, in'.up);
      AssembledMeans(w, cfg, prev, boot, in', l.value);
      assert CycleMeans(w, cfg, prev, boot, in', l.value, os, RunCycle(w, cfg, prev, boot, in'));
    }
  }
}
