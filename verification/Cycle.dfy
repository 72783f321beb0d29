/** ingest/pipeline.go: one ingestion cycle, from the previous snapshot to the next. */
module Cycle {

  import opened Wrappers
  import opened Sequences
  import opened Order
  import opened Trust
  import opened World
  import opened Identity
  import opened Extraction
  import opened Declared
  import opened Lotl
  import opened LotlSource
  import opened National
  import opened Hold
  import opened HoldInPlace

  const TERRITORY_GROUP_EU := "EU"

  // ---- Territory expansion ----

  function PointerTerritory(p: ListPointer): string {
    p.territory
  }

  function ExpandList(configured: seq<string>, ps: seq<ListPointer>): seq<string> {
    if configured == [] then []
    else
      var rest := ExpandList(configured[..|configured| - 1], ps);
      var code := configured[|configured| - 1];
      if code == TERRITORY_GROUP_EU then MergeLists(rest, Map(PointerTerritory, ps)) else AddNew(rest, code)
  }

  /** The configured territories with the EU group expanded, each once, sorted. */
  function Expand(configured: seq<string>, ps: seq<ListPointer>): seq<string> {
    SortBy(TextLe, ExpandList(configured, ps))
  }

  method ExpandTerritories(configured: seq<string>, ps: seq<ListPointer>) returns (out: seq<string>)
    ensures out == Expand(configured, ps)
  {
    var seen: set<string> := {};
    var codes: seq<string> := [];
    var all := Map(PointerTerritory, ps);
    for i := 0 to |configured|
      invariant codes == ExpandList(configured[..i], ps)
      invariant seen == Elements(codes)
    {
      assert configured[..i + 1][..i] == configured[..i];
      if configured[i] == TERRITORY_GROUP_EU {
        ghost var before := codes;
        for j := 0 to |all|
          invariant codes == MergeLists(before, all[..j])
          invariant seen == Elements(codes)
        {
          assert all[..j + 1][..j] == all[..j];
          if all[j] !in seen {
            seen := seen + {all[j]};
            codes := codes + [all[j]];
          }
        }
        assert all[..|all|] == all;
      } else if configured[i] !in seen {
        seen := seen + {configured[i]};
        codes := codes + [configured[i]];
      }
    }
    assert configured[..|configured|] == configured;
    out := SortBy(TextLe, codes);
  }

  // ---- The cycle ----

  function OutcomeOf(w: World, cfg: Config, ps: seq<ListPointer>, prev: Option<Snapshot>, now: Instant, up: Upstream): string -> Outcome {
    (code: string) =>
      IngestTerritory(w, cfg, ps, code, if prev.Some? then prev.value.Lookup(code) else None, now, up)
  }

  function EntryOfOutcome(o: Outcome): Territory {
    o.entry
  }

  function Outcomes(w: World, cfg: Config, ps: seq<ListPointer>, prev: Option<Snapshot>, now: Instant, up: Upstream): seq<Outcome> {
    Map(OutcomeOf(w, cfg, ps, prev, now, up), Expand(cfg.territories, ps))
  }

  predicate AllFailed(os: seq<Outcome>) {
    forall i :: 0 <= i < |os| ==> os[i].FailedEntry?
  }

  /** A failed load carries the previous declared set over. */
  function DeclaredSet(w: World, prev: Option<Snapshot>, file: DeclaredFile, now: Instant): seq<Anchor> {
    match LoadDeclared(w, file, now)
    case Ok(set') => set'
    case Err(_) => if prev.Some? then prev.value.declared else []
  }

  const NO_ID: SnapshotId := IdContent(0, [], [], [])

  function PrevId(prev: Option<Snapshot>): Option<SnapshotId> {
    if prev.Some? then Some(prev.value.id) else None
  }

  /** The snapshot before hold mode and before its id is computed. */
  function Draft(boot: Bootstrap, prev: Option<Snapshot>, l: LotlResult, entries: seq<Territory>, declared: seq<Anchor>, now: Instant)
    : Snapshot
  {
    Snapshot(NO_ID, PrevId(prev), now, l.sequence, l.issueTime, l.nextUpdate, l.signers, l.pivotSeq, l.digest, l.pointers,
             l.advertisedOJ, boot.ojReference, boot.version, entries, declared, [])
  }

  function WithId(s: Snapshot): Snapshot {
    s.(id := ContentId(s))
  }

  /** One cycle's inputs besides the previous snapshot. */
  datatype CycleInput = CycleInput(up: Upstream, file: DeclaredFile, now: Instant)

  /** The snapshot a cycle builds from the lists it has. */
  function Assemble(w: World, cfg: Config, prev: Option<Snapshot>, boot: Bootstrap, in': CycleInput, l: LotlResult): Snapshot {
    var entries := Map(EntryOfOutcome, Outcomes(w, cfg, l.pointers, prev, in'.now, in'.up));
    WithId(ApplyHold(cfg, prev, Draft(boot, prev, l, entries, DeclaredSet(w, prev, in'.file, in'.now), in'.now), in'.now))
  }

  /** What a cycle does once it has its LOTL. */
  function Finish(w: World, cfg: Config, prev: Option<Snapshot>, boot: Bootstrap, in': CycleInput, l: LotlResult): Result<Snapshot, Failure> {
    var os := Outcomes(w, cfg, l.pointers, prev, in'.now, in'.up);
    if os != [] && AllFailed(os) then Err(NoVerifiedTerritory)
    else Ok(Assemble(w, cfg, prev, boot, in', l))
  }

  /** Pipeline.Refresh. */
  function RunCycle(w: World, cfg: Config, prev: Option<Snapshot>, boot: Bootstrap, in': CycleInput): Result<Snapshot, Failure> {
    var l :- IngestLotl(w, cfg, prev, boot, in'.now, in'.up);
    if prev.Some? && l.sequence < prev.value.lotlSequence then Err(LotlSequenceRegression(l.sequence, prev.value.lotlSequence))
    else Finish(w, cfg, prev, boot, in', l)
  }

  /** RefreshDeclared: the previous snapshot with freshly loaded declared anchors;
      None when that leaves the id as it was. */
  function RefreshDeclared(w: World, prev: Snapshot, file: DeclaredFile, now: Instant): Option<Snapshot> {
    var next := WithId(prev.(declared := DeclaredSet(w, Some(prev), file, now)));
    if next.id == prev.id then None
    else Some(next.(generatedAt := now, prevID := Some(prev.id)))
  }

  // ---- As it runs ----

  /** The entry keeps the anchors the previous snapshot holds. */
  predicate KeepsAnchors(o: Outcome) {
    o.Reused? || o.CarriedOver?
  }

  /** The territory loop: failures accumulate as failed entries. `copied` marks the
      entries that keep their previous anchors. */
  method IngestTerritories(w: World, cfg: Config, ps: seq<ListPointer>, prev: Option<Snapshot>, now: Instant, up: Upstream, codes: seq<string>)
    returns (entries: seq<Territory>, copied: seq<bool>, withData: nat)
    ensures |entries| == |copied| == |codes|
    ensures forall i :: 0 <= i < |codes| ==> entries[i] == OutcomeOf(w, cfg, ps, prev, now, up)(codes[i]).entry
    ensures forall i :: 0 <= i < |codes| ==> copied[i] == KeepsAnchors(OutcomeOf(w, cfg, ps, prev, now, up)(codes[i]))
    ensures withData == 0 <==> forall i :: 0 <= i < |codes| ==> OutcomeOf(w, cfg, ps, prev, now, up)(codes[i]).FailedEntry?
  {
    hide OutcomeOf;
    entries, copied, withData := [], [], 0;
    for i := 0 to |codes|
      invariant |entries| == |copied| == i
      invariant forall k :: 0 <= k < i ==> entries[k] == OutcomeOf(w, cfg, ps, prev, now, up)(codes[k]).entry
      invariant forall k :: 0 <= k < i ==> copied[k] == KeepsAnchors(OutcomeOf(w, cfg, ps, prev, now, up)(codes[k]))
      invariant withData == 0 <==> forall k :: 0 <= k < i ==> OutcomeOf(w, cfg, ps, prev, now, up)(codes[k]).FailedEntry?
    {
      var o := IngestOne(w, cfg, ps, prev, now, up, codes[i]);
      entries := entries + [o.entry];
      copied := copied + [KeepsAnchors(o)];
      if !o.FailedEntry? {
        withData := withData + 1;
      }
    }
  }

  method IngestOne(w: World, cfg: Config, ps: seq<ListPointer>, prev: Option<Snapshot>, now: Instant, up: Upstream, code: string)
    returns (o: Outcome)
    ensures o == OutcomeOf(w, cfg, ps, prev, now, up)(code)
  {
    o := Ingest(w, cfg, ps, code, if prev.Some? then prev.value.Lookup(code) else None, now, up);
  }

  function OriginOf(t: Territory): Origin {
    Listing(t.code, t.anchors)
  }

  function AnchorsOf(t: Territory): seq<Anchor> {
    t.anchors
  }

  /** The in-place form computes the function form. */
  lemma {:induction false} InPlaceRefines(h: HoldContext, ts: seq<Territory>)
    ensures HeldAll(h, Map(TerritoryCode, ts), Map(AnchorsOf, ts)) == Flatten(Map(HeldFrom(h), ts))
    decreases |ts|
  {
    if ts != [] {
      var n := |ts| - 1;
      InPlaceRefines(h, ts[..n]);
      assert Map(TerritoryCode, ts)[..n] == Map(TerritoryCode, ts[..n]);
      assert Map(AnchorsOf, ts)[..n] == Map(AnchorsOf, ts[..n]);
      assert Map(HeldFrom(h), ts)[..n] == Map(HeldFrom(h), ts[..n]);
    }
  }

  /** The anchor storage of the previous snapshot. */
  ghost predicate Stores(prev: Option<Snapshot>, storage: seq<Slot>)
    reads storage, set i | 0 <= i < |storage| :: storage[i].storage
  {
    prev.Some? ==>
      && SlotsFor(storage, Map(TerritoryCode, prev.value.territories))
      && Contain(storage, Map(AnchorsOf, prev.value.territories))
  }

  method LoadStorage(prev: Option<Snapshot>) returns (storage: seq<Slot>)
    ensures Stores(prev, storage)
  {
    storage := [];
    if prev.Some? {
      var ts := prev.value.territories;
      assert Map(OriginCode, Map(OriginOf, ts)) == Map(TerritoryCode, ts);
      storage := CopyOrigins(Map(OriginOf, ts), Map(AnchorsOf, ts));
    }
  }

  /** A copied entry has the anchors the previous snapshot holds for its code. */
  predicate CopiesHeld(prev: Option<Snapshot>, ts: seq<Territory>, copied: seq<bool>) {
    && |copied| == |ts|
    && forall i :: 0 <= i < |ts| && copied[i] ==>
         && prev.Some?
         && FindCode(prev.value.territories, ts[i].code).Some?
         && prev.value.territories[FindCode(prev.value.territories, ts[i].code).value].anchors == ts[i].anchors
  }

  /** Where each entry of the next snapshot takes its anchors from. */
  method TraceOrigins(prev: Option<Snapshot>, storage: seq<Slot>, ts: seq<Territory>, copied: seq<bool>) returns (origins: seq<Origin>)
    requires Stores(prev, storage) && CopiesHeld(prev, ts, copied)
    ensures |origins| == |ts| && Map(OriginCode, origins) == Map(TerritoryCode, ts)
    ensures Provide(origins, Map(AnchorsOf, ts))
    ensures forall i :: 0 <= i < |ts| && copied[i] ==> origins[i].CopyOf? && origins[i].slot in storage
  {
    hide FindCode;
    origins := [];
    for i := 0 to |ts|
      invariant |origins| == i
      invariant forall k :: 0 <= k < i ==> OriginCode(origins[k]) == ts[k].code
      invariant forall k :: 0 <= k < i ==> (origins[k].CopyOf? ==> origins[k].slot.Valid()) && OriginAnchors(origins[k]) == ts[k].anchors
      invariant forall k :: 0 <= k < i && copied[k] ==> origins[k].CopyOf? && origins[k].slot in storage
    {
      if copied[i] {
        var k := FindCode(prev.value.territories, ts[i].code).value;
        assert Map(TerritoryCode, prev.value.territories)[k] == ts[i].code;
        assert Map(AnchorsOf, prev.value.territories)[k] == ts[i].anchors;
        origins := origins + [CopyOf(storage[k])];
      } else {
        origins := origins + [Listing(ts[i].code, ts[i].anchors)];
      }
    }
  }

  /** Hold mode over the storage of the snapshot under construction; the storage of the
      previous one is copied from and left as it was. */
  method HoldTerritories(h: HoldContext, prev: Option<Snapshot>, storage: seq<Slot>, ts: seq<Territory>, copied: seq<bool>)
    returns (kept: seq<Territory>, pending: seq<PendingAnchor>)
    requires Stores(prev, storage) && CopiesHeld(prev, ts, copied)
    ensures kept == Map(HoldTerritory(h), ts)
    ensures pending == Flatten(Map(HeldFrom(h), ts))
    ensures Stores(prev, storage)
  {
    hide HeldAll, KeptLists, Flatten, HeldFrom, HoldTerritory, CopiesHeld;
    var origins := TraceOrigins(prev, storage, ts, copied);
    var slots;
    slots, pending := BuildAndHold(h, origins, Map(TerritoryCode, ts), Map(AnchorsOf, ts));
    InPlaceRefines(h, ts);
    var lists := ReadSlots(slots, KeptLists(h, Map(TerritoryCode, ts), Map(AnchorsOf, ts)));
    KeptMatch(h, ts);
    kept := ReplaceAnchors(h, ts, lists);
  }

  lemma {:induction false} KeptMatch(h: HoldContext, ts: seq<Territory>)
    ensures var lists := KeptLists(h, Map(TerritoryCode, ts), Map(AnchorsOf, ts));
            |lists| == |ts| && forall i :: 0 <= i < |ts| ==> lists[i] == Select(Keeping(h, ts[i].code), ts[i].anchors)
  {
  }

  method ReplaceAnchors(h: HoldContext, ts: seq<Territory>, lists: seq<seq<Anchor>>) returns (kept: seq<Territory>)
    requires |lists| == |ts| && forall i :: 0 <= i < |ts| ==> lists[i] == Select(Keeping(h, ts[i].code), ts[i].anchors)
    ensures kept == Map(HoldTerritory(h), ts)
  {
    kept := [];
    for i := 0 to |ts|
      invariant |kept| == i
      invariant forall k :: 0 <= k < i ==> kept[k] == ts[k].(anchors := lists[k])
    {
      kept := kept + [ts[i].(anchors := lists[i])];
    }
    forall i | 0 <= i < |ts| ensures kept[i] == HoldTerritory(h)(ts[i]) {
    }
  }

  method HoldAdditions(cfg: Config, prev: Option<Snapshot>, storage: seq<Slot>, next: Snapshot, copied: seq<bool>, now: Instant)
    returns (r: Snapshot)
    requires Stores(prev, storage) && CopiesHeld(prev, next.territories, copied)
    ensures r == ApplyHold(cfg, prev, next, now)
    ensures Stores(prev, storage)
  {
    hide Stores, CopiesHeld, HoldTerritory, HeldFrom, ContextOf;
    if !cfg.hold {
      return next;
    }
    var kept, pending := HoldTerritories(ContextOf(cfg, prev, now), prev, storage, next.territories, copied);
    r := next.(territories := kept, pending := SortBy(PendingLe, next.pending + pending));
  }

  /** Pipeline.Refresh, filling the next snapshot step by step; the previous
      snapshot's storage is read and never written. */
  method Refresh(w: World, cfg: Config, prev: Option<Snapshot>, storage: seq<Slot>, boot: Bootstrap, in': CycleInput)
    returns (r: Result<Snapshot, Failure>)
    requires Stores(prev, storage)
    ensures r == RunCycle(w, cfg, prev, boot, in')
    ensures Stores(prev, storage)
  {
    hide Stores, Finish;
    var res := IngestLOTL(w, cfg, prev, boot, in'.now, in'.up);
    if res.Err? {
      return Err(res.error);
    }
    var l := res.value;
    if prev.Some? && l.sequence < prev.value.lotlSequence {
      return Err(LotlSequenceRegression(l.sequence, prev.value.lotlSequence));
    }
    r := BuildNext(w, cfg, prev, storage, boot, in', l);
  }

  method BuildNext(w: World, cfg: Config, prev: Option<Snapshot>, storage: seq<Slot>, boot: Bootstrap, in': CycleInput, l: LotlResult)
    returns (r: Result<Snapshot, Failure>)
    requires Stores(prev, storage)
    ensures r == Finish(w, cfg, prev, boot, in', l)
    ensures Stores(prev, storage)
  {
    hide Stores, OutcomeOf, Expand, ApplyHold, ContentId, CopiesHeld;
    var codes := ExpandTerritories(cfg.territories, l.pointers);
    var entries, copied, withData := IngestTerritories(w, cfg, l.pointers, prev, in'.now, in'.up, codes);
    LoopMatches(w, cfg, prev, in', l, entries, withData);
    if |codes| > 0 && withData == 0 {
      return Err(NoVerifiedTerritory);
    }
    CopiesAreHeld(w, cfg, prev, in', l, codes, entries, copied);
    var next := Draft(boot, prev, l, entries, [], in'.now);
    next := next.(declared := DeclaredSet(w, prev, in'.file, in'.now));
    next := HoldAdditions(cfg, prev, storage, next, copied, in'.now);
    var id := ComputeID(next);
    r := Ok(next.(id := id));
  }

  lemma {:induction false} CopiesAreHeld(w: World, cfg: Config, prev: Option<Snapshot>, in': CycleInput, l: LotlResult, codes: seq<string>, entries: seq<Territory>, copied: seq<bool>)
    requires |entries| == |copied| == |codes|
    requires forall i :: 0 <= i < |codes| ==> entries[i] == OutcomeOf(w, cfg, l.pointers, prev, in'.now, in'.up)(codes[i]).entry
    requires forall i :: 0 <= i < |codes| ==> copied[i] == KeepsAnchors(OutcomeOf(w, cfg, l.pointers, prev, in'.now, in'.up)(codes[i]))
    ensures CopiesHeld(prev, entries, copied)
  {
    hide OutcomeOf, FindCode, FindTerritory;
    forall i | 0 <= i < |entries| && copied[i]
      ensures && prev.Some? && FindCode(prev.value.territories, entries[i].code).Some?
              && prev.value.territories[FindCode(prev.value.territories, entries[i].code).value].anchors == entries[i].anchors
    {
      CopyIsHeld(w, cfg, l.pointers, prev, in'.now, in'.up, codes[i]);
      FindCodeFinds(prev.value.territories, codes[i]);
    }
  }

  lemma {:induction false} CopyIsHeld(w: World, cfg: Config, ps: seq<ListPointer>, prev: Option<Snapshot>, now: Instant, up: Upstream, code: string)
    requires KeepsAnchors(OutcomeOf(w, cfg, ps, prev, now, up)(code))
    ensures var e := OutcomeOf(w, cfg, ps, prev, now, up)(code).entry;
            && prev.Some? && prev.value.Lookup(code).Some?
            && e.code == code && e.anchors == prev.value.Lookup(code).value.anchors
  {
    hide FindTerritory, VerifyNational, EntryFrom;
  }

  lemma {:induction false} LoopMatches(w: World, cfg: Config, prev: Option<Snapshot>, in': CycleInput, l: LotlResult, entries: seq<Territory>, withData: nat)
    requires var f, codes := OutcomeOf(w, cfg, l.pointers, prev, in'.now, in'.up), Expand(cfg.territories, l.pointers);
             && |entries| == |codes|
             && (forall i :: 0 <= i < |codes| ==> entries[i] == f(codes[i]).entry)
             && (withData == 0 <==> forall i :: 0 <= i < |codes| ==> f(codes[i]).FailedEntry?)
    ensures var os := Outcomes(w, cfg, l.pointers, prev, in'.now, in'.up);
            && entries == Map(EntryOfOutcome, os)
            && (withData == 0 <==> AllFailed(os))
            && |os| == |Expand(cfg.territories, l.pointers)|
  {
  }
}
