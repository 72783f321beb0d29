/** Whom the list of the lists pins now, and who signed what is served: a digest skip
    and a carry-over keep an entry without asking its signer again. */
module Pins {

  import opened Wrappers
  import opened Sequences
  import opened Trust
  import opened World
  import opened Identity
  import opened Extraction
  import opened Declared
  import opened Lotl
  import opened LotlSource
  import opened National
  import opened Hold
  import opened Cycle
  import opened Manager
  import opened Invariant
  import opened Reachable
  import opened StoreRuns
  import opened HoldSafety
  import opened Progress
  import opened Scenario
  import opened Witnesses

  /** The document the entry was read from carries the certificate's signature. */
  ghost predicate SignedBy(w: World, t: Territory, signer: Bytes) {
    exists raw :: w.sha256(raw) == t.sourceDigest && w.signature(raw).Some? && w.signature(raw).value.signer == signer
  }

  /** The pointer set pins a signer of the entry's document. */
  ghost predicate PinnedNow(w: World, ps: seq<ListPointer>, t: Territory) {
    && PointerFor(ps, t.code).Ok?
    && exists signer :: signer in PointerFor(ps, t.code).value.signers && SignedBy(w, t, signer)
  }

  ghost predicate SameDocument(s: Territory, t: Territory) {
    s.code == t.code && s.sourceDigest == t.sourceDigest
  }

  lemma {:induction false} PinnedAlike(w: World, ps: seq<ListPointer>, s: Territory, t: Territory)
    requires SameDocument(s, t)
    ensures PinnedNow(w, ps, s) <==> PinnedNow(w, ps, t)
  {
    if signer :| SignedBy(w, s, signer) {
      assert SignedBy(w, t, signer);
    }
    forall signer ensures SignedBy(w, s, signer) <==> SignedBy(w, t, signer) {
    }
  }

  // ---- One cycle ----

  lemma {:induction false} FreshIsPinned(w: World, cfg: Config, ps: seq<ListPointer>, code: string, prev: Option<Territory>, now: Instant, up: Upstream)
    requires IngestTerritory(w, cfg, ps, code, prev, now, up).Fresh?
    ensures PinnedNow(w, ps, IngestTerritory(w, cfg, ps, code, prev, now, up).entry)
  {
    hide IngestTerritory, Extract;
    FreshIsVerified(w, cfg, ps, code, prev, now, up);
    var o := IngestTerritory(w, cfg, ps, code, prev, now, up);
    var verified := Verify(w, o.raw, o.pointer.signers, now);
    assert verified.Some? && o.entry.sourceDigest == w.sha256(o.raw) && o.entry.code == code;
    assert SignedBy(w, o.entry, verified.value.signer);
  }

  /** An entry that was not downloaded is the held one. */
  lemma {:induction false} KeptDocument(w: World, cfg: Config, ps: seq<ListPointer>, code: string, prev: Option<Territory>, now: Instant, up: Upstream)
    requires prev.Some? ==> prev.value.code == code
    ensures var o := IngestTerritory(w, cfg, ps, code, prev, now, up);
            o.Fresh? || o.entry.failed || (prev.Some? && SameDocument(o.entry, prev.value) && !prev.value.failed)
  {
  }

  /** Exactly when an entry is backed by the current pointer set: it was downloaded in
      this cycle, or the current pointer pins the signer of the document it was read
      from before. */
  lemma {:induction false} EntryPinnedIff(w: World, cfg: Config, prev: Option<Snapshot>, boot: Bootstrap, in': CycleInput, i: nat)
    requires prev.Some? ==> WellFormed(w, prev.value)
    requires RunCycle(w, cfg, prev, boot, in').Ok?
    requires i < |RunCycle(w, cfg, prev, boot, in').value.territories|
    requires !RunCycle(w, cfg, prev, boot, in').value.territories[i].failed
    ensures var next := RunCycle(w, cfg, prev, boot, in').value;
            var t := next.territories[i];
            PinnedNow(w, next.lotlPointers, t)
            <==> || OutcomeOf(w, cfg, next.lotlPointers, prev, in'.now, in'.up)(t.code).Fresh?
                 || (prev.Some? && prev.value.Lookup(t.code).Some? && PinnedNow(w, next.lotlPointers, prev.value.Lookup(t.code).value))
  {
    hide RunCycle, Assemble, IngestLotl, OutcomeOf, PinnedNow, WellFormed, FindTerritory;
    var next := RunCycle(w, cfg, prev, boot, in').value;
    var t := next.territories[i];
    var held := if prev.Some? then prev.value.Lookup(t.code) else None;
    CycleEntry(w, cfg, prev, boot, in', i);
    var o := OutcomeOf(w, cfg, next.lotlPointers, prev, in'.now, in'.up)(t.code);
    OutcomeIs(w, cfg, next.lotlPointers, prev, in'.now, in'.up, t.code);
    PinnedAlike(w, next.lotlPointers, t, o.entry);
    if o.Fresh? {
      FreshIsPinned(w, cfg, next.lotlPointers, t.code, held, in'.now, in'.up);
    } else {
      KeptDocument(w, cfg, next.lotlPointers, t.code, held, in'.now, in'.up);
      PinnedAlike(w, next.lotlPointers, o.entry, held.value);
    }
  }

  lemma {:induction false} OutcomeIs(w: World, cfg: Config, ps: seq<ListPointer>, prev: Option<Snapshot>, now: Instant, up: Upstream, code: string)
    ensures OutcomeOf(w, cfg, ps, prev, now, up)(code)
         == IngestTerritory(w, cfg, ps, code, if prev.Some? then prev.value.Lookup(code) else None, now, up)
  {
  }

  /** An entry of a cycle is its outcome, but for held anchors. */
  lemma {:induction false} CycleEntry(w: World, cfg: Config, prev: Option<Snapshot>, boot: Bootstrap, in': CycleInput, i: nat)
    requires prev.Some? ==> WellFormed(w, prev.value)
    requires RunCycle(w, cfg, prev, boot, in').Ok?
    requires i < |RunCycle(w, cfg, prev, boot, in').value.territories|
    ensures var next := RunCycle(w, cfg, prev, boot, in').value;
            var t := next.territories[i];
            var e := OutcomeOf(w, cfg, next.lotlPointers, prev, in'.now, in'.up)(t.code).entry;
            t == e.(anchors := t.anchors)
  {
    hide RunCycle, Assemble, IngestLotl, OutcomeOf, WellFormed, Expand;
    CycleParts(w, cfg, prev, boot, in');
    var l := IngestLotl(w, cfg, prev, boot, in'.now, in'.up).value;
    AssembledCarries(System(w, cfg, boot), prev, in', l);
    AssembledEntries(w, cfg, prev, boot, in', l);
    if prev.Some? {
      WellFormedTerritories(w, prev.value);
    }
    CycleEntriesOk(w, cfg, l.pointers, prev, in'.now, in'.up);
    var ts := Map(EntryOfOutcome, Outcomes(w, cfg, l.pointers, prev, in'.now, in'.up));
    assert Map(TerritoryCode, ts)[i] == ts[i].code;
  }

  // ---- Whole runs ----

  ghost predicate AllPinned(w: World, s: Option<Snapshot>) {
    s.Some? ==> forall i :: 0 <= i < |s.value.territories| && !s.value.territories[i].failed ==>
      PinnedNow(w, s.value.lotlPointers, s.value.territories[i])
  }

  /** No signer of a pointer is dropped. */
  ghost predicate PinsKept(ps: seq<ListPointer>, qs: seq<ListPointer>) {
    forall code :: PointerFor(ps, code).Ok? ==>
      && PointerFor(qs, code).Ok?
      && forall signer :: signer in PointerFor(ps, code).value.signers ==> signer in PointerFor(qs, code).value.signers
  }

  ghost predicate StepKeepsPins(sys: System, s: State, step: Step) {
    step.RefreshStep? && s.active.Some? && Next(sys, s, step).active.Some? ==>
      PinsKept(s.active.value.lotlPointers, Next(sys, s, step).active.value.lotlPointers)
  }

  lemma {:induction false} PinnedCarries(w: World, ps: seq<ListPointer>, qs: seq<ListPointer>, t: Territory)
    requires PinsKept(ps, qs) && PinnedNow(w, ps, t)
    ensures PinnedNow(w, qs, t)
  {
    hide SignedBy;
    var signer :| signer in PointerFor(ps, t.code).value.signers && SignedBy(w, t, signer);
    assert signer in PointerFor(qs, t.code).value.signers;
  }

  lemma {:induction false} CyclePinned(sys: System, s: State, input: CycleInput, saved: bool)
    requires StateOk(sys.w, s) && AllPinned(sys.w, s.active) && AllPinned(sys.w, s.stored)
    requires var r := CycleStep(sys, s, input, saved);
             s.active.Some? ==> r.active.Some? && PinsKept(s.active.value.lotlPointers, r.active.value.lotlPointers)
    ensures var r := CycleStep(sys, s, input, saved); AllPinned(sys.w, r.active) && AllPinned(sys.w, r.stored)
  {
    hide RunCycle, WellFormed, PinnedNow, NeedsSave, PinsKept, OutcomeOf, FindTerritory;
    if RunCycle(sys.w, sys.cfg, s.active, sys.boot, input).Ok? {
      var next := RunCycle(sys.w, sys.cfg, s.active, sys.boot, input).value;
      forall i | 0 <= i < |next.territories| && !next.territories[i].failed
        ensures PinnedNow(sys.w, next.lotlPointers, next.territories[i])
      {
        EntryPinnedIff(sys.w, sys.cfg, s.active, sys.boot, input, i);
        var t := next.territories[i];
        CycleEntry(sys.w, sys.cfg, s.active, sys.boot, input, i);
        OutcomeIs(sys.w, sys.cfg, next.lotlPointers, s.active, input.now, input.up, t.code);
        var held := if s.active.Some? then s.active.value.Lookup(t.code) else None;
        KeptDocument(sys.w, sys.cfg, next.lotlPointers, t.code, held, input.now, input.up);
        if !OutcomeOf(sys.w, sys.cfg, next.lotlPointers, s.active, input.now, input.up)(t.code).Fresh? {
          var j :| 0 <= j < |s.active.value.territories| && s.active.value.territories[j] == held.value;
          PinnedCarries(sys.w, s.active.value.lotlPointers, next.lotlPointers, held.value);
        }
      }
    }
  }

  lemma {:induction false} ReconcilePinned(sys: System, s: State, file: DeclaredFile, at: Instant, saved: bool)
    requires AllPinned(sys.w, s.active) && AllPinned(sys.w, s.stored)
    ensures var r := Reconcile(sys, s, file, at, saved);
            && AllPinned(sys.w, r.active) && AllPinned(sys.w, r.stored)
            && (s.active.Some? <==> r.active.Some?)
            && (s.active.Some? ==> r.active.value.lotlPointers == s.active.value.lotlPointers)
  {
    hide RefreshDeclared, PinnedNow, ContentId;
    if s.active.Some? && RefreshDeclared(sys.w, s.active.value, file, at).Some? {
      ReconciledFields(sys.w, s.active.value, file, at);
    }
  }

  lemma {:induction false} ApprovePinned(sys: System, s: State, fp: string, at: Instant, saved: bool)
    requires StateOk(sys.w, s) && AllPinned(sys.w, s.active) && AllPinned(sys.w, s.stored)
    ensures var r := Approve(s, fp, at, saved); AllPinned(sys.w, r.active) && AllPinned(sys.w, r.stored)
  {
    hide Approved, PinnedNow, ServedKeys, TerritoriesOk, ContentId;
    if saved && s.active.Some? && FindPending(s.active.value.pending, fp).Some? {
      var cur := s.active.value;
      var i := FindPending(cur.pending, fp).value;
      ApprovalMoves(sys.w, cur, i, at);
      var next := Approved(cur, i, at);
      forall j | 0 <= j < |next.territories| && !next.territories[j].failed
        ensures PinnedNow(sys.w, next.lotlPointers, next.territories[j])
      {
        PinnedAlike(sys.w, cur.lotlPointers, next.territories[j], cur.territories[j]);
      }
    }
  }

  lemma {:induction false} StepPinned(sys: System, s: State, step: Step)
    requires StateOk(sys.w, s) && AllPinned(sys.w, s.active) && AllPinned(sys.w, s.stored)
    requires StepKeepsPins(sys, s, step)
    ensures var r := Next(sys, s, step); AllPinned(sys.w, r.active) && AllPinned(sys.w, r.stored)
  {
    hide CycleStep, Reconcile, Approve, AllPinned, WellFormed, PinsKept;
    match step
    case RefreshStep(file, at, saved, input, cycleSaved) =>
      ReconcilePinned(sys, s, file, at, saved);
      ReconcileOk(sys, s, file, at, saved);
      var mid := Reconcile(sys, s, file, at, saved);
      CycleKeepsServing(sys, mid, input, cycleSaved);
      CyclePinned(sys, mid, input, cycleSaved);
    case ReconcileStep(file, at, saved) =>
      ReconcilePinned(sys, s, file, at, saved);
    case ApproveStep(fp, at, saved) =>
      ApprovePinned(sys, s, fp, at, saved);
    case RestartStep =>
  }

  lemma {:induction false} CycleKeepsServing(sys: System, s: State, input: CycleInput, saved: bool)
    ensures s.active.Some? ==> CycleStep(sys, s, input, saved).active.Some?
  {
    hide RunCycle, NeedsSave;
  }

  /** Along any run in which no LOTL drops a signer, every entry with data that is
      served or stored is signed by a certificate its pointer pins now. */
  lemma {:induction false} RunsPinned(sys: System, steps: seq<Step>)
    requires forall i :: 0 <= i < |steps| ==> StepKeepsPins(sys, After(sys, steps[..i]), steps[i])
    ensures AllPinned(sys.w, After(sys, steps).active) && AllPinned(sys.w, After(sys, steps).stored)
    decreases |steps|
  {
    hide Next, StateOk, AllPinned, StepKeepsPins;
    if steps == [] {
      NothingPinned(sys.w);
    } else {
      var n := |steps| - 1;
      assert forall i :: 0 <= i < n ==> steps[..n][..i] == steps[..i];
      RunsPinned(sys, steps[..n]);
      ReachableWellFormed(sys, steps[..n]);
      StepPinned(sys, After(sys, steps[..n]), steps[n]);
    }
  }

  lemma {:induction false} NothingPinned(w: World)
    ensures AllPinned(w, None)
  {
  }

  // ---- A dropped signer ----

  const OTHER: Bytes := [2]
  const MOVED_LOTL: Bytes := [7]
  const PIN_DOCS: map<Bytes, TrustedList> :=
    map[[0] := LotlDoc([PointsTo("DE", [SIGNER])]), MOVED_LOTL := LotlDoc([PointsTo("DE", [OTHER])]),
        FULL_LIST := ListDoc("DE", PROVIDERS)]

  /** The LOTL drops the signer of a list whose digest has not changed: the entry stays
      served, unmarked, with no signer the current pointer pins. */
  lemma {:induction false} SkipKeepsDroppedSigner()
    ensures var sys := Running(PIN_DOCS, Settings(["DE"], false));
            var s := After(sys, [Refreshing(Pages([0], FULL_LIST), true), Refreshing(Pages(MOVED_LOTL, FULL_LIST), true)]);
            && CollisionFree(sys.w)
            && s.active.Some? && |s.active.value.territories| == 1 && KEY in Served(s)
            && !s.active.value.territories[0].carriedOver
            && !PinnedNow(sys.w, s.active.value.lotlPointers, s.active.value.territories[0])
  {
    BookCollisionFree(PIN_DOCS);
    hide CollisionFree, RunCycle, Ready, Refreshing, Pages, EntryOfPage, Settings, PinnedNow, NeedsSave, ServedKeys;
    var cfg := Settings(["DE"], false);
    var sys := Running(PIN_DOCS, cfg);
    var one, two := Refreshing(Pages([0], FULL_LIST), true), Refreshing(Pages(MOVED_LOTL, FULL_LIST), true);
    RefreshDownloads(PIN_DOCS, false, None, [0], FULL_LIST, PROVIDERS);
    assert After(sys, []) == State(None, None);
    RunsOn(PIN_DOCS, cfg, [], Pages([0], FULL_LIST), true);
    assert [] + [one] == [one];
    var s1 := After(sys, [one]).active.value;
    RefreshSkips(PIN_DOCS, false, s1, MOVED_LOTL, FULL_LIST, [OTHER]);
    RunsOn(PIN_DOCS, cfg, [one], Pages(MOVED_LOTL, FULL_LIST), true);
    assert [one] + [two] == [one, two];
    var s2 := After(sys, [one, two]).active.value;
    DroppedNotPinned(s2);
    GrantServed(PIN_DOCS, false, s2);
  }

  lemma {:induction false} DroppedNotPinned(s: Snapshot)
    requires |s.territories| == 1 && s.territories[0].code == "DE" && s.lotlPointers == [Pin([OTHER])]
    ensures !PinnedNow(Book(PIN_DOCS), s.lotlPointers, s.territories[0])
  {
    OnePin([OTHER]);
    assert SIGNER[0] != OTHER[0];
    assert forall signer :: SignedBy(Book(PIN_DOCS), s.territories[0], signer) ==> signer == SIGNER;
  }
}
