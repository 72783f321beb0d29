/** What a restart changes later. Right after it the id, the served keys and the hold
    context are those from before (StoreRuns), but a stored list digest may be older
    than the served one. In auto mode that never shows in an id; in hold mode it can
    decide whether a waiting anchor survives. */
module Restarts {

  import opened Wrappers
  import opened Sequences
  import opened Trust
  import opened World
  import opened Identity
  import opened Differences
  import opened Extraction
  import opened Declared
  import opened Lotl
  import opened LotlSource
  import opened National
  import opened Hold
  import opened Cycle
  import opened Manager
  import opened Invariant
  import opened Reachable
  import opened HoldRuns
  import opened StoreRuns
  import opened HoldSafety
  import opened SkipRefinement
  import opened Progress

  // ---- Snapshots a restart cannot tell apart at once ----

  /** The same id, LOTL state and hold windows. */
  ghost predicate Alike(w: World, a: Snapshot, b: Snapshot) {
    && WellFormed(w, a) && WellFormed(w, b)
    && a.id == b.id
    && Carried(a) == Carried(b)
    && PendingSince(a.pending) == PendingSince(b.pending)
  }

  /** Served and stored snapshot are alike when the last save attempted succeeded. */
  lemma {:induction false} StoredIsAlike(sys: System, steps: seq<Step>)
    requires CollisionFree(sys.w) && Settled(sys, steps)
    ensures var s := After(sys, steps);
            && (s.active.Some? <==> s.stored.Some?)
            && (s.active.Some? ==> Alike(sys.w, s.active.value, s.stored.value))
  {
    hide After, WellFormed, HealthCovered, PendingSince, Settled, CollisionFree, Carried;
    var s := After(sys, steps);
    ReachableWellFormed(sys, steps);
    StoreSimulation(sys, steps);
    StoreCarriesLotl(sys, steps);
    if s.active.Some? {
      SameWindowsSameSince(s.stored.value.pending, s.active.value.pending);
    }
  }

  predicate DataAt(s: Snapshot, code: string) {
    s.Lookup(code).Some? && !s.Lookup(code).value.failed
  }

  /** Equal ids: an entry with data has its counterpart, with the same trust content. */
  lemma {:induction false} DataAlike(w: World, a: Snapshot, b: Snapshot, code: string)
    requires WellFormed(w, a) && WellFormed(w, b) && a.id == b.id
    requires DataAt(a, code)
    ensures DataAt(b, code)
    ensures TrustOfTerritory(a.Lookup(code).value) == TrustOfTerritory(b.Lookup(code).value)
  {
    hide ContentId, TerritoriesOk, PendingOk, DeclaredOk, FindTerritory, TrustContentOf;
    IdDeterminesTrust(a, b);
    var u := TerritoryTransfers(a, b, a.Lookup(code).value);
    var j :| 0 <= j < |b.territories| && b.territories[j] == u;
    LookupSelf(w, b, j);
  }

  /** The LOTL of a cycle depends on the carried LOTL state alone. */
  lemma {:induction false} LotlAlike(w: World, cfg: Config, a: Snapshot, b: Snapshot, boot: Bootstrap, now: Instant, up: Upstream)
    requires Carried(a) == Carried(b)
    ensures IngestLotl(w, cfg, Some(a), boot, now, up) == IngestLotl(w, cfg, Some(b), boot, now, up)
  {
    hide VerifyLotl, FromList;
  }

  // ---- One territory: skipped or read ----

  /** The digest check skips the territory. */
  predicate Skips(w: World, cfg: Config, ps: seq<ListPointer>, code: string, prev: Option<Territory>, now: Instant, up: Upstream) {
    PointerFor(ps, code).Ok? && FetchNational(w, cfg, PointerFor(ps, code).value, code, prev, now, up).Unchanged?
  }

  /** What reading the list gives. */
  function Reading(w: World, cfg: Config, ps: seq<ListPointer>, code: string, prev: Option<Territory>, now: Instant, up: Upstream)
    : Result<Outcome, Failure>
  {
    FetchTerritory(w, cfg, ps, code, prev, now, Silent(up))
  }

  function Floor(prev: Option<Territory>): UInt64 {
    if prev.Some? then prev.value.tlSequence else 0
  }

  /** Reading depends on the held entry by its sequence number alone. */
  lemma {:induction false} ReadingAlike(w: World, cfg: Config, ps: seq<ListPointer>, code: string, x: Option<Territory>, y: Option<Territory>, now: Instant, up: Upstream)
    requires Floor(x) == Floor(y)
    ensures Reading(w, cfg, ps, code, x, now, up) == Reading(w, cfg, ps, code, y, now, up)
  {
    hide EntryFrom;
  }

  /** Each territory is skipped, or read. */
  lemma {:induction false} SkippedOrRead(w: World, cfg: Config, ps: seq<ListPointer>, code: string, prev: Option<Territory>, now: Instant, up: Upstream)
    ensures var o, r := IngestTerritory(w, cfg, ps, code, prev, now, up), Reading(w, cfg, ps, code, prev, now, up);
            && (r.Ok? ==> r.value.Fresh?)
            && if Skips(w, cfg, ps, code, prev, now, up)
               then prev.Some? && prev.value.sourceDigest != "" && o == Reused(prev.value.(carriedOver := false))
               else if r.Ok? then o == r.value
               else if prev.None? || prev.value.failed then o == FailedEntry(EmptyEntry(code, r.error), r.error)
               else o == CarriedOver(prev.value.(carriedOver := true, carriedOverReason := Some(r.error)), r.error)
  {
    hide EntryFrom, VerifyNational, PointerFor;
  }

  /** Alike snapshots read a territory alike. */
  lemma {:induction false} FloorsAlike(w: World, a: Snapshot, b: Snapshot, code: string)
    requires WellFormed(w, a) && WellFormed(w, b) && a.id == b.id
    ensures DataAt(a, code) <==> DataAt(b, code)
    ensures Floor(a.Lookup(code)) == Floor(b.Lookup(code))
  {
    hide WellFormed, FindTerritory, TerritoryOk;
    if DataAt(a, code) {
      DataAlike(w, a, b, code);
    }
    if DataAt(b, code) {
      DataAlike(w, b, a, code);
    }
    NoDataFloor(w, a, code);
    NoDataFloor(w, b, code);
  }

  /** An entry without data has neither digest nor sequence number. */
  lemma {:induction false} NoDataFloor(w: World, s: Snapshot, code: string)
    requires WellFormed(w, s)
    ensures !DataAt(s, code) ==> Floor(s.Lookup(code)) == 0 && (s.Lookup(code).Some? ==> s.Lookup(code).value.sourceDigest == "")
  {
    hide ContentId, PendingOk, DeclaredOk, FindTerritory;
    if s.Lookup(code).Some? {
      LookupOk(w, s, code);
    }
  }

  // ---- One cycle: the verdict ----

  ghost function EntryAt(s: Snapshot, code: string): Option<Territory> {
    s.Lookup(code)
  }

  lemma {:induction false} OutcomeAt(w: World, cfg: Config, ps: seq<ListPointer>, s: Snapshot, now: Instant, up: Upstream, code: string)
    ensures OutcomeOf(w, cfg, ps, Some(s), now, up)(code) == IngestTerritory(w, cfg, ps, code, EntryAt(s, code), now, up)
  {
  }

  /** Alike snapshots fail the same territories. */
  lemma {:induction false} FailuresAlike(w: World, cfg: Config, ps: seq<ListPointer>, a: Snapshot, b: Snapshot, now: Instant, up: Upstream, code: string)
    requires WellFormed(w, a) && WellFormed(w, b) && a.id == b.id
    ensures OutcomeOf(w, cfg, ps, Some(a), now, up)(code).FailedEntry? <==> OutcomeOf(w, cfg, ps, Some(b), now, up)(code).FailedEntry?
  {
    hide WellFormed, OutcomeOf, FindTerritory, IngestTerritory, Skips, Reading;
    OutcomeAt(w, cfg, ps, a, now, up, code);
    OutcomeAt(w, cfg, ps, b, now, up, code);
    FloorsAlike(w, a, b, code);
    NoDataFloor(w, a, code);
    NoDataFloor(w, b, code);
    ReadingAlike(w, cfg, ps, code, a.Lookup(code), b.Lookup(code), now, up);
    SkippedOrRead(w, cfg, ps, code, a.Lookup(code), now, up);
    SkippedOrRead(w, cfg, ps, code, b.Lookup(code), now, up);
  }

  /** Alike snapshots have alike cycles: both fail, or both succeed with one LOTL. */
  lemma {:induction false} VerdictAlike(w: World, cfg: Config, a: Snapshot, b: Snapshot, boot: Bootstrap, in': CycleInput)
    requires Alike(w, a, b)
    ensures RunCycle(w, cfg, Some(a), boot, in').Ok? <==> RunCycle(w, cfg, Some(b), boot, in').Ok?
  {
    hide WellFormed, OutcomeOf, IngestLotl, Assemble, Expand, PendingSince;
    LotlAlike(w, cfg, a, b, boot, in'.now, in'.up);
    var r := IngestLotl(w, cfg, Some(a), boot, in'.now, in'.up);
    if r.Ok? {
      var ps := r.value.pointers;
      var codes := Expand(cfg.territories, ps);
      var x, y := Outcomes(w, cfg, ps, Some(a), in'.now, in'.up), Outcomes(w, cfg, ps, Some(b), in'.now, in'.up);
      forall i | 0 <= i < |codes| ensures x[i].FailedEntry? <==> y[i].FailedEntry? {
        FailuresAlike(w, cfg, ps, a, b, in'.now, in'.up, codes[i]);
      }
      assert AllFailed(x) <==> AllFailed(y);
      assert |x| == |y|;
    }
  }

  // ---- The declared half ----

  lemma {:induction false} DeclaredAlike(w: World, a: Snapshot, b: Snapshot, file: DeclaredFile, at: Instant)
    requires a.id == ContentId(a) && b.id == ContentId(b) && a.id == b.id
    ensures multiset(Map(ProjectAnchor, DeclaredSet(w, Some(a), file, at))) == multiset(Map(ProjectAnchor, DeclaredSet(w, Some(b), file, at)))
  {
    hide ContentId, LoadDeclared;
    IdDeterminesTrust(a, b);
  }

  lemma {:induction false} RedeclaredIds(w: World, a: Snapshot, b: Snapshot, file: DeclaredFile, at: Instant)
    requires Alike(w, a, b)
    ensures ContentId(a.(declared := DeclaredSet(w, Some(a), file, at))) == ContentId(b.(declared := DeclaredSet(w, Some(b), file, at)))
  {
    hide ContentId, DeclaredSet, TerritoriesOk, PendingOk, PendingSince;
    DeclaredAlike(w, a, b, file, at);
    IdDeterminesTrust(a, b);
    var x, y := a.(declared := DeclaredSet(w, Some(a), file, at)), b.(declared := DeclaredSet(w, Some(b), file, at));
    DeclaredSetOk(w, Some(a), file, at);
    DeclaredSetOk(w, Some(b), file, at);
    WellFormedServes(w, a);
    WellFormedServes(w, b);
    assert TrustContentOf(x) == TrustContentOf(y);
    TrustDeterminesId(x, y);
  }

  /** Alike snapshots take a declaration alike. */
  lemma {:induction false} ReconcileAlike(sys: System, s: State, t: State, file: DeclaredFile, at: Instant, saved: bool)
    requires s.active.Some? && t.active.Some? && Alike(sys.w, s.active.value, t.active.value)
    ensures var x, y := Reconcile(sys, s, file, at, saved), Reconcile(sys, t, file, at, saved);
            && x.active.Some? && y.active.Some? && Alike(sys.w, x.active.value, y.active.value)
            && x.active.value.territories == s.active.value.territories && y.active.value.territories == t.active.value.territories
            && x.active.value.pending == s.active.value.pending && y.active.value.pending == t.active.value.pending
            && Carried(x.active.value) == Carried(s.active.value)
  {
    hide RefreshDeclared, DeclaredSet, ContentId, WellFormed, PendingSince;
    var a, b := s.active.value, t.active.value;
    RedeclaredIds(sys.w, a, b, file, at);
    DeclaredVerdict(sys.w, a, file, at);
    DeclaredVerdict(sys.w, b, file, at);
    if RefreshDeclared(sys.w, a, file, at).Some? {
      ReconciledFields(sys.w, a, file, at);
      ReconciledFields(sys.w, b, file, at);
      ReconciledWellFormed(sys.w, a, file, at);
      ReconciledWellFormed(sys.w, b, file, at);
    }
  }

  lemma {:induction false} DeclaredVerdict(w: World, a: Snapshot, file: DeclaredFile, at: Instant)
    ensures var id := ContentId(a.(declared := DeclaredSet(w, Some(a), file, at)));
            && (RefreshDeclared(w, a, file, at).Some? <==> id != a.id)
            && (RefreshDeclared(w, a, file, at).Some? ==> RefreshDeclared(w, a, file, at).value.id == id)
  {
    hide DeclaredSet, ContentId;
  }

  // ---- Hold mode: a waiting anchor ----

  /** What becomes of a key in two snapshots: waiting since the same time in both, or
      served by both, or gone from both. */
  ghost predicate FaresAlike(x: Snapshot, y: Snapshot, key: AnchorKey) {
    && (key in PendingSince(x.pending) <==> key in PendingSince(y.pending))
    && (key in PendingSince(x.pending) && key in PendingSince(y.pending) ==> PendingSince(x.pending)[key] == PendingSince(y.pending)[key])
    && (key in ServedKeys(x.territories) <==> key in ServedKeys(y.territories))
  }

  /** The territory is configured, and reading its list would still give the key. */
  ghost predicate StillListed(w: World, cfg: Config, ps: seq<ListPointer>, prev: Option<Territory>, now: Instant, up: Upstream, key: AnchorKey) {
    && Configured(cfg.territories, ps, key.0)
    && var r := Reading(w, cfg, ps, key.0, prev, now, up);
       r.Ok? && FindAnchor(r.value.entry.anchors, key.1).Some?
  }

  /** A waiting key survives a cycle exactly when its list is not skipped and still has
      it. */
  lemma {:induction false} WaitingSurvivesIff(w: World, cfg: Config, s: Snapshot, boot: Bootstrap, in': CycleInput, key: AnchorKey)
    requires WellFormed(w, s) && cfg.hold
    requires RunCycle(w, cfg, Some(s), boot, in').Ok?
    requires key in PendingSince(s.pending)
    ensures IngestLotl(w, cfg, Some(s), boot, in'.now, in'.up).Ok?
    ensures var next := RunCycle(w, cfg, Some(s), boot, in').value;
            var ps := IngestLotl(w, cfg, Some(s), boot, in'.now, in'.up).value.pointers;
            (key in PendingSince(next.pending) || key in ServedKeys(next.territories))
            <==> !Skips(w, cfg, ps, key.0, s.Lookup(key.0), in'.now, in'.up) && StillListed(w, cfg, ps, s.Lookup(key.0), in'.now, in'.up, key)
  {
    hide RunCycle, IngestLotl, ServedKeys, PendingSince, WellFormed, OutcomeOf, Configured, Skips, Reading, FindTerritory, IngestTerritory;
    HeldSurvivesIff(w, cfg, s, boot, in', key);
    var ps := IngestLotl(w, cfg, Some(s), boot, in'.now, in'.up).value.pointers;
    OutcomeAt(w, cfg, ps, s, in'.now, in'.up, key.0);
    SkippedOrRead(w, cfg, ps, key.0, s.Lookup(key.0), in'.now, in'.up);
  }

  /** Where a surviving key is depends on its window alone. */
  lemma {:induction false} SurvivorPlace(w: World, cfg: Config, s: Snapshot, boot: Bootstrap, in': CycleInput, key: AnchorKey)
    requires WellFormed(w, s) && cfg.hold
    requires RunCycle(w, cfg, Some(s), boot, in').Ok?
    requires key in PendingSince(s.pending)
    ensures var next := RunCycle(w, cfg, Some(s), boot, in').value;
            var since := PendingSince(s.pending)[key];
            var released := cfg.holdAutoRelease > 0 && in'.now - since >= cfg.holdAutoRelease;
            && (key in PendingSince(next.pending) ==> !released && PendingSince(next.pending)[key] == since)
            && (key in ServedKeys(next.territories) ==> released)
  {
    hide RunCycle, IngestLotl, ServedKeys, PendingSince, WellFormed, Incoming;
    RunHoldDecides(w, cfg, Some(s), boot, in');
    PendingNotServed(w, s, key);
  }

  lemma {:induction false} CycleFaresIff(w: World, cfg: Config, a: Snapshot, b: Snapshot, boot: Bootstrap, in': CycleInput, key: AnchorKey)
    requires cfg.hold && Alike(w, a, b)
    requires key in PendingSince(a.pending)
    requires RunCycle(w, cfg, Some(a), boot, in').Ok?
    ensures IngestLotl(w, cfg, Some(a), boot, in'.now, in'.up).Ok?
    ensures RunCycle(w, cfg, Some(b), boot, in').Ok?
    ensures var ps := IngestLotl(w, cfg, Some(a), boot, in'.now, in'.up).value.pointers;
            FaresAlike(RunCycle(w, cfg, Some(a), boot, in').value, RunCycle(w, cfg, Some(b), boot, in').value, key)
            <==> || (Skips(w, cfg, ps, key.0, a.Lookup(key.0), in'.now, in'.up) <==> Skips(w, cfg, ps, key.0, b.Lookup(key.0), in'.now, in'.up))
                 || !StillListed(w, cfg, ps, a.Lookup(key.0), in'.now, in'.up, key)
  {
    hide RunCycle, IngestLotl, ServedKeys, PendingSince, WellFormed, Skips, Reading, Configured, FindTerritory, Carried;
    VerdictAlike(w, cfg, a, b, boot, in');
    LotlAlike(w, cfg, a, b, boot, in'.now, in'.up);
    WaitingSurvivesIff(w, cfg, a, boot, in', key);
    WaitingSurvivesIff(w, cfg, b, boot, in', key);
    SurvivorPlace(w, cfg, a, boot, in', key);
    SurvivorPlace(w, cfg, b, boot, in', key);
    FloorsAlike(w, a, b, key.0);
    var ps := IngestLotl(w, cfg, Some(a), boot, in'.now, in'.up).value.pointers;
    ReadingAlike(w, cfg, ps, key.0, a.Lookup(key.0), b.Lookup(key.0), in'.now, in'.up);
  }

  /** The LOTL a refresh from the state works with. */
  function LotlOf(sys: System, s: State, input: CycleInput): Result<LotlResult, Failure> {
    IngestLotl(sys.w, sys.cfg, s.active, sys.boot, input.now, input.up)
  }

  /** The digest check skips the key's territory, held as in the snapshot. */
  predicate SkipsFor(sys: System, ps: seq<ListPointer>, held: Snapshot, input: CycleInput, key: AnchorKey) {
    Skips(sys.w, sys.cfg, ps, key.0, held.Lookup(key.0), input.now, input.up)
  }

  ghost predicate ListedFor(sys: System, ps: seq<ListPointer>, held: Snapshot, input: CycleInput, key: AnchorKey) {
    StillListed(sys.w, sys.cfg, ps, held.Lookup(key.0), input.now, input.up, key)
  }

  /** The cycle of a refresh succeeds. */
  predicate RefreshSucceeds(sys: System, s: State, step: Step)
    requires step.RefreshStep?
  {
    RunCycle(sys.w, sys.cfg, Reconcile(sys, s, step.file, step.at, step.saved).active, sys.boot, step.input).Ok?
  }

  /** After any run whose last attempted save succeeded, a waiting anchor fares in the
      next refresh as it would have without a restart, if and only if the digest check
      skips its territory with the stored entry just when it does with the served one,
      or its list would no longer give it. */
  lemma {:induction false} RestartFaresIff(sys: System, steps: seq<Step>, step: Step, key: AnchorKey)
    requires sys.cfg.hold && CollisionFree(sys.w) && Settled(sys, steps)
    requires step.RefreshStep? && key in Waiting(After(sys, steps)) && RefreshSucceeds(sys, After(sys, steps), step)
    ensures var s := After(sys, steps);
            && s.active.Some? && s.stored.Some? && LotlOf(sys, s, step.input).Ok?
            && var on, again, ps := Next(sys, s, step).active, Next(sys, Next(sys, s, RestartStep), step).active, LotlOf(sys, s, step.input).value.pointers;
            && on.Some? && again.Some?
            && (FaresAlike(on.value, again.value, key)
                <==> || (SkipsFor(sys, ps, s.active.value, step.input, key) <==> SkipsFor(sys, ps, s.stored.value, step.input, key))
                     || !ListedFor(sys, ps, s.active.value, step.input, key))
  {
    hide After, RunCycle, IngestLotl, Settled, CollisionFree, Reconcile, Skips, StillListed, FaresAlike, WellFormed, PendingSince, NeedsSave, Carried;
    var s := After(sys, steps);
    StoredIsAlike(sys, steps);
    var r := Next(sys, s, RestartStep);
    ReconcileAlike(sys, s, r, step.file, step.at, step.saved);
    var x, y := Reconcile(sys, s, step.file, step.at, step.saved).active.value, Reconcile(sys, r, step.file, step.at, step.saved).active.value;
    CycleFaresIff(sys.w, sys.cfg, x, y, sys.boot, step.input, key);
    LotlAlike(sys.w, sys.cfg, s.active.value, x, sys.boot, step.input.now, step.input.up);
  }

  /** The entries carry the same digest and the same next update. */
  predicate SameMarks(x: Option<Territory>, y: Option<Territory>) {
    (x.Some? <==> y.Some?) && (x.Some? ==> x.value.sourceDigest == y.value.sourceDigest && x.value.nextUpdate == y.value.nextUpdate)
  }

  lemma {:induction false} MarksDecideSkips(w: World, cfg: Config, ps: seq<ListPointer>, code: string, x: Option<Territory>, y: Option<Territory>, now: Instant, up: Upstream)
    requires SameMarks(x, y)
    ensures Skips(w, cfg, ps, code, x, now, up) <==> Skips(w, cfg, ps, code, y, now, up)
  {
    hide PointerFor;
  }

  /** What an operator can check before a restart: with equal digests and next updates
      in the stored and the served entry, every waiting anchor of the territory fares
      alike. */
  lemma {:induction false} SameMarksFareAlike(sys: System, steps: seq<Step>, step: Step, key: AnchorKey)
    requires sys.cfg.hold && CollisionFree(sys.w) && Settled(sys, steps)
    requires step.RefreshStep? && key in Waiting(After(sys, steps)) && RefreshSucceeds(sys, After(sys, steps), step)
    requires var s := After(sys, steps);
             s.active.Some? && s.stored.Some? ==> SameMarks(s.active.value.Lookup(key.0), s.stored.value.Lookup(key.0))
    ensures var s := After(sys, steps);
            var on, again := Next(sys, s, step).active, Next(sys, Next(sys, s, RestartStep), step).active;
            on.Some? && again.Some? && FaresAlike(on.value, again.value, key)
  {
    hide After, Next, Settled, CollisionFree, StillListed, Skips, FaresAlike, SameMarks, FindTerritory, IngestLotl, RefreshSucceeds;
    var s := After(sys, steps);
    RestartFaresIff(sys, steps, step, key);
    var ps := LotlOf(sys, s, step.input).value.pointers;
    MarksDecideSkips(sys.w, sys.cfg, ps, key.0, s.active.value.Lookup(key.0), s.stored.value.Lookup(key.0), step.input.now, step.input.up);
  }

  // ---- Auto mode: one territory ----

  /** Both entries have data and the same trust content, or neither has data. */
  ghost predicate SameTrust(x: Territory, y: Territory) {
    && x.failed == y.failed
    && (!x.failed ==> TrustOfTerritory(x) == TrustOfTerritory(y))
  }

  /** One side skips, the other reads the same bytes. */
  lemma {:induction false} SkippedReadAlike(sys: System, ps: seq<ListPointer>, code: string, x: Territory, y: Option<Territory>, now: Instant, up: Upstream)
    requires CollisionFree(sys.w) && Truthful(sys.w, up)
    requires TerritoryHeld(sys, x) && TerritoryOk(sys.w, x) && x.code == code
    requires Floor(Some(x)) == Floor(y)
    requires Skips(sys.w, sys.cfg, ps, code, Some(x), now, up)
    requires Reading(sys.w, sys.cfg, ps, code, y, now, up).Ok?
    ensures var t := Reading(sys.w, sys.cfg, ps, code, y, now, up).value.entry;
            !t.failed && TrustOfTerritory(t) == TrustOfTerritory(x)
  {
    hide VerifyNational, EntryFrom, FetchNational, TerritoryHeld, TerritoryOk, Truthful, CollisionFree;
    ReadingAlike(sys.w, sys.cfg, ps, code, Some(x), y, now, up);
    var lp := PointerFor(ps, code).value;
    NationalSilent(sys, lp, code, Some(x), now, up);
    var quiet := IngestTerritory(sys.w, sys.cfg, ps, code, Some(x), now, Silent(up));
    FreshProjects(sys, ps, code, Some(x), now, Silent(up));
    assert quiet.raw == FetchNational(sys.w, sys.cfg, lp, code, Some(x), now, Silent(up)).bytes;
    ReusedIsDownloaded(sys, x, quiet.entry, quiet.raw);
  }

  lemma {:induction false} HeldEntries(sys: System, s: Snapshot, code: string)
    requires WellFormed(sys.w, s) && AutoHeld(sys, s) && s.Lookup(code).Some?
    ensures var t := s.Lookup(code).value; TerritoryHeld(sys, t) && TerritoryOk(sys.w, t) && t.code == code
  {
    hide ContentId, PendingOk, DeclaredOk, FindTerritory, TerritoryHeld, TerritoryOk;
    LookupOk(sys.w, s, code);
    var j :| 0 <= j < |s.territories| && s.territories[j] == s.Lookup(code).value;
  }

  /** Alike in auto mode. */
  ghost predicate AutoAlike(sys: System, a: Snapshot, b: Snapshot) {
    Alike(sys.w, a, b) && AutoHeld(sys, a) && AutoHeld(sys, b)
  }

  lemma {:induction false} OutcomesAlike(sys: System, ps: seq<ListPointer>, a: Snapshot, b: Snapshot, now: Instant, up: Upstream, code: string)
    requires CollisionFree(sys.w) && Truthful(sys.w, up) && AutoAlike(sys, a, b)
    ensures SameTrust(OutcomeOf(sys.w, sys.cfg, ps, Some(a), now, up)(code).entry, OutcomeOf(sys.w, sys.cfg, ps, Some(b), now, up)(code).entry)
  {
    hide WellFormed, AutoHeld, OutcomeOf, FindTerritory, IngestTerritory, Skips, Reading, TerritoryHeld, TerritoryOk, Truthful, CollisionFree, Carried,
         PendingSince, TrustOfTerritory;
    var x, y := a.Lookup(code), b.Lookup(code);
    OutcomeAt(sys.w, sys.cfg, ps, a, now, up, code);
    OutcomeAt(sys.w, sys.cfg, ps, b, now, up, code);
    SkippedOrRead(sys.w, sys.cfg, ps, code, x, now, up);
    SkippedOrRead(sys.w, sys.cfg, ps, code, y, now, up);
    FloorsAlike(sys.w, a, b, code);
    NoDataFloor(sys.w, a, code);
    NoDataFloor(sys.w, b, code);
    ReadingAlike(sys.w, sys.cfg, ps, code, x, y, now, up);
    if DataAt(a, code) {
      DataAlike(sys.w, a, b, code);
      HeldEntries(sys, a, code);
      HeldEntries(sys, b, code);
      MarksOutsideTrust(x.value);
      MarksOutsideTrust(y.value);
      if Reading(sys.w, sys.cfg, ps, code, x, now, up).Ok? {
        ReadHasData(sys.w, sys.cfg, ps, code, x, now, up);
        if Skips(sys.w, sys.cfg, ps, code, x, now, up) {
          SkippedReadAlike(sys, ps, code, x.value, y, now, up);
        }
        if Skips(sys.w, sys.cfg, ps, code, y, now, up) {
          SkippedReadAlike(sys, ps, code, y.value, x, now, up);
        }
      }
    }
  }

  lemma {:induction false} ReadHasData(w: World, cfg: Config, ps: seq<ListPointer>, code: string, prev: Option<Territory>, now: Instant, up: Upstream)
    requires Reading(w, cfg, ps, code, prev, now, up).Ok?
    ensures !Reading(w, cfg, ps, code, prev, now, up).value.entry.failed
  {
    hide VerifyNational, PointerFor;
  }

  /** Carry-over marks are no trust content. */
  lemma {:induction false} MarksOutsideTrust(t: Territory)
    ensures forall c, r :: TrustOfTerritory(t.(carriedOver := c, carriedOverReason := r)) == TrustOfTerritory(t)
    ensures forall c :: TrustOfTerritory(t.(carriedOver := c)) == TrustOfTerritory(t)
  {
  }

  // ---- Auto mode: one cycle ----

  lemma {:induction false} SameTrustLists(xs: seq<Territory>, ys: seq<Territory>)
    requires |xs| == |ys| && forall i :: 0 <= i < |xs| ==> SameTrust(xs[i], ys[i])
    ensures Map(TrustOfTerritory, Select(HasData, xs)) == Map(TrustOfTerritory, Select(HasData, ys))
    decreases |xs|
  {
    hide TrustOfTerritory;
    if xs != [] {
      var n := |xs| - 1;
      SameTrustLists(xs[..n], ys[..n]);
      assert SameTrust(xs[n], ys[n]);
      if HasData(xs[n]) {
        MapAppend(TrustOfTerritory, Select(HasData, xs[..n]), [xs[n]]);
        MapAppend(TrustOfTerritory, Select(HasData, ys[..n]), [ys[n]]);
        assert Map(TrustOfTerritory, [xs[n]]) == Map(TrustOfTerritory, [ys[n]]);
      }
    }
  }

  lemma {:induction false} AssembledAlike(sys: System, a: Snapshot, b: Snapshot, in': CycleInput, l: LotlResult)
    requires !sys.cfg.hold && CollisionFree(sys.w) && Truthful(sys.w, in'.up) && AutoAlike(sys, a, b)
    ensures TrustContentOf(Assemble(sys.w, sys.cfg, Some(a), sys.boot, in', l)) == TrustContentOf(Assemble(sys.w, sys.cfg, Some(b), sys.boot, in', l))
  {
    hide Assemble, OutcomeOf, Expand, ApplyHold, DeclaredSet, ContentId, AutoAlike, SameTrust, Truthful, CollisionFree, TrustOfTerritory;
    var x, y := Assemble(sys.w, sys.cfg, Some(a), sys.boot, in', l), Assemble(sys.w, sys.cfg, Some(b), sys.boot, in', l);
    AssembleFields(sys.w, sys.cfg, Some(a), sys.boot, in', l);
    AssembleFields(sys.w, sys.cfg, Some(b), sys.boot, in', l);
    ApplyHoldShape(sys.cfg, Some(a), DraftOf(sys.w, sys.cfg, Some(a), sys.boot, in', l), in'.now);
    ApplyHoldShape(sys.cfg, Some(b), DraftOf(sys.w, sys.cfg, Some(b), sys.boot, in', l), in'.now);
    AutoIds(sys, a, b);
    DeclaredAlike(sys.w, a, b, in'.file, in'.now);
    var codes := Expand(sys.cfg.territories, l.pointers);
    forall i | 0 <= i < |codes| ensures SameTrust(x.territories[i], y.territories[i]) {
      OutcomesAlike(sys, l.pointers, a, b, in'.now, in'.up, codes[i]);
    }
    SameTrustLists(x.territories, y.territories);
  }

  lemma {:induction false} AutoIds(sys: System, a: Snapshot, b: Snapshot)
    requires AutoAlike(sys, a, b)
    ensures a.id == ContentId(a) && b.id == ContentId(b) && a.id == b.id
  {
  }

  lemma {:induction false} CycleAlike(sys: System, a: Snapshot, b: Snapshot, in': CycleInput)
    requires !sys.cfg.hold && CollisionFree(sys.w) && Truthful(sys.w, in'.up) && AutoAlike(sys, a, b)
    requires RunCycle(sys.w, sys.cfg, Some(a), sys.boot, in').Ok?
    ensures RunCycle(sys.w, sys.cfg, Some(b), sys.boot, in').Ok?
    ensures AutoAlike(sys, RunCycle(sys.w, sys.cfg, Some(a), sys.boot, in').value, RunCycle(sys.w, sys.cfg, Some(b), sys.boot, in').value)
  {
    hide RunCycle, Assemble, IngestLotl, TerritoriesOk, PendingOk, DeclaredOk, ContentId, TerritoryHeld, Truthful, CollisionFree, TrustContentOf,
         Identifiable;
    VerdictAlike(sys.w, sys.cfg, a, b, sys.boot, in');
    CycleParts(sys.w, sys.cfg, Some(a), sys.boot, in');
    CycleParts(sys.w, sys.cfg, Some(b), sys.boot, in');
    LotlAlike(sys.w, sys.cfg, a, b, sys.boot, in'.now, in'.up);
    var l := IngestLotl(sys.w, sys.cfg, Some(a), sys.boot, in'.now, in'.up).value;
    CycleWellFormed(sys.w, sys.cfg, Some(a), sys.boot, in');
    CycleWellFormed(sys.w, sys.cfg, Some(b), sys.boot, in');
    CycleHeld(sys, Some(a), in');
    CycleHeld(sys, Some(b), in');
    AssembledCarries(sys, Some(a), in', l);
    AssembledCarries(sys, Some(b), in', l);
    AssembledAlike(sys, a, b, in', l);
    var x, y := RunCycle(sys.w, sys.cfg, Some(a), sys.boot, in').value, RunCycle(sys.w, sys.cfg, Some(b), sys.boot, in').value;
    WellFormedServes(sys.w, x);
    WellFormedServes(sys.w, y);
    TrustDeterminesId(x, y);
  }

  // ---- Auto mode: whole runs ----

  ghost predicate StatesAlike(sys: System, s: State, t: State) {
    && (s.active.Some? <==> t.active.Some?)
    && (s.active.Some? ==> AutoAlike(sys, s.active.value, t.active.value))
  }

  lemma {:induction false} AlikeTrans(sys: System, a: Snapshot, b: Snapshot, c: Snapshot)
    requires AutoAlike(sys, a, b) && AutoAlike(sys, b, c)
    ensures AutoAlike(sys, a, c)
  {
    hide WellFormed, AutoHeld, Carried, PendingSince;
  }

  lemma {:induction false} AlikeSym(sys: System, a: Snapshot, b: Snapshot)
    requires AutoAlike(sys, a, b)
    ensures AutoAlike(sys, b, a)
  {
    hide WellFormed, AutoHeld, Carried, PendingSince;
  }

  ghost predicate StepTruthful(w: World, step: Step) {
    step.RefreshStep? ==> Truthful(w, step.input.up)
  }

  lemma {:induction false} FirstCycleAlike(sys: System, in': CycleInput)
    requires !sys.cfg.hold && RunCycle(sys.w, sys.cfg, None, sys.boot, in').Ok?
    ensures var x := RunCycle(sys.w, sys.cfg, None, sys.boot, in').value; AutoAlike(sys, x, x)
  {
    hide RunCycle, WellFormed, AutoHeld;
    CycleWellFormed(sys.w, sys.cfg, None, sys.boot, in');
    CycleHeld(sys, None, in');
  }

  lemma {:induction false} ReconcileStatesAlike(sys: System, s: State, t: State, file: DeclaredFile, at: Instant, saved: bool)
    requires StatesAlike(sys, s, t)
    ensures StatesAlike(sys, Reconcile(sys, s, file, at, saved), Reconcile(sys, t, file, at, saved))
  {
    hide RefreshDeclared, WellFormed, TerritoryHeld, PendingSince, Carried;
    if s.active.Some? {
      ReconcileAlike(sys, s, t, file, at, saved);
    }
  }

  lemma {:induction false} CycleStatesAlike(sys: System, s: State, t: State, input: CycleInput, saved: bool)
    requires !sys.cfg.hold && CollisionFree(sys.w) && Truthful(sys.w, input.up) && StatesAlike(sys, s, t)
    ensures StatesAlike(sys, CycleStep(sys, s, input, saved), CycleStep(sys, t, input, saved))
  {
    hide RunCycle, AutoAlike, NeedsSave, Truthful, CollisionFree;
    if s.active.None? {
      if RunCycle(sys.w, sys.cfg, None, sys.boot, input).Ok? {
        FirstCycleAlike(sys, input);
      }
    } else {
      var a, b := s.active.value, t.active.value;
      AlikeSym(sys, a, b);
      if RunCycle(sys.w, sys.cfg, Some(a), sys.boot, input).Ok? {
        CycleAlike(sys, a, b, input);
      }
      if RunCycle(sys.w, sys.cfg, Some(b), sys.boot, input).Ok? {
        CycleAlike(sys, b, a, input);
      }
    }
  }

  lemma {:induction false} ApproveIdle(sys: System, s: State, t: State, fp: string, at: Instant, saved: bool)
    requires StatesAlike(sys, s, t)
    ensures Approve(s, fp, at, saved) == s && Approve(t, fp, at, saved) == t
  {
    hide WellFormed, TerritoryHeld, Approved, Carried, PendingSince;
  }

  /** Any step but a restart keeps alike states alike. */
  lemma {:induction false} StepAlike(sys: System, s: State, t: State, step: Step)
    requires !sys.cfg.hold && CollisionFree(sys.w) && StepTruthful(sys.w, step) && !step.RestartStep?
    requires StatesAlike(sys, s, t)
    ensures StatesAlike(sys, Next(sys, s, step), Next(sys, t, step))
  {
    hide Reconcile, CycleStep, Approve, StatesAlike, Truthful, CollisionFree;
    match step
    case RefreshStep(file, at, saved, input, cycleSaved) =>
      ReconcileStatesAlike(sys, s, t, file, at, saved);
      CycleStatesAlike(sys, Reconcile(sys, s, file, at, saved), Reconcile(sys, t, file, at, saved), input, cycleSaved);
    case ReconcileStep(file, at, saved) =>
      ReconcileStatesAlike(sys, s, t, file, at, saved);
    case ApproveStep(fp, at, saved) =>
      ApproveIdle(sys, s, t, fp, at, saved);
  }

  /** In auto mode the stored snapshot is alike the served one. */
  lemma {:induction false} StoredIsAutoAlike(sys: System, steps: seq<Step>)
    requires !sys.cfg.hold && CollisionFree(sys.w) && Settled(sys, steps)
    ensures var s := After(sys, steps); StatesAlike(sys, s, Next(sys, s, RestartStep))
  {
    hide After, Settled, CollisionFree, WellFormed, TerritoryHeld, Carried, PendingSince;
    StoredIsAlike(sys, steps);
    ReachableHeld(sys, steps);
  }

  lemma {:induction false} StatesTrans(sys: System, s: State, t: State, u: State)
    requires StatesAlike(sys, s, t) && StatesAlike(sys, t, u)
    ensures StatesAlike(sys, s, u)
  {
    hide AutoAlike;
    if s.active.Some? {
      AlikeTrans(sys, s.active.value, t.active.value, u.active.value);
    }
  }

  lemma {:induction false} StatesSym(sys: System, s: State, t: State)
    requires StatesAlike(sys, s, t)
    ensures StatesAlike(sys, t, s)
  {
    hide AutoAlike;
    if s.active.Some? {
      AlikeSym(sys, s.active.value, t.active.value);
    }
  }

  /** The continuation is read truthfully, and each of its restarts finds the last save
      attempted done. */
  ghost predicate Orderly(sys: System, steps: seq<Step>, more: seq<Step>) {
    forall j :: 0 <= j < |more| ==>
      && StepTruthful(sys.w, more[j])
      && (more[j].RestartStep? ==> Settled(sys, steps + more[..j]))
  }

  lemma {:induction false} OrderlyPrefix(sys: System, steps: seq<Step>, more: seq<Step>)
    requires more != [] && Orderly(sys, steps, more)
    ensures var n := |more| - 1;
            && Orderly(sys, steps, more[..n]) && StepTruthful(sys.w, more[n])
            && (more[n].RestartStep? ==> Settled(sys, steps + more[..n]))
  {
    hide Settled, StepTruthful;
    var n := |more| - 1;
    forall j | 0 <= j < n ensures StepTruthful(sys.w, more[..n][j]) && (more[..n][j].RestartStep? ==> Settled(sys, steps + more[..n][..j])) {
      assert more[..n][..j] == more[..j];
    }
  }

  lemma {:induction false} RunsStayAlike(sys: System, a: seq<Step>, b: seq<Step>, more: seq<Step>)
    requires !sys.cfg.hold && CollisionFree(sys.w)
    requires StatesAlike(sys, After(sys, a), After(sys, b))
    requires Orderly(sys, a, more) && Orderly(sys, b, more)
    ensures StatesAlike(sys, After(sys, a + more), After(sys, b + more))
    decreases |more|
  {
    hide After, Next, StatesAlike, CollisionFree, Orderly, Settled, StepTruthful;
    if more == [] {
      assert a + more == a && b + more == b;
    } else {
      var n := |more| - 1;
      var step := more[n];
      OrderlyPrefix(sys, a, more);
      OrderlyPrefix(sys, b, more);
      RunsStayAlike(sys, a, b, more[..n]);
      var x, y := a + more[..n], b + more[..n];
      assert a + more == x + [step] && b + more == y + [step];
      AfterOneMore(sys, x, step);
      AfterOneMore(sys, y, step);
      if step.RestartStep? {
        StoredIsAutoAlike(sys, x);
        StoredIsAutoAlike(sys, y);
        var s, t := After(sys, x), After(sys, y);
        StatesSym(sys, s, Next(sys, s, step));
        StatesTrans(sys, Next(sys, s, step), s, t);
        StatesTrans(sys, Next(sys, s, step), t, Next(sys, t, step));
      } else {
        StepAlike(sys, After(sys, x), After(sys, y), step);
      }
    }
  }

  /** Restarts are invisible in auto mode: after a run whose last attempted save
      succeeded, whatever follows, refreshes, declarations, approvals, failed saves and
      further restarts, every snapshot then served has the id, the signers and the
      LOTL state it would have had without the restart. */
  lemma {:induction false} RestartUnseen(sys: System, steps: seq<Step>, more: seq<Step>)
    requires !sys.cfg.hold && CollisionFree(sys.w) && Settled(sys, steps)
    requires Orderly(sys, steps, more) && Orderly(sys, steps + [RestartStep], more)
    ensures var on, again := After(sys, steps + more).active, After(sys, steps + [RestartStep] + more).active;
            && (on.Some? <==> again.Some?)
            && (on.Some? ==> on.value.id == again.value.id && Carried(on.value) == Carried(again.value))
  {
    hide After, Next, CollisionFree, Orderly, Settled, WellFormed, AutoHeld, Carried, PendingSince;
    StoredIsAutoAlike(sys, steps);
    AfterOneMore(sys, steps, RestartStep);
    RunsStayAlike(sys, steps, steps + [RestartStep], more);
  }
}
