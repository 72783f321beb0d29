/** ingest/manager.go: the served snapshot, the stored one, and the four steps that
    move them. Mutations are serialized, so a run is a sequence of steps. */
module Manager {

  import opened Wrappers
  import opened Sequences
  import opened Order
  import opened Trust
  import opened World
  import opened Identity
  import opened Differences
  import opened Extraction
  import opened Declared
  import opened Lotl
  import opened Hold
  import opened Cycle

  // ---- Change tests ----

  predicate PendingEqual(a: seq<PendingAnchor>, b: seq<PendingAnchor>) {
    && |a| == |b|
    && forall i :: 0 <= i < |a| ==> PendingKey(a[i]) == PendingKey(b[i])
  }

  /** The source's concatenated identity of a skip. */
  function SkippedKey(s: SkippedService): string {
    s.tspName + "/" + s.serviceName + "/" + s.fingerprint + "/" + s.reason
  }

  predicate SkippedEqual(a: seq<SkippedService>, b: seq<SkippedService>) {
    multiset(Map(SkippedKey, a)) == multiset(Map(SkippedKey, b))
  }

  predicate SameHealth(p: Territory, t: Territory) {
    && p.carriedOver == t.carriedOver
    && p.tlSequence == t.tlSequence
    && p.failed == t.failed
    && p.failureReason == t.failureReason
    && SkippedEqual(p.skipped, t.skipped)
  }

  predicate HealthKept(prev: Snapshot, t: Territory) {
    prev.Lookup(t.code).Some? && SameHealth(prev.Lookup(t.code).value, t)
  }

  predicate TerritoryStateChanged(prev: Snapshot, next: Snapshot) {
    exists i :: 0 <= i < |next.territories| && !HealthKept(prev, next.territories[i])
  }

  predicate CycleChanged(prev: Option<Snapshot>, next: Snapshot) {
    || prev.None?
    || next.id != prev.value.id
    || !PendingEqual(prev.value.pending, next.pending)
    || TerritoryStateChanged(prev.value, next)
  }

  predicate NeedsSave(prev: Option<Snapshot>, next: Snapshot) {
    CycleChanged(prev, next) || prev.value.lotlDigest != next.lotlDigest
  }

  method ComparePending(a: seq<PendingAnchor>, b: seq<PendingAnchor>) returns (eq: bool)
    ensures eq == PendingEqual(a, b)
  {
    if |a| != |b| {
      return false;
    }
    for i := 0 to |a|
      invariant forall k :: 0 <= k < i ==> PendingKey(a[k]) == PendingKey(b[k])
    {
      if a[i].anchor.fingerprint != b[i].anchor.fingerprint || a[i].anchor.territory != b[i].anchor.territory {
        assert PendingKey(a[i]) != PendingKey(b[i]);
        return false;
      }
    }
    return true;
  }

  function CountOf(m: map<string, nat>, k: string): nat {
    if k in m then m[k] else 0
  }

  lemma {:induction false} KeysNext(s: seq<SkippedService>, i: nat)
    requires i < |s|
    ensures multiset(Map(SkippedKey, s[..i + 1])) == multiset(Map(SkippedKey, s[..i])) + multiset{SkippedKey(s[i])}
  {
    assert s[..i + 1] == s[..i] + [s[i]];
    MapAppend(SkippedKey, s[..i], [s[i]]);
    assert Map(SkippedKey, [s[i]]) == [SkippedKey(s[i])];
  }

  lemma {:induction false} KeysPrefix(s: seq<SkippedService>, i: nat)
    requires i <= |s|
    ensures multiset(Map(SkippedKey, s[..i])) <= multiset(Map(SkippedKey, s))
  {
    assert s == s[..i] + s[i..];
    MapAppend(SkippedKey, s[..i], s[i..]);
  }

  /** The counts of the first loop. */
  method CountKeys(a: seq<SkippedService>) returns (seen: map<string, nat>)
    ensures forall k :: CountOf(seen, k) == multiset(Map(SkippedKey, a))[k]
  {
    seen := map[];
    for i := 0 to |a|
      invariant forall k :: CountOf(seen, k) == multiset(Map(SkippedKey, a[..i]))[k]
    {
      KeysNext(a, i);
      var k := SkippedKey(a[i]);
      seen := seen[k := CountOf(seen, k) + 1];
    }
    assert a[..|a|] == a;
  }

  /** skippedEqual: count the keys of one side, spend them on the other. */
  method CompareSkipped(a: seq<SkippedService>, b: seq<SkippedService>) returns (eq: bool)
    ensures eq == SkippedEqual(a, b)
  {
    ghost var ka, kb := multiset(Map(SkippedKey, a)), multiset(Map(SkippedKey, b));
    assert |ka| == |a| && |kb| == |b|;
    if |a| != |b| {
      return false;
    }
    var seen := CountKeys(a);
    for i := 0 to |b|
      invariant forall k :: CountOf(seen, k) + multiset(Map(SkippedKey, b[..i]))[k] == ka[k]
    {
      KeysNext(b, i);
      var k := SkippedKey(b[i]);
      if CountOf(seen, k) == 0 {
        KeysPrefix(b, i + 1);
        assert kb[k] > ka[k];
        return false;
      }
      seen := seen[k := seen[k] - 1];
    }
    assert b[..|b|] == b;
    SpentAll(ka, kb);
    return true;
  }

  lemma {:induction false} SpentAll(ka: multiset<string>, kb: multiset<string>)
    requires forall k :: kb[k] <= ka[k]
    requires |ka| == |kb|
    ensures ka == kb
  {
    assert kb <= ka;
    assert ka == kb + (ka - kb);
    assert |ka - kb| == 0;
  }

  method CompareHealth(prev: Snapshot, next: Snapshot) returns (changed: bool)
    ensures changed == TerritoryStateChanged(prev, next)
    ensures Distinct(Map(TerritoryCode, prev.territories)) ==>
              (changed <==> exists i :: 0 <= i < |next.territories| && !UnmovedIn(prev, next.territories[i]))
  {
    hide UnmovedIn, SkippedEqual;
    forall t ensures Distinct(Map(TerritoryCode, prev.territories)) ==> (HealthKept(prev, t) <==> UnmovedIn(prev, t)) {
      KeptUnmoved(prev, t);
    }
    for i := 0 to |next.territories|
      invariant forall k :: 0 <= k < i ==> HealthKept(prev, next.territories[k])
    {
      var t := next.territories[i];
      var pt := prev.Lookup(t.code);
      if pt.None? || pt.value.carriedOver != t.carriedOver || pt.value.tlSequence != t.tlSequence
         || pt.value.failed != t.failed || pt.value.failureReason != t.failureReason
      {
        assert !HealthKept(prev, t);
        return true;
      }
      var same := CompareSkipped(pt.value.skipped, t.skipped);
      if !same {
        assert !HealthKept(prev, t);
        return true;
      }
      assert HealthKept(prev, t);
    }
    return false;
  }

  // ---- What a reported change is ----

  /** The texts the skips of an entry are compared by, each as often as it occurs. */
  ghost function JoinedSkips(skips: seq<SkippedService>): multiset<string> {
    multiset(seq(|skips|, i requires 0 <= i < |skips| =>
      skips[i].tspName + "/" + skips[i].serviceName + "/" + skips[i].fingerprint + "/" + skips[i].reason))
  }

  /** The entry's carried-over mark, sequence number, failure and skips are as they were. */
  ghost predicate Unmoved(p: Territory, t: Territory) {
    && p.carriedOver == t.carriedOver && p.tlSequence == t.tlSequence
    && p.failed == t.failed && p.failureReason == t.failureReason
    && JoinedSkips(p.skipped) == JoinedSkips(t.skipped)
  }

  /** The snapshot has an entry of the code, and it is unmoved. */
  ghost predicate UnmovedIn(prev: Snapshot, t: Territory) {
    exists j :: 0 <= j < |prev.territories| && prev.territories[j].code == t.code && Unmoved(prev.territories[j], t)
  }

  /** The same anchors are held, in the same order. */
  ghost predicate SameHeld(a: seq<PendingAnchor>, b: seq<PendingAnchor>) {
    && |a| == |b|
    && forall i :: 0 <= i < |a| ==>
         a[i].anchor.territory == b[i].anchor.territory && a[i].anchor.fingerprint == b[i].anchor.fingerprint
  }

  lemma {:induction false} JoinedSkipsIff(a: seq<SkippedService>, b: seq<SkippedService>)
    ensures SkippedEqual(a, b) <==> JoinedSkips(a) == JoinedSkips(b)
  {
    JoinedKeys(a);
    JoinedKeys(b);
  }

  lemma {:induction false} JoinedKeys(a: seq<SkippedService>)
    ensures JoinedSkips(a) == multiset(Map(SkippedKey, a))
  {
    assert Map(SkippedKey, a)
        == seq(|a|, i requires 0 <= i < |a| => a[i].tspName + "/" + a[i].serviceName + "/" + a[i].fingerprint + "/" + a[i].reason);
  }

  lemma {:induction false} UnmovedIff(p: Territory, t: Territory)
    ensures SameHealth(p, t) <==> Unmoved(p, t)
  {
    hide SkippedEqual, JoinedSkips;
    JoinedSkipsIff(p.skipped, t.skipped);
  }

  lemma {:induction false} KeptUnmoved(prev: Snapshot, t: Territory)
    ensures HealthKept(prev, t) ==> UnmovedIn(prev, t)
    ensures Distinct(Map(TerritoryCode, prev.territories)) ==> (HealthKept(prev, t) <==> UnmovedIn(prev, t))
  {
    hide SameHealth, Unmoved, FindTerritory;
    var p := prev.Lookup(t.code);
    if p.Some? {
      UnmovedIff(p.value, t);
      var j :| 0 <= j < |prev.territories| && prev.territories[j] == p.value;
    }
    if Distinct(Map(TerritoryCode, prev.territories)) && UnmovedIn(prev, t) {
      var j :| 0 <= j < |prev.territories| && prev.territories[j].code == t.code && Unmoved(prev.territories[j], t);
      CodeDeterminesEntry(prev.territories, p.value, prev.territories[j]);
    }
  }

  /** A cycle reports a change exactly when it is the first one, the id moved, another
      anchor is held, or some entry is new or moved in its carried-over mark, sequence
      number, failure or skips. */
  lemma {:induction false} ChangedIff(prev: Snapshot, next: Snapshot)
    requires Distinct(Map(TerritoryCode, prev.territories))
    ensures CycleChanged(Some(prev), next)
       <==> || next.id != prev.id
            || !SameHeld(prev.pending, next.pending)
            || exists i :: 0 <= i < |next.territories| && !UnmovedIn(prev, next.territories[i])
  {
    hide HealthKept, UnmovedIn;
    forall t ensures HealthKept(prev, t) <==> UnmovedIn(prev, t) {
      KeptUnmoved(prev, t);
    }
    HeldIff(prev.pending, next.pending);
  }

  lemma {:induction false} HeldIff(a: seq<PendingAnchor>, b: seq<PendingAnchor>)
    ensures PendingEqual(a, b) <==> SameHeld(a, b)
  {
  }

  // ---- Approval ----

  function FindPending(ps: seq<PendingAnchor>, fp: string): (r: Option<nat>)
    ensures r.Some? ==> r.value < |ps| && ps[r.value].anchor.fingerprint == fp
    ensures r.None? ==> forall i :: 0 <= i < |ps| ==> ps[i].anchor.fingerprint != fp
  {
    if ps == [] then None
    else if ps[0].anchor.fingerprint == fp then Some(0)
    else
      match FindPending(ps[1..], fp)
      case None => None
      case Some(i) => Some(i + 1)
  }

  predicate TerritoryLe(a: Territory, b: Territory) {
    KeyLe([a.code], [b.code])
  }

  function BareTerritory(code: string): Territory {
    Territory(code, 0, 0, None, "", false, None, false, None, [], [])
  }

  function WithAnchor(t: Territory, a: Anchor): Territory {
    t.(anchors := SortBy(CandidateLe, t.anchors + [a]))
  }

  /** The anchor joins its territory's served list; a missing territory is created. */
  function AddAnchor(ts: seq<Territory>, a: Anchor): seq<Territory> {
    match FindCode(ts, a.territory)
    case Some(i) => ts[i := WithAnchor(ts[i], a)]
    case None => SortBy(TerritoryLe, ts + [WithAnchor(BareTerritory(a.territory), a)])
  }

  function Approved(cur: Snapshot, i: nat, at: Instant): Snapshot
    requires i < |cur.pending|
  {
    WithId(cur.(pending := Without(cur.pending, i),
                territories := AddAnchor(cur.territories, cur.pending[i].anchor),
                generatedAt := at,
                prevID := Some(cur.id)))
  }

  // ---- The state machine ----

  datatype System = System(w: World, cfg: Config, boot: Bootstrap)

  /** What is served and what the store holds. */
  datatype State = State(active: Option<Snapshot>, stored: Option<Snapshot>)

  datatype Step =
    | RefreshStep(file: DeclaredFile, at: Instant, saved: bool, input: CycleInput, cycleSaved: bool)
    | ReconcileStep(file: DeclaredFile, at: Instant, saved: bool)
    | ApproveStep(fingerprint: string, at: Instant, saved: bool)
    | RestartStep

  function Save(s: State, next: Snapshot, saved: bool): Option<Snapshot> {
    if saved then Some(next) else s.stored
  }

  function Reconcile(sys: System, s: State, file: DeclaredFile, at: Instant, saved: bool): State {
    if s.active.None? then s
    else
      match RefreshDeclared(sys.w, s.active.value, file, at)
      case None => s
      case Some(next) => State(Some(next), Save(s, next, saved))
  }

  function CycleStep(sys: System, s: State, input: CycleInput, saved: bool): State {
    match RunCycle(sys.w, sys.cfg, s.active, sys.boot, input)
    case Err(_) => s
    case Ok(next) => State(Some(next), Save(s, next, saved && NeedsSave(s.active, next)))
  }

  function Approve(s: State, fp: string, at: Instant, saved: bool): State {
    if s.active.None? then s
    else
      match FindPending(s.active.value.pending, fp)
      case None => s
      case Some(i) =>
        if saved then State(Some(Approved(s.active.value, i, at)), Some(Approved(s.active.value, i, at))) else s
  }

  /** A step of the service. */
  function Next(sys: System, s: State, step: Step): State {
    match step
    case RefreshStep(file, at, saved, input, cycleSaved) => CycleStep(sys, Reconcile(sys, s, file, at, saved), input, cycleSaved)
    case ReconcileStep(file, at, saved) => Reconcile(sys, s, file, at, saved)
    case ApproveStep(fp, at, saved) => Approve(s, fp, at, saved)
    case RestartStep => State(s.stored, s.stored)
  }

  /** The state after a run from an empty store. */
  function After(sys: System, steps: seq<Step>): State {
    if steps == [] then State(None, None) else Next(sys, After(sys, steps[..|steps| - 1]), steps[|steps| - 1])
  }

  lemma {:induction false} AfterOneMore(sys: System, steps: seq<Step>, step: Step)
    ensures After(sys, steps + [step]) == Next(sys, After(sys, steps), step)
  {
    assert (steps + [step])[..|steps|] == steps;
  }

  /** Every save of the step succeeds. */
  predicate StepSaves(step: Step) {
    match step
    case RefreshStep(_, _, saved, _, cycleSaved) => saved && cycleSaved
    case ReconcileStep(_, _, saved) => saved
    case ApproveStep(_, _, saved) => saved
    case RestartStep => true
  }

  predicate AllSaved(steps: seq<Step>) {
    forall i :: 0 <= i < |steps| ==> StepSaves(steps[i])
  }

  /** Whether the last save a reconcile attempted, or before it, succeeded. */
  predicate ReconcileSettles(sys: System, s: State, was: bool, file: DeclaredFile, at: Instant, saved: bool) {
    if s.active.Some? && RefreshDeclared(sys.w, s.active.value, file, at).Some? then saved else was
  }

  predicate CycleSettles(sys: System, s: State, was: bool, input: CycleInput, saved: bool) {
    match RunCycle(sys.w, sys.cfg, s.active, sys.boot, input)
    case Err(_) => was
    case Ok(next) => if NeedsSave(s.active, next) then saved else was
  }

  /** Nothing is behind after the step, if that was so before or the step makes it so:
      the last save attempted in place succeeded. An approval that cannot save changes
      nothing, and a restart serves what is stored. */
  predicate Settles(sys: System, s: State, was: bool, step: Step) {
    match step
    case RefreshStep(file, at, saved, input, cycleSaved) =>
      CycleSettles(sys, Reconcile(sys, s, file, at, saved), ReconcileSettles(sys, s, was, file, at, saved), input, cycleSaved)
    case ReconcileStep(file, at, saved) => ReconcileSettles(sys, s, was, file, at, saved)
    case ApproveStep(fp, _, saved) => was || (saved && s.active.Some? && FindPending(s.active.value.pending, fp).Some?)
    case RestartStep => true
  }

  /** The last save the run attempted succeeded, whatever became of earlier ones. */
  predicate Settled(sys: System, steps: seq<Step>) {
    steps == []
    || (var n := |steps| - 1; Settles(sys, After(sys, steps[..n]), Settled(sys, steps[..n]), steps[n]))
  }

  /** Every restart finds the last save done. */
  predicate SettledBeforeRestarts(sys: System, steps: seq<Step>) {
    forall j :: 0 <= j < |steps| && steps[j].RestartStep? ==> Settled(sys, steps[..j])
  }

  lemma {:induction false} SettledPrefix(sys: System, steps: seq<Step>, n: nat)
    requires SettledBeforeRestarts(sys, steps) && n <= |steps|
    ensures SettledBeforeRestarts(sys, steps[..n])
  {
    hide Settled;
    forall j | 0 <= j < n && steps[..n][j].RestartStep? ensures Settled(sys, steps[..n][..j]) {
      assert steps[..n][..j] == steps[..j];
    }
  }

  lemma {:induction false} StepSettles(sys: System, s: State, step: Step)
    requires StepSaves(step)
    ensures Settles(sys, s, true, step)
  {
    hide RunCycle, RefreshDeclared, NeedsSave;
  }

  lemma {:induction false} AllSavedSettles(sys: System, steps: seq<Step>)
    requires AllSaved(steps)
    ensures Settled(sys, steps)
    decreases |steps|
  {
    hide Settles;
    if steps != [] {
      var n := |steps| - 1;
      AllSavedSettles(sys, steps[..n]);
      StepSettles(sys, After(sys, steps[..n]), steps[n]);
    }
  }

  // ---- The object ----

  datatype RefreshOutcome = RefreshOutcome(
    snapshot: Option<Snapshot>,
    changed: bool,
    declaredChanged: bool,
    cycleErr: Option<Failure>)

  /** What a refresh from `before`, through `base` (declared half done), to
      `after` reports: in each half a change exactly when there is one, with its diff. */
  ghost predicate Announced(before: Option<Snapshot>, base: Option<Snapshot>, after: Option<Snapshot>,
                           out: RefreshOutcome, declared: seq<DiffEntry>, emitted: seq<DiffEntry>)
  {
    && (out.declaredChanged <==> base != before)
    && (if out.declaredChanged then base.Some? && IsDiff(before, base.value, declared) else declared == [])
    && (if out.cycleErr.None? && after.Some? && CycleChanged(base, after.value)
        then out.changed && IsDiff(base, after.value, emitted)
        else emitted == [] && out.changed == out.declaredChanged)
  }

  /** The event an approval of the fingerprint announces. */
  function ApprovalEvents(active: Option<Snapshot>, fp: string): seq<DiffEntry> {
    if active.None? then []
    else
      match FindPending(active.value.pending, fp)
      case None => []
      case Some(i) =>
        var a := active.value.pending[i].anchor;
        [DiffEntry(Added, a.territory, a.fingerprint, a.anchorType, a.tspName, a.serviceName, a.status, "approved from pending", a.source)]
  }

  class TrustManager {
    const sys: System
    var active: Option<Snapshot>
    var stored: Option<Snapshot>
    /** The change events, in emission order. */
    var events: seq<DiffEntry>

    constructor (sys: System, stored: Option<Snapshot>)
      ensures this.sys == sys && active == None && this.stored == stored && events == []
    {
      this.sys, this.active, this.stored, this.events := sys, None, stored, [];
    }

    ghost function Current(): State
      reads this
    {
      State(active, stored)
    }

    /** Restores the latest stored snapshot, if there is one. */
    method Initialize()
      requires active == None
      modifies this`active
      ensures Current() == Next(sys, old(Current()), RestartStep)
    {
      if stored.Some? {
        active := stored;
      }
    }

    /** Declared sources against the served snapshot; one event per diff entry. */
    method ReconcileDeclared(file: DeclaredFile, at: Instant, saved: bool) returns (changed: bool, ghost emitted: seq<DiffEntry>)
      modifies this
      ensures Current() == Reconcile(sys, old(Current()), file, at, saved)
      ensures changed <==> active != old(active)
      ensures events == old(events) + emitted
      ensures if changed then active.Some? && IsDiff(old(active), active.value, emitted) else emitted == []
    {
      emitted := [];
      if active.None? {
        return false, [];
      }
      var next := RefreshDeclared(sys.w, active.value, file, at);
      if next.None? {
        return false, [];
      }
      DeclaredMovesId(sys.w, active.value, file, at);
      var diff := ComputeDiff(active, next.value);
      if saved {
        stored := next;
      }
      active := next;
      events := events + diff.entries;
      return true, diff.entries;
    }

    /** One refresh: the declared half, then the upstream cycle. A changed cycle
        emits one event per entry of the diff against the snapshot it built on. */
    method Refresh(file: DeclaredFile, at: Instant, saved: bool, input: CycleInput, cycleSaved: bool)
      returns (out: RefreshOutcome, ghost declared: seq<DiffEntry>, ghost emitted: seq<DiffEntry>)
      modifies this
      ensures Current() == Next(sys, old(Current()), RefreshStep(file, at, saved, input, cycleSaved))
      ensures out.snapshot == active
      ensures out.cycleErr.Some? ==> Current() == Reconcile(sys, old(Current()), file, at, saved)
      ensures events == old(events) + declared + emitted
      ensures Announced(old(active), Reconcile(sys, old(Current()), file, at, saved).active, active, out, declared, emitted)
    {
      hide RunCycle, RefreshDeclared, IsDiff, CycleChanged;
      var declaredChanged;
      declaredChanged, declared := ReconcileDeclared(file, at, saved);
      emitted := [];
      var prev := active;
      var storage := LoadStorage(prev);
      var r := Cycle.Refresh(sys.w, sys.cfg, prev, storage, sys.boot, input);
      if r.Err? {
        return RefreshOutcome(prev, declaredChanged, declaredChanged, Some(r.error)), declared, [];
      }
      var next := r.value;
      var cycleChanged := Compare(prev, next);
      FirstIsChange(prev, next);
      if (cycleChanged || prev.value.lotlDigest != next.lotlDigest) && cycleSaved {
        stored := Some(next);
      }
      active := Some(next);
      if cycleChanged {
        var diff := ComputeDiff(prev, next);
        events := events + diff.entries;
        emitted := diff.entries;
      }
      out := RefreshOutcome(Some(next), declaredChanged || cycleChanged, declaredChanged, None);
    }

    /** Moves one pending anchor into its territory, persisting before serving; one
        event for the anchor. */
    method ApprovePending(fp: string, at: Instant, saved: bool) returns (r: Option<Snapshot>)
      modifies this
      ensures Current() == Next(sys, old(Current()), ApproveStep(fp, at, saved))
      ensures r.Some? ==> active == r && stored == r
      ensures r.None? ==> active == old(active) && stored == old(stored)
      ensures events == old(events) + if r.Some? then ApprovalEvents(old(active), fp) else []
    {
      hide ContentId, AddAnchor, FindPending;
      if active.None? {
        return None;
      }
      var cur := active.value;
      var idx := FindPending(cur.pending, fp);
      if idx.None? {
        return None;
      }
      var approved := cur.pending[idx.value];
      var pending := cur.pending[..idx.value] + cur.pending[idx.value + 1..];
      var next := cur.(pending := pending, territories := AddAnchor(cur.territories, approved.anchor), generatedAt := at,
                       prevID := Some(cur.id));
      var id := ComputeID(next);
      next := next.(id := id);
      if !saved {
        return None;
      }
      active, stored := Some(next), Some(next);
      var a := approved.anchor;
      events := events + [DiffEntry(Added, a.territory, a.fingerprint, a.anchorType, a.tspName, a.serviceName, a.status,
                                    "approved from pending", a.source)];
      return Some(next);
    }
  }

  lemma {:induction false} FirstIsChange(prev: Option<Snapshot>, next: Snapshot)
    ensures prev.None? ==> CycleChanged(prev, next)
  {
  }

  lemma {:induction false} DeclaredMovesId(w: World, prev: Snapshot, file: DeclaredFile, at: Instant)
    requires RefreshDeclared(w, prev, file, at).Some?
    ensures RefreshDeclared(w, prev, file, at).value.id != prev.id
    ensures RefreshDeclared(w, prev, file, at) != Some(prev)
  {
  }

  method Compare(prev: Option<Snapshot>, next: Snapshot) returns (changed: bool)
    ensures changed == CycleChanged(prev, next)
  {
    if prev.None? || next.id != prev.value.id {
      return true;
    }
    var samePending := ComparePending(prev.value.pending, next.pending);
    if !samePending {
      return true;
    }
    changed := CompareHealth(prev.value, next);
  }
}
