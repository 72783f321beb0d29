/** trust/diff.go: the change list between two snapshots. */
module Differences {

  import opened Wrappers
  import opened Sequences
  import opened Order
  import opened Trust
  import opened Identity

  /** The index keys: code/fingerprint for list anchors, and
      internal/fingerprint/type for declared ones. */
  datatype Key = Listed(code: string, fingerprint: string) | Declared(fingerprint: string, anchorType: string)

  /** The source joins the parts of a key into one text. */
  function JoinedKey(k: Key): string {
    match k
    case Listed(code, fp) => code + "/" + fp
    case Declared(fp, t) => INTERNAL + "/" + fp + "/" + t
  }

  predicate SlashFree(k: Key) {
    '/' !in k.fingerprint && (k.Declared? ==> '/' !in k.anchorType)
  }

  /** A territory coded like a declared certificate, with a type for a fingerprint. */
  predicate Crossed(l: Key, d: Key) {
    l.Listed? && d.Declared? && l.code == INTERNAL + "/" + d.fingerprint && l.fingerprint == d.anchorType
  }

  /** Joining loses nothing: fingerprints and types hold no slash, so two keys share a
      text only if they are one, or if a type name passes for a fingerprint. */
  lemma {:induction false} JoinedKeyIff(j: Key, k: Key)
    requires SlashFree(j) && SlashFree(k)
    ensures JoinedKey(j) == JoinedKey(k) <==> j == k || Crossed(j, k) || Crossed(k, j)
  {
    if JoinedKey(j) == JoinedKey(k) {
      var u, v := if j.Listed? then j.fingerprint else j.anchorType, if k.Listed? then k.fingerprint else k.anchorType;
      var x, y := if j.Listed? then j.code else INTERNAL + "/" + j.fingerprint, if k.Listed? then k.code else INTERNAL + "/" + k.fingerprint;
      CutAtLastSlash(x, y, u, v);
      if j.Declared? && k.Declared? {
        CutAtLastSlash(INTERNAL, INTERNAL, j.fingerprint, k.fingerprint);
      }
    }
  }

  datatype Indexed = Indexed(anchor: Anchor, territory: string)

  type Index = map<Key, Indexed>

  const INTERNAL := "internal"

  function IndexAnchors(base: Index, code: string, anchors: seq<Anchor>): Index {
    if anchors == [] then base
    else
      var a := anchors[|anchors| - 1];
      IndexAnchors(base, code, anchors[..|anchors| - 1])[Listed(code, a.fingerprint) := Indexed(a, code)]
  }

  function IndexTerritories(ts: seq<Territory>): Index {
    if ts == [] then map[]
    else IndexAnchors(IndexTerritories(ts[..|ts| - 1]), ts[|ts| - 1].code, ts[|ts| - 1].anchors)
  }

  function IndexDeclared(base: Index, anchors: seq<Anchor>): Index {
    if anchors == [] then base
    else
      var a := anchors[|anchors| - 1];
      IndexDeclared(base, anchors[..|anchors| - 1])[Declared(a.fingerprint, a.anchorType) := Indexed(a, INTERNAL)]
  }

  function AnchorIndex(s: Option<Snapshot>): Index {
    if s.None? then map[] else IndexDeclared(IndexTerritories(s.value.territories), s.value.declared)
  }

  /** anchorIndex: fill the map, later entries replacing earlier ones. */
  method BuildIndex(s: Option<Snapshot>) returns (out: Index)
    ensures out == AnchorIndex(s)
  {
    out := map[];
    if s.None? {
      return;
    }
    var ts, declared := s.value.territories, s.value.declared;
    for i := 0 to |ts|
      invariant out == IndexTerritories(ts[..i])
    {
      assert ts[..i + 1][..i] == ts[..i];
      ghost var base := out;
      var anchors := ts[i].anchors;
      for j := 0 to |anchors|
        invariant out == IndexAnchors(base, ts[i].code, anchors[..j])
      {
        assert anchors[..j + 1][..j] == anchors[..j];
        out := out[Listed(ts[i].code, anchors[j].fingerprint) := Indexed(anchors[j], ts[i].code)];
      }
      assert anchors[..|anchors|] == anchors;
    }
    assert ts[..|ts|] == ts;
    ghost var base := out;
    for j := 0 to |declared|
      invariant out == IndexDeclared(base, declared[..j])
    {
      assert declared[..j + 1][..j] == declared[..j];
      out := out[Key.Declared(declared[j].fingerprint, declared[j].anchorType) := Indexed(declared[j], INTERNAL)];
    }
    assert declared[..|declared|] == declared;
  }

  function Entry(kind: DiffKind, ia: Indexed, detail: string): DiffEntry {
    DiffEntry(kind, ia.territory, ia.anchor.fingerprint, ia.anchor.anchorType, ia.anchor.tspName,
              ia.anchor.serviceName, ia.anchor.status, detail, ia.anchor.source)
  }

  function MetadataChange(old': Indexed, next: Indexed): string {
    if old'.anchor.status != next.anchor.status then "status: " + old'.anchor.status + " -> " + next.anchor.status
    else if old'.anchor.qcWithQSCD != next.anchor.qcWithQSCD then "qcWithQscd changed"
    else if old'.anchor.uses != next.anchor.uses then "uses changed"
    else if old'.anchor.serviceName != next.anchor.serviceName then "service name changed"
    else ""
  }

  /** The metadata a diff compares. */
  predicate Differs(old': Indexed, next: Indexed) {
    || old'.anchor.status != next.anchor.status
    || old'.anchor.qcWithQSCD != next.anchor.qcWithQSCD
    || old'.anchor.uses != next.anchor.uses
    || old'.anchor.serviceName != next.anchor.serviceName
  }

  /** The empty detail text means no difference. */
  lemma {:induction false} DetailIffDiffers(old': Indexed, next: Indexed)
    ensures MetadataChange(old', next) != "" <==> Differs(old', next)
  {
    assert |"status: " + old'.anchor.status + " -> " + next.anchor.status| > 0;
  }

  function KindText(k: DiffKind): string {
    match k
    case Added => "added"
    case Changed => "changed"
    case Removed => "removed"
  }

  function EntrySortKey(e: DiffEntry): seq<string> {
    [e.territory, KindText(e.kind), e.fingerprint, e.anchorType]
  }

  predicate EntryLe(a: DiffEntry, b: DiffEntry) {
    KeyLe(EntrySortKey(a), EntrySortKey(b))
  }

  /** The change at each key, if any: the diff before it is put in order. */
  function Changes(prev: Index, next: Index): map<Key, DiffEntry> {
    map k | k in next.Keys + prev.Keys && (k !in prev || k !in next || Differs(prev[k], next[k]))
      :: if k !in prev then Entry(Added, next[k], "")
         else if k !in next then Entry(Removed, prev[k], "")
         else Entry(Changed, next[k], MetadataChange(prev[k], next[k]))
  }

  /** The change at a key; the empty record where there is none. */
  function EntryFor(changes: map<Key, DiffEntry>): Key -> DiffEntry {
    (k: Key) => if k in changes then changes[k] else DiffEntry(Added, "", "", "", "", "", "", "", "")
  }

  function EntriesOf(changes: map<Key, DiffEntry>, keys: seq<Key>): seq<DiffEntry> {
    Map(EntryFor(changes), keys)
  }

  /** `keys` visits exactly the given keys, each once, in some order. */
  ghost predicate Visits(keys: seq<Key>, all: set<Key>) {
    Distinct(keys) && (forall k :: k in keys <==> k in all)
  }

  /** `entries` is an ordered list of the changes, one per changed key. */
  ghost predicate IsDiff(prev: Option<Snapshot>, next: Snapshot, entries: seq<DiffEntry>) {
    var changes := Changes(AnchorIndex(prev), AnchorIndex(Some(next)));
    && SortedBy(EntryLe, entries)
    && exists keys :: Visits(keys, changes.Keys) && multiset(entries) == multiset(EntriesOf(changes, keys))
  }

  lemma {:induction false} VisitsDistinct(keys: seq<Key>, all: set<Key>)
    requires Visits(keys, all)
    ensures Distinct(keys)
  {
  }

  lemma {:induction false} VisitsOneMore(keys: seq<Key>, all: set<Key>, k: Key)
    requires Visits(keys, all) && k !in all
    ensures Visits(keys + [k], all + {k})
  {
    assert k !in keys;
  }

  /** The first loop: additions and metadata changes, in any map order. */
  method CollectPresent(prevSet: Index, nextSet: Index) returns (entries: seq<DiffEntry>, ghost keys: seq<Key>)
    ensures Visits(keys, Changes(prevSet, nextSet).Keys * nextSet.Keys)
    ensures entries == EntriesOf(Changes(prevSet, nextSet), keys)
  {
    ghost var changes := Changes(prevSet, nextSet);
    entries, keys := [], [];
    var todo := nextSet.Keys;
    while todo != {}
      invariant todo <= nextSet.Keys
      invariant Visits(keys, changes.Keys * (nextSet.Keys - todo))
      invariant entries == EntriesOf(changes, keys)
      decreases todo
    {
      var k :| k in todo;
      ghost var done := changes.Keys * (nextSet.Keys - todo);
      todo := todo - {k};
      if k !in prevSet {
        entries := entries + [Entry(Added, nextSet[k], "")];
      } else {
        DetailIffDiffers(prevSet[k], nextSet[k]);
        var detail := MetadataChange(prevSet[k], nextSet[k]);
        if detail != "" {
          entries := entries + [Entry(Changed, nextSet[k], detail)];
        }
      }
      if k in changes {
        VisitsOneMore(keys, done, k);
        keys := keys + [k];
        assert changes.Keys * (nextSet.Keys - todo) == done + {k};
      } else {
        assert changes.Keys * (nextSet.Keys - todo) == done;
      }
    }
    assert changes.Keys * (nextSet.Keys - todo) == changes.Keys * nextSet.Keys;
  }

  /** The second loop: removals, in any map order. */
  method CollectRemoved(prevSet: Index, nextSet: Index) returns (entries: seq<DiffEntry>, ghost keys: seq<Key>)
    ensures Visits(keys, prevSet.Keys - nextSet.Keys)
    ensures entries == EntriesOf(Changes(prevSet, nextSet), keys)
  {
    ghost var changes := Changes(prevSet, nextSet);
    entries, keys := [], [];
    var todo := prevSet.Keys;
    while todo != {}
      invariant todo <= prevSet.Keys
      invariant Visits(keys, prevSet.Keys - todo - nextSet.Keys)
      invariant entries == EntriesOf(changes, keys)
      decreases todo
    {
      var k :| k in todo;
      ghost var done := prevSet.Keys - todo - nextSet.Keys;
      todo := todo - {k};
      if k !in nextSet {
        entries := entries + [Entry(Removed, prevSet[k], "")];
        VisitsOneMore(keys, done, k);
        keys := keys + [k];
        assert prevSet.Keys - todo - nextSet.Keys == done + {k};
      } else {
        assert prevSet.Keys - todo - nextSet.Keys == done;
      }
    }
    assert prevSet.Keys - todo - nextSet.Keys == prevSet.Keys - nextSet.Keys;
  }

  lemma {:induction false} VisitsUnion(a: seq<Key>, all: set<Key>, b: seq<Key>, more: set<Key>)
    requires Visits(a, all) && Visits(b, more) && all !! more
    ensures Visits(a + b, all + more)
  {
    forall i, j | 0 <= i < j < |a + b| ensures (a + b)[i] != (a + b)[j] {
      if i < |a| <= j {
        assert a[i] in all && b[j - |a|] in more;
      }
    }
  }

  lemma {:induction false} LoopsCoverChanges(prevSet: Index, nextSet: Index, present: seq<Key>, removed: seq<Key>)
    requires Visits(present, Changes(prevSet, nextSet).Keys * nextSet.Keys)
    requires Visits(removed, prevSet.Keys - nextSet.Keys)
    ensures Visits(present + removed, Changes(prevSet, nextSet).Keys)
    ensures EntriesOf(Changes(prevSet, nextSet), present + removed)
         == EntriesOf(Changes(prevSet, nextSet), present) + EntriesOf(Changes(prevSet, nextSet), removed)
  {
    var changed := Changes(prevSet, nextSet).Keys;
    VisitsUnion(present, changed * nextSet.Keys, removed, prevSet.Keys - nextSet.Keys);
    assert changed * nextSet.Keys + (prevSet.Keys - nextSet.Keys) == changed;
    MapAppend(EntryFor(Changes(prevSet, nextSet)), present, removed);
  }

  lemma {:induction false} SortedIsDiff(prev: Option<Snapshot>, next: Snapshot, keys: seq<Key>, entries: seq<DiffEntry>)
    requires Visits(keys, Changes(AnchorIndex(prev), AnchorIndex(Some(next))).Keys)
    requires entries == EntriesOf(Changes(AnchorIndex(prev), AnchorIndex(Some(next))), keys)
    ensures IsDiff(prev, next, SortBy(EntryLe, entries))
  {
    EntryOrder();
    SortBySorted(EntryLe, entries);
    assert multiset(SortBy(EntryLe, entries)) == multiset(entries);
  }

  /** The diff of two snapshots: both loops, then the sort. */
  method ComputeDiff(prev: Option<Snapshot>, next: Snapshot) returns (d: Diff)
    ensures d.prevID == if prev.Some? then Some(prev.value.id) else None
    ensures IsDiff(prev, next, d.entries)
  {
    var prevSet := BuildIndex(prev);
    var nextSet := BuildIndex(Some(next));
    var present, presentKeys := CollectPresent(prevSet, nextSet);
    var removed, removedKeys := CollectRemoved(prevSet, nextSet);
    LoopsCoverChanges(prevSet, nextSet, presentKeys, removedKeys);
    SortedIsDiff(prev, next, presentKeys + removedKeys, present + removed);
    d := Diff(if prev.Some? then Some(prev.value.id) else None, SortBy(EntryLe, present + removed));
  }

  lemma EntryOrder()
    ensures TotalPreorder(EntryLe)
  {
    KeyOrder();
  }

  // ---- Exactness ----

  /** The index key a diff entry speaks of: its source tells the plane. */
  function KeyOf(e: DiffEntry): Key {
    if e.source == SOURCE_INTERNAL then Declared(e.fingerprint, e.anchorType) else Listed(e.territory, e.fingerprint)
  }

  predicate AllFrom(source: string, anchors: seq<Anchor>) {
    forall i :: 0 <= i < |anchors| ==> anchors[i].source == source
  }

  predicate ListsMarked(ts: seq<Territory>) {
    forall i :: 0 <= i < |ts| ==> AllFrom(SOURCE_TL, ts[i].anchors)
  }

  /** Every anchor carries the source of its plane (kept by every run, see Reachable). */
  predicate SourcesMarked(s: Option<Snapshot>) {
    s.Some? ==> ListsMarked(s.value.territories) && AllFrom(SOURCE_INTERNAL, s.value.declared)
  }

  ghost predicate KeysFaithful(ix: Index) {
    forall k :: k in ix ==>
      && ix[k].anchor.fingerprint == k.fingerprint
      && match k
         case Listed(code, _) => ix[k].territory == code && ix[k].anchor.source == SOURCE_TL
         case Declared(_, t) =>
           ix[k].territory == INTERNAL && ix[k].anchor.anchorType == t && ix[k].anchor.source == SOURCE_INTERNAL
  }

  lemma {:induction false} IndexAnchorsFaithful(base: Index, code: string, anchors: seq<Anchor>)
    requires KeysFaithful(base) && AllFrom(SOURCE_TL, anchors)
    ensures KeysFaithful(IndexAnchors(base, code, anchors))
    decreases |anchors|
  {
    if anchors != [] {
      IndexAnchorsFaithful(base, code, anchors[..|anchors| - 1]);
    }
  }

  lemma {:induction false} IndexTerritoriesFaithful(ts: seq<Territory>)
    requires ListsMarked(ts)
    ensures KeysFaithful(IndexTerritories(ts))
    decreases |ts|
  {
    if ts != [] {
      IndexTerritoriesFaithful(ts[..|ts| - 1]);
      IndexAnchorsFaithful(IndexTerritories(ts[..|ts| - 1]), ts[|ts| - 1].code, ts[|ts| - 1].anchors);
    }
  }

  lemma {:induction false} IndexDeclaredFaithful(base: Index, anchors: seq<Anchor>)
    requires KeysFaithful(base) && AllFrom(SOURCE_INTERNAL, anchors)
    ensures KeysFaithful(IndexDeclared(base, anchors))
    decreases |anchors|
  {
    if anchors != [] {
      IndexDeclaredFaithful(base, anchors[..|anchors| - 1]);
    }
  }

  lemma {:induction false} IndexFaithful(s: Option<Snapshot>)
    requires SourcesMarked(s)
    ensures KeysFaithful(AnchorIndex(s))
  {
    if s.Some? {
      IndexTerritoriesFaithful(s.value.territories);
      IndexDeclaredFaithful(IndexTerritories(s.value.territories), s.value.declared);
    }
  }

  ghost function KeysOfKind(entries: seq<DiffEntry>, kind: DiffKind): set<Key> {
    set e | e in entries && e.kind == kind :: KeyOf(e)
  }

  ghost function ChangedKeys(changes: map<Key, DiffEntry>, kind: DiffKind): set<Key> {
    set k | k in changes && changes[k].kind == kind
  }

  lemma {:induction false} ChangesFaithful(prev: Index, next: Index)
    requires KeysFaithful(prev) && KeysFaithful(next)
    ensures forall k :: k in Changes(prev, next) ==> KeyOf(Changes(prev, next)[k]) == k
  {
  }

  lemma {:induction false} ListedEntries(changes: map<Key, DiffEntry>, keys: seq<Key>, entries: seq<DiffEntry>, e: DiffEntry)
    requires Visits(keys, changes.Keys)
    requires multiset(entries) == multiset(EntriesOf(changes, keys))
    ensures e in entries <==> exists k :: k in changes && changes[k] == e
  {
    var listed := EntriesOf(changes, keys);
    assert e in entries <==> e in multiset(entries);
    assert e in listed <==> e in multiset(listed);
    if e in listed {
      var i :| 0 <= i < |listed| && listed[i] == e;
      assert keys[i] in changes && changes[keys[i]] == e;
    }
    if k :| k in changes && changes[k] == e {
      var i :| 0 <= i < |keys| && keys[i] == k;
      assert listed[i] == e;
    }
  }

  lemma {:induction false} KeysRecovered(changes: map<Key, DiffEntry>, keys: seq<Key>)
    requires Visits(keys, changes.Keys)
    requires forall k :: k in changes ==> KeyOf(changes[k]) == k
    ensures Map(KeyOf, EntriesOf(changes, keys)) == keys
  {
  }

  /** A diff's entries are exactly the changes, one entry per key. */
  lemma {:induction false} EntriesAreChanges(prev: Option<Snapshot>, next: Snapshot, entries: seq<DiffEntry>)
    requires SourcesMarked(prev) && SourcesMarked(Some(next))
    requires IsDiff(prev, next, entries)
    ensures var changes := Changes(AnchorIndex(prev), AnchorIndex(Some(next)));
            && Distinct(Map(KeyOf, entries))
            && (forall e :: e in entries <==> exists k :: k in changes && changes[k] == e)
  {
    hide Changes, AnchorIndex, KeysFaithful, EntriesOf, Map, Visits, KeyOf;
    IndexFaithful(prev);
    IndexFaithful(Some(next));
    var changes := Changes(AnchorIndex(prev), AnchorIndex(Some(next)));
    ChangesFaithful(AnchorIndex(prev), AnchorIndex(Some(next)));
    var keys :| Visits(keys, changes.Keys) && multiset(entries) == multiset(EntriesOf(changes, keys));
    forall e ensures e in entries <==> exists k :: k in changes && changes[k] == e {
      ListedEntries(changes, keys, entries, e);
    }
    KeysRecovered(changes, keys);
    assert Distinct(keys) by {
      VisitsDistinct(keys, changes.Keys);
    }
    MapPermutation(KeyOf, EntriesOf(changes, keys), entries);
    DistinctPermutation(keys, Map(KeyOf, entries));
  }

  lemma {:induction false} KindsMatch(prev: Option<Snapshot>, next: Snapshot, entries: seq<DiffEntry>, kind: DiffKind)
    requires SourcesMarked(prev) && SourcesMarked(Some(next))
    requires IsDiff(prev, next, entries)
    ensures KeysOfKind(entries, kind) == ChangedKeys(Changes(AnchorIndex(prev), AnchorIndex(Some(next))), kind)
  {
    EntriesAreChanges(prev, next, entries);
    IndexFaithful(prev);
    IndexFaithful(Some(next));
    ChangesFaithful(AnchorIndex(prev), AnchorIndex(Some(next)));
  }

  /** Removing the removed keys and adding the added ones turns the previous key
      set into the next; each key has at most one entry. */
  lemma {:induction false} DiffExact(prev: Option<Snapshot>, next: Snapshot, entries: seq<DiffEntry>)
    requires SourcesMarked(prev) && SourcesMarked(Some(next))
    requires IsDiff(prev, next, entries)
    ensures var before, after := AnchorIndex(prev).Keys, AnchorIndex(Some(next)).Keys;
            var added, removed := KeysOfKind(entries, Added), KeysOfKind(entries, Removed);
            after == before - removed + added && removed <= before && added !! before
    ensures Distinct(Map(KeyOf, entries))
  {
    EntriesAreChanges(prev, next, entries);
    KindsMatch(prev, next, entries, Added);
    KindsMatch(prev, next, entries, Removed);
  }

  lemma {:induction false} ChangedKeysSwap(a: Index, b: Index)
    ensures ChangedKeys(Changes(a, b), Added) == ChangedKeys(Changes(b, a), Removed)
    ensures ChangedKeys(Changes(a, b), Changed) == ChangedKeys(Changes(b, a), Changed)
  {
  }

  /** Swapping the snapshots swaps additions and removals and keeps the changed keys. */
  lemma {:induction false} DiffSwap(a: Snapshot, b: Snapshot, forth: seq<DiffEntry>, back: seq<DiffEntry>)
    requires SourcesMarked(Some(a)) && SourcesMarked(Some(b))
    requires IsDiff(Some(a), b, forth) && IsDiff(Some(b), a, back)
    ensures KeysOfKind(forth, Added) == KeysOfKind(back, Removed)
    ensures KeysOfKind(forth, Removed) == KeysOfKind(back, Added)
    ensures KeysOfKind(forth, Changed) == KeysOfKind(back, Changed)
  {
    forall kind ensures KeysOfKind(forth, kind) == ChangedKeys(Changes(AnchorIndex(Some(a)), AnchorIndex(Some(b))), kind) {
      KindsMatch(Some(a), b, forth, kind);
    }
    forall kind ensures KeysOfKind(back, kind) == ChangedKeys(Changes(AnchorIndex(Some(b)), AnchorIndex(Some(a))), kind) {
      KindsMatch(Some(b), a, back, kind);
    }
    ChangedKeysSwap(AnchorIndex(Some(a)), AnchorIndex(Some(b)));
    ChangedKeysSwap(AnchorIndex(Some(b)), AnchorIndex(Some(a)));
  }

  // ---- Any two visits list the same entries ----

  lemma {:induction false} VisitsPermute(a: seq<Key>, b: seq<Key>, all: set<Key>)
    requires Visits(a, all) && Visits(b, all)
    ensures multiset(a) == multiset(b)
  {
    forall k ensures multiset(a)[k] == multiset(b)[k] {
      CountDistinct(a, k);
      CountDistinct(b, k);
      assert k in a <==> k in multiset(a);
      assert k in b <==> k in multiset(b);
    }
  }

  lemma {:induction false} EntriesPermute(changes: map<Key, DiffEntry>, a: seq<Key>, b: seq<Key>)
    requires Visits(a, changes.Keys) && Visits(b, changes.Keys)
    ensures multiset(EntriesOf(changes, a)) == multiset(EntriesOf(changes, b))
  {
    VisitsPermute(a, b, changes.Keys);
    MapPermutation(EntryFor(changes), a, b);
  }

  // ---- No silent trust change ----

  lemma {:induction false} IndexAnchorsAt(base: Index, code: string, anchors: seq<Anchor>, k: Key)
    ensures var ix := IndexAnchors(base, code, anchors);
            if k.Listed? && k.code == code && exists a :: a in anchors && a.fingerprint == k.fingerprint
            then k in ix && ix[k].anchor in anchors && ix[k].anchor.fingerprint == k.fingerprint && ix[k].territory == code
            else (k in ix <==> k in base) && (k in ix ==> ix[k] == base[k])
    decreases |anchors|
  {
    if anchors != [] {
      var n := |anchors| - 1;
      IndexAnchorsAt(base, code, anchors[..n], k);
      assert anchors == anchors[..n] + [anchors[n]];
    }
  }

  /** A list key is indexed with an anchor that a territory of its code lists. */
  ghost predicate ListedIn(ts: seq<Territory>, k: Key, ia: Indexed) {
    k.Listed? && exists i :: 0 <= i < |ts| && ts[i].code == k.code == ia.territory
                          && ia.anchor in ts[i].anchors && ia.anchor.fingerprint == k.fingerprint
  }

  lemma {:induction false} IndexTerritoriesAt(ts: seq<Territory>, k: Key)
    ensures k in IndexTerritories(ts) ==> ListedIn(ts, k, IndexTerritories(ts)[k])
    ensures (exists ia :: ListedIn(ts, k, ia)) ==> k in IndexTerritories(ts)
    decreases |ts|
  {
    if ts != [] {
      var n := |ts| - 1;
      var before := IndexTerritories(ts[..n]);
      IndexTerritoriesAt(ts[..n], k);
      IndexAnchorsAt(before, ts[n].code, ts[n].anchors, k);
      if k in before && ListedIn(ts[..n], k, before[k]) {
        var i :| 0 <= i < n && ts[..n][i].code == k.code == before[k].territory && before[k].anchor in ts[..n][i].anchors;
        assert ts[i] == ts[..n][i];
      }
      if ia :| ListedIn(ts, k, ia) {
        var i :| 0 <= i < |ts| && ts[i].code == k.code == ia.territory && ia.anchor in ts[i].anchors;
        if i < n {
          assert ts[..n][i] == ts[i];
          assert ListedIn(ts[..n], k, ia);
        }
      }
    }
  }

  lemma {:induction false} IndexDeclaredAt(base: Index, anchors: seq<Anchor>, k: Key)
    ensures var ix := IndexDeclared(base, anchors);
            if k.Declared? && exists a :: a in anchors && a.fingerprint == k.fingerprint && a.anchorType == k.anchorType
            then k in ix && ix[k].anchor in anchors && ix[k].anchor.fingerprint == k.fingerprint
                 && ix[k].anchor.anchorType == k.anchorType
            else (k in ix <==> k in base) && (k in ix ==> ix[k] == base[k])
    decreases |anchors|
  {
    if anchors != [] {
      var n := |anchors| - 1;
      IndexDeclaredAt(base, anchors[..n], k);
      assert anchors == anchors[..n] + [anchors[n]];
    }
  }

  ghost predicate DeclaredIn(anchors: seq<Anchor>, k: Key, a: Anchor) {
    k.Declared? && a in anchors && a.fingerprint == k.fingerprint && a.anchorType == k.anchorType
  }

  ghost predicate Holds(s: Snapshot, k: Key, ia: Indexed) {
    if k.Listed? then ListedIn(s.territories, k, ia) else DeclaredIn(s.declared, k, ia.anchor)
  }

  /** The index holds a key exactly when the snapshot serves an anchor for it. */
  lemma {:induction false} IndexHolds(s: Snapshot, k: Key)
    ensures k in AnchorIndex(Some(s)) ==> Holds(s, k, AnchorIndex(Some(s))[k])
    ensures (exists ia :: Holds(s, k, ia)) ==> k in AnchorIndex(Some(s))
  {
    IndexTerritoriesAt(s.territories, k);
    IndexDeclaredAt(IndexTerritories(s.territories), s.declared, k);
  }

  lemma {:induction false} MapMember<T, U>(f: T -> U, s: seq<T>, y: U) returns (x: T)
    requires y in multiset(Map(f, s))
    ensures x in s && f(x) == y
  {
    var i :| 0 <= i < |Map(f, s)| && Map(f, s)[i] == y;
    x := s[i];
  }

  lemma {:induction false} MapHasImage<T, U>(f: T -> U, s: seq<T>, x: T)
    requires x in s
    ensures f(x) in multiset(Map(f, s))
  {
    var i :| 0 <= i < |s| && s[i] == x;
    assert Map(f, s)[i] == f(x);
  }

  /** A territory with data has a counterpart in any snapshot with equal trust content. */
  lemma {:induction false} TerritoryTransfers(a: Snapshot, b: Snapshot, t: Territory) returns (u: Territory)
    requires TrustContentOf(a) == TrustContentOf(b)
    requires t in a.territories && !t.failed
    ensures u in b.territories && !u.failed && TrustOfTerritory(u) == TrustOfTerritory(t)
  {
    SelectMembers(HasData, a.territories, t);
    MapHasImage(TrustOfTerritory, Select(HasData, a.territories), t);
    u := MapMember(TrustOfTerritory, Select(HasData, b.territories), TrustOfTerritory(t));
    SelectMembers(HasData, b.territories, u);
  }

  lemma {:induction false} ListedTransfers(a: Snapshot, b: Snapshot, k: Key, ia: Indexed) returns (ib: Indexed)
    requires forall t :: t in a.territories && t.failed ==> t.anchors == []
    requires TrustContentOf(a) == TrustContentOf(b)
    requires k.Listed? && Holds(a, k, ia)
    ensures Holds(b, k, ib) && ProjectAnchor(ia.anchor) == ProjectAnchor(ib.anchor)
  {
    var i :| 0 <= i < |a.territories| && a.territories[i].code == k.code == ia.territory && ia.anchor in a.territories[i].anchors;
    var u := TerritoryTransfers(a, b, a.territories[i]);
    MapHasImage(ProjectAnchor, a.territories[i].anchors, ia.anchor);
    var y := MapMember(ProjectAnchor, u.anchors, ProjectAnchor(ia.anchor));
    ib := Indexed(y, k.code);
  }

  /** Equal trust content: what one snapshot serves under a key the other serves too,
      with the same projection. */
  lemma {:induction false} HoldsTransfers(a: Snapshot, b: Snapshot, k: Key, ia: Indexed) returns (ib: Indexed)
    requires forall t :: t in a.territories && t.failed ==> t.anchors == []
    requires TrustContentOf(a) == TrustContentOf(b)
    requires Holds(a, k, ia)
    ensures Holds(b, k, ib) && ProjectAnchor(ia.anchor) == ProjectAnchor(ib.anchor)
  {
    if k.Listed? {
      ib := ListedTransfers(a, b, k, ia);
    } else {
      MapHasImage(ProjectAnchor, a.declared, ia.anchor);
      assert TrustContentOf(a).declared == TrustContentOf(b).declared;
      var y := MapMember(ProjectAnchor, b.declared, ProjectAnchor(ia.anchor));
      ib := Indexed(y, INTERNAL);
    }
  }

  lemma {:induction false} HoldsUnique(s: Snapshot, k: Key, x: Indexed, y: Indexed)
    requires Identifiable(s)
    requires Holds(s, k, x) && Holds(s, k, y)
    ensures x.anchor == y.anchor
  {
    if k.Listed? {
      var i :| 0 <= i < |s.territories| && s.territories[i].code == k.code && x.anchor in s.territories[i].anchors;
      var j :| 0 <= j < |s.territories| && s.territories[j].code == k.code && y.anchor in s.territories[j].anchors;
      CodeDeterminesEntry(s.territories, s.territories[i], s.territories[j]);
      FingerprintDeterminesAnchor(s.territories[i].anchors, x.anchor, y.anchor);
    } else {
      var i :| 0 <= i < |s.declared| && s.declared[i] == x.anchor;
      var j :| 0 <= j < |s.declared| && s.declared[j] == y.anchor;
      assert Map(DeclaredKey, s.declared)[i] == Map(DeclaredKey, s.declared)[j];
    }
  }

  lemma {:induction false} FingerprintDeterminesAnchor(anchors: seq<Anchor>, a: Anchor, b: Anchor)
    requires Distinct(Map(AnchorFingerprint, anchors))
    requires a in anchors && b in anchors && a.fingerprint == b.fingerprint
    ensures a == b
  {
    var i :| 0 <= i < |anchors| && anchors[i] == a;
    var j :| 0 <= j < |anchors| && anchors[j] == b;
    assert Map(AnchorFingerprint, anchors)[i] == Map(AnchorFingerprint, anchors)[j];
  }

  /** Equal ids: the indexes agree on keys and on every projected field. */
  lemma {:induction false} SameIdSameIndex(a: Snapshot, b: Snapshot, k: Key)
    requires Identifiable(a) && Identifiable(b)
    requires forall t :: t in a.territories && t.failed ==> t.anchors == []
    requires forall t :: t in b.territories && t.failed ==> t.anchors == []
    requires ContentId(a) == ContentId(b)
    ensures k in AnchorIndex(Some(a)) <==> k in AnchorIndex(Some(b))
    ensures k in AnchorIndex(Some(a)) ==>
              ProjectAnchor(AnchorIndex(Some(a))[k].anchor) == ProjectAnchor(AnchorIndex(Some(b))[k].anchor)
  {
    IdDeterminesTrust(a, b);
    IndexHolds(a, k);
    IndexHolds(b, k);
    if k in AnchorIndex(Some(a)) {
      var ib := HoldsTransfers(a, b, k, AnchorIndex(Some(a))[k]);
      HoldsUnique(b, k, ib, AnchorIndex(Some(b))[k]);
    }
    if k in AnchorIndex(Some(b)) {
      var ia := HoldsTransfers(b, a, k, AnchorIndex(Some(b))[k]);
    }
  }

  /** No silent trust change: with equal ids a diff holds nothing but renamed
      services, so any addition, removal, or change of status, QSCD flag or uses
      moves the id. */
  lemma {:induction false} NoSilentTrustChange(prev: Snapshot, next: Snapshot, entries: seq<DiffEntry>)
    requires Identifiable(prev) && Identifiable(next)
    requires forall t :: t in prev.territories && t.failed ==> t.anchors == []
    requires forall t :: t in next.territories && t.failed ==> t.anchors == []
    requires ContentId(prev) == ContentId(next)
    requires IsDiff(Some(prev), next, entries)
    ensures forall e :: e in entries ==> e.kind == Changed && e.detail == "service name changed"
  {
    var p, n := AnchorIndex(Some(prev)), AnchorIndex(Some(next));
    var keys :| Visits(keys, Changes(p, n).Keys) && multiset(entries) == multiset(EntriesOf(Changes(p, n), keys));
    forall e | e in entries ensures e.kind == Changed && e.detail == "service name changed" {
      ListedEntries(Changes(p, n), keys, entries, e);
      var k :| k in Changes(p, n) && Changes(p, n)[k] == e;
      SameIdSameIndex(prev, next, k);
      DetailIffDiffers(p[k], n[k]);
      ProjectionFixesMetadata(p[k].anchor, n[k].anchor);
    }
  }

  lemma {:induction false} ProjectionFixesMetadata(a: Anchor, b: Anchor)
    requires ProjectAnchor(a) == ProjectAnchor(b)
    ensures a.status == b.status && a.qcWithQSCD == b.qcWithQSCD && a.uses == b.uses
  {
  }
}
