/** trust/diff.go: when the order of a diff is independent of the order in which its
    maps are read. */
module DiffOrder {

  import opened Wrappers
  import opened Sequences
  import opened Order
  import opened Trust
  import opened Identity
  import opened Differences

  // ---- In terms of the computed changes ----

  /** No two changes share a sort key without being equal. */
  ghost predicate ChangesSeparate(changes: map<Key, DiffEntry>) {
    forall j, k :: j in changes && k in changes && EntrySortKey(changes[j]) == EntrySortKey(changes[k]) ==> changes[j] == changes[k]
  }

  lemma {:induction false} SwapTie(s: seq<DiffEntry>, i: nat, j: nat)
    requires SortedBy(EntryLe, s) && i < |s| && j < |s| && i != j
    requires EntrySortKey(s[i]) == EntrySortKey(s[j])
    ensures var t := s[i := s[j]][j := s[i]]; SortedBy(EntryLe, t) && multiset(t) == multiset(s)
  {
    var t := s[i := s[j]][j := s[i]];
    assert forall k :: 0 <= k < |s| ==> EntrySortKey(t[k]) == EntrySortKey(s[k]);
    forall a, b | 0 <= a < b < |t| ensures EntryLe(t[a], t[b]) {
      assert EntryLe(s[a], s[b]);
    }
  }

  lemma {:induction false} SeparateUnique(prev: Option<Snapshot>, next: Snapshot, one: seq<DiffEntry>, two: seq<DiffEntry>)
    requires ChangesSeparate(Changes(AnchorIndex(prev), AnchorIndex(Some(next))))
    requires IsDiff(prev, next, one) && IsDiff(prev, next, two)
    ensures one == two
  {
    hide Changes, AnchorIndex, EntriesOf;
    var changes := Changes(AnchorIndex(prev), AnchorIndex(Some(next)));
    var k1 :| Visits(k1, changes.Keys) && multiset(one) == multiset(EntriesOf(changes, k1));
    var k2 :| Visits(k2, changes.Keys) && multiset(two) == multiset(EntriesOf(changes, k2));
    EntriesPermute(changes, k1, k2);
    forall x, y | x in one && y in one && EntryLe(x, y) && EntryLe(y, x) ensures x == y {
      ListedEntries(changes, k1, one, x);
      ListedEntries(changes, k1, one, y);
      KeyLeTotal(EntrySortKey(x), EntrySortKey(y));
    }
    EntryOrder();
    SortedUnique(EntryLe, one, two);
  }

  lemma {:induction false} TiedOther(prev: Option<Snapshot>, next: Snapshot, one: seq<DiffEntry>) returns (two: seq<DiffEntry>)
    requires IsDiff(prev, next, one)
    requires !ChangesSeparate(Changes(AnchorIndex(prev), AnchorIndex(Some(next))))
    ensures IsDiff(prev, next, two) && two != one
  {
    hide Changes, AnchorIndex, EntriesOf, EntrySortKey;
    var changes := Changes(AnchorIndex(prev), AnchorIndex(Some(next)));
    var keys :| Visits(keys, changes.Keys) && multiset(one) == multiset(EntriesOf(changes, keys));
    var j, k :| j in changes && k in changes && EntrySortKey(changes[j]) == EntrySortKey(changes[k]) && changes[j] != changes[k];
    ListedEntries(changes, keys, one, changes[j]);
    ListedEntries(changes, keys, one, changes[k]);
    var a :| 0 <= a < |one| && one[a] == changes[j];
    var b :| 0 <= b < |one| && one[b] == changes[k];
    SwapTie(one, a, b);
    two := one[a := one[b]][b := one[a]];
    assert two[a] != one[a];
  }

  // ---- In terms of the two snapshots ----

  function PlaneOf(k: Key): string {
    if k.Listed? then k.code else INTERNAL
  }

  /** The snapshot serves the anchor under the key: a territory of the code lists the
      certificate, or it is declared with the type. */
  ghost predicate At(s: Option<Snapshot>, k: Key, a: Anchor) {
    s.Some? && a.fingerprint == k.fingerprint
    && match k
       case Listed(code, _) => exists t :: t in s.value.territories && t.code == code && a in t.anchors
       case Declared(_, anchorType) => a in s.value.declared && a.anchorType == anchorType
  }

  lemma {:induction false} AtIff(s: Snapshot, k: Key, a: Anchor)
    ensures At(Some(s), k, a) <==> Holds(s, k, Indexed(a, PlaneOf(k)))
  {
    if k.Listed? {
      if t :| t in s.territories && t.code == k.code && a in t.anchors && a.fingerprint == k.fingerprint {
        var i :| 0 <= i < |s.territories| && s.territories[i] == t;
        assert s.territories[i].code == k.code;
      }
      if Holds(s, k, Indexed(a, PlaneOf(k))) {
        var i :| 0 <= i < |s.territories| && s.territories[i].code == k.code && a in s.territories[i].anchors;
        assert s.territories[i] in s.territories;
      }
    }
  }

  ghost predicate Absent(s: Option<Snapshot>, k: Key) {
    forall a :: !At(s, k, a)
  }

  /** What happened under the key between the snapshots, and the anchor to show for it. */
  ghost predicate Fate(prev: Option<Snapshot>, next: Snapshot, k: Key, kind: DiffKind, shown: Anchor) {
    match kind
    case Added => Absent(prev, k) && At(Some(next), k, shown)
    case Removed => At(prev, k, shown) && Absent(Some(next), k)
    case Changed => At(Some(next), k, shown) && exists a :: At(prev, k, a) && Restated(a, shown)
  }

  /** The status, the device mark, the uses or the service name is another. */
  ghost predicate Restated(a: Anchor, b: Anchor) {
    a.status != b.status || a.qcWithQSCD != b.qcWithQSCD || a.uses != b.uses || a.serviceName != b.serviceName
  }

  /** A certificate fared alike, under one type, in a territory coded like the
      declared plane and among the declared anchors. */
  ghost predicate FaresAlike(prev: Option<Snapshot>, next: Snapshot, kind: DiffKind, a: Anchor, b: Anchor) {
    && a.fingerprint == b.fingerprint && a.anchorType == b.anchorType
    && Fate(prev, next, Listed(INTERNAL, a.fingerprint), kind, a)
    && Fate(prev, next, Key.Declared(b.fingerprint, b.anchorType), kind, b)
  }

  ghost predicate Tied(prev: Option<Snapshot>, next: Snapshot) {
    exists kind, a, b :: FaresAlike(prev, next, kind, a, b)
  }

  ghost predicate Sound(s: Option<Snapshot>) {
    SourcesMarked(s) && (s.Some? ==> Identifiable(s.value))
  }

  /** The index is what the snapshot serves. */
  lemma {:induction false} IndexAt(s: Option<Snapshot>, k: Key, a: Anchor)
    requires Sound(s)
    ensures At(s, k, a) <==> k in AnchorIndex(s) && AnchorIndex(s)[k].anchor == a
  {
    hide AnchorIndex, Identifiable, At, Holds;
    IndexFaithful(s);
    if s.Some? {
      IndexHolds(s.value, k);
      AtIff(s.value, k, a);
      if k in AnchorIndex(s) {
        AtIff(s.value, k, AnchorIndex(s)[k].anchor);
        IndexPlane(AnchorIndex(s), k);
      }
      if At(s, k, a) {
        HoldsUnique(s.value, k, Indexed(a, PlaneOf(k)), AnchorIndex(s)[k]);
      }
    } else {
      EmptyIndex(k);
    }
  }

  lemma {:induction false} IndexPlane(ix: Index, k: Key)
    requires KeysFaithful(ix) && k in ix
    ensures ix[k] == Indexed(ix[k].anchor, PlaneOf(k))
  {
  }

  lemma {:induction false} EmptyIndex(k: Key)
    ensures k !in AnchorIndex(None) && forall a :: !At(None, k, a)
  {
  }

  lemma {:induction false} IndexAbsent(s: Option<Snapshot>, k: Key)
    requires Sound(s)
    ensures Absent(s, k) <==> k !in AnchorIndex(s)
  {
    hide AnchorIndex, Sound, At;
    if k in AnchorIndex(s) {
      IndexAt(s, k, AnchorIndex(s)[k].anchor);
    }
    forall a ensures k !in AnchorIndex(s) ==> !At(s, k, a) {
      IndexAt(s, k, a);
    }
  }

  function Shown(prev: Index, next: Index, k: Key): Anchor
    requires k in prev || k in next
  {
    if k in next then next[k].anchor else prev[k].anchor
  }

  /** A fate is a change, seen in the snapshots. */
  lemma {:induction false} FateIsChange(prev: Option<Snapshot>, next: Snapshot, k: Key, kind: DiffKind, a: Anchor)
    requires Sound(prev) && Sound(Some(next))
    ensures var p, n := AnchorIndex(prev), AnchorIndex(Some(next));
            Fate(prev, next, k, kind, a) <==> k in Changes(p, n) && Changes(p, n)[k].kind == kind && Shown(p, n, k) == a
  {
    hide AnchorIndex, Sound, At, Absent;
    var p, n := AnchorIndex(prev), AnchorIndex(Some(next));
    IndexAt(prev, k, a);
    IndexAt(Some(next), k, a);
    IndexAbsent(prev, k);
    IndexAbsent(Some(next), k);
    if k in p {
      IndexAt(prev, k, p[k].anchor);
    }
    forall x | At(prev, k, x) ensures k in p && p[k].anchor == x {
      IndexAt(prev, k, x);
    }
  }

  lemma {:induction false} TieSharesKey(prev: Option<Snapshot>, next: Snapshot)
    requires Sound(prev) && Sound(Some(next))
    requires Tied(prev, next)
    ensures !ChangesSeparate(Changes(AnchorIndex(prev), AnchorIndex(Some(next))))
  {
    hide AnchorIndex, Fate;
    var p, n := AnchorIndex(prev), AnchorIndex(Some(next));
    IndexFaithful(prev);
    IndexFaithful(Some(next));
    var kind, a, b :| FaresAlike(prev, next, kind, a, b);
    var j, k := Listed(INTERNAL, a.fingerprint), Key.Declared(b.fingerprint, b.anchorType);
    FateIsChange(prev, next, j, kind, a);
    FateIsChange(prev, next, k, kind, b);
    var x, y := Changes(p, n)[j], Changes(p, n)[k];
    assert x.source != y.source;
    assert EntrySortKey(x) == EntrySortKey(y);
  }

  lemma {:induction false} SortKeyTells(x: DiffEntry, y: DiffEntry)
    requires EntrySortKey(x) == EntrySortKey(y)
    ensures x.territory == y.territory && x.kind == y.kind && x.fingerprint == y.fingerprint && x.anchorType == y.anchorType
  {
    var s, t := EntrySortKey(x), EntrySortKey(y);
    assert s[0] == t[0] && s[1] == t[1] && s[2] == t[2] && s[3] == t[3];
    assert KindText(Added) == "added" && KindText(Changed) == "changed" && KindText(Removed) == "removed";
    assert "added"[0] != "changed"[0] && "added"[0] != "removed"[0] && "changed"[0] != "removed"[0];
  }

  /** A change, taken apart. */
  lemma {:induction false} ChangeAt(p: Index, n: Index, k: Key)
    requires KeysFaithful(p) && KeysFaithful(n) && k in Changes(p, n)
    ensures var e := Changes(p, n)[k];
            && e.territory == PlaneOf(k) && e.fingerprint == k.fingerprint == Shown(p, n, k).fingerprint
            && e.anchorType == Shown(p, n, k).anchorType
            && (k.Declared? ==> e.anchorType == k.anchorType)
  {
  }

  lemma {:induction false} SharedKeyIsTie(prev: Option<Snapshot>, next: Snapshot)
    requires Sound(prev) && Sound(Some(next))
    requires !ChangesSeparate(Changes(AnchorIndex(prev), AnchorIndex(Some(next))))
    ensures Tied(prev, next)
  {
    hide AnchorIndex, Fate, Changes, EntrySortKey, KeysFaithful;
    var p, n := AnchorIndex(prev), AnchorIndex(Some(next));
    var changes := Changes(p, n);
    IndexFaithful(prev);
    IndexFaithful(Some(next));
    var j, k :| j in changes && k in changes && EntrySortKey(changes[j]) == EntrySortKey(changes[k]) && changes[j] != changes[k];
    SortKeyTells(changes[j], changes[k]);
    ChangeAt(p, n, j);
    ChangeAt(p, n, k);
    ChangedSomewhere(p, n, j);
    ChangedSomewhere(p, n, k);
    var kind, a, b := changes[j].kind, Shown(p, n, j), Shown(p, n, k);
    FateIsChange(prev, next, j, kind, a);
    FateIsChange(prev, next, k, kind, b);
    assert j.Listed? != k.Listed?;
    assert FaresAlike(prev, next, kind, a, b) || FaresAlike(prev, next, kind, b, a);
  }

  lemma {:induction false} ChangedSomewhere(p: Index, n: Index, k: Key)
    requires k in Changes(p, n)
    ensures k in p || k in n
  {
  }

  /** The entry list is independent of the map iteration order exactly when no
      certificate of a territory coded "internal" fares like a declared anchor of the
      same certificate and type. */
  lemma {:induction false} DiffDeterministicIff(prev: Option<Snapshot>, next: Snapshot, one: seq<DiffEntry>)
    requires Sound(prev) && Sound(Some(next))
    requires IsDiff(prev, next, one)
    ensures (forall two :: IsDiff(prev, next, two) ==> two == one) <==> !Tied(prev, next)
  {
    hide Changes, AnchorIndex, Tied, Sound, IsDiff, ChangesSeparate;
    if Tied(prev, next) {
      TieSharesKey(prev, next);
      var two := TiedOther(prev, next, one);
    } else {
      if !ChangesSeparate(Changes(AnchorIndex(prev), AnchorIndex(Some(next)))) {
        SharedKeyIsTie(prev, next);
      }
      forall two | IsDiff(prev, next, two) ensures two == one {
        SeparateUnique(prev, next, two, one);
      }
    }
  }

  // ---- What a diff says ----

  /** The entry shows the anchor, under the key's plane. */
  ghost predicate Shows(e: DiffEntry, k: Key, a: Anchor) {
    && e.territory == (if k.Listed? then k.code else "internal")
    && e.fingerprint == a.fingerprint && e.anchorType == a.anchorType && e.tspName == a.tspName
    && e.serviceName == a.serviceName && e.status == a.status && e.source == a.source
  }

  /** The text names the first of the compared fields that is another. */
  ghost predicate Names(detail: string, old': Anchor, next: Anchor) {
    if old'.status != next.status then detail == "status: " + old'.status + " -> " + next.status
    else if old'.qcWithQSCD != next.qcWithQSCD then detail == "qcWithQscd changed"
    else if old'.uses != next.uses then detail == "uses changed"
    else old'.serviceName != next.serviceName && detail == "service name changed"
  }

  /** The entry tells what happened under the key between the snapshots: an addition and
      a change show the new anchor, a removal the old one. */
  ghost predicate Tells(prev: Option<Snapshot>, next: Snapshot, k: Key, e: DiffEntry) {
    match e.kind
    case Added => e.detail == "" && Absent(prev, k) && exists a :: At(Some(next), k, a) && Shows(e, k, a)
    case Removed => e.detail == "" && Absent(Some(next), k) && exists a :: At(prev, k, a) && Shows(e, k, a)
    case Changed => exists a, b :: At(prev, k, a) && At(Some(next), k, b) && Names(e.detail, a, b) && Shows(e, k, b)
  }

  /** By territory, kind, fingerprint and type. */
  ghost predicate EntryBefore(a: DiffEntry, b: DiffEntry) {
    if a.territory != b.territory then StringLe(a.territory, b.territory)
    else if a.kind != b.kind then a.kind == Added || b.kind == Removed
    else if a.fingerprint != b.fingerprint then StringLe(a.fingerprint, b.fingerprint)
    else StringLe(a.anchorType, b.anchorType)
  }

  lemma {:induction false} KindOrder(a: DiffKind, b: DiffKind)
    requires a != b
    ensures KindText(a) != KindText(b)
    ensures StringLe(KindText(a), KindText(b)) <==> a == Added || b == Removed
  {
    assert "added"[0] == 'a' && "changed"[0] == 'c' && "removed"[0] == 'r';
  }

  lemma {:induction false} OrderMeans(a: DiffEntry, b: DiffEntry)
    requires EntryLe(a, b)
    ensures EntryBefore(a, b)
  {
    hide StringLe, KindText;
    KeyLeFour(a.territory, KindText(a.kind), a.fingerprint, a.anchorType, b.territory, KindText(b.kind), b.fingerprint, b.anchorType);
    if a.kind != b.kind {
      KindOrder(a.kind, b.kind);
    }
  }

  lemma {:induction false} NamesIff(detail: string, a: Indexed, b: Indexed)
    ensures Names(detail, a.anchor, b.anchor) <==> Differs(a, b) && detail == MetadataChange(a, b)
  {
  }

  lemma {:induction false} ShowsIff(e: DiffEntry, k: Key, ia: Indexed)
    requires ia.territory == PlaneOf(k)
    ensures Shows(e, k, ia.anchor) <==> e == Entry(e.kind, ia, e.detail)
  {
  }

  /** An entry tells about a key exactly when it is the change computed there. */
  lemma {:induction false} TellsIff(prev: Option<Snapshot>, next: Snapshot, k: Key, e: DiffEntry)
    requires Sound(prev) && Sound(Some(next))
    ensures var changes := Changes(AnchorIndex(prev), AnchorIndex(Some(next)));
            Tells(prev, next, k, e) <==> k in changes && changes[k] == e
  {
    hide AnchorIndex, Sound, At, Absent, Shows, Names, MetadataChange, Differs, Entry, KeysFaithful;
    var p, n := AnchorIndex(prev), AnchorIndex(Some(next));
    SoundFaithful(prev);
    SoundFaithful(Some(next));
    IndexAbsent(prev, k);
    IndexAbsent(Some(next), k);
    forall a ensures At(prev, k, a) <==> k in p && p[k].anchor == a {
      IndexAt(prev, k, a);
    }
    forall a ensures At(Some(next), k, a) <==> k in n && n[k].anchor == a {
      IndexAt(Some(next), k, a);
    }
    if k in p {
      IndexPlane(p, k);
      ShowsIff(e, k, p[k]);
    }
    if k in n {
      IndexPlane(n, k);
      ShowsIff(e, k, n[k]);
    }
    if k in p && k in n {
      NamesIff(e.detail, p[k], n[k]);
    }
    EntryParts(e, p, n, k);
  }

  lemma {:induction false} EntryParts(e: DiffEntry, p: Index, n: Index, k: Key)
    ensures k in n ==> Entry(Added, n[k], "").kind == Added && Entry(Added, n[k], "").detail == ""
    ensures k in p ==> Entry(Removed, p[k], "").kind == Removed && Entry(Removed, p[k], "").detail == ""
    ensures k in p && k in n ==> var c := Entry(Changed, n[k], MetadataChange(p[k], n[k])); c.kind == Changed && c.detail == MetadataChange(p[k], n[k])
  {
  }

  lemma {:induction false} SoundFaithful(s: Option<Snapshot>)
    requires Sound(s)
    ensures KeysFaithful(AnchorIndex(s))
  {
    IndexFaithful(s);
  }

  /** The entries of a diff are exactly those that tell what happened under some key, one
      per key, in order. */
  lemma {:induction false} DiffMeans(prev: Option<Snapshot>, next: Snapshot, entries: seq<DiffEntry>)
    requires Sound(prev) && Sound(Some(next))
    requires IsDiff(prev, next, entries)
    ensures forall e :: e in entries <==> exists k :: Tells(prev, next, k, e)
    ensures forall i, j :: 0 <= i < j < |entries| ==> KeyOf(entries[i]) != KeyOf(entries[j]) && EntryBefore(entries[i], entries[j])
  {
    hide AnchorIndex, Changes, Tells, EntryBefore, EntryLe, KeyOf, Identifiable;
    EntriesAreChanges(prev, next, entries);
    var changes := Changes(AnchorIndex(prev), AnchorIndex(Some(next)));
    forall e ensures e in entries <==> exists k :: Tells(prev, next, k, e) {
      if e in entries {
        var k :| k in changes && changes[k] == e;
        TellsIff(prev, next, k, e);
      }
      if k :| Tells(prev, next, k, e) {
        TellsIff(prev, next, k, e);
      }
    }
    forall i, j | 0 <= i < j < |entries| ensures KeyOf(entries[i]) != KeyOf(entries[j]) && EntryBefore(entries[i], entries[j]) {
      var ks := Map(KeyOf, entries);
      assert ks[i] != ks[j];
      OrderMeans(entries[i], entries[j]);
    }
  }
}
