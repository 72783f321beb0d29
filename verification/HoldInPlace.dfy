/** applyHoldMode as it runs: each territory's anchor storage is compacted in place
    (`kept := t.Anchors[:0]`), so the served snapshot must not share storage with
    the one being built. */
module HoldInPlace {

  import opened Sequences
  import opened Trust
  import opened Hold

  /** A territory of the snapshot under construction: a slice of anchor storage. */
  class Slot {
    const code: string
    const storage: array<Anchor>
    var len: nat

    constructor (code: string, anchors: seq<Anchor>)
      ensures this.code == code && fresh(storage)
      ensures Valid() && Contents() == anchors
    {
      this.code := code;
      this.storage := new Anchor[|anchors|](i requires 0 <= i < |anchors| => anchors[i]);
      this.len := |anchors|;
    }

    ghost predicate Valid()
      reads this
    {
      len <= storage.Length
    }

    function Contents(): seq<Anchor>
      requires Valid()
      reads this, storage
    {
      storage[..len]
    }
  }

  /** The pending entries one territory adds. */
  function HeldOf(h: HoldContext, code: string, anchors: seq<Anchor>): seq<PendingAnchor> {
    Map(PendingOf(h, code), Select(HoldingBack(h, code), anchors))
  }

  lemma {:induction false} SplitNext(h: HoldContext, code: string, anchors: seq<Anchor>, r: nat)
    requires r < |anchors|
    ensures Select(Keeping(h, code), anchors[..r + 1])
         == Select(Keeping(h, code), anchors[..r]) + if Keeps(h, (code, anchors[r].fingerprint)) then [anchors[r]] else []
    ensures HeldOf(h, code, anchors[..r + 1])
         == HeldOf(h, code, anchors[..r]) + if Keeps(h, (code, anchors[r].fingerprint)) then [] else [PendingOf(h, code)(anchors[r])]
  {
    assert anchors[..r + 1][..r] == anchors[..r];
    if !Keeps(h, (code, anchors[r].fingerprint)) {
      MapAppend(PendingOf(h, code), Select(HoldingBack(h, code), anchors[..r]), [anchors[r]]);
    }
  }

  lemma {:induction false} SplitStart(h: HoldContext, code: string, anchors: seq<Anchor>)
    ensures Select(Keeping(h, code), anchors[..0]) == [] && HeldOf(h, code, anchors[..0]) == []
  {
  }

  /** The compaction loop: kept anchors move to the front in their order, held ones
      go to pending, and only this slot's storage is written. */
  method Compact(h: HoldContext, t: Slot) returns (pending: seq<PendingAnchor>)
    requires t.Valid()
    modifies t`len, t.storage
    ensures t.Valid()
    ensures t.Contents() == Select(Keeping(h, t.code), old(t.Contents()))
    ensures pending == HeldOf(h, t.code, old(t.Contents()))
  {
    hide Select, HeldOf, Keeping;
    ghost var all := t.Contents();
    SplitStart(h, t.code, all);
    var kept := 0;
    pending := [];
    for r := 0 to t.len
      invariant kept <= r && t.len == |all|
      invariant t.storage[..kept] == Select(Keeping(h, t.code), all[..r])
      invariant pending == HeldOf(h, t.code, all[..r])
      invariant forall k :: r <= k < |all| ==> t.storage[k] == all[k]
    {
      var a := t.storage[r];
      var key := (t.code, a.fingerprint);
      SplitNext(h, t.code, all, r);
      if key in h.served || h.baseline {
        t.storage[kept] := a;
        kept := kept + 1;
      } else if key in h.since {
        if h.autoRelease > 0 && h.now - h.since[key] >= h.autoRelease {
          t.storage[kept] := a;
          kept := kept + 1;
        } else {
          pending := pending + [PendingAnchor(a, h.since[key])];
        }
      } else {
        pending := pending + [PendingAnchor(a, h.now)];
      }
    }
    assert all[..|all|] == all;
    t.len := kept;
  }

  /** Pairwise separate storage. */
  ghost predicate Separate(slots: seq<Slot>) {
    forall i, j :: 0 <= i < j < |slots| ==> slots[i] != slots[j] && slots[i].storage != slots[j].storage
  }

  /** The slots hold the given lists. */
  ghost predicate Contain(slots: seq<Slot>, lists: seq<seq<Anchor>>)
    requires |slots| == |lists|
    reads slots, set i | 0 <= i < |slots| :: slots[i].storage
  {
    forall i :: 0 <= i < |slots| ==> slots[i].Valid() && slots[i].Contents() == lists[i]
  }

  /** The pending entries of a list of territories, in territory order. */
  function HeldAll(h: HoldContext, codes: seq<string>, lists: seq<seq<Anchor>>): seq<PendingAnchor>
    requires |codes| == |lists|
  {
    if codes == [] then []
    else HeldAll(h, codes[..|codes| - 1], lists[..|lists| - 1]) + HeldOf(h, codes[|codes| - 1], lists[|lists| - 1])
  }

  lemma {:induction false} HeldAllNext(h: HoldContext, codes: seq<string>, lists: seq<seq<Anchor>>, i: nat)
    requires i < |codes| == |lists|
    ensures HeldAll(h, codes[..i + 1], lists[..i + 1]) == HeldAll(h, codes[..i], lists[..i]) + HeldOf(h, codes[i], lists[i])
  {
    assert codes[..i + 1][..i] == codes[..i] && lists[..i + 1][..i] == lists[..i];
  }

  /** The lists half way through the loop: kept up to i, untouched behind it. */
  ghost function Midway(h: HoldContext, codes: seq<string>, lists: seq<seq<Anchor>>, i: nat): (r: seq<seq<Anchor>>)
    requires i <= |codes| == |lists|
    ensures |r| == |lists|
  {
    KeptLists(h, codes, lists)[..i] + lists[i..]
  }

  lemma {:induction false} MidwayStep(h: HoldContext, codes: seq<string>, lists: seq<seq<Anchor>>, i: nat)
    requires i < |codes| == |lists|
    ensures Midway(h, codes, lists, i)[i] == lists[i]
    ensures Midway(h, codes, lists, i)[i := Select(Keeping(h, codes[i]), lists[i])] == Midway(h, codes, lists, i + 1)
  {
  }

  lemma {:induction false} MidwayEnds(h: HoldContext, codes: seq<string>, lists: seq<seq<Anchor>>)
    requires |codes| == |lists|
    ensures Midway(h, codes, lists, 0) == lists
    ensures Midway(h, codes, lists, |lists|) == KeptLists(h, codes, lists)
    ensures codes[..|lists|] == codes && lists[..|lists|] == lists
  {
  }

  /** The lists with the held anchors taken out. */
  function KeptLists(h: HoldContext, codes: seq<string>, lists: seq<seq<Anchor>>): (r: seq<seq<Anchor>>)
    requires |codes| == |lists|
    ensures |r| == |lists| && forall i :: 0 <= i < |r| ==> r[i] == Select(Keeping(h, codes[i]), lists[i])
  {
    seq(|lists|, i requires 0 <= i < |lists| => Select(Keeping(h, codes[i]), lists[i]))
  }

  /** The slots are those of the given territories, with separate storage. */
  ghost predicate SlotsFor(slots: seq<Slot>, codes: seq<string>) {
    && |slots| == |codes|
    && (forall i :: 0 <= i < |slots| ==> slots[i].code == codes[i])
    && Separate(slots)
  }

  /** applyHoldMode over all territories (before the final sort of pending). */
  method ApplyHoldMode(h: HoldContext, next: seq<Slot>, ghost codes: seq<string>, ghost lists: seq<seq<Anchor>>)
    returns (pending: seq<PendingAnchor>)
    requires |lists| == |next| && SlotsFor(next, codes) && Contain(next, lists)
    modifies next, set i | 0 <= i < |next| :: next[i].storage
    ensures Contain(next, KeptLists(h, codes, lists))
    ensures pending == HeldAll(h, codes, lists)
  {
    pending := [];
    MidwayEnds(h, codes, lists);
    for i := 0 to |next|
      invariant Contain(next, Midway(h, codes, lists, i))
      invariant pending == HeldAll(h, codes[..i], lists[..i])
    {
      MidwayStep(h, codes, lists, i);
      HeldAllNext(h, codes, lists, i);
      var held := CompactOne(h, next, i, Midway(h, codes, lists, i));
      pending := pending + held;
    }
  }

  /** Compacting one slot leaves the others alone. */
  method CompactOne(h: HoldContext, next: seq<Slot>, i: nat, ghost lists: seq<seq<Anchor>>) returns (held: seq<PendingAnchor>)
    requires i < |next| == |lists| && Separate(next) && Contain(next, lists)
    modifies next, set i | 0 <= i < |next| :: next[i].storage
    ensures Contain(next, lists[i := Select(Keeping(h, next[i].code), lists[i])])
    ensures held == HeldOf(h, next[i].code, lists[i])
  {
    held := Compact(h, next[i]);
    forall k | 0 <= k < |next| && k != i ensures next[k].Valid() && next[k].Contents() == lists[k] {
      assert next[k] != next[i] && next[k].storage != next[i].storage;
    }
  }

  /** Where a territory of the next snapshot gets its anchors: a fresh extraction,
      or a copy of the previous snapshot's storage (skip and carry-over). */
  datatype Origin = Listing(code: string, list: seq<Anchor>) | CopyOf(slot: Slot)

  function OriginCode(o: Origin): string {
    match o
    case Listing(code, _) => code
    case CopyOf(s) => s.code
  }

  ghost function OriginAnchors(o: Origin): seq<Anchor>
    requires o.CopyOf? ==> o.slot.Valid()
    reads if o.CopyOf? then {o.slot} else {}, if o.CopyOf? then {o.slot.storage} else {}
  {
    match o
    case Listing(_, list) => list
    case CopyOf(s) => s.Contents()
  }

  /** The origins hold the given lists. */
  ghost predicate Provide(origins: seq<Origin>, lists: seq<seq<Anchor>>)
    requires |origins| == |lists|
    reads set i | 0 <= i < |origins| && origins[i].CopyOf? :: origins[i].slot
    reads set i | 0 <= i < |origins| && origins[i].CopyOf? :: origins[i].slot.storage
  {
    forall i :: 0 <= i < |origins| ==>
      (origins[i].CopyOf? ==> origins[i].slot.Valid()) && OriginAnchors(origins[i]) == lists[i]
  }

  lemma {:induction false} SlotsForNext(slots: seq<Slot>, codes: seq<string>, s: Slot, code: string)
    requires SlotsFor(slots, codes)
    requires s.code == code
    requires forall i :: 0 <= i < |slots| ==> slots[i] != s && slots[i].storage != s.storage
    ensures SlotsFor(slots + [s], codes + [code])
  {
  }

  /** The copying half: every slot is new, with storage of its own. */
  method CopyOrigins(origins: seq<Origin>, ghost lists: seq<seq<Anchor>>) returns (next: seq<Slot>)
    requires |origins| == |lists| && Provide(origins, lists)
    ensures |next| == |origins| && SlotsFor(next, Map(OriginCode, origins)) && Contain(next, lists)
    ensures forall i :: 0 <= i < |next| ==> fresh(next[i]) && fresh(next[i].storage)
  {
    next := [];
    ghost var codes := Map(OriginCode, origins);
    for i := 0 to |origins|
      invariant |next| == i && SlotsFor(next, codes[..i]) && Contain(next, lists[..i])
      invariant forall k :: 0 <= k < i ==> fresh(next[k]) && fresh(next[k].storage)
    {
      var slot := CopyOrigin(origins[i], lists[i]);
      SlotsForNext(next, codes[..i], slot, codes[i]);
      assert codes[..i + 1] == codes[..i] + [codes[i]];
      next := next + [slot];
    }
    assert lists[..|origins|] == lists && codes[..|origins|] == codes;
  }

  method CopyOrigin(o: Origin, ghost list: seq<Anchor>) returns (slot: Slot)
    requires o.CopyOf? ==> o.slot.Valid()
    requires OriginAnchors(o) == list
    ensures fresh(slot) && fresh(slot.storage) && slot.code == OriginCode(o)
    ensures slot.Valid() && slot.Contents() == list
  {
    match o
    case Listing(code, l) => slot := new Slot(code, l);
    case CopyOf(s) => slot := new Slot(s.code, s.Contents());
  }

  /** Building the next territories and holding additions writes nothing that
      existed before: there is no modifies clause, so every slot of the previous
      snapshot keeps its storage, on the fresh, skip and carry-over paths alike. */
  method BuildAndHold(h: HoldContext, origins: seq<Origin>, ghost codes: seq<string>, ghost lists: seq<seq<Anchor>>)
    returns (next: seq<Slot>, pending: seq<PendingAnchor>)
    requires codes == Map(OriginCode, origins)
    requires |origins| == |lists| && Provide(origins, lists)
    ensures |next| == |origins| && SlotsFor(next, codes) && Contain(next, KeptLists(h, codes, lists))
    ensures forall i :: 0 <= i < |next| ==> fresh(next[i]) && fresh(next[i].storage)
    ensures pending == HeldAll(h, codes, lists)
    ensures Provide(origins, lists)
  {
    hide Contain, KeptLists, HeldAll, Map, Separate;
    next := CopyOrigins(origins, lists);
    pending := ApplyHoldMode(h, next, codes, lists);
  }

  /** The anchor lists the slots hold. */
  method ReadSlots(slots: seq<Slot>, ghost lists: seq<seq<Anchor>>) returns (r: seq<seq<Anchor>>)
    requires |slots| == |lists| && Contain(slots, lists)
    ensures r == lists
  {
    r := [];
    for i := 0 to |slots|
      invariant |r| == i && forall k :: 0 <= k < i ==> r[k] == lists[k]
    {
      r := r + [slots[i].Contents()];
    }
  }
}
