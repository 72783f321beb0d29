/** Hold mode (ingest/pipeline.go applyHoldMode): additions wait, removals apply at
    once. The function form here; the in-place form in HoldInPlace. */
module Hold {

  import opened Wrappers
  import opened Sequences
  import opened Order
  import opened Trust
  import opened Lotl

  /** (territory, fingerprint) */
  type AnchorKey = (string, string)

  /** The source joins the two parts of a key into one text. */
  function JoinedAnchorKey(k: AnchorKey): string {
    k.0 + "/" + k.1
  }

  /** Joining loses nothing, whatever the codes hold: the fingerprints hold no slash, so
      looking a joined key up among joined keys is looking the pair up. */
  lemma {:induction false} JoinedLookup(keys: set<AnchorKey>, k: AnchorKey)
    requires '/' !in k.1 && forall j :: j in keys ==> '/' !in j.1
    ensures JoinedAnchorKey(k) in (set j | j in keys :: JoinedAnchorKey(j)) <==> k in keys
  {
    if j :| j in keys && JoinedAnchorKey(j) == JoinedAnchorKey(k) {
      CutAtLastSlash(j.0, k.0, j.1, k.1);
    }
  }

  function KeysOf(code: string, anchors: seq<Anchor>): set<AnchorKey> {
    set i | 0 <= i < |anchors| :: (code, anchors[i].fingerprint)
  }

  /** The served list anchors by key. */
  function ServedKeys(ts: seq<Territory>): set<AnchorKey> {
    if ts == [] then {} else ServedKeys(ts[..|ts| - 1]) + KeysOf(ts[|ts| - 1].code, ts[|ts| - 1].anchors)
  }

  function PendingKey(p: PendingAnchor): AnchorKey {
    (p.anchor.territory, p.anchor.fingerprint)
  }

  /** FirstSeen by key; a repeated key keeps its last entry. */
  function PendingSince(ps: seq<PendingAnchor>): map<AnchorKey, Instant> {
    if ps == [] then map[]
    else PendingSince(ps[..|ps| - 1])[PendingKey(ps[|ps| - 1]) := ps[|ps| - 1].firstSeen]
  }

  /** What a hold decision looks at. */
  datatype HoldContext = HoldContext(
    baseline: bool,
    served: set<AnchorKey>,
    since: map<AnchorKey, Instant>,
    autoRelease: int,
    now: Instant)

  function ContextOf(cfg: Config, prev: Option<Snapshot>, now: Instant): HoldContext {
    match prev
    case None => HoldContext(true, {}, map[], cfg.holdAutoRelease, now)
    case Some(s) => HoldContext(false, ServedKeys(s.territories), PendingSince(s.pending), cfg.holdAutoRelease, now)
  }

  /** The auto-release window of a pending key has elapsed. */
  predicate Released(h: HoldContext, key: AnchorKey) {
    key in h.since && h.autoRelease > 0 && h.now - h.since[key] >= h.autoRelease
  }

  predicate Keeps(h: HoldContext, key: AnchorKey) {
    h.baseline || key in h.served || Released(h, key)
  }

  function Keeping(h: HoldContext, code: string): Anchor -> bool {
    (a: Anchor) => Keeps(h, (code, a.fingerprint))
  }

  function HoldingBack(h: HoldContext, code: string): Anchor -> bool {
    (a: Anchor) => !Keeps(h, (code, a.fingerprint))
  }

  function PendingOf(h: HoldContext, code: string): Anchor -> PendingAnchor {
    (a: Anchor) => PendingAnchor(a, if (code, a.fingerprint) in h.since then h.since[(code, a.fingerprint)] else h.now)
  }

  function HoldTerritory(h: HoldContext): Territory -> Territory {
    (t: Territory) => t.(anchors := Select(Keeping(h, t.code), t.anchors))
  }

  function HeldFrom(h: HoldContext): Territory -> seq<PendingAnchor> {
    (t: Territory) => Map(PendingOf(h, t.code), Select(HoldingBack(h, t.code), t.anchors))
  }

  predicate PendingLe(a: PendingAnchor, b: PendingAnchor) {
    KeyLe([a.anchor.fingerprint], [b.anchor.fingerprint])
  }

  /** The snapshot under construction with hold mode applied. */
  function ApplyHold(cfg: Config, prev: Option<Snapshot>, next: Snapshot, now: Instant): Snapshot {
    if !cfg.hold then next
    else
      var h := ContextOf(cfg, prev, now);
      next.(territories := Map(HoldTerritory(h), next.territories),
            pending := SortBy(PendingLe, next.pending + Flatten(Map(HeldFrom(h), next.territories))))
  }

  // ---- The split ----

  /** Every incoming anchor is either kept or newly pending, never both, never lost. */
  lemma {:induction false} HoldSplits(h: HoldContext, code: string, anchors: seq<Anchor>)
    ensures multiset(anchors) == multiset(Select(Keeping(h, code), anchors)) + multiset(Select(HoldingBack(h, code), anchors))
    decreases |anchors|
  {
    if anchors != [] {
      var n := |anchors| - 1;
      HoldSplits(h, code, anchors[..n]);
      MultisetLast(anchors);
    }
  }

  // ---- Membership ----

  lemma {:induction false} ServedKeysAt(ts: seq<Territory>, key: AnchorKey)
    ensures key in ServedKeys(ts)
       <==> exists i, j :: 0 <= i < |ts| && 0 <= j < |ts[i].anchors| && ts[i].code == key.0 && ts[i].anchors[j].fingerprint == key.1
    decreases |ts|
  {
    if ts != [] {
      var n := |ts| - 1;
      ServedKeysAt(ts[..n], key);
      if i, j :| 0 <= i < |ts| && 0 <= j < |ts[i].anchors| && ts[i].code == key.0 && ts[i].anchors[j].fingerprint == key.1 {
        if i < n {
          assert ts[..n][i] == ts[i];
        }
      }
      if key in ServedKeys(ts[..n]) {
        var i, j :| 0 <= i < n && 0 <= j < |ts[..n][i].anchors| && ts[..n][i].code == key.0 && ts[..n][i].anchors[j].fingerprint == key.1;
        assert ts[..n][i] == ts[i];
      }
    }
  }

  lemma {:induction false} PendingSinceAt(ps: seq<PendingAnchor>, key: AnchorKey)
    ensures key in PendingSince(ps) <==> exists i :: 0 <= i < |ps| && PendingKey(ps[i]) == key
    ensures key in PendingSince(ps) ==>
              exists i :: 0 <= i < |ps| && PendingKey(ps[i]) == key && ps[i].firstSeen == PendingSince(ps)[key]
    decreases |ps|
  {
    if ps != [] {
      var n := |ps| - 1;
      PendingSinceAt(ps[..n], key);
      if key in PendingSince(ps[..n]) {
        var i :| 0 <= i < n && PendingKey(ps[..n][i]) == key && ps[..n][i].firstSeen == PendingSince(ps[..n])[key];
        assert ps[..n][i] == ps[i];
      }
      if i :| 0 <= i < |ps| && PendingKey(ps[i]) == key && i < n {
        assert ps[..n][i] == ps[i];
      }
    }
  }

  /** With distinct keys, FirstSeen by key is the entry's own. */
  lemma {:induction false} PendingSinceUnique(ps: seq<PendingAnchor>, i: nat)
    requires i < |ps|
    requires Distinct(Map(PendingKey, ps))
    ensures PendingKey(ps[i]) in PendingSince(ps) && PendingSince(ps)[PendingKey(ps[i])] == ps[i].firstSeen
  {
    var key := PendingKey(ps[i]);
    PendingSinceAt(ps, key);
    var j :| 0 <= j < |ps| && PendingKey(ps[j]) == key && ps[j].firstSeen == PendingSince(ps)[key];
    assert Map(PendingKey, ps)[i] == Map(PendingKey, ps)[j];
  }
}
