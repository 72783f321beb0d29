/** What hold mode decides in one successful cycle, key by key. */
module HoldRuns {

  import opened Wrappers
  import opened Sequences
  import opened Trust
  import opened World
  import opened Identity
  import opened Lotl
  import opened LotlSource
  import opened Hold
  import opened Cycle
  import opened Invariant

  // ---- One cycle ----

  /** The territories a cycle ingests, before hold mode. */
  ghost function Incoming(w: World, cfg: Config, prev: Option<Snapshot>, in': CycleInput, l: LotlResult): seq<Territory> {
    Map(EntryOfOutcome, Outcomes(w, cfg, l.pointers, prev, in'.now, in'.up))
  }

  /** Hold mode in one cycle: served is what comes in and is kept, pending is what
      comes in and is not, and a key's FirstSeen survives while it is pending. */
  ghost predicate HoldDecides(cfg: Config, h: HoldContext, incoming: seq<Territory>, s: Snapshot) {
    && (forall key :: key in ServedKeys(s.territories) <==> key in ServedKeys(incoming) && (cfg.hold ==> Keeps(h, key)))
    && (forall key :: key in PendingSince(s.pending) <==> key in ServedKeys(incoming) && cfg.hold && !Keeps(h, key))
    && (forall key :: key in PendingSince(s.pending) ==>
          PendingSince(s.pending)[key] == if key in h.since then h.since[key] else h.now)
  }

  lemma {:induction false} HeldSince(w: World, h: HoldContext, ts: seq<Territory>, ps: seq<PendingAnchor>, key: AnchorKey)
    requires forall i :: 0 <= i < |ts| ==> TerritoryOk(w, ts[i])
    requires multiset(ps) == multiset(AllHeld(h, ts))
    ensures key in PendingSince(ps) <==> key in ServedKeys(ts) && !Keeps(h, key)
    ensures key in PendingSince(ps) ==> PendingSince(ps)[key] == if key in h.since then h.since[key] else h.now
  {
    PendingSinceAt(ps, key);
    if key in PendingSince(ps) {
      var i :| 0 <= i < |ps| && PendingKey(ps[i]) == key && ps[i].firstSeen == PendingSince(ps)[key];
      assert ps[i] in multiset(ps);
      HeldEntryOk(w, h, ts, ps[i]);
    }
    if key in ServedKeys(ts) && !Keeps(h, key) {
      ServedKeysAt(ts, key);
      var i, j :| 0 <= i < |ts| && 0 <= j < |ts[i].anchors| && ts[i].code == key.0 && ts[i].anchors[j].fingerprint == key.1;
      assert TerritoryOk(w, ts[i]);
      var p := PendingOf(h, ts[i].code)(ts[i].anchors[j]);
      assert HeldIn(h, ts[i], p);
      AllHeldMembers(h, ts, p);
      assert p in multiset(ps);
      var k :| 0 <= k < |ps| && ps[k] == p;
      assert PendingKey(p) == key;
    }
  }

  lemma {:induction false} CycleHoldDecides(w: World, cfg: Config, prev: Option<Snapshot>, boot: Bootstrap, in': CycleInput, l: LotlResult)
    requires prev.Some? ==> TerritoriesOk(w, prev.value.territories)
    ensures HoldDecides(cfg, ContextOf(cfg, prev, in'.now), Incoming(w, cfg, prev, in', l), Assemble(w, cfg, prev, boot, in', l))
  {
    hide Outcomes, Assemble, ApplyHold, DeclaredSet, ContentId, ServedKeys, PendingSince, AllHeld;
    var h, ts, s := ContextOf(cfg, prev, in'.now), Incoming(w, cfg, prev, in', l), Assemble(w, cfg, prev, boot, in', l);
    CycleEntriesOk(w, cfg, l.pointers, prev, in'.now, in'.up);
    AssembleFields(w, cfg, prev, boot, in', l);
    ApplyHoldShape(cfg, prev, DraftOf(w, cfg, prev, boot, in', l), in'.now);
    forall key
      ensures key in ServedKeys(s.territories) <==> key in ServedKeys(ts) && (cfg.hold ==> Keeps(h, key))
      ensures key in PendingSince(s.pending) <==> key in ServedKeys(ts) && cfg.hold && !Keeps(h, key)
      ensures key in PendingSince(s.pending) ==> PendingSince(s.pending)[key] == if key in h.since then h.since[key] else h.now
    {
      if cfg.hold {
        ServedAfterHold(h, ts, key);
        HeldSince(w, h, ts, s.pending, key);
      } else {
        PendingSinceAt(s.pending, key);
      }
    }
  }

  /** The same, for a successful run of the cycle. */
  lemma {:induction false} RunHoldDecides(w: World, cfg: Config, prev: Option<Snapshot>, boot: Bootstrap, in': CycleInput)
    requires prev.Some? ==> WellFormed(w, prev.value)
    requires RunCycle(w, cfg, prev, boot, in').Ok?
    ensures IngestLotl(w, cfg, prev, boot, in'.now, in'.up).Ok?
    ensures HoldDecides(cfg, ContextOf(cfg, prev, in'.now),
                        Incoming(w, cfg, prev, in', IngestLotl(w, cfg, prev, boot, in'.now, in'.up).value),
                        RunCycle(w, cfg, prev, boot, in').value)
  {
    hide RunCycle, Assemble, IngestLotl, HoldDecides, Incoming;
    CycleParts(w, cfg, prev, boot, in');
    CycleHoldDecides(w, cfg, prev, boot, in', IngestLotl(w, cfg, prev, boot, in'.now, in'.up).value);
  }
}
