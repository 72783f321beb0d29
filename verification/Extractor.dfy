/** trust/extract.go as it runs: accumulating loops, a sort, and a merge that
    rewrites the candidate storage in place. */
module Extractor {

  import opened Wrappers
  import opened Sequences
  import opened Order
  import opened Trust
  import opened World
  import opened Identity
  import opened Extraction

  /** serviceIdentities: the certificates that become anchors and the skips. */
  method ServiceIdentities(w: World, e: Entry) returns (ids: seq<Bytes>, warnings: seq<Warning>)
    ensures ids == ServiceCerts(w, e.service)
    ensures warnings == IdentityWarnings(w, e)
  {
    match e.service.identities
    case Err(text) =>
      return [], [Warning(e.tspName, e.service.name, text, SKIP_INVALID, "", "", "")];
    case Ok(ders) =>
      ids, warnings := [], [];
      for i := 0 to |ders|
        invariant ids == Select(Holding(w), ders[..i])
        invariant warnings == Map(RefusalWarning(w, e), Select(Refusing(w), ders[..i]))
      {
        assert ders[..i + 1][..i] == ders[..i];
        if w.certificate(ders[i]).Refused? {
          warnings := warnings + [RefusalWarning(w, e)(ders[i])];
        } else {
          ids := ids + [ders[i]];
        }
      }
      assert ders[..|ders|] == ders;
  }

  /** serviceQualifications: the uses, in first-occurrence order. */
  method Uses(exts: seq<ServiceExtension>) returns (uses: seq<string>)
    ensures uses == ServiceUses(exts)
  {
    uses := [];
    for i := 0 to |exts|
      invariant uses == ServiceUses(exts[..i])
    {
      assert exts[..i + 1][..i] == exts[..i];
      var u := UseOf(exts[i]);
      if u.Some? && u.value !in uses {
        uses := uses + [u.value];
      }
    }
    assert exts[..|exts|] == exts;
  }

  /** The entries the nested loops have visited: providers before i, then the
      first j services of provider i. */
  ghost function Visited(providers: seq<Provider>, i: nat, j: nat): seq<Entry>
    requires i < |providers| && j <= |providers[i].services|
  {
    Entries(providers[..i]) + ProviderEntries(providers[i])[..j]
  }

  lemma {:induction false} VisitedNext(providers: seq<Provider>, i: nat, j: nat)
    requires i < |providers| && j < |providers[i].services|
    ensures Visited(providers, i, j + 1) == Visited(providers, i, j) + [Entry(providers[i].name, providers[i].services[j])]
  {
  }

  lemma {:induction false} VisitedProvider(providers: seq<Provider>, i: nat)
    requires i < |providers|
    ensures Visited(providers, i, |providers[i].services|) == Entries(providers[..i + 1])
    ensures Visited(providers, i, 0) == Entries(providers[..i])
  {
    assert providers[..i + 1] == providers[..i] + [providers[i]];
    assert Map(ProviderEntries, providers[..i + 1])[..i] == Map(ProviderEntries, providers[..i]);
  }

  lemma {:induction false} StatusesNext(w: World, p: Policy, entries: seq<Entry>, e: Entry)
    ensures StatusesByCert(w, p, entries + [e])
         == if Admitted(p, e) then AddStatuses(w, StatusesByCert(w, p, entries), ServiceCerts(w, e.service), e.service.status)
            else StatusesByCert(w, p, entries)
  {
    assert (entries + [e])[..|entries|] == entries;
  }

  lemma {:induction false} CandidatesNext(w: World, p: Policy, territory: string, entries: seq<Entry>, e: Entry)
    ensures Candidates(w, p, territory, entries + [e]) == Candidates(w, p, territory, entries) + EntryCandidates(w, p, territory)(e)
    ensures Flatten(Map(WarningsOf(w, p), entries + [e])) == Flatten(Map(WarningsOf(w, p), entries)) + EntryWarnings(w, p, e)
  {
    assert Map(EntryCandidates(w, p, territory), entries + [e])[..|entries|] == Map(EntryCandidates(w, p, territory), entries);
    assert Map(WarningsOf(w, p), entries + [e])[..|entries|] == Map(WarningsOf(w, p), entries);
  }

  method RecordStatus(w: World, before: StatusMap, ids: seq<Bytes>, status: string) returns (m: StatusMap)
    ensures m == AddStatuses(w, before, ids, status)
  {
    m := before;
    for k := 0 to |ids|
      invariant m == AddStatuses(w, before, ids[..k], status)
    {
      assert ids[..k + 1][..k] == ids[..k];
      m := AddStatus(m, w.sha256(ids[k]), status);
    }
    assert ids[..|ids|] == ids;
  }

  method CollectStatuses(w: World, p: Policy, providers: seq<Provider>) returns (m: StatusMap)
    ensures m == StatusesByCert(w, p, Entries(providers))
  {
    m := map[];
    for i := 0 to |providers|
      invariant m == StatusesByCert(w, p, Entries(providers[..i]))
    {
      VisitedProvider(providers, i);
      for j := 0 to |providers[i].services|
        invariant m == StatusesByCert(w, p, Visited(providers, i, j))
      {
        var e := Entry(providers[i].name, providers[i].services[j]);
        VisitedNext(providers, i, j);
        StatusesNext(w, p, Visited(providers, i, j), e);
        if Admitted(p, e) {
          var ids, _ := ServiceIdentities(w, e);
          m := RecordStatus(w, m, ids, e.service.status);
        }
      }
    }
    assert providers[..|providers|] == providers;
  }

  method BuildAnchors(w: World, territory: string, e: Entry, ids: seq<Bytes>) returns (anchors: seq<Anchor>)
    ensures anchors == Map(CandidateFor(w, territory, e), ids)
  {
    var uses := Uses(e.service.extensions);
    var qualifiers := SortBy(TextLe, AllQualifiers(e.service.extensions));
    var qscd := QscdPositive(e.service.extensions);
    anchors := [];
    for k := 0 to |ids|
      invariant anchors == Map(CandidateFor(w, territory, e), ids[..k])
    {
      var f := FactsOf(w, ids[k]);
      var a := Anchor(
        territory, SOURCE_TL, e.tspName, e.service.name, e.service.typeIdentifier, e.service.status,
        e.service.statusStartingTime, ids[k], w.sha256(ids[k]), f.subject, f.notBefore, f.notAfter,
        qualifiers, qscd, uses, f.keyAlgorithm, f.curve, TypeKey(e.service.typeIdentifier), [], 0);
      MapAppend(CandidateFor(w, territory, e), ids[..k], [ids[k]]);
      assert ids[..k + 1] == ids[..k] + [ids[k]];
      anchors := anchors + [a];
    }
    assert ids[..|ids|] == ids;
  }

  method CollectCandidates(w: World, p: Policy, territory: string, providers: seq<Provider>)
    returns (anchors: seq<Anchor>, warnings: seq<Warning>)
    ensures anchors == Candidates(w, p, territory, Entries(providers))
    ensures warnings == Flatten(Map(WarningsOf(w, p), Entries(providers)))
  {
    anchors, warnings := [], [];
    for i := 0 to |providers|
      invariant anchors == Candidates(w, p, territory, Entries(providers[..i]))
      invariant warnings == Flatten(Map(WarningsOf(w, p), Entries(providers[..i])))
    {
      VisitedProvider(providers, i);
      for j := 0 to |providers[i].services|
        invariant anchors == Candidates(w, p, territory, Visited(providers, i, j))
        invariant warnings == Flatten(Map(WarningsOf(w, p), Visited(providers, i, j)))
      {
        var e := Entry(providers[i].name, providers[i].services[j]);
        VisitedNext(providers, i, j);
        CandidatesNext(w, p, territory, Visited(providers, i, j), e);
        if Accepted(p, e) {
          var ids, skipped := ServiceIdentities(w, e);
          warnings := warnings + skipped;
          if ids == [] && skipped == [] {
            warnings := warnings
              + [Warning(e.tspName, e.service.name, "no X509Certificate digital identity", SKIP_NONE, "", "", "")];
          } else if ids != [] {
            var built := BuildAnchors(w, territory, e, ids);
            anchors := anchors + built;
          }
        }
      }
    }
    assert providers[..|providers|] == providers;
  }

  /** The index the merge keeps: fingerprint to slot of the kept anchor. */
  ghost predicate SeenMatches(seen: map<string, nat>, kept: seq<Anchor>) {
    forall fp :: match FindAnchor(kept, fp)
                 case None => fp !in seen
                 case Some(i) => fp in seen && seen[fp] == i
  }

  lemma {:induction false} SeenAfterMerge(seen: map<string, nat>, kept: seq<Anchor>, i: nat, a: Anchor)
    requires SeenMatches(seen, kept)
    requires i < |kept| && a.fingerprint == kept[i].fingerprint
    ensures SeenMatches(seen, kept[i := a])
  {
    forall fp ensures FindAnchor(kept[i := a], fp) == FindAnchor(kept, fp) {
      FindIgnoresMetadata(kept, kept[i := a], fp);
    }
  }

  lemma {:induction false} FindIgnoresMetadata(a: seq<Anchor>, b: seq<Anchor>, fp: string)
    requires |a| == |b| && forall i :: 0 <= i < |a| ==> a[i].fingerprint == b[i].fingerprint
    ensures FindAnchor(a, fp) == FindAnchor(b, fp)
    decreases |a|
  {
    if a != [] {
      FindIgnoresMetadata(a[..|a| - 1], b[..|b| - 1], fp);
    }
  }

  lemma {:induction false} SeenAfterAppend(seen: map<string, nat>, kept: seq<Anchor>, a: Anchor)
    requires SeenMatches(seen, kept)
    ensures SeenMatches(seen[a.fingerprint := |kept|], kept + [a])
  {
    assert (kept + [a])[..|kept|] == kept;
  }

  /** One accepted candidate goes into the kept prefix: merged into its slot, or
      written at the end. Storage behind the write index is untouched. */
  method MergeSlot(a: array<Anchor>, n: nat, seen: map<string, nat>, x: Anchor) returns (n': nat, seen': map<string, nat>)
    requires n < a.Length
    requires SeenMatches(seen, a[..n])
    modifies a
    ensures n <= n' <= n + 1
    ensures a[..n'] == MergeInto(old(a[..n]), x)
    ensures SeenMatches(seen', a[..n'])
    ensures a[n + 1..] == old(a[n + 1..])
  {
    ghost var kept := a[..n];
    assert FindAnchor(kept, x.fingerprint).Some? <==> x.fingerprint in seen;
    if x.fingerprint in seen {
      var i := seen[x.fingerprint];
      SeenAfterMerge(seen, kept, i, MergeDuplicate(kept[i], x));
      a[i] := MergeDuplicate(a[i], x);
      assert a[..n] == kept[i := MergeDuplicate(kept[i], x)];
      return n, seen;
    } else {
      SeenAfterAppend(seen, kept, x);
      a[n] := x;
      assert a[..n + 1] == kept + [x];
      return n + 1, seen[x.fingerprint := n];
    }
  }

  lemma {:induction false} DedupNext(m: StatusMap, all: seq<Anchor>, r: nat)
    requires r < |all|
    ensures Dedup(m, all[..r + 1]) == Absorb(m, Dedup(m, all[..r]), all[r])
  {
    assert all[..r + 1][..r] == all[..r];
  }

  /** The merge loop over the candidate storage itself: the write index never
      passes the read index, and earlier slots are rewritten by merges. */
  method DedupInPlace(m: StatusMap, a: array<Anchor>) returns (n: nat, conflicts: seq<Warning>)
    modifies a
    ensures n <= a.Length
    ensures a[..n] == Dedup(m, old(a[..])).kept
    ensures conflicts == Dedup(m, old(a[..])).conflicts
  {
    ghost var all := a[..];
    n, conflicts := 0, [];
    var seen: map<string, nat> := map[];
    for r := 0 to a.Length
      invariant n <= r
      invariant a[..n] == Dedup(m, all[..r]).kept
      invariant conflicts == Dedup(m, all[..r]).conflicts
      invariant forall k :: r <= k < a.Length ==> a[k] == all[k]
      invariant SeenMatches(seen, a[..n])
    {
      var x := a[r];
      DedupNext(m, all, r);
      if Conflicted(m, x.fingerprint) {
        if !Reported(conflicts, x.fingerprint) {
          conflicts := conflicts + [ConflictWarning(x)];
        }
      } else {
        ghost var tail := a[n + 1..];
        ghost var w := n;
        n, seen := MergeSlot(a, n, seen, x);
        forall k | r + 1 <= k < a.Length ensures a[k] == all[k] {
          assert a[k] == a[w + 1..][k - w - 1] == tail[k - w - 1];
        }
      }
    }
    assert all[..a.Length] == all;
  }

  /** ExtractAnchors, whole. */
  method ExtractAnchors(w: World, p: Policy, territory: string, list: TrustedList) returns (r: Result<Extracted, Failure>)
    ensures r == Extract(w, p, territory, list)
  {
    hide SortBy, Dedup;
    if list.providers.None? {
      return Err(NoProviderList);
    }
    var providers := list.providers.value;
    var m := CollectStatuses(w, p, providers);
    var candidates, warnings := CollectCandidates(w, p, territory, providers);
    var sorted := SortBy(CandidateLe, candidates);
    var a := new Anchor[|sorted|](i requires 0 <= i < |sorted| => sorted[i]);
    assert a[..] == sorted;
    var n, conflicts := DedupInPlace(m, a);
    r := Ok(Extracted(a[..n], warnings + conflicts));
  }
}
