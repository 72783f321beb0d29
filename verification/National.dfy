/** ingest/source_national.go and the territory half of ingest/pipeline.go: each
    territory is fresh, reused on a digest match, carried over, or failed. */
module National {

  import opened Wrappers
  import opened Sequences
  import opened Trust
  import opened World
  import opened Extraction
  import opened Extractor
  import opened Lotl
  import opened LotlSource

  function PolicyFor(cfg: Config): Policy {
    PolicyOf(cfg.acceptedStatuses, cfg.acceptedTypes)
  }

  function StampWith(n: UInt64): Anchor -> Anchor {
    (a: Anchor) => a.(tlSequence := ToInt64(n))
  }

  function VerifyNational(w: World, raw: Bytes, signers: seq<Bytes>, code: string, prev: Option<Territory>, now: Instant)
    : Result<TrustedList, Failure>
  {
    if !AllParse(w, signers) then Err(BadSignerCertificate)
    else
      match Verify(w, raw, signers, now)
      case None => Err(SignatureRejected)
      case Some(signed) =>
        match Parse(w, signed.content)
        case None => Err(ParseFailed)
        case Some(list) =>
          if list.schemeTerritory != code then Err(WrongTerritory(list.schemeTerritory))
          else if prev.Some? && list.sequence < prev.value.tlSequence then
            Err(SequenceRegression(list.sequence, prev.value.tlSequence))
          else Ok(list)
  }

  /** The entry a verified list yields. */
  function EntryFrom(w: World, p: Policy, code: string, list: TrustedList, digest: string): Result<Territory, Failure> {
    var ex :- Extract(w, p, code, list);
    Ok(Territory(code, list.sequence, list.issueTime, list.nextUpdate, digest, false, None, false, None,
                 Map(StampWith(list.sequence), ex.anchors), Skipped(ex.warnings)))
  }

  /** The only state in which the published digest may authorize a skip. */
  predicate TerritoryFresh(prev: Option<Territory>, now: Instant, grace: int) {
    && prev.Some?
    && prev.value.sourceDigest != ""
    && prev.value.nextUpdate.Some?
    && !prev.value.StaleAt(now, grace)
  }

  datatype Outcome =
    | Fresh(entry: Territory, raw: Bytes, pointer: ListPointer)
    | Reused(entry: Territory)
    | CarriedOver(entry: Territory, why: Failure)
    | FailedEntry(entry: Territory, why: Failure)

  function FetchNational(w: World, cfg: Config, lp: ListPointer, code: string, prev: Option<Territory>, now: Instant, up: Upstream)
    : Fetched
  {
    FetchList(w, up, ForTerritory(code), lp.url, TerritoryFresh(prev, now, cfg.staleGrace),
              if prev.Some? then prev.value.sourceDigest else "")
  }

  /** fetchTerritory: reuse on a digest match, else download, verify and extract. */
  function FetchTerritory(w: World, cfg: Config, ps: seq<ListPointer>, code: string, prev: Option<Territory>, now: Instant, up: Upstream)
    : Result<Outcome, Failure>
  {
    var lp :- PointerFor(ps, code);
    match FetchNational(w, cfg, lp, code, prev, now, up)
    case Unchanged => Ok(Reused(prev.value.(carriedOver := false)))
    case NotFetched(f) => Err(f)
    case Raw(bytes, digest) =>
      var list :- VerifyNational(w, bytes, lp.signers, code, prev, now);
      var t :- EntryFrom(w, PolicyFor(cfg), code, list, digest);
      Ok(Fresh(t, bytes, lp))
  }

  function EmptyEntry(code: string, why: Failure): Territory {
    Territory(code, 0, 0, None, "", false, None, true, Some(NoPreviousData(code, why)), [], [])
  }

  /** ingestTerritory: a failure carries the previous data over, if there is any. */
  function IngestTerritory(w: World, cfg: Config, ps: seq<ListPointer>, code: string, prev: Option<Territory>, now: Instant, up: Upstream)
    : Outcome
  {
    match FetchTerritory(w, cfg, ps, code, prev, now, up)
    case Ok(o) => o
    case Err(f) =>
      if prev.None? || prev.value.failed then FailedEntry(EmptyEntry(code, f), f)
      else CarriedOver(prev.value.(carriedOver := true, carriedOverReason := Some(f)), f)
  }

  /** The per-territory source object: Verify caches the list, Extract the warnings. */
  class NationalTLSource {
    const code: string
    const url: string
    const now: Instant
    const prevFresh: bool
    const prevSeq: Option<UInt64>
    const policy: Policy
    var list: Option<TrustedList>
    var warnings: seq<Warning>

    constructor (code: string, url: string, now: Instant, prevFresh: bool, prevSeq: Option<UInt64>, policy: Policy)
      ensures this.code == code && this.url == url && this.now == now && this.prevFresh == prevFresh
      ensures this.prevSeq == prevSeq && this.policy == policy
      ensures list == None && warnings == []
    {
      this.code, this.url, this.now, this.prevFresh, this.prevSeq := code, url, now, prevFresh, prevSeq;
      this.policy, list, warnings := policy, None, [];
    }

    method Fetch(w: World, up: Upstream, held: string) returns (r: Fetched)
      ensures r == FetchList(w, up, ForTerritory(code), url, prevFresh, held)
    {
      if !up.allowed(ForTerritory(code), url) {
        return NotFetched(EgressBlocked(url));
      }
      if prevFresh && held != "" {
        var digest := up.digest(ForTerritory(code), url);
        if digest == Some(held) {
          return Unchanged;
        }
      }
      var raw := up.fetch(ForTerritory(code), url);
      if raw.Err? {
        return NotFetched(FetchFailed(raw.error));
      }
      return Raw(raw.value, w.sha256(raw.value));
    }

    method Authenticate(w: World, raw: Bytes, signers: seq<Bytes>, ghost prev: Option<Territory>) returns (r: Result<TrustedList, Failure>)
      requires prevSeq == if prev.Some? then Some(prev.value.tlSequence) else None
      modifies this`list
      ensures r == VerifyNational(w, raw, signers, code, prev, now)
      ensures list == if r.Ok? then Some(r.value) else old(list)
    {
      if !AllParse(w, signers) {
        return Err(BadSignerCertificate);
      }
      var verified := Verify(w, raw, signers, now);
      if verified.None? {
        return Err(SignatureRejected);
      }
      var parsed := Parse(w, verified.value.content);
      if parsed.None? {
        return Err(ParseFailed);
      }
      var tl := parsed.value;
      if tl.schemeTerritory != code {
        return Err(WrongTerritory(tl.schemeTerritory));
      }
      if prevSeq.Some? && tl.sequence < prevSeq.value {
        return Err(SequenceRegression(tl.sequence, prevSeq.value));
      }
      list := Some(tl);
      return Ok(tl);
    }

    method ExtractList(w: World) returns (r: Result<seq<Anchor>, Failure>)
      requires list.Some?
      modifies this`warnings
      ensures match Extract(w, policy, code, list.value)
              case Err(f) => r == Err(f) && warnings == old(warnings)
              case Ok(ex) => r == Ok(ex.anchors) && warnings == ex.warnings
    {
      var ex := ExtractAnchors(w, policy, code, list.value);
      if ex.Err? {
        return Err(ex.error);
      }
      warnings := ex.value.warnings;
      return Ok(ex.value.anchors);
    }
  }

  /** Every list anchor is stamped with its list's sequence number. */
  method StampAnchors(anchors: seq<Anchor>, n: UInt64) returns (out: seq<Anchor>)
    ensures out == Map(StampWith(n), anchors)
  {
    var a := new Anchor[|anchors|](i requires 0 <= i < |anchors| => anchors[i]);
    for i := 0 to a.Length
      invariant forall k :: 0 <= k < i ==> a[k] == StampWith(n)(anchors[k])
      invariant forall k :: i <= k < a.Length ==> a[k] == anchors[k]
    {
      a[i] := a[i].(tlSequence := ToInt64(n));
    }
    out := a[..];
  }

  /** ingestTerritory, driving the source object. */
  method Ingest(w: World, cfg: Config, ps: seq<ListPointer>, code: string, prev: Option<Territory>, now: Instant, up: Upstream)
    returns (o: Outcome)
    ensures o == IngestTerritory(w, cfg, ps, code, prev, now, up)
  {
    var r := FetchOnce(w, cfg, ps, code, prev, now, up);
    if r.Ok? {
      return r.value;
    }
    if prev.None? || prev.value.failed {
      return FailedEntry(EmptyEntry(code, r.error), r.error);
    }
    return CarriedOver(prev.value.(carriedOver := true, carriedOverReason := Some(r.error)), r.error);
  }

  method FetchOnce(w: World, cfg: Config, ps: seq<ListPointer>, code: string, prev: Option<Territory>, now: Instant, up: Upstream)
    returns (r: Result<Outcome, Failure>)
    ensures r == FetchTerritory(w, cfg, ps, code, prev, now, up)
  {
    var lp := PointerFor(ps, code);
    if lp.Err? {
      return Err(lp.error);
    }
    var src := new NationalTLSource(code, lp.value.url, now, TerritoryFresh(prev, now, cfg.staleGrace),
                                    if prev.Some? then Some(prev.value.tlSequence) else None, PolicyFor(cfg));
    var fetched := src.Fetch(w, up, if prev.Some? then prev.value.sourceDigest else "");
    if fetched.Unchanged? {
      return Ok(Reused(prev.value.(carriedOver := false)));
    }
    if fetched.NotFetched? {
      return Err(fetched.failure);
    }
    var verified := src.Authenticate(w, fetched.bytes, lp.value.signers, prev);
    if verified.Err? {
      return Err(verified.error);
    }
    var anchors := src.ExtractList(w);
    if anchors.Err? {
      return Err(anchors.error);
    }
    var tl := src.list.value;
    var stamped := StampAnchors(anchors.value, tl.sequence);
    return Ok(Fresh(
      Territory(code, tl.sequence, tl.issueTime, tl.nextUpdate, fetched.digest, false, None, false, None, stamped,
                Skipped(src.warnings)),
      fetched.bytes, lp.value));
  }

  // ---- What an outcome guarantees ----

  lemma {:induction false} FetchedProgress(w: World, cfg: Config, ps: seq<ListPointer>, code: string, prev: Option<Territory>, now: Instant, up: Upstream)
    requires prev.Some? ==> prev.value.code == code
    requires FetchTerritory(w, cfg, ps, code, prev, now, up).Ok?
    ensures var t := FetchTerritory(w, cfg, ps, code, prev, now, up).value.entry;
            && t.code == code
            && (prev.Some? ==> t.tlSequence >= prev.value.tlSequence)
            && (prev.None? || !prev.value.failed ==> !t.failed)
  {
    var lp := PointerFor(ps, code).value;
    match FetchNational(w, cfg, lp, code, prev, now, up)
    case Unchanged =>
    case Raw(bytes, digest) =>
      var list := VerifyNational(w, bytes, lp.signers, code, prev, now).value;
      VerifiedNational(w, bytes, lp.signers, code, prev, now);
  }

  lemma {:induction false} VerifiedNational(w: World, raw: Bytes, signers: seq<Bytes>, code: string, prev: Option<Territory>, now: Instant)
    requires VerifyNational(w, raw, signers, code, prev, now).Ok?
    ensures var list := VerifyNational(w, raw, signers, code, prev, now).value;
            && Verify(w, raw, signers, now).Some?
            && Parse(w, Verify(w, raw, signers, now).value.content) == Some(list)
            && list.schemeTerritory == code
            && (prev.Some? ==> list.sequence >= prev.value.tlSequence)
  {
  }

  /** Fail-safe progress of one territory: previous data is never lost and never
      goes back, whatever the upstream does. */
  lemma {:induction false} TerritoryProgress(w: World, cfg: Config, ps: seq<ListPointer>, code: string, prev: Option<Territory>, now: Instant, up: Upstream)
    requires prev.Some? ==> prev.value.code == code
    ensures var t := IngestTerritory(w, cfg, ps, code, prev, now, up).entry;
            && t.code == code
            && (prev.Some? && !prev.value.failed ==> !t.failed && t.tlSequence >= prev.value.tlSequence)
  {
    if FetchTerritory(w, cfg, ps, code, prev, now, up).Ok? {
      FetchedProgress(w, cfg, ps, code, prev, now, up);
    }
  }

  /** A fresh entry is the projection of a list signed by a certificate the
      pointer pins. */
  ghost predicate IsFreshFrom(w: World, cfg: Config, code: string, prev: Option<Territory>, now: Instant, o: Outcome) {
    && o.Fresh?
    && var verified := VerifyNational(w, o.raw, o.pointer.signers, code, prev, now);
    && verified.Ok?
    && EntryFrom(w, PolicyFor(cfg), code, verified.value, w.sha256(o.raw)) == Ok(o.entry)
  }

  lemma {:induction false} FreshIsVerified(w: World, cfg: Config, ps: seq<ListPointer>, code: string, prev: Option<Territory>, now: Instant, up: Upstream)
    requires IngestTerritory(w, cfg, ps, code, prev, now, up).Fresh?
    ensures PointerFor(ps, code) == Ok(IngestTerritory(w, cfg, ps, code, prev, now, up).pointer)
    ensures IsFreshFrom(w, cfg, code, prev, now, IngestTerritory(w, cfg, ps, code, prev, now, up))
  {
    assert FetchTerritory(w, cfg, ps, code, prev, now, up).Ok?;
    var lp := PointerFor(ps, code).value;
    match FetchNational(w, cfg, lp, code, prev, now, up)
    case Raw(bytes, digest) =>
      assert digest == w.sha256(bytes);
  }
}
