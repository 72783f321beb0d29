/** What one territory's turn in a cycle comes to: taken from a downloaded list, kept on
    a digest match, carried over, or failed, and every field of the entry in each case. */
module TerritoryReading {

  import opened Wrappers
  import opened Sequences
  import opened Trust
  import opened World
  import opened Extraction
  import opened Lotl
  import opened LotlSource
  import opened National
  import opened ExtractionSpec
  import opened ListReading

  /** The first pointer carried under the code, and it is usable. */
  ghost predicate UsablePointer(ps: seq<ListPointer>, code: string, lp: ListPointer) {
    exists i :: && 0 <= i < |ps| && ps[i] == lp && lp.territory == code && lp.failure == ""
                && forall j :: 0 <= j < i ==> ps[j].territory != code
  }

  /** The held list is not due and the published digest is the held one's: it is not downloaded. */
  ghost predicate KeptOnDigest(cfg: Config, lp: ListPointer, code: string, prev: Option<Territory>, now: Instant, up: Upstream) {
    && up.allowed(ForTerritory(code), lp.url)
    && prev.Some? && prev.value.sourceDigest != ""
    && prev.value.nextUpdate.Some? && now <= prev.value.nextUpdate.value + cfg.staleGrace
    && up.digest(ForTerritory(code), lp.url) == Some(prev.value.sourceDigest)
  }

  /** The bytes are authentic under the pointer's certificates and hold a list of this
      territory that is no older than the held one. */
  ghost predicate ListAccepted(w: World, lp: ListPointer, code: string, prev: Option<Territory>, now: Instant, raw: Bytes, list: TrustedList) {
    && (forall d :: d in lp.signers ==> w.certificate(d).Parsed?)
    && (exists signed :: Authentic(w, raw, lp.signers, now, signed) && Reads(w, signed.content, list))
    && list.schemeTerritory == code
    && (prev.Some? ==> prev.value.tlSequence <= list.sequence)
  }

  /** The territory's list is downloaded and accepted. */
  ghost predicate Downloads(w: World, cfg: Config, lp: ListPointer, code: string, prev: Option<Territory>, now: Instant, up: Upstream, raw: Bytes, list: TrustedList) {
    && !KeptOnDigest(cfg, lp, code, prev, now, up)
    && up.allowed(ForTerritory(code), lp.url) && up.fetch(ForTerritory(code), lp.url) == Ok(raw)
    && ListAccepted(w, lp, code, prev, now, raw, list)
    && list.providers.Some?
  }

  /** The entry of a list: its own sequence number and times, the digest of its bytes, and
      what its services call for, every anchor under the sequence number as a signed
      64-bit integer. */
  ghost predicate EntryMeans(w: World, cfg: Config, code: string, list: TrustedList, raw: Bytes, t: Territory) {
    && t.code == code && t.tlSequence == list.sequence && t.issueTime == list.issueTime && t.nextUpdate == list.nextUpdate
    && t.sourceDigest == w.sha256(raw)
    && !t.carriedOver && t.carriedOverReason == None && !t.failed && t.failureReason == None
    && list.providers.Some? && ListMeans(w, cfg, code, list.providers.value, t.anchors, t.skipped)
    && forall i :: 0 <= i < |t.anchors| ==>
         t.anchors[i].tlSequence == if list.sequence < 0x8000_0000_0000_0000 then list.sequence else list.sequence - 0x1_0000_0000_0000_0000
  }

  // ---- Stamping ----

  lemma {:induction false} StampMeans(w: World, cfg: Config, code: string, providers: seq<Provider>, a: Anchor, n: UInt64)
    requires AnchorMeans(w, cfg, code, providers, a)
    ensures AnchorMeans(w, cfg, code, providers, StampWith(n)(a))
  {
    hide VouchesFirst, Vouches, OneStatus;
    var b := StampWith(n)(a);
    var f :| FactsFrom(w, a, f);
    assert FactsFrom(w, b, f);
  }

  lemma {:induction false} StampedList(w: World, cfg: Config, code: string, providers: seq<Provider>, anchors: seq<Anchor>, skips: seq<SkippedService>, n: UInt64)
    requires ListMeans(w, cfg, code, providers, anchors, skips)
    ensures ListMeans(w, cfg, code, providers, Map(StampWith(n), anchors), skips)
  {
    hide AnchorMeans, Vouches, OneStatus, SkipMeans, Distinct;
    var out := Map(StampWith(n), anchors);
    forall i | 0 <= i < |out| ensures AnchorMeans(w, cfg, code, providers, out[i]) && Distinct(out[i].uses) {
      StampMeans(w, cfg, code, providers, anchors[i], n);
    }
    forall tsp, s, fp, status | Vouches(w, cfg, providers, tsp, s, fp) && OneStatus(w, cfg, providers, fp, status)
      ensures exists i :: 0 <= i < |out| && out[i].fingerprint == fp
    {
      var i :| 0 <= i < |anchors| && anchors[i].fingerprint == fp;
      assert out[i].fingerprint == fp;
    }
  }

  lemma {:induction false} EntryRead(w: World, cfg: Config, code: string, list: TrustedList, raw: Bytes)
    ensures EntryFrom(w, PolicyFor(cfg), code, list, w.sha256(raw)).Ok? <==> list.providers.Some?
    ensures list.providers.Some? ==> EntryMeans(w, cfg, code, list, raw, EntryFrom(w, PolicyFor(cfg), code, list, w.sha256(raw)).value)
    ensures list.providers.None? ==> EntryFrom(w, PolicyFor(cfg), code, list, w.sha256(raw)) == Err(NoProviderList)
  {
    hide ListMeans, ExtractEntries, PolicyFor, Skipped;
    if list.providers.Some? {
      ListRead(w, cfg, code, list.providers.value);
      var ex := ExtractEntries(w, PolicyFor(cfg), code, Entries(list.providers.value));
      StampedList(w, cfg, code, list.providers.value, ex.anchors, Skipped(ex.warnings), list.sequence);
    }
  }

  // ---- Verification ----

  lemma {:induction false} AcceptedListIff(w: World, lp: ListPointer, code: string, prev: Option<Territory>, now: Instant, raw: Bytes, list: TrustedList)
    ensures VerifyNational(w, raw, lp.signers, code, prev, now) == Ok(list) <==> ListAccepted(w, lp, code, prev, now, raw, list)
  {
    hide Verify, Parse, Authentic, Reads;
    forall signed ensures Verify(w, raw, lp.signers, now) == Some(signed) <==> Authentic(w, raw, lp.signers, now, signed) {
      VerifyIff(w, raw, lp.signers, now, signed);
    }
    forall content ensures Parse(w, content) == Some(list) <==> Reads(w, content, list) {
      ParseIff(w, content, list);
    }
  }

  lemma {:induction false} KeptIff(w: World, cfg: Config, lp: ListPointer, code: string, prev: Option<Territory>, now: Instant, up: Upstream)
    ensures FetchNational(w, cfg, lp, code, prev, now, up).Unchanged? <==> KeptOnDigest(cfg, lp, code, prev, now, up)
    ensures KeptOnDigest(cfg, lp, code, prev, now, up) ==> prev.Some?
    ensures forall raw :: FetchNational(w, cfg, lp, code, prev, now, up) == Raw(raw, w.sha256(raw))
              <==> !KeptOnDigest(cfg, lp, code, prev, now, up) && up.allowed(ForTerritory(code), lp.url) && up.fetch(ForTerritory(code), lp.url) == Ok(raw)
    ensures var r := FetchNational(w, cfg, lp, code, prev, now, up); r.Raw? ==> r.digest == w.sha256(r.bytes)
  {
  }

  /** A list is downloaded and accepted exactly when the territory is taken from it. */
  lemma {:induction false} FreshIff(w: World, cfg: Config, ps: seq<ListPointer>, code: string, prev: Option<Territory>, now: Instant, up: Upstream, lp: ListPointer, raw: Bytes)
    requires PointerFor(ps, code) == Ok(lp)
    ensures var r := FetchTerritory(w, cfg, ps, code, prev, now, up);
            && (forall list :: Downloads(w, cfg, lp, code, prev, now, up, raw, list)
                  ==> r.Ok? && r.value.Fresh? && r.value.raw == raw && r.value.pointer == lp && EntryMeans(w, cfg, code, list, raw, r.value.entry))
            && (r.Ok? && r.value.Fresh? && r.value.raw == raw ==>
                  r.value.pointer == lp && exists list :: Downloads(w, cfg, lp, code, prev, now, up, raw, list) && EntryMeans(w, cfg, code, list, raw, r.value.entry))
  {
    hide KeptOnDigest, FetchNational, VerifyNational, EntryFrom, EntryMeans, ListAccepted, PolicyFor;
    KeptIff(w, cfg, lp, code, prev, now, up);
    var fetched := FetchNational(w, cfg, lp, code, prev, now, up);
    var r := FetchTerritory(w, cfg, ps, code, prev, now, up);
    forall list | Downloads(w, cfg, lp, code, prev, now, up, raw, list)
      ensures r.Ok? && r.value.Fresh? && r.value.raw == raw && r.value.pointer == lp && EntryMeans(w, cfg, code, list, raw, r.value.entry)
    {
      AcceptedListIff(w, lp, code, prev, now, raw, list);
      EntryRead(w, cfg, code, list, raw);
    }
    if r.Ok? && r.value.Fresh? && r.value.raw == raw {
      var list := VerifyNational(w, raw, lp.signers, code, prev, now).value;
      AcceptedListIff(w, lp, code, prev, now, raw, list);
      EntryRead(w, cfg, code, list, raw);
      assert Downloads(w, cfg, lp, code, prev, now, up, raw, list);
    }
  }

  // ---- The territory's turn ----

  /** The four outcomes, each exactly when its condition holds. */
  ghost predicate TakenFresh(w: World, cfg: Config, ps: seq<ListPointer>, code: string, prev: Option<Territory>, now: Instant, up: Upstream) {
    exists lp, raw, list :: UsablePointer(ps, code, lp) && Downloads(w, cfg, lp, code, prev, now, up, raw, list)
  }

  ghost predicate TakenUnchanged(cfg: Config, ps: seq<ListPointer>, code: string, prev: Option<Territory>, now: Instant, up: Upstream) {
    exists lp :: UsablePointer(ps, code, lp) && KeptOnDigest(cfg, lp, code, prev, now, up)
  }

  /** The list was downloaded with the usable pointer. */
  ghost predicate Got(ps: seq<ListPointer>, code: string, up: Upstream, lp: ListPointer, raw: Bytes) {
    UsablePointer(ps, code, lp) && up.allowed(ForTerritory(code), lp.url) && up.fetch(ForTerritory(code), lp.url) == Ok(raw)
  }

  /** A downloaded list is authentic and well-formed. */
  ghost predicate GotList(w: World, ps: seq<ListPointer>, code: string, now: Instant, up: Upstream, list: TrustedList) {
    exists lp, raw, signed :: Got(ps, code, up, lp, raw) && Authentic(w, raw, lp.signers, now, signed) && Reads(w, signed.content, list)
  }

  /** Why a territory could not be taken. */
  ghost predicate Why(w: World, ps: seq<ListPointer>, code: string, prev: Option<Territory>, now: Instant, up: Upstream, f: Failure) {
    match f
    case NoPointer(c) => c == code && forall i :: 0 <= i < |ps| ==> ps[i].territory != code
    case PointerUnusable(text) => text != "" && exists i :: 0 <= i < |ps| && ps[i].territory == code && ps[i].failure == text
    case EgressBlocked(url) => exists lp :: UsablePointer(ps, code, lp) && url == lp.url && !up.allowed(ForTerritory(code), url)
    case FetchFailed(text) => exists lp :: UsablePointer(ps, code, lp) && up.fetch(ForTerritory(code), lp.url) == Err(text)
    case BadSignerCertificate => exists lp, raw, d :: Got(ps, code, up, lp, raw) && d in lp.signers && !w.certificate(d).Parsed?
    case SignatureRejected => exists lp, raw :: Got(ps, code, up, lp, raw) && forall signed :: !Authentic(w, raw, lp.signers, now, signed)
    case ParseFailed =>
      exists lp, raw, signed :: Got(ps, code, up, lp, raw) && Authentic(w, raw, lp.signers, now, signed) && forall list :: !Reads(w, signed.content, list)
    case WrongTerritory(found) => found != code && exists list :: GotList(w, ps, code, now, up, list) && list.schemeTerritory == found
    case SequenceRegression(found, held) =>
      prev.Some? && held == prev.value.tlSequence && found < held && exists list :: GotList(w, ps, code, now, up, list) && list.sequence == found
    case NoProviderList => exists list :: GotList(w, ps, code, now, up, list) && list.providers.None?
    case _ => false
  }

  ghost predicate OutcomeMeans(w: World, cfg: Config, ps: seq<ListPointer>, code: string, prev: Option<Territory>, now: Instant, up: Upstream, o: Outcome) {
    match o
    case Fresh(t, raw, lp) =>
      && UsablePointer(ps, code, lp)
      && exists list :: Downloads(w, cfg, lp, code, prev, now, up, raw, list) && EntryMeans(w, cfg, code, list, raw, t)
    case Reused(t) =>
      && TakenUnchanged(cfg, ps, code, prev, now, up)
      && prev.Some? && !t.carriedOver && KeepsAllBut(prev.value, t) && t.carriedOverReason == prev.value.carriedOverReason
    case CarriedOver(t, why) =>
      && !TakenFresh(w, cfg, ps, code, prev, now, up) && !TakenUnchanged(cfg, ps, code, prev, now, up)
      && Why(w, ps, code, prev, now, up, why)
      && prev.Some? && !prev.value.failed && t.carriedOver && t.carriedOverReason == Some(why) && KeepsAllBut(prev.value, t)
    case FailedEntry(t, why) =>
      && !TakenFresh(w, cfg, ps, code, prev, now, up) && !TakenUnchanged(cfg, ps, code, prev, now, up)
      && Why(w, ps, code, prev, now, up, why)
      && (prev.None? || prev.value.failed)
      && t.code == code && t.failed && t.failureReason == Some(NoPreviousData(code, why)) && !t.carriedOver && t.carriedOverReason == None
      && t.tlSequence == 0 && t.issueTime == 0 && t.nextUpdate == None && t.sourceDigest == "" && t.anchors == [] && t.skipped == []
  }

  /** The same entry but for its carried-over marks. */
  ghost predicate KeepsAllBut(prev: Territory, t: Territory) {
    && t.code == prev.code && t.tlSequence == prev.tlSequence && t.issueTime == prev.issueTime && t.nextUpdate == prev.nextUpdate
    && t.sourceDigest == prev.sourceDigest && t.failed == prev.failed && t.failureReason == prev.failureReason
    && t.anchors == prev.anchors && t.skipped == prev.skipped
  }

  lemma {:induction false} NoPointerWhy(ps: seq<ListPointer>, code: string)
    requires PointerFor(ps, code).Err?
    ensures match PointerFor(ps, code).error
            case NoPointer(c) => c == code && forall i :: 0 <= i < |ps| ==> ps[i].territory != code
            case PointerUnusable(text) => text != "" && exists i :: 0 <= i < |ps| && ps[i].territory == code && ps[i].failure == text
            case _ => false
    decreases |ps|
  {
    if ps != [] && ps[0].territory != code {
      NoPointerWhy(ps[1..], code);
      var f := PointerFor(ps[1..], code).error;
      if f.PointerUnusable? {
        var i :| 0 <= i < |ps[1..]| && ps[1..][i].territory == code && ps[1..][i].failure == f.text;
        assert ps[i + 1] == ps[1..][i];
      } else {
        assert forall i :: 0 < i < |ps| ==> ps[i] == ps[1..][i - 1];
      }
    }
  }

  lemma {:induction false} VerifyWhy(w: World, ps: seq<ListPointer>, code: string, prev: Option<Territory>, now: Instant, up: Upstream, lp: ListPointer, raw: Bytes)
    requires Got(ps, code, up, lp, raw)
    ensures match VerifyNational(w, raw, lp.signers, code, prev, now)
            case Err(f) => Why(w, ps, code, prev, now, up, f)
            case Ok(list) => GotList(w, ps, code, now, up, list)
  {
    hide Got, Verify, Parse, Authentic, Reads;
    forall signed ensures Verify(w, raw, lp.signers, now) == Some(signed) <==> Authentic(w, raw, lp.signers, now, signed) {
      VerifyIff(w, raw, lp.signers, now, signed);
    }
    forall content, list ensures Parse(w, content) == Some(list) <==> Reads(w, content, list) {
      ParseIff(w, content, list);
    }
    if Verify(w, raw, lp.signers, now).Some? && Parse(w, Verify(w, raw, lp.signers, now).value.content).Some? {
      assert GotList(w, ps, code, now, up, Parse(w, Verify(w, raw, lp.signers, now).value.content).value);
    }
  }

  /** A failure to fetch names its cause. */
  lemma {:induction false} FetchWhy(w: World, cfg: Config, ps: seq<ListPointer>, code: string, prev: Option<Territory>, now: Instant, up: Upstream)
    requires FetchTerritory(w, cfg, ps, code, prev, now, up).Err?
    ensures Why(w, ps, code, prev, now, up, FetchTerritory(w, cfg, ps, code, prev, now, up).error)
  {
    hide VerifyNational, EntryFrom, UsablePointer, PolicyFor, PointerFor, GotList, KeptOnDigest;
    if PointerFor(ps, code).Err? {
      NoPointerWhy(ps, code);
    } else {
      var lp := PointerFor(ps, code).value;
      OnePointer(ps, code, lp);
      KeptIff(w, cfg, lp, code, prev, now, up);
      match FetchNational(w, cfg, lp, code, prev, now, up)
      case NotFetched(f) =>
      case Raw(bytes, digest) =>
        VerifyWhy(w, ps, code, prev, now, up, lp, bytes);
        var v := VerifyNational(w, bytes, lp.signers, code, prev, now);
        if v.Ok? {
          EntryRead(w, cfg, code, v.value, bytes);
        }
    }
  }

  lemma {:induction false} OnePointer(ps: seq<ListPointer>, code: string, lp: ListPointer)
    ensures UsablePointer(ps, code, lp) <==> PointerFor(ps, code) == Ok(lp)
  {
    PointerForIff(ps, code, lp);
  }

  /** Fetching succeeds exactly when one of the two ways to take the territory is open. */
  lemma {:induction false} FetchSucceedsIff(w: World, cfg: Config, ps: seq<ListPointer>, code: string, prev: Option<Territory>, now: Instant, up: Upstream)
    ensures var r := FetchTerritory(w, cfg, ps, code, prev, now, up);
            && (r.Ok? <==> TakenFresh(w, cfg, ps, code, prev, now, up) || TakenUnchanged(cfg, ps, code, prev, now, up))
            && (r.Ok? ==> OutcomeMeans(w, cfg, ps, code, prev, now, up, r.value))
  {
    hide KeptOnDigest, FetchNational, VerifyNational, EntryFrom, EntryMeans, UsablePointer, Downloads, PolicyFor, TakenFresh, PointerFor;
    var r := FetchTerritory(w, cfg, ps, code, prev, now, up);
    forall lp ensures UsablePointer(ps, code, lp) <==> PointerFor(ps, code) == Ok(lp) {
      OnePointer(ps, code, lp);
    }
    if PointerFor(ps, code).Ok? {
      var lp := PointerFor(ps, code).value;
      KeptIff(w, cfg, lp, code, prev, now, up);
      FreshWhenTaken(w, cfg, ps, code, prev, now, up, lp);
      if r.Ok? && r.value.Fresh? {
        FreshIff(w, cfg, ps, code, prev, now, up, lp, r.value.raw);
      }
    } else {
      NoPointerNotTaken(w, cfg, ps, code, prev, now, up);
    }
  }

  lemma {:induction false} NoPointerNotTaken(w: World, cfg: Config, ps: seq<ListPointer>, code: string, prev: Option<Territory>, now: Instant, up: Upstream)
    requires PointerFor(ps, code).Err?
    ensures !TakenFresh(w, cfg, ps, code, prev, now, up)
  {
    hide Downloads, PointerFor, UsablePointer;
    forall lp ensures !UsablePointer(ps, code, lp) {
      OnePointer(ps, code, lp);
    }
  }

  lemma {:induction false} FreshWhenTaken(w: World, cfg: Config, ps: seq<ListPointer>, code: string, prev: Option<Territory>, now: Instant, up: Upstream, lp: ListPointer)
    requires PointerFor(ps, code) == Ok(lp)
    ensures var r := FetchTerritory(w, cfg, ps, code, prev, now, up);
            TakenFresh(w, cfg, ps, code, prev, now, up) <==> r.Ok? && r.value.Fresh?
  {
    hide Downloads, PointerFor, UsablePointer, EntryMeans, FetchTerritory;
    var r := FetchTerritory(w, cfg, ps, code, prev, now, up);
    if TakenFresh(w, cfg, ps, code, prev, now, up) {
      var lp', raw, list :| UsablePointer(ps, code, lp') && Downloads(w, cfg, lp', code, prev, now, up, raw, list);
      OnePointer(ps, code, lp');
      FreshIff(w, cfg, ps, code, prev, now, up, lp, raw);
    }
    if r.Ok? && r.value.Fresh? {
      FreshIff(w, cfg, ps, code, prev, now, up, lp, r.value.raw);
      OnePointer(ps, code, lp);
    }
  }

  /** A territory's turn comes to exactly what its circumstances call for. */
  lemma {:induction false} TerritoryTurn(w: World, cfg: Config, ps: seq<ListPointer>, code: string, prev: Option<Territory>, now: Instant, up: Upstream)
    ensures OutcomeMeans(w, cfg, ps, code, prev, now, up, IngestTerritory(w, cfg, ps, code, prev, now, up))
  {
    hide FetchTerritory, TakenFresh, TakenUnchanged, UsablePointer, EntryMeans, Downloads, Why;
    FetchSucceedsIff(w, cfg, ps, code, prev, now, up);
    if FetchTerritory(w, cfg, ps, code, prev, now, up).Err? {
      FetchWhy(w, cfg, ps, code, prev, now, up);
    }
  }
}
