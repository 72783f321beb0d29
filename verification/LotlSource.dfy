/** ingest/source_lotl.go, ingest/pointers.go and the LOTL half of ingest/pipeline.go: fetch or skip,
    direct verification or pivot walk, and the publication-consistency checks. */
module LotlSource {

  import opened Wrappers
  import opened Sequences
  import opened Order
  import opened Trust
  import opened World
  import opened Identity
  import opened Lotl

  // ---- Fetch or skip (shared by the LOTL and the national lists) ----

  datatype Fetched = Unchanged | Raw(bytes: Bytes, digest: string) | NotFetched(failure: Failure)

  /** The digest only ever decides whether to download: a match with the held
      digest, while the held list is fresh, skips the fetch. */
  function FetchList(w: World, up: Upstream, who: Requester, url: string, isFresh: bool, held: string): Fetched {
    if !up.allowed(who, url) then NotFetched(EgressBlocked(url))
    else if isFresh && held != "" && up.digest(who, url) == Some(held) then Unchanged
    else
      match up.fetch(who, url)
      case Err(text) => NotFetched(FetchFailed(text))
      case Ok(bytes) => Raw(bytes, w.sha256(bytes))
  }

  /** When the digest check skips a download: the request is allowed, the held list is
      fresh and has a digest, and the published digest is that one. */
  ghost predicate SkipMeets(up: Upstream, who: Requester, url: string, isFresh: bool, held: string) {
    up.allowed(who, url) && isFresh && held != "" && up.digest(who, url) == Some(held)
  }

  /** A fetch skips, downloads or refuses: nothing that is not allowed is fetched, and a
      download is the bytes the network gives with their own digest. */
  lemma {:induction false} FetchMeans(w: World, up: Upstream, who: Requester, url: string, isFresh: bool, held: string)
    ensures var r := FetchList(w, up, who, url, isFresh, held);
            && (r.Unchanged? <==> SkipMeets(up, who, url, isFresh, held))
            && (forall raw, digest :: r == Raw(raw, digest)
                  <==> !SkipMeets(up, who, url, isFresh, held) && up.allowed(who, url) && up.fetch(who, url) == Ok(raw) && digest == w.sha256(raw))
  {
  }

  // ---- ingest/pointers.go ----

  predicate Advertises(p: Pointer) {
    p.mimeType == MIME_TSL_XML && p.tslType != TSL_TYPE_LOTL && p.territory != ""
  }

  function CodesIn(pointers: seq<Pointer>): (r: seq<string>)
    ensures Distinct(r)
    ensures forall c :: c in r <==> exists i :: 0 <= i < |pointers| && Advertises(pointers[i]) && pointers[i].territory == c
  {
    if pointers == [] then []
    else
      var n := |pointers| - 1;
      assert pointers == pointers[..n] + [pointers[n]];
      var rest := CodesIn(pointers[..n]);
      if Advertises(pointers[n]) && pointers[n].territory !in rest then rest + [pointers[n].territory] else rest
  }

  /** The territories a LOTL publishes XML pointers for, sorted, its own excluded. */
  function PointerCodes(list: TrustedList): seq<string> {
    SortBy(TextLe, CodesIn(list.pointers))
  }

  function FindPointer(pointers: seq<Pointer>, code: string): Option<Pointer> {
    if pointers == [] then None
    else if pointers[0].territory == code && pointers[0].mimeType == MIME_TSL_XML then Some(pointers[0])
    else FindPointer(pointers[1..], code)
  }

  function PointerTo(list: TrustedList): string -> ListPointer {
    (code: string) =>
      match FindPointer(list.pointers, code)
      case None => ListPointer(code, "", [], "no XML trusted-list pointer")
      case Some(p) =>
        match p.certs
        case Err(text) => ListPointer(code, p.location, [], "pointer certs: " + text)
        case Ok(ders) => ListPointer(code, p.location, ders, "")
  }

  function PointerSet(list: TrustedList): seq<ListPointer> {
    Map(PointerTo(list), PointerCodes(list))
  }

  /** lotlPointerSet: the loop over the sorted territory codes. */
  method BuildPointerSet(list: TrustedList) returns (ps: seq<ListPointer>)
    ensures ps == PointerSet(list) && PointersMean(list, ps)
  {
    hide PointersMean;
    PointerSetExact(list);
    var codes := PointerCodes(list);
    ps := [];
    for i := 0 to |codes|
      invariant ps == Map(PointerTo(list), codes[..i])
    {
      assert codes[..i + 1] == codes[..i] + [codes[i]];
      ps := ps + [PointerTo(list)(codes[i])];
    }
    assert codes[..|codes|] == codes;
  }

  /** Pointer i is the first one for the territory with the XML mime type. */
  ghost predicate IsPointerFor(list: TrustedList, code: string, i: int) {
    && 0 <= i < |list.pointers|
    && list.pointers[i].territory == code && XmlTyped(list.pointers[i].mimeType)
    && forall j :: 0 <= j < i ==> list.pointers[j].territory != code || !XmlTyped(list.pointers[j].mimeType)
  }

  /** The list publishes an XML pointer to another list under the code. */
  ghost predicate Publishes(list: TrustedList, code: string) {
    code != "" && exists i ::
      && 0 <= i < |list.pointers| && list.pointers[i].territory == code
      && XmlTyped(list.pointers[i].mimeType) && !LotlTyped(list.pointers[i].tslType)
  }

  /** What the carried pointer says is what that pointer of the list says: where the
      territory's list is, and the certificates it must be signed with, or that they
      did not decode. */
  ghost predicate PointsAs(list: TrustedList, lp: ListPointer) {
    exists i ::
      && IsPointerFor(list, lp.territory, i)
      && lp.url == list.pointers[i].location
      && match list.pointers[i].certs
         case Ok(ders) => lp.signers == ders && lp.failure == ""
         case Err(_) => lp.signers == [] && lp.failure != ""
  }

  lemma {:induction false} FindPointerAt(list: TrustedList, pointers: seq<Pointer>, code: string, n: nat)
    requires n <= |list.pointers| && pointers == list.pointers[n..]
    requires forall j :: 0 <= j < n ==> list.pointers[j].territory != code || list.pointers[j].mimeType != MIME_TSL_XML
    ensures match FindPointer(pointers, code)
            case Some(p) => exists i :: IsPointerFor(list, code, i) && list.pointers[i] == p
            case None => forall i :: !IsPointerFor(list, code, i)
    decreases |pointers|
  {
    if pointers != [] {
      assert pointers[0] == list.pointers[n];
      if pointers[0].territory == code && pointers[0].mimeType == MIME_TSL_XML {
        assert IsPointerFor(list, code, n);
      } else {
        assert pointers[1..] == list.pointers[n + 1..];
        FindPointerAt(list, pointers[1..], code, n + 1);
      }
    }
  }

  lemma {:induction false} FirstOf(list: TrustedList, code: string, k: nat) returns (i: int)
    requires k < |list.pointers| && list.pointers[k].territory == code && list.pointers[k].mimeType == MIME_TSL_XML
    ensures IsPointerFor(list, code, i)
    decreases k
  {
    if j :| 0 <= j < k && list.pointers[j].territory == code && list.pointers[j].mimeType == MIME_TSL_XML {
      i := FirstOf(list, code, j);
    } else {
      i := k;
    }
  }

  lemma {:induction false} PointerToPoints(list: TrustedList, code: string)
    requires Publishes(list, code)
    ensures PointsAs(list, PointerTo(list)(code)) && PointerTo(list)(code).territory == code
  {
    var k :| && 0 <= k < |list.pointers| && list.pointers[k].territory == code
             && list.pointers[k].mimeType == MIME_TSL_XML && list.pointers[k].tslType != TSL_TYPE_LOTL;
    var first := FirstOf(list, code, k);
    assert list.pointers[0..] == list.pointers;
    FindPointerAt(list, list.pointers, code, 0);
    var p := FindPointer(list.pointers, code).value;
    var i :| IsPointerFor(list, code, i) && list.pointers[i] == p;
    var lp := PointerTo(list)(code);
    if p.certs.Err? {
      assert |lp.failure| >= |"pointer certs: "|;
    }
  }

  /** The pointers a list is carried with: one per published code, in ascending order,
      each saying what the list's first XML pointer for that code says. */
  ghost predicate PointersMean(list: TrustedList, ps: seq<ListPointer>) {
    && (forall i, j :: 0 <= i < j < |ps| ==> ps[i].territory != ps[j].territory && StringLe(ps[i].territory, ps[j].territory))
    && (forall i :: 0 <= i < |ps| ==> PointsAs(list, ps[i]))
    && (forall code :: Publishes(list, code) <==> exists i :: 0 <= i < |ps| && ps[i].territory == code)
  }

  lemma {:induction false} PointerSetExact(list: TrustedList)
    ensures PointersMean(list, PointerSet(list))
  {
    hide PointerTo, PointsAs;
    var codes, ps := PointerCodes(list), PointerSet(list);
    IdOrders();
    SortBySorted(TextLe, CodesIn(list.pointers));
    SortKeepsElements(TextLe, CodesIn(list.pointers));
    DistinctPermutation(CodesIn(list.pointers), codes);
    forall code ensures code in codes <==> Publishes(list, code) {
    }
    forall i | 0 <= i < |codes| ensures PointsAs(list, ps[i]) && ps[i].territory == codes[i] {
      assert codes[i] in codes;
      PointerToPoints(list, codes[i]);
    }
    forall i, j | 0 <= i < j < |ps| ensures ps[i].territory != ps[j].territory && StringLe(ps[i].territory, ps[j].territory) {
      assert TextLe(codes[i], codes[j]);
      TextLeIs(codes[i], codes[j]);
    }
    forall code ensures Publishes(list, code) <==> exists i :: 0 <= i < |ps| && ps[i].territory == code {
      if code in codes {
        var i :| 0 <= i < |codes| && codes[i] == code;
        assert ps[i].territory == code;
      }
    }
  }

  lemma {:induction false} TextLeIs(a: string, b: string)
    ensures TextLe(a, b) <==> StringLe(a, b)
  {
    KeyLeOne(a, b);
  }

  /** The pointer a territory is looked up under: the first carried under its code, when
      that one is usable. */
  lemma {:induction false} PointerForIff(ps: seq<ListPointer>, code: string, lp: ListPointer)
    ensures PointerFor(ps, code) == Ok(lp)
       <==> exists i :: && 0 <= i < |ps| && ps[i] == lp && lp.territory == code && lp.failure == ""
                        && forall j :: 0 <= j < i ==> ps[j].territory != code
    decreases |ps|
  {
    if ps != [] {
      PointerForIff(ps[1..], code, lp);
      if ps[0].territory != code {
        if i :| 0 <= i < |ps| && ps[i] == lp && lp.territory == code && lp.failure == "" && forall j :: 0 <= j < i ==> ps[j].territory != code {
          assert ps[1..][i - 1] == lp;
          assert forall j :: 0 <= j < i - 1 ==> ps[1..][j] == ps[j + 1];
        }
        if PointerFor(ps[1..], code) == Ok(lp) {
          var i :| 0 <= i < |ps[1..]| && ps[1..][i] == lp && forall j :: 0 <= j < i ==> ps[1..][j].territory != code;
          assert ps[i + 1] == lp;
          assert forall j :: 0 < j < i + 1 ==> ps[j] == ps[1..][j - 1];
        }
      }
    }
  }

  /** pointerFor: the territory's pointer, or why there is none to use. */
  function PointerFor(ps: seq<ListPointer>, code: string): (r: Result<ListPointer, Failure>)
    ensures r.Ok? ==> r.value in ps && r.value.territory == code && r.value.failure == ""
  {
    if ps == [] then Err(NoPointer(code))
    else if ps[0].territory != code then PointerFor(ps[1..], code)
    else if ps[0].failure != "" then Err(PointerUnusable(ps[0].failure))
    else Ok(ps[0])
  }

  // ---- Verification ----

  datatype Accepted = Accepted(list: TrustedList, signers: seq<Bytes>, signer: Bytes, direct: bool)

  /** What Verify leaves behind: the pivot progress (also on failure) and the result. */
  datatype Verdict = Verdict(pivotSeq: UInt64, result: Result<Accepted, Failure>)

  function FinishLotl(w: World, signed: Signed, signers: seq<Bytes>, direct: bool, now: Instant): Result<Accepted, Failure> {
    match Parse(w, signed.content)
    case None => Err(ParseFailed)
    case Some(list) =>
      if list.tslType != TSL_TYPE_LOTL then Err(WrongListType(list.tslType))
      else if list.nextUpdate.Some? && now > list.nextUpdate.value then Err(LotlExpired(list.nextUpdate.value))
      else if direct then
        var own :- SelfCerts(w, list);
        if signed.signer !in own then Err(SignerNotSelfAdvertised)
        else Ok(Accepted(list, signers, signed.signer, direct))
      else Ok(Accepted(list, signers, signed.signer, direct))
  }

  function MaxNumber(refs: seq<PivotRef>): UInt64 {
    if refs == [] then 0 else refs[|refs| - 1].number
  }

  function VerifyLotl(w: World, up: Upstream, raw: Bytes, pin: Rotation, now: Instant): Verdict {
    match Parse(w, raw)
    case None => Verdict(pin.pivotSeq, Err(ParseFailed))
    case Some(pre) =>
      var refs := PivotRefs(w, pre.uris);
      if !AllParse(w, pin.signers) then Verdict(pin.pivotSeq, Err(BadSignerCertificate))
      else
        match Verify(w, raw, pin.signers, now)
        case Some(signed) =>
          Verdict(if MaxNumber(refs) > pin.pivotSeq then MaxNumber(refs) else pin.pivotSeq,
                  FinishLotl(w, signed, pin.signers, true, now))
        case None =>
          match WalkFrom(w, up, refs, pin)
          case Err(f) => Verdict(0, Err(f))
          case Ok(rot) =>
            match Verify(w, raw, rot.signers, now)
            case None => Verdict(rot.pivotSeq, Err(VerificationFailedAfterPivots))
            case Some(signed) => Verdict(rot.pivotSeq, FinishLotl(w, signed, rot.signers, false, now))
  }

  /** The source object: built per cycle, one-shot. */
  class EuLotlSource {
    const url: string
    const now: Instant
    const prevFresh: bool
    var pivotSeq: UInt64
    var list: Option<TrustedList>
    var signers: seq<Bytes>

    constructor (url: string, now: Instant, prevFresh: bool)
      ensures this.url == url && this.now == now && this.prevFresh == prevFresh
      ensures pivotSeq == 0 && list == None && signers == []
    {
      this.url, this.now, this.prevFresh := url, now, prevFresh;
      pivotSeq, list, signers := 0, None, [];
    }

    method Fetch(w: World, up: Upstream, held: string) returns (r: Fetched)
      ensures r == FetchList(w, up, ForLotl, url, prevFresh, held)
    {
      if !up.allowed(ForLotl, url) {
        return NotFetched(EgressBlocked(url));
      }
      if prevFresh && held != "" {
        var digest := up.digest(ForLotl, url);
        if digest == Some(held) {
          return Unchanged;
        }
      }
      var raw := up.fetch(ForLotl, url);
      if raw.Err? {
        return NotFetched(FetchFailed(raw.error));
      }
      return Raw(raw.value, w.sha256(raw.value));
    }

    /** Direct verification against the pinned set, else the pivot walk, then the
        content checks; the caches are filled only on success. */
    method Authenticate(w: World, up: Upstream, raw: Bytes, pinned: seq<Bytes>) returns (r: Result<Accepted, Failure>)
      modifies this
      ensures r == VerifyLotl(w, up, raw, Rotation(pinned, old(pivotSeq)), now).result
      ensures pivotSeq == VerifyLotl(w, up, raw, Rotation(pinned, old(pivotSeq)), now).pivotSeq
      ensures r.Ok? ==> list == Some(r.value.list) && signers == r.value.signers
      ensures r.Err? ==> list == old(list) && signers == old(signers)
    {
      var pre := Parse(w, raw);
      if pre.None? {
        return Err(ParseFailed);
      }
      var refs := CollectRefs(w, pre.value.uris);
      var maxPivot: UInt64 := MaxNumber(refs);
      if !AllParse(w, pinned) {
        return Err(BadSignerCertificate);
      }
      var current := pinned;
      var verified := Verify(w, raw, current, now);
      var direct := verified.Some?;
      if direct {
        if maxPivot > pivotSeq {
          pivotSeq := maxPivot;
        }
      } else {
        var walked := WalkPivots(w, up, refs, current, pivotSeq);
        if walked.Err? {
          pivotSeq := 0;
          return Err(walked.error);
        }
        current, pivotSeq := walked.value.signers, walked.value.pivotSeq;
        verified := Verify(w, raw, current, now);
        if verified.None? {
          return Err(VerificationFailedAfterPivots);
        }
      }
      r := FinishLotl(w, verified.value, current, direct, now);
      if r.Ok? {
        list, signers := Some(r.value.list), current;
      }
    }
  }

  // ---- Acceptance ----

  lemma {:induction false} MaxIsMax(w: World, uris: seq<string>)
    ensures var refs := PivotRefs(w, uris);
            SortedBy(RefLe, refs) && forall i :: 0 <= i < |refs| ==> refs[i].number <= MaxNumber(refs)
  {
    RefOrder();
    SortBySorted(RefLe, RefsIn(w, uris));
    var refs := PivotRefs(w, uris);
    forall i | 0 <= i < |refs| ensures refs[i].number <= MaxNumber(refs) {
      if i < |refs| - 1 {
        assert RefLe(refs[i], refs[|refs| - 1]);
      }
    }
  }

  /** The pivots of the run of Verify that accepted a list. */
  ghost function AcceptedLinks(w: World, up: Upstream, raw: Bytes, pin: Rotation, now: Instant): seq<PivotLink> {
    if Parse(w, raw).None? || Verify(w, raw, pin.signers, now).Some? then []
    else WalkLinks(w, up, PivotRefs(w, Parse(w, raw).value.uris), pin)
  }

  /** A LOTL verified against a signer set: signed by a pinned certificate that is valid
      at the time, of the right type, and within its own validity. */
  ghost predicate LotlSigned(w: World, raw: Bytes, signers: seq<Bytes>, at: Instant, list: TrustedList, signed: Signed) {
    && Authentic(w, raw, signers, at, signed)
    && Reads(w, signed.content, list)
    && LotlTyped(list.tslType)
    && (list.nextUpdate.Some? ==> at <= list.nextUpdate.value)
  }

  ghost predicate LotlVerified(w: World, raw: Bytes, signers: seq<Bytes>, at: Instant, list: TrustedList) {
    exists signed :: LotlSigned(w, raw, signers, at, list, signed)
  }

  ghost predicate AcceptedSoundly(w: World, up: Upstream, raw: Bytes, pin: Rotation, now: Instant, acc: Accepted, pivotSeq: UInt64) {
    var links := AcceptedLinks(w, up, raw, pin, now);
    && (exists signed :: LotlSigned(w, raw, acc.signers, now, acc.list, signed) && acc.signer == signed.signer)
    && acc.signers == EndOf(pin, links).signers
    && Chain(w, pin, links, EndOf(pin, links))
    && EndOf(pin, links).pivotSeq <= pivotSeq
    && (acc.direct ==> links == [] && exists own :: SelfSet(w, acc.list, own) && acc.signer in own)
    && (!acc.direct ==> links != [] && acc.signer in links[|links| - 1].own)
  }

  lemma {:induction false} DirectAcceptance(w: World, up: Upstream, raw: Bytes, pin: Rotation, now: Instant)
    requires VerifyLotl(w, up, raw, pin, now).result.Ok?
    requires Verify(w, raw, pin.signers, now).Some?
    ensures var v := VerifyLotl(w, up, raw, pin, now);
            AcceptedSoundly(w, up, raw, pin, now, v.result.value, v.pivotSeq) && v.result.value.direct
  {
    hide SelfCerts, SelfSet;
    var acc, signed := VerifyLotl(w, up, raw, pin, now).result.value, Verify(w, raw, pin.signers, now).value;
    assert LotlSigned(w, raw, acc.signers, now, acc.list, signed);
    SelfCertsIff(w, acc.list, SelfCerts(w, acc.list).value);
  }

  /** The walk path re-verifies, so it can only accept after a real rotation. */
  lemma {:induction false} WalkedRotates(w: World, up: Upstream, raw: Bytes, pin: Rotation, now: Instant)
    requires VerifyLotl(w, up, raw, pin, now).result.Ok?
    requires Verify(w, raw, pin.signers, now).None?
    ensures var refs := PivotRefs(w, Parse(w, raw).value.uris);
            var walked := WalkFrom(w, up, refs, pin);
            && walked.Ok? && walked.value != pin
            && VerifyLotl(w, up, raw, pin, now).pivotSeq == walked.value.pivotSeq
            && Verify(w, raw, walked.value.signers, now).Some?
            && VerifyLotl(w, up, raw, pin, now).result
               == FinishLotl(w, Verify(w, raw, walked.value.signers, now).value, walked.value.signers, false, now)
  {
  }

  lemma {:induction false} WalkedAcceptance(w: World, up: Upstream, raw: Bytes, pin: Rotation, now: Instant)
    requires VerifyLotl(w, up, raw, pin, now).result.Ok?
    requires Verify(w, raw, pin.signers, now).None?
    ensures var v := VerifyLotl(w, up, raw, pin, now);
            AcceptedSoundly(w, up, raw, pin, now, v.result.value, v.pivotSeq) && !v.result.value.direct
  {
    var refs := PivotRefs(w, Parse(w, raw).value.uris);
    WalkedRotates(w, up, raw, pin, now);
    WalkIsChain(w, up, refs, pin);
    var links := WalkLinks(w, up, refs, pin);
    assert AcceptedLinks(w, up, raw, pin, now) == links;
    var rot := WalkFrom(w, up, refs, pin).value;
    assert rot == EndOf(pin, links) && links != [];
    WalkedFinish(w, raw, rot.signers, now);
  }

  lemma {:induction false} WalkedFinish(w: World, raw: Bytes, signers: seq<Bytes>, now: Instant)
    requires Verify(w, raw, signers, now).Some?
    requires FinishLotl(w, Verify(w, raw, signers, now).value, signers, false, now).Ok?
    ensures var acc := FinishLotl(w, Verify(w, raw, signers, now).value, signers, false, now).value;
            && LotlSigned(w, raw, acc.signers, now, acc.list, Verify(w, raw, signers, now).value)
            && acc.signers == signers && !acc.direct
            && acc.signer == Verify(w, raw, signers, now).value.signer && acc.signer in signers
  {
  }

  /** LOTL acceptance: an accepted list is verified against a set reached from the
      pinned one by verified pivots, its signer is in its own self-pointer set
      (direct) or in the newest processed pivot's set (at least one then), the
      set is non-empty, and the pivot progress never goes back. */
  lemma {:induction false} LotlAcceptance(w: World, up: Upstream, raw: Bytes, pin: Rotation, now: Instant)
    requires VerifyLotl(w, up, raw, pin, now).result.Ok?
    ensures var v := VerifyLotl(w, up, raw, pin, now);
            && AcceptedSoundly(w, up, raw, pin, now, v.result.value, v.pivotSeq)
            && v.result.value.signers != []
            && v.pivotSeq >= pin.pivotSeq
            && v.pivotSeq >= MaxNumber(PivotRefs(w, Parse(w, raw).value.uris))
  {
    var refs := PivotRefs(w, Parse(w, raw).value.uris);
    MaxIsMax(w, Parse(w, raw).value.uris);
    if Verify(w, raw, pin.signers, now).Some? {
      DirectAcceptance(w, up, raw, pin, now);
    } else {
      WalkedAcceptance(w, up, raw, pin, now);
      WalkMonotone(w, up, refs, pin);
    }
  }

  /** Accepted at once: verified against the pinned set, by a signer the list advertises
      for itself. */
  ghost predicate DirectMeets(w: World, raw: Bytes, pin: Rotation, now: Instant, acc: Accepted) {
    && acc.direct && acc.signers == pin.signers
    && exists signed, own ::
         && LotlSigned(w, raw, pin.signers, now, acc.list, signed) && acc.signer == signed.signer
         && SelfSet(w, acc.list, own) && signed.signer in own
  }

  /** Accepted after a walk: no pinned certificate signed it, and one of the set the
      pivots lead to did. */
  ghost predicate WalkedMeets(w: World, up: Upstream, refs: seq<PivotRef>, raw: Bytes, pin: Rotation, now: Instant, acc: Accepted) {
    && !acc.direct
    && (forall signed :: !Authentic(w, raw, pin.signers, now, signed))
    && exists links, signed ::
         && WalkMeets(w, up, refs, pin, links) && acc.signers == EndOf(pin, links).signers
         && LotlSigned(w, raw, acc.signers, now, acc.list, signed) && acc.signer == signed.signer
  }

  ghost predicate AllPinsParse(w: World, signers: seq<Bytes>) {
    forall k :: 0 <= k < |signers| ==> w.certificate(signers[k]).Parsed?
  }

  lemma {:induction false} FinishIff(w: World, raw: Bytes, signers: seq<Bytes>, direct: bool, now: Instant, signed: Signed, acc: Accepted)
    requires Authentic(w, raw, signers, now, signed)
    ensures FinishLotl(w, signed, signers, direct, now) == Ok(acc)
       <==> && acc.signers == signers && acc.signer == signed.signer && acc.direct == direct
            && LotlSigned(w, raw, signers, now, acc.list, signed)
            && (direct ==> exists own :: SelfSet(w, acc.list, own) && signed.signer in own)
  {
    hide SelfCerts, SelfSet;
    var r := FinishLotl(w, signed, signers, direct, now);
    ParseIff(w, signed.content, acc.list);
    if Parse(w, signed.content).Some? {
      ParseIff(w, signed.content, Parse(w, signed.content).value);
    }
    if SelfCerts(w, acc.list).Ok? {
      SelfCertsIff(w, acc.list, SelfCerts(w, acc.list).value);
    }
    forall own ensures SelfSet(w, acc.list, own) <==> SelfCerts(w, acc.list) == Ok(own) {
      SelfCertsIff(w, acc.list, own);
    }
  }

  lemma {:induction false} SomeAuthentic(w: World, raw: Bytes, signers: seq<Bytes>, at: Instant)
    ensures Verify(w, raw, signers, at).Some? <==> exists signed :: Authentic(w, raw, signers, at, signed)
    ensures Verify(w, raw, signers, at).Some? ==> Authentic(w, raw, signers, at, Verify(w, raw, signers, at).value)
  {
    if Verify(w, raw, signers, at).Some? {
      VerifyIff(w, raw, signers, at, Verify(w, raw, signers, at).value);
    }
    if signed :| Authentic(w, raw, signers, at, signed) {
      VerifyIff(w, raw, signers, at, signed);
    }
  }

  lemma {:induction false} AuthenticOnce(w: World, raw: Bytes, s1: seq<Bytes>, t1: Instant, a: Signed, s2: seq<Bytes>, t2: Instant, b: Signed)
    requires Authentic(w, raw, s1, t1, a) && Authentic(w, raw, s2, t2, b)
    ensures a == b
  {
  }

  lemma {:induction false} DirectIff(w: World, up: Upstream, raw: Bytes, pin: Rotation, now: Instant, acc: Accepted)
    requires Parse(w, raw).Some? && AllParse(w, pin.signers) && Verify(w, raw, pin.signers, now).Some?
    ensures VerifyLotl(w, up, raw, pin, now).result == Ok(acc) <==> DirectMeets(w, raw, pin, now, acc)
  {
    hide SelfSet, FinishLotl, Authentic;
    SomeAuthentic(w, raw, pin.signers, now);
    var signed := Verify(w, raw, pin.signers, now).value;
    FinishIff(w, raw, pin.signers, true, now, signed, acc);
    if DirectMeets(w, raw, pin, now, acc) {
      var s, own :| LotlSigned(w, raw, pin.signers, now, acc.list, s) && acc.signer == s.signer && SelfSet(w, acc.list, own) && s.signer in own;
      AuthenticOnce(w, raw, pin.signers, now, s, pin.signers, now, signed);
    }
  }

  lemma {:induction false} WalkedIff(w: World, up: Upstream, raw: Bytes, pin: Rotation, now: Instant, acc: Accepted)
    requires Parse(w, raw).Some? && AllParse(w, pin.signers) && Verify(w, raw, pin.signers, now).None?
    ensures VerifyLotl(w, up, raw, pin, now).result == Ok(acc)
       <==> WalkedMeets(w, up, PivotRefs(w, Parse(w, raw).value.uris), raw, pin, now, acc)
  {
    hide SelfSet, FinishLotl, Authentic, WalkFrom, WalkMeets, EndOf;
    SomeAuthentic(w, raw, pin.signers, now);
    var refs := PivotRefs(w, Parse(w, raw).value.uris);
    RefsExact(w, Parse(w, raw).value.uris);
    var walked := WalkFrom(w, up, refs, pin);
    if walked.Ok? {
      PivotWalkIff(w, up, refs, pin, walked.value);
      SomeAuthentic(w, raw, walked.value.signers, now);
      if Verify(w, raw, walked.value.signers, now).Some? {
        FinishIff(w, raw, walked.value.signers, false, now, Verify(w, raw, walked.value.signers, now).value, acc);
      }
    }
    if WalkedMeets(w, up, refs, raw, pin, now, acc) {
      var links, signed :|
        && WalkMeets(w, up, refs, pin, links) && acc.signers == EndOf(pin, links).signers
        && LotlSigned(w, raw, acc.signers, now, acc.list, signed) && acc.signer == signed.signer;
      PivotWalkIff(w, up, refs, pin, EndOf(pin, links));
      assert Authentic(w, raw, acc.signers, now, signed);
      AuthenticOnce(w, raw, acc.signers, now, signed, acc.signers, now, Verify(w, raw, acc.signers, now).value);
    }
  }

  /** LOTL acceptance, exactly: a list is accepted if and only if the bytes are readable,
      the pinned certificates parse, and it meets the direct conditions, or, when no
      pinned certificate signed it, those of the pivot walk. */
  lemma {:induction false} LotlAcceptedIff(w: World, up: Upstream, raw: Bytes, pin: Rotation, now: Instant, acc: Accepted)
    ensures VerifyLotl(w, up, raw, pin, now).result == Ok(acc)
       <==> exists pre ::
              && Reads(w, raw, pre) && AllPinsParse(w, pin.signers)
              && (DirectMeets(w, raw, pin, now, acc) || WalkedMeets(w, up, PivotRefs(w, pre.uris), raw, pin, now, acc))
  {
    hide DirectMeets, WalkedMeets, FinishLotl, WalkFrom;
    assert AllParse(w, pin.signers) <==> AllPinsParse(w, pin.signers);
    forall pre ensures Reads(w, raw, pre) <==> Parse(w, raw) == Some(pre) {
      ParseIff(w, raw, pre);
    }
    if Parse(w, raw).Some? && AllParse(w, pin.signers) {
      OnlyOnePath(w, up, PivotRefs(w, Parse(w, raw).value.uris), raw, pin, now, acc);
      if Verify(w, raw, pin.signers, now).Some? {
        DirectIff(w, up, raw, pin, now, acc);
      } else {
        WalkedIff(w, up, raw, pin, now, acc);
      }
    }
  }

  /** The two paths exclude each other by whether a pinned certificate signed. */
  lemma {:induction false} OnlyOnePath(w: World, up: Upstream, refs: seq<PivotRef>, raw: Bytes, pin: Rotation, now: Instant, acc: Accepted)
    ensures DirectMeets(w, raw, pin, now, acc) ==> Verify(w, raw, pin.signers, now).Some?
    ensures WalkedMeets(w, up, refs, raw, pin, now, acc) ==> Verify(w, raw, pin.signers, now).None?
  {
    hide SelfSet, Authentic, WalkMeets, EndOf;
    SomeAuthentic(w, raw, pin.signers, now);
    if DirectMeets(w, raw, pin, now, acc) {
      var s, own :| LotlSigned(w, raw, pin.signers, now, acc.list, s) && acc.signer == s.signer && SelfSet(w, acc.list, own) && s.signer in own;
      assert Authentic(w, raw, pin.signers, now, s);
    }
  }

  /** After an acceptance the pivot progress is the greatest of what it was and the
      numbers the list advertises. */
  lemma {:induction false} ProgressExact(w: World, up: Upstream, raw: Bytes, pin: Rotation, now: Instant)
    requires VerifyLotl(w, up, raw, pin, now).result.Ok?
    ensures var v, uris := VerifyLotl(w, up, raw, pin, now), Parse(w, raw).value.uris;
            && v.pivotSeq >= pin.pivotSeq
            && (forall i :: 0 <= i < |uris| && w.pivotNumber(uris[i]).Some? ==> w.pivotNumber(uris[i]).value <= v.pivotSeq)
            && (v.pivotSeq == pin.pivotSeq || exists i :: 0 <= i < |uris| && w.pivotNumber(uris[i]) == Some(v.pivotSeq))
  {
    hide FinishLotl, WalkFrom, PivotRefs;
    var v, uris := VerifyLotl(w, up, raw, pin, now), Parse(w, raw).value.uris;
    var refs := PivotRefs(w, uris);
    RefsExact(w, uris);
    MaxIsMax(w, uris);
    forall i | 0 <= i < |uris| && w.pivotNumber(uris[i]).Some? ensures w.pivotNumber(uris[i]).value <= MaxNumber(refs) {
      var r := PivotRef(uris[i], w.pivotNumber(uris[i]).value);
      assert r in refs;
      var k :| 0 <= k < |refs| && refs[k] == r;
    }
    if Verify(w, raw, pin.signers, now).Some? {
      if v.pivotSeq != pin.pivotSeq {
        assert refs[|refs| - 1] in refs;
      }
    } else {
      WalkMonotone(w, up, refs, pin);
      WalkEnds(w, up, refs, pin);
      forall i | 0 <= i < |uris| && w.pivotNumber(uris[i]).Some? ensures w.pivotNumber(uris[i]).value <= v.pivotSeq {
        var r := PivotRef(uris[i], w.pivotNumber(uris[i]).value);
        assert r in refs;
        var k :| 0 <= k < |refs| && refs[k] == r;
      }
    }
  }

  lemma {:induction false} WalkEnds(w: World, up: Upstream, refs: seq<PivotRef>, rot: Rotation)
    requires WalkFrom(w, up, refs, rot).Ok?
    ensures var n := WalkFrom(w, up, refs, rot).value.pivotSeq; n == rot.pivotSeq || exists k :: 0 <= k < |refs| && refs[k].number == n
    decreases |refs|
  {
    hide ProcessPivot;
    if refs != [] {
      var rest := if refs[0].number <= rot.pivotSeq then rot else Rotation(ProcessPivot(w, up, refs[0], rot.signers).value, refs[0].number);
      WalkEnds(w, up, refs[1..], rest);
      var n := WalkFrom(w, up, refs, rot).value.pivotSeq;
      if k :| 0 <= k < |refs[1..]| && refs[1..][k].number == n {
        assert refs[k + 1].number == n;
      }
    }
  }

  /** When no advertised pivot is newer than the progress, only the direct path can
      accept, and it leaves the rotation state alone. */
  lemma {:induction false} NoNewPivotsMeansDirect(w: World, up: Upstream, raw: Bytes, pin: Rotation, now: Instant)
    requires VerifyLotl(w, up, raw, pin, now).result.Ok?
    requires MaxNumber(PivotRefs(w, Parse(w, raw).value.uris)) <= pin.pivotSeq
    ensures var v := VerifyLotl(w, up, raw, pin, now);
            v.result.value.direct && v.result.value.signers == pin.signers && v.pivotSeq == pin.pivotSeq
  {
    var refs := PivotRefs(w, Parse(w, raw).value.uris);
    MaxIsMax(w, Parse(w, raw).value.uris);
    WalkIdle(w, up, refs, pin);
  }

  // ---- One cycle's LOTL ----

  datatype LotlResult = LotlResult(
    sequence: UInt64,
    issueTime: Instant,
    nextUpdate: Option<Instant>,
    pivotSeq: UInt64,
    advertisedOJ: string,
    signers: seq<Bytes>,
    digest: string,
    pointers: seq<ListPointer>)

  /** The only state in which the published digest may authorize a skip. */
  predicate LotlFresh(prev: Option<Snapshot>, now: Instant) {
    && prev.Some?
    && prev.value.lotlDigest != ""
    && prev.value.lotlPointers != []
    && prev.value.lotlSigners != []
    && prev.value.lotlNextUpdate.Some?
    && now < prev.value.lotlNextUpdate.value
  }

  function HeldDigest(prev: Option<Snapshot>, now: Instant): string {
    if LotlFresh(prev, now) then prev.value.lotlDigest else ""
  }

  function FetchLotl(w: World, cfg: Config, prev: Option<Snapshot>, now: Instant, up: Upstream): Fetched {
    FetchList(w, up, ForLotl, cfg.lotlURL, LotlFresh(prev, now), HeldDigest(prev, now))
  }

  /** Continue from the previous snapshot's signer set, else start from bootstrap. */
  function Pinned(w: World, prev: Option<Snapshot>, boot: Bootstrap): Result<Rotation, Failure> {
    if prev.Some? && prev.value.lotlSigners != [] then Ok(Rotation(prev.value.lotlSigners, prev.value.lotlPivotSeq))
    else if AllParse(w, boot.certs) then Ok(Rotation(boot.certs, 0))
    else Err(BadBootstrap)
  }

  function Carried(s: Snapshot): LotlResult {
    LotlResult(s.lotlSequence, s.lotlIssueTime, s.lotlNextUpdate, s.lotlPivotSeq, s.advertisedOJ, s.lotlSigners,
               s.lotlDigest, s.lotlPointers)
  }

  function FromList(w: World, list: TrustedList, signers: seq<Bytes>, pivotSeq: UInt64, digest: string): LotlResult {
    LotlResult(list.sequence, list.issueTime, list.nextUpdate, pivotSeq, w.ojReference(list.uris), signers, digest,
               PointerSet(list))
  }

  function IngestLotl(w: World, cfg: Config, prev: Option<Snapshot>, boot: Bootstrap, now: Instant, up: Upstream)
    : Result<LotlResult, Failure>
  {
    match FetchLotl(w, cfg, prev, now, up)
    case Unchanged => Ok(Carried(prev.value))
    case NotFetched(f) => Err(f)
    case Raw(bytes, digest) =>
      var pin :- Pinned(w, prev, boot);
      var v := VerifyLotl(w, up, bytes, pin, now);
      var acc :- v.result;
      Ok(FromList(w, acc.list, acc.signers, v.pivotSeq, digest))
  }

  /** ingestLOTL, driving the source object. */
  method IngestLOTL(w: World, cfg: Config, prev: Option<Snapshot>, boot: Bootstrap, now: Instant, up: Upstream)
    returns (r: Result<LotlResult, Failure>)
    ensures r == IngestLotl(w, cfg, prev, boot, now, up)
  {
    var isFresh := LotlFresh(prev, now);
    var src := new EuLotlSource(cfg.lotlURL, now, isFresh);
    var fetched := src.Fetch(w, up, if isFresh then prev.value.lotlDigest else "");
    if fetched.Unchanged? {
      return Ok(Carried(prev.value));
    }
    if fetched.NotFetched? {
      return Err(fetched.failure);
    }
    var pinned := boot.certs;
    if prev.Some? && prev.value.lotlSigners != [] {
      pinned := prev.value.lotlSigners;
      src.pivotSeq := prev.value.lotlPivotSeq;
    } else if !AllParse(w, boot.certs) {
      return Err(BadBootstrap);
    }
    var acc := src.Authenticate(w, up, fetched.bytes, pinned);
    if acc.Err? {
      return Err(acc.error);
    }
    var ps := BuildPointerSet(src.list.value);
    var list := src.list.value;
    r := Ok(LotlResult(list.sequence, list.issueTime, list.nextUpdate, src.pivotSeq, w.ojReference(list.uris), src.signers,
                       fetched.digest, ps));
  }

  // ---- One cycle's LOTL, exactly ----

  /** The held LOTL may be kept on a digest match: it has a digest, pointers and signers,
      and is still before its next update. */
  ghost predicate HeldLotlFresh(s: Snapshot, now: Instant) {
    && s.lotlDigest != "" && s.lotlPointers != [] && s.lotlSigners != []
    && s.lotlNextUpdate.Some? && now < s.lotlNextUpdate.value
  }

  ghost predicate LotlSkipMeets(cfg: Config, prev: Option<Snapshot>, now: Instant, up: Upstream) {
    && prev.Some? && HeldLotlFresh(prev.value, now)
    && up.allowed(ForLotl, cfg.lotlURL) && up.digest(ForLotl, cfg.lotlURL) == Some(prev.value.lotlDigest)
  }

  /** What a skipped LOTL carries over. */
  ghost predicate CarriesOver(s: Snapshot, l: LotlResult) {
    && l.sequence == s.lotlSequence && l.issueTime == s.lotlIssueTime && l.nextUpdate == s.lotlNextUpdate
    && l.pivotSeq == s.lotlPivotSeq && l.advertisedOJ == s.advertisedOJ && l.signers == s.lotlSigners
    && l.digest == s.lotlDigest && l.pointers == s.lotlPointers
  }

  /** The pinned start: the held signer set and progress, else the bootstrap, whose
      certificates must all parse. */
  ghost predicate StartsFrom(w: World, prev: Option<Snapshot>, boot: Bootstrap, pin: Rotation) {
    if prev.Some? && prev.value.lotlSigners != []
    then pin.signers == prev.value.lotlSigners && pin.pivotSeq == prev.value.lotlPivotSeq
    else AllPinsParse(w, boot.certs) && pin.signers == boot.certs && pin.pivotSeq == 0
  }

  /** What a downloaded and accepted LOTL gives the cycle. */
  ghost predicate TakenFrom(w: World, list: TrustedList, signers: seq<Bytes>, raw: Bytes, l: LotlResult) {
    && l.sequence == list.sequence && l.issueTime == list.issueTime && l.nextUpdate == list.nextUpdate
    && l.advertisedOJ == w.ojReference(list.uris) && l.signers == signers && l.digest == w.sha256(raw)
    && PointersMean(list, l.pointers)
  }

  /** The LOTL of a cycle: carried over on a digest match; else downloaded, where
      allowed, accepted from the pinned start, and taken over field by field. */
  lemma {:induction false} LotlOfCycle(w: World, cfg: Config, prev: Option<Snapshot>, boot: Bootstrap, now: Instant, up: Upstream, l: LotlResult)
    requires IngestLotl(w, cfg, prev, boot, now, up) == Ok(l)
    ensures if LotlSkipMeets(cfg, prev, now, up) then CarriesOver(prev.value, l)
            else up.allowed(ForLotl, cfg.lotlURL)
                 && exists raw, pin, acc ::
                      && up.fetch(ForLotl, cfg.lotlURL) == Ok(raw) && StartsFrom(w, prev, boot, pin)
                      && VerifyLotl(w, up, raw, pin, now).result == Ok(acc) && l.pivotSeq == VerifyLotl(w, up, raw, pin, now).pivotSeq
                      && TakenFrom(w, acc.list, acc.signers, raw, l)
  {
    hide VerifyLotl, PointerSet, PointersMean;
    assert LotlFresh(prev, now) <==> prev.Some? && HeldLotlFresh(prev.value, now);
    FetchMeans(w, up, ForLotl, cfg.lotlURL, LotlFresh(prev, now), HeldDigest(prev, now));
    match FetchLotl(w, cfg, prev, now, up)
    case Unchanged =>
    case Raw(bytes, digest) =>
      var pin := Pinned(w, prev, boot).value;
      assert StartsFrom(w, prev, boot, pin);
      var acc := VerifyLotl(w, up, bytes, pin, now).result.value;
      PointerSetExact(acc.list);
      assert TakenFrom(w, acc.list, acc.signers, bytes, l);
  }

  /** And whenever it could be carried over or accepted so, it is. */
  lemma {:induction false} LotlSucceeds(w: World, cfg: Config, prev: Option<Snapshot>, boot: Bootstrap, now: Instant, up: Upstream)
    requires || LotlSkipMeets(cfg, prev, now, up)
             || exists raw, pin :: && up.allowed(ForLotl, cfg.lotlURL) && up.fetch(ForLotl, cfg.lotlURL) == Ok(raw)
                                   && StartsFrom(w, prev, boot, pin) && VerifyLotl(w, up, raw, pin, now).result.Ok?
    ensures IngestLotl(w, cfg, prev, boot, now, up).Ok?
  {
    hide VerifyLotl, PointerSet, PointersMean;
    assert LotlFresh(prev, now) <==> prev.Some? && HeldLotlFresh(prev.value, now);
    FetchMeans(w, up, ForLotl, cfg.lotlURL, LotlFresh(prev, now), HeldDigest(prev, now));
    if !LotlSkipMeets(cfg, prev, now, up) {
      var raw, pin :| && up.allowed(ForLotl, cfg.lotlURL) && up.fetch(ForLotl, cfg.lotlURL) == Ok(raw)
                      && StartsFrom(w, prev, boot, pin) && VerifyLotl(w, up, raw, pin, now).result.Ok?;
      assert AllParse(w, boot.certs) <==> AllPinsParse(w, boot.certs);
      assert Pinned(w, prev, boot) == Ok(pin);
    }
  }
}
