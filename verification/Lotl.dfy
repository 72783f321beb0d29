/** ingest/pivot.go: the signer-rotation protocol of section 4.1.4 of
    ETSI TS 119 615, and the configuration. */
module Lotl {

  import opened Wrappers
  import opened Order
  import opened Trust
  import opened World

  datatype Config = Config(
    lotlURL: string,
    territories: seq<string>,
    acceptedStatuses: seq<string>,
    acceptedTypes: seq<string>,
    hold: bool,
    holdAutoRelease: int,
    staleGrace: int)

  // ---- Self pointer ----

  function FindSelf(pointers: seq<Pointer>): Option<Pointer> {
    if pointers == [] then None
    else if pointers[0].tslType == TSL_TYPE_LOTL && pointers[0].mimeType == MIME_TSL_XML then Some(pointers[0])
    else FindSelf(pointers[1..])
  }

  /** The signer set a LOTL-shaped document advertises for itself. */
  function SelfCerts(w: World, doc: TrustedList): Result<seq<Bytes>, Failure> {
    match FindSelf(doc.pointers)
    case None => Err(NoSelfPointer)
    case Some(p) =>
      if p.certs.Err? || !AllParse(w, p.certs.value) then Err(BadSelfPointer) else Ok(p.certs.value)
  }

  /** Pointer i is the first one of the LOTL type and the XML mime type. */
  ghost predicate IsSelfPointer(doc: TrustedList, i: int) {
    && 0 <= i < |doc.pointers|
    && LotlTyped(doc.pointers[i].tslType) && XmlTyped(doc.pointers[i].mimeType)
    && forall j :: 0 <= j < i ==> !LotlTyped(doc.pointers[j].tslType) || !XmlTyped(doc.pointers[j].mimeType)
  }

  /** The document advertises the set for itself: the certificates of that pointer, each
      of which the parser accepts. */
  ghost predicate SelfSet(w: World, doc: TrustedList, own: seq<Bytes>) {
    && (exists i :: IsSelfPointer(doc, i) && doc.pointers[i].certs == Ok(own))
    && forall k :: 0 <= k < |own| ==> w.certificate(own[k]).Parsed?
  }

  lemma {:induction false} FindSelfAt(doc: TrustedList, pointers: seq<Pointer>, n: nat)
    requires n <= |doc.pointers| && pointers == doc.pointers[n..]
    requires forall j :: 0 <= j < n ==> doc.pointers[j].tslType != TSL_TYPE_LOTL || doc.pointers[j].mimeType != MIME_TSL_XML
    ensures match FindSelf(pointers)
            case Some(p) => exists i :: IsSelfPointer(doc, i) && doc.pointers[i] == p
            case None => forall i :: !IsSelfPointer(doc, i)
    decreases |pointers|
  {
    if pointers != [] {
      assert pointers[0] == doc.pointers[n];
      if pointers[0].tslType == TSL_TYPE_LOTL && pointers[0].mimeType == MIME_TSL_XML {
        assert IsSelfPointer(doc, n);
      } else {
        assert pointers[1..] == doc.pointers[n + 1..];
        FindSelfAt(doc, pointers[1..], n + 1);
      }
    }
  }

  lemma {:induction false} SelfPointerUnique(doc: TrustedList, i: int, j: int)
    requires IsSelfPointer(doc, i) && IsSelfPointer(doc, j)
    ensures i == j
  {
  }

  lemma {:induction false} SelfCertsIff(w: World, doc: TrustedList, own: seq<Bytes>)
    ensures SelfCerts(w, doc) == Ok(own) <==> SelfSet(w, doc, own)
  {
    assert doc.pointers[0..] == doc.pointers;
    FindSelfAt(doc, doc.pointers, 0);
    if FindSelf(doc.pointers).Some? {
      var p := FindSelf(doc.pointers).value;
      var i :| IsSelfPointer(doc, i) && doc.pointers[i] == p;
      forall j | IsSelfPointer(doc, j) ensures j == i {
        SelfPointerUnique(doc, i, j);
      }
      if p.certs == Ok(own) {
        assert AllParse(w, own) <==> forall k :: 0 <= k < |own| ==> w.certificate(own[k]).Parsed?;
      }
    }
  }

  // ---- Pivots ----

  datatype PivotRef = PivotRef(url: string, number: UInt64)

  /** The signer set in force and the newest pivot it comes from. */
  datatype Rotation = Rotation(signers: seq<Bytes>, pivotSeq: UInt64)

  function RefsIn(w: World, uris: seq<string>): seq<PivotRef> {
    if uris == [] then []
    else
      var rest := RefsIn(w, uris[..|uris| - 1]);
      match w.pivotNumber(uris[|uris| - 1])
      case None => rest
      case Some(n) => rest + [PivotRef(uris[|uris| - 1], n)]
  }

  predicate RefLe(a: PivotRef, b: PivotRef) {
    a.number <= b.number
  }

  function PivotRefs(w: World, uris: seq<string>): seq<PivotRef> {
    SortBy(RefLe, RefsIn(w, uris))
  }

  /** pivotRefs: collect the URIs that name a pivot, then sort by number. */
  method CollectRefs(w: World, uris: seq<string>) returns (refs: seq<PivotRef>)
    ensures refs == PivotRefs(w, uris)
  {
    refs := [];
    for i := 0 to |uris|
      invariant refs == RefsIn(w, uris[..i])
    {
      assert uris[..i + 1][..i] == uris[..i];
      var n := w.pivotNumber(uris[i]);
      if n.Some? {
        refs := refs + [PivotRef(uris[i], n.value)];
      }
    }
    assert uris[..|uris|] == uris;
    refs := SortBy(RefLe, refs);
  }

  /** A pivot document checked against a pinned set: the set it advertises. */
  function CheckPivot(w: World, raw: Bytes, number: UInt64, pinned: seq<Bytes>): Result<seq<Bytes>, Failure> {
    match Parse(w, raw)
    case None => Err(ParseFailed)
    case Some(pre) =>
      match Verify(w, raw, pinned, pre.issueTime)
      case None => Err(SignatureRejected)
      case Some(signed) =>
        match Parse(w, signed.content)
        case None => Err(ParseFailed)
        case Some(pivot) =>
          if pivot.issueTime != pre.issueTime then Err(IssueTimeDiffers)
          else if pivot.tslType != TSL_TYPE_LOTL then Err(WrongListType(pivot.tslType))
          else if pivot.sequence != number then Err(PivotNumberMismatch(pivot.sequence))
          else
            var next :- SelfCerts(w, pivot);
            if next == [] then Err(EmptySignerSet)
            else if signed.signer !in next then Err(SignerNotSelfAdvertised)
            else Ok(next)
  }

  function ProcessPivot(w: World, up: Upstream, ref: PivotRef, pinned: seq<Bytes>): Result<seq<Bytes>, Failure> {
    if !up.allowed(ForPivot(ref.number), ref.url) then Err(PivotFailed(ref.number, EgressBlocked(ref.url)))
    else
      match up.fetch(ForPivot(ref.number), ref.url)
      case Err(text) => Err(PivotFailed(ref.number, FetchFailed(text)))
      case Ok(raw) =>
        match CheckPivot(w, raw, ref.number, pinned)
        case Err(f) => Err(PivotFailed(ref.number, f))
        case Ok(next) => Ok(next)
  }

  function WalkFrom(w: World, up: Upstream, refs: seq<PivotRef>, rot: Rotation): Result<Rotation, Failure> {
    if refs == [] then Ok(rot)
    else if refs[0].number <= rot.pivotSeq then WalkFrom(w, up, refs[1..], rot)
    else
      var next :- ProcessPivot(w, up, refs[0], rot.signers);
      WalkFrom(w, up, refs[1..], Rotation(next, refs[0].number))
  }

  /** walkPivots: the loop over the advertised pivots. */
  method WalkPivots(w: World, up: Upstream, refs: seq<PivotRef>, signers: seq<Bytes>, lastProcessed: UInt64)
    returns (r: Result<Rotation, Failure>)
    ensures r == WalkFrom(w, up, refs, Rotation(signers, lastProcessed))
    ensures SortedBy(RefLe, refs) ==>
              var rot := Rotation(signers, lastProcessed);
              forall end :: r == Ok(end) <==> exists links :: WalkMeets(w, up, refs, rot, links) && end == EndOf(rot, links)
  {
    hide WalkMeets, EndOf, ProcessPivot, SortedBy, RefLe;
    if SortedBy(RefLe, refs) {
      forall end {
        PivotWalkIff(w, up, refs, Rotation(signers, lastProcessed), end);
      }
    }
    var current, last := signers, lastProcessed;
    for i := 0 to |refs|
      invariant WalkFrom(w, up, refs, Rotation(signers, lastProcessed)) == WalkFrom(w, up, refs[i..], Rotation(current, last))
    {
      assert refs[i..][1..] == refs[i + 1..];
      if refs[i].number > last {
        var next := ProcessPivot(w, up, refs[i], current);
        if next.Err? {
          return Err(next.error);
        }
        current, last := next.value, refs[i].number;
      }
    }
    r := Ok(Rotation(current, last));
  }

  // ---- The walk as a chain ----

  /** One processed pivot: what it was checked against and what it yielded. */
  datatype PivotLink = PivotLink(number: UInt64, raw: Bytes, pinned: seq<Bytes>, own: seq<Bytes>)

  ghost function WalkLinks(w: World, up: Upstream, refs: seq<PivotRef>, rot: Rotation): seq<PivotLink> {
    if refs == [] || WalkFrom(w, up, refs, rot).Err? then []
    else if refs[0].number <= rot.pivotSeq then WalkLinks(w, up, refs[1..], rot)
    else
      var next := ProcessPivot(w, up, refs[0], rot.signers).value;
      [PivotLink(refs[0].number, up.fetch(ForPivot(refs[0].number), refs[0].url).value, rot.signers, next)]
      + WalkLinks(w, up, refs[1..], Rotation(next, refs[0].number))
  }

  /** The signed document of a pivot and the set it advertises, checked against the
      issue time read before verification. */
  ghost predicate PivotContent(w: World, signed: Signed, issued: Instant, number: UInt64, own: seq<Bytes>) {
    exists doc ::
      && Reads(w, signed.content, doc)
      && doc.issueTime == issued && LotlTyped(doc.tslType) && doc.sequence == number
      && SelfSet(w, doc, own)
  }

  /** A verified pivot: signed by a certificate pinned before it and advertised by
      itself, valid at its issue time, of the LOTL type, carrying its number; its
      signer set is the one its own first self pointer carries. */
  ghost predicate PivotMeets(w: World, raw: Bytes, number: UInt64, pinned: seq<Bytes>, own: seq<Bytes>) {
    exists pre, signed ::
      && Reads(w, raw, pre)
      && Authentic(w, raw, pinned, pre.issueTime, signed)
      && PivotContent(w, signed, pre.issueTime, number, own)
      && own != [] && signed.signer in own
  }

  ghost predicate LinkVerified(w: World, l: PivotLink) {
    PivotMeets(w, l.raw, l.number, l.pinned, l.own)
  }

  /** A link starts where the previous one ended, with a greater number. */
  ghost predicate LinkFollows(links: seq<PivotLink>, start: Rotation, i: nat)
    requires i < |links|
  {
    if i == 0 then links[0].pinned == start.signers && links[0].number > start.pivotSeq
    else links[i].pinned == links[i - 1].own && links[i].number > links[i - 1].number
  }

  ghost predicate Linked(start: Rotation, links: seq<PivotLink>) {
    forall i :: 0 <= i < |links| ==> LinkFollows(links, start, i)
  }

  ghost function EndOf(start: Rotation, links: seq<PivotLink>): Rotation {
    if links == [] then start else Rotation(links[|links| - 1].own, links[|links| - 1].number)
  }

  ghost predicate AllVerified(w: World, links: seq<PivotLink>) {
    forall i :: 0 <= i < |links| ==> LinkVerified(w, links[i])
  }

  /** A chain of verified pivots from one rotation state to another. */
  ghost predicate Chain(w: World, start: Rotation, links: seq<PivotLink>, end: Rotation) {
    AllVerified(w, links) && Linked(start, links) && end == EndOf(start, links)
  }

  /** The pivot check accepts a document exactly when it meets all the conditions, and
      then with exactly the set it advertises. */
  lemma {:induction false} CheckPivotIff(w: World, raw: Bytes, number: UInt64, pinned: seq<Bytes>, own: seq<Bytes>)
    ensures CheckPivot(w, raw, number, pinned) == Ok(own) <==> PivotMeets(w, raw, number, pinned, own)
  {
    hide SelfCerts, SelfSet;
    if CheckPivot(w, raw, number, pinned) == Ok(own) {
      var pre := Parse(w, raw).value;
      var signed := Verify(w, raw, pinned, pre.issueTime).value;
      var doc := Parse(w, signed.content).value;
      ParseIff(w, raw, pre);
      VerifyIff(w, raw, pinned, pre.issueTime, signed);
      ParseIff(w, signed.content, doc);
      SelfCertsIff(w, doc, own);
      assert PivotContent(w, signed, pre.issueTime, number, own);
    }
    if PivotMeets(w, raw, number, pinned, own) {
      var pre, signed :|
        && Reads(w, raw, pre) && Authentic(w, raw, pinned, pre.issueTime, signed)
        && PivotContent(w, signed, pre.issueTime, number, own) && own != [] && signed.signer in own;
      var doc :|
        && Reads(w, signed.content, doc) && doc.issueTime == pre.issueTime && doc.tslType == TSL_TYPE_LOTL
        && doc.sequence == number && SelfSet(w, doc, own);
      ParseIff(w, raw, pre);
      VerifyIff(w, raw, pinned, pre.issueTime, signed);
      ParseIff(w, signed.content, doc);
      SelfCertsIff(w, doc, own);
    }
  }

  lemma {:induction false} LinkedAppend(start: Rotation, a: seq<PivotLink>, b: seq<PivotLink>)
    requires Linked(start, a) && Linked(EndOf(start, a), b)
    ensures Linked(start, a + b) && EndOf(start, a + b) == EndOf(EndOf(start, a), b)
  {
    var all := a + b;
    forall i | 0 <= i < |all| ensures LinkFollows(all, start, i) {
      if i < |a| {
        assert LinkFollows(a, start, i);
      } else {
        assert LinkFollows(b, EndOf(start, a), i - |a|);
      }
    }
  }

  lemma {:induction false} ChainAppend(w: World, start: Rotation, a: seq<PivotLink>, mid: Rotation, b: seq<PivotLink>, end: Rotation)
    requires Chain(w, start, a, mid) && Chain(w, mid, b, end)
    ensures Chain(w, start, a + b, end)
  {
    LinkedAppend(start, a, b);
    forall i | 0 <= i < |a + b| ensures LinkVerified(w, (a + b)[i]) {
      if i < |a| {
        assert (a + b)[i] == a[i];
      } else {
        assert (a + b)[i] == b[i - |a|];
      }
    }
  }

  lemma {:induction false} ChainOne(w: World, start: Rotation, l: PivotLink)
    requires LinkVerified(w, l) && l.pinned == start.signers && l.number > start.pivotSeq
    ensures Chain(w, start, [l], Rotation(l.own, l.number))
  {
    assert LinkFollows([l], start, 0);
  }

  /** A successful walk is a chain of verified pivots. */
  lemma {:induction false} WalkIsChain(w: World, up: Upstream, refs: seq<PivotRef>, rot: Rotation)
    requires WalkFrom(w, up, refs, rot).Ok?
    ensures Chain(w, rot, WalkLinks(w, up, refs, rot), WalkFrom(w, up, refs, rot).value)
    decreases |refs|
  {
    if refs != [] {
      if refs[0].number <= rot.pivotSeq {
        WalkIsChain(w, up, refs[1..], rot);
      } else {
        var next := ProcessPivot(w, up, refs[0], rot.signers).value;
        var raw := up.fetch(ForPivot(refs[0].number), refs[0].url).value;
        CheckPivotIff(w, raw, refs[0].number, rot.signers, next);
        WalkIsChain(w, up, refs[1..], Rotation(next, refs[0].number));
        var first, mid := PivotLink(refs[0].number, raw, rot.signers, next), Rotation(next, refs[0].number);
        ChainOne(w, rot, first);
        ChainAppend(w, rot, [first], mid, WalkLinks(w, up, refs[1..], mid), WalkFrom(w, up, refs, rot).value);
      }
    }
  }

  ghost function LinkNumbers(links: seq<PivotLink>): set<UInt64> {
    set i | 0 <= i < |links| :: links[i].number
  }

  ghost function NumbersAbove(refs: seq<PivotRef>, floor: UInt64): set<UInt64> {
    set i | 0 <= i < |refs| && refs[i].number > floor :: refs[i].number
  }

  lemma {:induction false} LinkNumbersPrepend(l: PivotLink, links: seq<PivotLink>)
    ensures LinkNumbers([l] + links) == {l.number} + LinkNumbers(links)
  {
    var all := [l] + links;
    forall n | n in LinkNumbers(all) ensures n in {l.number} + LinkNumbers(links) {
      var i :| 0 <= i < |all| && all[i].number == n;
      if i > 0 {
        assert links[i - 1] == all[i];
      }
    }
    assert all[0] == l;
    forall n | n in LinkNumbers(links) ensures n in LinkNumbers(all) {
      var i :| 0 <= i < |links| && links[i].number == n;
      assert all[i + 1] == links[i];
    }
  }

  lemma {:induction false} NumbersAboveStep(refs: seq<PivotRef>, floor: UInt64)
    requires refs != [] && SortedBy(RefLe, refs)
    ensures refs[0].number <= floor ==> NumbersAbove(refs, floor) == NumbersAbove(refs[1..], floor)
    ensures refs[0].number > floor ==> NumbersAbove(refs, floor) == {refs[0].number} + NumbersAbove(refs[1..], refs[0].number)
  {
    forall n | n in NumbersAbove(refs, floor) ensures n == refs[0].number || n in NumbersAbove(refs[1..], floor) {
      var i :| 0 <= i < |refs| && refs[i].number == n && n > floor;
      if i > 0 {
        assert refs[1..][i - 1] == refs[i];
      }
    }
    forall n | n in NumbersAbove(refs[1..], floor) ensures n in NumbersAbove(refs, floor) && n >= refs[0].number {
      var i :| 0 <= i < |refs[1..]| && refs[1..][i].number == n && n > floor;
      assert refs[i + 1] == refs[1..][i];
      assert RefLe(refs[0], refs[i + 1]);
    }
    if refs[0].number > floor {
      forall n | n in NumbersAbove(refs, floor) && n != refs[0].number ensures n in NumbersAbove(refs[1..], refs[0].number) {
        var i :| 0 <= i < |refs| && refs[i].number == n;
        assert refs[1..][i - 1] == refs[i];
        assert RefLe(refs[0], refs[i]);
      }
      forall n | n in NumbersAbove(refs[1..], refs[0].number) ensures n in NumbersAbove(refs, floor) {
        var i :| 0 <= i < |refs[1..]| && refs[1..][i].number == n;
        assert refs[i + 1] == refs[1..][i];
      }
    }
  }

  /** Every advertised number above the floor is processed, and no other. */
  lemma {:induction false} WalkCovers(w: World, up: Upstream, refs: seq<PivotRef>, rot: Rotation)
    requires SortedBy(RefLe, refs)
    requires WalkFrom(w, up, refs, rot).Ok?
    ensures LinkNumbers(WalkLinks(w, up, refs, rot)) == NumbersAbove(refs, rot.pivotSeq)
    decreases |refs|
  {
    if refs != [] {
      NumbersAboveStep(refs, rot.pivotSeq);
      if refs[0].number <= rot.pivotSeq {
        WalkCovers(w, up, refs[1..], rot);
      } else {
        var next := ProcessPivot(w, up, refs[0], rot.signers).value;
        var raw := up.fetch(ForPivot(refs[0].number), refs[0].url).value;
        var rest := Rotation(next, refs[0].number);
        WalkCovers(w, up, refs[1..], rest);
        LinkNumbersPrepend(PivotLink(refs[0].number, raw, rot.signers, next), WalkLinks(w, up, refs[1..], rest));
      }
    }
  }

  /** The pivot walk: on success one pivot per distinct advertised number above the
      last processed one, in ascending order (LinkFollows), each verified against
      the set its predecessor produced; the result is the newest one's set and
      number, or the inputs when there was none (Chain). */
  lemma {:induction false} PivotWalk(w: World, up: Upstream, refs: seq<PivotRef>, rot: Rotation)
    requires SortedBy(RefLe, refs)
    requires WalkFrom(w, up, refs, rot).Ok?
    ensures Chain(w, rot, WalkLinks(w, up, refs, rot), WalkFrom(w, up, refs, rot).value)
    ensures LinkNumbers(WalkLinks(w, up, refs, rot)) == NumbersAbove(refs, rot.pivotSeq)
  {
    WalkIsChain(w, up, refs, rot);
    WalkCovers(w, up, refs, rot);
  }

  // ---- The walk, exactly ----

  /** The pivot's bytes are what the network gives for the first reference with its
      number, to which requests are allowed. */
  ghost predicate FetchedFor(up: Upstream, refs: seq<PivotRef>, l: PivotLink) {
    exists k ::
      && 0 <= k < |refs| && refs[k].number == l.number
      && (forall j :: 0 <= j < k ==> refs[j].number != l.number)
      && up.allowed(ForPivot(l.number), refs[k].url)
      && up.fetch(ForPivot(l.number), refs[k].url) == Ok(l.raw)
  }

  ghost predicate AllFetched(up: Upstream, refs: seq<PivotRef>, links: seq<PivotLink>) {
    forall i :: 0 <= i < |links| ==> FetchedFor(up, refs, links[i])
  }

  /** A pivot for each advertised number above the floor, each fetched from its
      reference, verified against its predecessor's set, in ascending order. */
  ghost predicate WalkMeets(w: World, up: Upstream, refs: seq<PivotRef>, rot: Rotation, links: seq<PivotLink>) {
    && AllVerified(w, links) && Linked(rot, links) && AllFetched(up, refs, links)
    && LinkNumbers(links) == NumbersAbove(refs, rot.pivotSeq)
  }

  lemma {:induction false} FetchedTail(up: Upstream, refs: seq<PivotRef>, l: PivotLink)
    requires refs != [] && refs[0].number != l.number
    ensures FetchedFor(up, refs, l) <==> FetchedFor(up, refs[1..], l)
  {
    if FetchedFor(up, refs, l) {
      var k :|
        && 0 <= k < |refs| && refs[k].number == l.number && (forall j :: 0 <= j < k ==> refs[j].number != l.number)
        && up.allowed(ForPivot(l.number), refs[k].url) && up.fetch(ForPivot(l.number), refs[k].url) == Ok(l.raw);
      assert refs[1..][k - 1] == refs[k];
      assert forall j :: 0 <= j < k - 1 ==> refs[1..][j] == refs[j + 1];
    }
    if FetchedFor(up, refs[1..], l) {
      var rest := refs[1..];
      var k :|
        && 0 <= k < |rest| && rest[k].number == l.number && (forall j :: 0 <= j < k ==> rest[j].number != l.number)
        && up.allowed(ForPivot(l.number), rest[k].url) && up.fetch(ForPivot(l.number), rest[k].url) == Ok(l.raw);
      assert refs[k + 1] == rest[k];
      assert forall j :: 0 < j < k + 1 ==> refs[j] == rest[j - 1];
    }
  }

  lemma {:induction false} LinksAbove(rot: Rotation, links: seq<PivotLink>, i: nat)
    requires Linked(rot, links) && i < |links|
    ensures links[i].number > rot.pivotSeq && (i > 0 ==> links[i].number > links[0].number)
    decreases i
  {
    assert LinkFollows(links, rot, i);
    if i > 0 {
      LinksAbove(rot, links, i - 1);
    }
  }

  lemma {:induction false} LinkedTail(rot: Rotation, links: seq<PivotLink>)
    requires links != [] && Linked(rot, links)
    ensures Linked(Rotation(links[0].own, links[0].number), links[1..])
    ensures EndOf(rot, links) == EndOf(Rotation(links[0].own, links[0].number), links[1..])
  {
    var rest := links[1..];
    forall i | 0 <= i < |rest| ensures LinkFollows(rest, Rotation(links[0].own, links[0].number), i) {
      assert LinkFollows(links, rot, i + 1);
    }
  }

  lemma {:induction false} FirstFetched(w: World, up: Upstream, refs: seq<PivotRef>, rot: Rotation, l: PivotLink)
    requires refs != [] && refs[0].number == l.number && l.pinned == rot.signers
    ensures FetchedFor(up, refs, l) && LinkVerified(w, l)
       <==> && ProcessPivot(w, up, refs[0], rot.signers) == Ok(l.own)
            && up.fetch(ForPivot(l.number), refs[0].url) == Ok(l.raw)
  {
    hide CheckPivot, PivotMeets;
    CheckPivotIff(w, l.raw, l.number, l.pinned, l.own);
    if FetchedFor(up, refs, l) {
      var k :|
        && 0 <= k < |refs| && refs[k].number == l.number && (forall j :: 0 <= j < k ==> refs[j].number != l.number)
        && up.allowed(ForPivot(l.number), refs[k].url) && up.fetch(ForPivot(l.number), refs[k].url) == Ok(l.raw);
      assert k == 0;
    }
  }

  lemma {:induction false} TailFetched(up: Upstream, refs: seq<PivotRef>, links: seq<PivotLink>)
    requires refs != [] && forall i :: 0 <= i < |links| ==> links[i].number != refs[0].number
    ensures AllFetched(up, refs, links) <==> AllFetched(up, refs[1..], links)
  {
    hide FetchedFor;
    forall i | 0 <= i < |links| ensures FetchedFor(up, refs, links[i]) <==> FetchedFor(up, refs[1..], links[i]) {
      FetchedTail(up, refs, links[i]);
    }
  }

  /** What the walk processed was fetched as advertised. */
  lemma {:induction false} WalkFetched(w: World, up: Upstream, refs: seq<PivotRef>, rot: Rotation)
    requires SortedBy(RefLe, refs) && WalkFrom(w, up, refs, rot).Ok?
    ensures AllFetched(up, refs, WalkLinks(w, up, refs, rot))
    decreases |refs|
  {
    hide FetchedFor, LinkVerified, CheckPivot;
    if refs != [] {
      WalkIsChain(w, up, refs, rot);
      var links := WalkLinks(w, up, refs, rot);
      if refs[0].number <= rot.pivotSeq {
        WalkFetched(w, up, refs[1..], rot);
        forall i | 0 <= i < |links| ensures links[i].number != refs[0].number {
          LinksAbove(rot, links, i);
        }
        TailFetched(up, refs, links);
      } else {
        var l := links[0];
        var rest := Rotation(l.own, l.number);
        WalkFetched(w, up, refs[1..], rest);
        assert links[1..] == WalkLinks(w, up, refs[1..], rest);
        FirstFetched(w, up, refs, rot, l);
        forall i | 0 <= i < |links[1..]| ensures links[1..][i].number != refs[0].number {
          LinksAbove(rot, links, i + 1);
        }
        TailFetched(up, refs, links[1..]);
        forall i | 0 <= i < |links| ensures FetchedFor(up, refs, links[i]) {
          if i > 0 {
            assert links[i] == links[1..][i - 1];
          }
        }
      }
    }
  }

  lemma {:induction false} MeetsTail(w: World, up: Upstream, refs: seq<PivotRef>, rot: Rotation, links: seq<PivotLink>)
    requires SortedBy(RefLe, refs) && refs != [] && WalkMeets(w, up, refs, rot, links)
    ensures refs[0].number <= rot.pivotSeq ==> WalkMeets(w, up, refs[1..], rot, links)
    ensures refs[0].number > rot.pivotSeq ==>
              && links != [] && links[0].number == refs[0].number
              && WalkMeets(w, up, refs[1..], Rotation(links[0].own, links[0].number), links[1..])
  {
    hide FetchedFor, LinkVerified;
    NumbersAboveStep(refs, rot.pivotSeq);
    if refs[0].number <= rot.pivotSeq {
      forall i | 0 <= i < |links| ensures links[i].number != refs[0].number {
        LinksAbove(rot, links, i);
      }
      TailFetched(up, refs, links);
    } else {
      assert refs[0].number in LinkNumbers(links);
      var i :| 0 <= i < |links| && links[i].number == refs[0].number;
      assert links[0].number in NumbersAbove(refs, rot.pivotSeq);
      var k :| 0 <= k < |refs| && refs[k].number == links[0].number;
      assert k == 0 || RefLe(refs[0], refs[k]);
      LinksAbove(rot, links, i);
      var rest := links[1..];
      assert links == [links[0]] + rest;
      LinkNumbersPrepend(links[0], rest);
      LinkedTail(rot, links);
      forall j | 0 <= j < |rest| ensures rest[j].number > refs[0].number {
        LinksAbove(rot, links, j + 1);
      }
      assert refs[0].number !in LinkNumbers(rest);
      assert refs[0].number !in NumbersAbove(refs[1..], refs[0].number);
      TailFetched(up, refs, rest);
    }
  }

  /** The walk succeeds exactly when there is such a chain of pivots, and ends with the
      newest one's set and number, or where it began when none is advertised. */
  lemma {:induction false} PivotWalkIff(w: World, up: Upstream, refs: seq<PivotRef>, rot: Rotation, end: Rotation)
    requires SortedBy(RefLe, refs)
    ensures WalkFrom(w, up, refs, rot) == Ok(end) <==> exists links :: WalkMeets(w, up, refs, rot, links) && end == EndOf(rot, links)
  {
    hide WalkFrom, WalkLinks, Linked, AllVerified, AllFetched, NumbersAbove, LinkNumbers;
    if WalkFrom(w, up, refs, rot) == Ok(end) {
      PivotWalk(w, up, refs, rot);
      WalkFetched(w, up, refs, rot);
      assert WalkMeets(w, up, refs, rot, WalkLinks(w, up, refs, rot));
    }
    if links :| WalkMeets(w, up, refs, rot, links) && end == EndOf(rot, links) {
      MeetsWalks(w, up, refs, rot, links);
    }
  }

  lemma {:induction false} NumbersOfLinks(links: seq<PivotLink>)
    ensures links != [] ==> LinkNumbers(links) != {}
  {
    if links != [] {
      assert links[0].number in LinkNumbers(links);
    }
  }

  lemma {:induction false} MeetsWalks(w: World, up: Upstream, refs: seq<PivotRef>, rot: Rotation, links: seq<PivotLink>)
    requires SortedBy(RefLe, refs) && WalkMeets(w, up, refs, rot, links)
    ensures WalkFrom(w, up, refs, rot) == Ok(EndOf(rot, links))
    decreases |refs|
  {
    hide FetchedFor, LinkVerified, ProcessPivot;
    NumbersOfLinks(links);
    if refs != [] {
      MeetsTail(w, up, refs, rot, links);
      if refs[0].number <= rot.pivotSeq {
        MeetsWalks(w, up, refs[1..], rot, links);
      } else {
        var next := Rotation(links[0].own, links[0].number);
        MeetsWalks(w, up, refs[1..], next, links[1..]);
        assert LinkFollows(links, rot, 0);
        FirstFetched(w, up, refs, rot, links[0]);
        LinkedTail(rot, links);
      }
    }
  }

  // ---- The advertised pivots ----

  /** The references are those of the URIs that name a pivot, each as often as it is
      listed, in ascending order. */
  lemma {:induction false} RefsExact(w: World, uris: seq<string>)
    ensures SortedBy(RefLe, PivotRefs(w, uris))
    ensures forall r :: r in PivotRefs(w, uris) <==> r.url in uris && w.pivotNumber(r.url) == Some(r.number)
  {
    RefOrder();
    SortBySorted(RefLe, RefsIn(w, uris));
    SortKeepsElements(RefLe, RefsIn(w, uris));
    forall r ensures r in RefsIn(w, uris) <==> r.url in uris && w.pivotNumber(r.url) == Some(r.number) {
      RefsInMembers(w, uris, r);
    }
  }

  lemma {:induction false} RefsInMembers(w: World, uris: seq<string>, r: PivotRef)
    ensures r in RefsIn(w, uris) <==> r.url in uris && w.pivotNumber(r.url) == Some(r.number)
    decreases |uris|
  {
    if uris != [] {
      var n := |uris| - 1;
      RefsInMembers(w, uris[..n], r);
      assert uris == uris[..n] + [uris[n]];
    }
  }

  lemma {:induction false} WalkMonotone(w: World, up: Upstream, refs: seq<PivotRef>, rot: Rotation)
    requires SortedBy(RefLe, refs)
    requires WalkFrom(w, up, refs, rot).Ok?
    ensures var end := WalkFrom(w, up, refs, rot).value;
            && end.pivotSeq >= rot.pivotSeq
            && (forall i :: 0 <= i < |refs| ==> refs[i].number <= end.pivotSeq)
            && (end == rot || (end.pivotSeq > rot.pivotSeq && end.signers != []))
    decreases |refs|
  {
    if refs != [] {
      var rest := if refs[0].number <= rot.pivotSeq then rot
                  else Rotation(ProcessPivot(w, up, refs[0], rot.signers).value, refs[0].number);
      WalkMonotone(w, up, refs[1..], rest);
      forall i | 0 <= i < |refs| ensures refs[i].number <= WalkFrom(w, up, refs, rot).value.pivotSeq {
        if i > 0 {
          assert refs[i] == refs[1..][i - 1];
        }
      }
    }
  }

  /** With nothing advertised above the floor the walk changes nothing. */
  lemma {:induction false} WalkIdle(w: World, up: Upstream, refs: seq<PivotRef>, rot: Rotation)
    requires forall i :: 0 <= i < |refs| ==> refs[i].number <= rot.pivotSeq
    ensures WalkFrom(w, up, refs, rot) == Ok(rot)
    decreases |refs|
  {
    if refs != [] {
      WalkIdle(w, up, refs[1..], rot);
    }
  }

  lemma RefOrder()
    ensures TotalPreorder(RefLe)
  {
  }
}
