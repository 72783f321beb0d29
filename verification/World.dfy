/** Everything outside the service: documents, cryptography, certificates and
    the network. A `World` is any family of total functions; nothing below
    assumes more about one than the members say. */
module World {

  import opened Wrappers
  import opened Trust

  const TSL_TYPE_LOTL := "http://uri.etsi.org/TrstSvc/TrustedList/TSLType/EUlistofthelists"
  const MIME_TSL_XML := "application/vnd.etsi.tsl+xml"

  /** A list pointer: `certs` is the base64-decoded signer set or the decode error. */
  datatype Pointer = Pointer(
    territory: string,
    mimeType: string,
    tslType: string,
    location: string,
    certs: Result<seq<Bytes>, string>)

  datatype ServiceExtension = ServiceExtension(additionalInfo: Option<string>, qualifiers: seq<string>)

  /** A trust service: `identities` is the decoded X509Certificate identities or
      the decode error. */
  datatype Service = Service(
    name: string,
    typeIdentifier: string,
    status: string,
    statusStartingTime: Instant,
    identities: Result<seq<Bytes>, string>,
    extensions: seq<ServiceExtension>)

  datatype Provider = Provider(name: string, services: seq<Service>)

  datatype TrustedList = TrustedList(
    tslType: string,
    sequence: UInt64,
    schemeTerritory: string,
    issueTime: Instant,
    nextUpdate: Option<Instant>,
    uris: seq<string>,
    pointers: seq<Pointer>,
    providers: Option<seq<Provider>>)

  /** The verified canonical bytes and the KeyInfo certificate that signed them. */
  datatype Signed = Signed(content: Bytes, signer: Bytes)

  datatype CertFacts = CertFacts(
    subject: string,
    commonName: string,
    notBefore: Instant,
    notAfter: Instant,
    keyAlgorithm: string,
    curve: string)

  /** What the certificate parser makes of DER bytes: parsed; refused only for an
      unsupported curve but structurally readable; or refused. */
  datatype Certificate =
    | Parsed(facts: CertFacts)
    | Structural(facts: CertFacts)
    | Refused(text: string, keyAlgorithm: string, curve: string)

  datatype World = World(
    unmarshal: Bytes -> Option<TrustedList>,
    signature: Bytes -> Option<Signed>,
    validAt: (Bytes, Instant) -> bool,
    sha256: Bytes -> string,
    certificate: Bytes -> Certificate,
    pivotNumber: string -> Option<UInt64>,
    ojReference: seq<string> -> string)

  /** Who asks the network; one requester fetches one document per cycle. */
  datatype Requester = ForLotl | ForPivot(number: UInt64) | ForTerritory(code: string)

  /** One cycle's view of the network. */
  datatype Upstream = Upstream(
    allowed: (Requester, string) -> bool,
    fetch: (Requester, string) -> Result<Bytes, string>,
    digest: (Requester, string) -> Option<string>)

  /** Parsing refuses a document without a sequence number. */
  function Parse(w: World, raw: Bytes): (r: Option<TrustedList>)
    ensures r.Some? ==> r.value.sequence > 0
  {
    match w.unmarshal(raw)
    case None => None
    case Some(doc) => if doc.sequence == 0 then None else Some(doc)
  }

  /** Pinned signature verification: an empty signer set is refused, and the
      signing certificate must be byte-identical to a pinned one and inside its
      validity window. */
  function Verify(w: World, raw: Bytes, signers: seq<Bytes>, at: Instant): (r: Option<Signed>)
    ensures r.Some? ==> signers != [] && r.value.signer in signers
    ensures r.Some? ==> w.signature(raw) == r
  {
    if signers == [] then None
    else
      match w.signature(raw)
      case None => None
      case Some(s) => if s.signer in signers && w.validAt(s.signer, at) then Some(s) else None
  }

  // ---- What the two checks mean ----

  /** The list type of the LOTL, and the media type of a list in XML. */
  ghost predicate LotlTyped(tslType: string) {
    tslType == "http://uri.etsi.org/TrstSvc/TrustedList/TSLType/EUlistofthelists"
  }

  ghost predicate XmlTyped(mimeType: string) {
    mimeType == "application/vnd.etsi.tsl+xml"
  }

  /** The bytes hold the document: they unmarshal to it and it has a sequence number. */
  ghost predicate Reads(w: World, raw: Bytes, doc: TrustedList) {
    w.unmarshal(raw) == Some(doc) && doc.sequence != 0
  }

  /** The bytes carry a signature by one of the certificates, valid at the time, over
      the signed content. */
  ghost predicate Authentic(w: World, raw: Bytes, signers: seq<Bytes>, at: Instant, signed: Signed) {
    w.signature(raw) == Some(signed) && signed.signer in signers && w.validAt(signed.signer, at)
  }

  lemma {:induction false} ParseIff(w: World, raw: Bytes, doc: TrustedList)
    ensures Parse(w, raw) == Some(doc) <==> Reads(w, raw, doc)
  {
  }

  lemma {:induction false} VerifyIff(w: World, raw: Bytes, signers: seq<Bytes>, at: Instant, signed: Signed)
    ensures Verify(w, raw, signers, at) == Some(signed) <==> Authentic(w, raw, signers, at, signed)
  {
  }

  /** Every DER of a signer set parses. */
  predicate AllParse(w: World, ders: seq<Bytes>) {
    forall d :: d in ders ==> w.certificate(d).Parsed?
  }

  /** SHA-256 tells any two byte strings apart. */
  ghost predicate CollisionFree(w: World) {
    forall a, b :: w.sha256(a) == w.sha256(b) ==> a == b
  }

  /** Digests are printed without slashes, as hexadecimal text is. */
  ghost predicate SlashFreeDigests(w: World) {
    forall raw :: '/' !in w.sha256(raw)
  }
}
