/** The domain model: anchors, territories, snapshots and their projections. */
module Trust {

  import opened Wrappers

  newtype Byte = b: int | 0 <= b < 256
  type Bytes = seq<Byte>
  type Instant = int
  type UInt64 = n: nat | n < 0x1_0000_0000_0000_0000

  /** Go's int64(u) conversion: the upper half wraps to negative values. */
  function ToInt64(u: UInt64): int {
    if u < 0x8000_0000_0000_0000 then u else u - 0x1_0000_0000_0000_0000
  }

  const SOURCE_TL := "tl"
  const SOURCE_INTERNAL := "internal"

  const USE_SIGNATURE := "signature"
  const USE_AUTHENTICATION := "authentication"
  const USE_SEAL := "seal"
  const USE_WEBSITE := "website"

  const KEY_ECDSA := "ecdsa"
  const NIST_CURVES: set<string> := {"P-224", "P-256", "P-384", "P-521"}

  const ANCHOR_TYPES: set<string> := {
    "pid_provider", "qeaa_provider", "pub_eaa_provider", "eaa_provider", "wallet_provider", "access_ca",
    "wrprc_issuer", "pid_provider_status", "qeaa_provider_status", "pub_eaa_provider_status",
    "eaa_provider_status"
  }

  datatype Anchor = Anchor(
    territory: string,
    source: string,
    tspName: string,
    serviceName: string,
    serviceType: string,
    status: string,
    statusStartingTime: Instant,
    certDER: Bytes,
    fingerprint: string,
    subject: string,
    notBefore: Instant,
    notAfter: Instant,
    qualifiers: seq<string>,
    qcWithQSCD: bool,
    uses: seq<string>,
    keyAlgorithm: string,
    curve: string,
    anchorType: string,
    useCases: seq<string>,
    tlSequence: int)
  {
    /** An anchor without Fore* qualifiers belongs to every use; authentication
        is an alias of signature. */
    predicate MatchesUse(use: string) {
      use == "" || uses == [] || UseAlias(use) in uses
    }

    predicate KeyCommon() {
      CommonKey(keyAlgorithm, curve)
    }
  }

  function UseAlias(use: string): string {
    if use == USE_AUTHENTICATION then USE_SIGNATURE else use
  }

  predicate CommonKey(keyAlgorithm: string, curve: string) {
    keyAlgorithm != KEY_ECDSA || curve == "" || curve in NIST_CURVES
  }

  /** Why a list, a pivot or a territory was refused. The source renders these as
      error texts; here each text is the value it is rendered from. */
  datatype Failure =
    | EgressBlocked(url: string)
    | FetchFailed(detail: string)
    | ParseFailed
    | BadSignerCertificate
    | SignatureRejected
    | IssueTimeDiffers
    | WrongListType(tslType: string)
    | PivotNumberMismatch(found: UInt64)
    | NoSelfPointer
    | BadSelfPointer
    | EmptySignerSet
    | SignerNotSelfAdvertised
    | PivotFailed(number: UInt64, cause: Failure)
    | VerificationFailedAfterPivots
    | LotlExpired(nextUpdate: Instant)
    | LotlSequenceRegression(found: UInt64, held: UInt64)
    | NoPointer(code: string)
    | PointerUnusable(text: string)
    | WrongTerritory(declared: string)
    | SequenceRegression(found: UInt64, held: UInt64)
    | NoProviderList
    | NoPreviousData(code: string, cause: Failure)
    | NoVerifiedTerritory
    | BadBootstrap

  datatype SkippedService = SkippedService(
    tspName: string,
    serviceName: string,
    reason: string,
    detail: string,
    fingerprint: string,
    keyAlgorithm: string,
    curve: string)

  datatype Territory = Territory(
    code: string,
    tlSequence: UInt64,
    issueTime: Instant,
    nextUpdate: Option<Instant>,
    sourceDigest: string,
    carriedOver: bool,
    carriedOverReason: Option<Failure>,
    failed: bool,
    failureReason: Option<Failure>,
    anchors: seq<Anchor>,
    skipped: seq<SkippedService>)
  {
    predicate StaleAt(now: Instant, grace: int) {
      nextUpdate.Some? && now > nextUpdate.value + grace
    }
  }

  datatype PendingAnchor = PendingAnchor(anchor: Anchor, firstSeen: Instant)

  datatype ListPointer = ListPointer(territory: string, url: string, signers: seq<Bytes>, failure: string)

  datatype Bootstrap = Bootstrap(version: int, ojReference: string, certs: seq<Bytes>)

  // The projection of a snapshot its content id is the hash of.
  datatype IdAnchor = IdAnchor(
    fingerprint: string,
    status: string,
    qscd: bool,
    uses: seq<string>,
    source: string,
    anchorType: string,
    useCases: seq<string>)
  datatype IdTerritory = IdTerritory(code: string, tlSequence: UInt64, anchors: seq<IdAnchor>)
  datatype IdContent = IdContent(
    lotlSequence: UInt64,
    territories: seq<IdTerritory>,
    declared: seq<IdAnchor>,
    pending: seq<string>)

  /** The id is SHA-256 over the JSON of the projection. Taken as injective, the
      hash is represented by the projection itself. */
  type SnapshotId = IdContent

  datatype DiffKind = Added | Changed | Removed

  datatype DiffEntry = DiffEntry(
    kind: DiffKind,
    territory: string,
    fingerprint: string,
    anchorType: string,
    tspName: string,
    serviceName: string,
    status: string,
    detail: string,
    source: string)

  datatype Diff = Diff(prevID: Option<SnapshotId>, entries: seq<DiffEntry>)

  datatype Snapshot = Snapshot(
    id: SnapshotId,
    prevID: Option<SnapshotId>,
    generatedAt: Instant,
    lotlSequence: UInt64,
    lotlIssueTime: Instant,
    lotlNextUpdate: Option<Instant>,
    lotlSigners: seq<Bytes>,
    lotlPivotSeq: UInt64,
    lotlDigest: string,
    lotlPointers: seq<ListPointer>,
    advertisedOJ: string,
    bootstrapOJRef: string,
    bootstrapVersion: int,
    territories: seq<Territory>,
    declared: seq<Anchor>,
    pending: seq<PendingAnchor>)
  {
    function Lookup(code: string): Option<Territory> {
      FindTerritory(territories, code)
    }
  }

  /** The first entry with the code, if any. */
  function FindTerritory(ts: seq<Territory>, code: string): (r: Option<Territory>)
    ensures r.Some? ==> r.value in ts && r.value.code == code
    ensures r.None? ==> forall t :: t in ts ==> t.code != code
  {
    if ts == [] then None
    else if ts[0].code == code then Some(ts[0])
    else FindTerritory(ts[1..], code)
  }

  /** With distinct codes the lookup finds exactly the entry of the code. */
  lemma {:induction false} FindTerritoryUnique(ts: seq<Territory>, t: Territory)
    requires t in ts
    requires forall a, b :: a in ts && b in ts && a.code == b.code ==> a == b
    ensures FindTerritory(ts, t.code) == Some(t)
  {
  }

  /** Where the first entry with the code is. */
  function FindCode(ts: seq<Territory>, code: string): (r: Option<nat>)
    ensures r.Some? ==> r.value < |ts| && ts[r.value].code == code
    ensures r.None? ==> forall i :: 0 <= i < |ts| ==> ts[i].code != code
  {
    if ts == [] then None
    else if ts[0].code == code then Some(0)
    else
      match FindCode(ts[1..], code)
      case None => None
      case Some(i) => Some(i + 1)
  }

  lemma {:induction false} FindCodeFinds(ts: seq<Territory>, code: string)
    ensures FindCode(ts, code).Some? <==> FindTerritory(ts, code).Some?
    ensures FindCode(ts, code).Some? ==> FindTerritory(ts, code) == Some(ts[FindCode(ts, code).value])
    decreases |ts|
  {
    if ts != [] && ts[0].code != code {
      FindCodeFinds(ts[1..], code);
    }
  }
}
