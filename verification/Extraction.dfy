/** trust/extract.go: anchors out of a verified national list. */
module Extraction {

  import opened Wrappers
  import opened Sequences
  import opened Order
  import opened Trust
  import opened World
  import opened Identity

  // ---- trust/vocabulary.go ----

  const STATUS_BASE := "http://uri.etsi.org/TrstSvc/TrustedList/Svcstatus/"
  const SVCTYPE_BASE := "http://uri.etsi.org/TrstSvc/Svctype/"
  const LOTE_BASE := "http://uri.etsi.org/19602/LoTEType/"
  const SERVICE_TYPE_CAQC := SVCTYPE_BASE + "CA/QC"

  const QUALIFIED_SVCTYPES: set<string> := {
    SVCTYPE_BASE + "CA/QC", SVCTYPE_BASE + "Certstatus/OCSP/QC", SVCTYPE_BASE + "Certstatus/CRL/QC",
    SVCTYPE_BASE + "TSA/QTST", SVCTYPE_BASE + "EDS/Q", SVCTYPE_BASE + "EDS/REM/Q", SVCTYPE_BASE + "PSES/Q",
    SVCTYPE_BASE + "QESValidation/Q", SVCTYPE_BASE + "RemoteQSigCDManagement/Q",
    SVCTYPE_BASE + "RemoteQSealCDManagement/Q", SVCTYPE_BASE + "EAA/Q", SVCTYPE_BASE + "ElectronicArchiving/Q",
    SVCTYPE_BASE + "Ledgers/Q"
  }

  const NATIONAL_EQUIVALENT: map<string, string> := map[
    STATUS_BASE + "granted" := STATUS_BASE + "recognisedatnationallevel",
    STATUS_BASE + "withdrawn" := STATUS_BASE + "deprecatedatnationallevel"
  ]

  /** The taxonomy key of a published identifier; "" is the untyped plane. */
  function TypeKey(identifier: string): string {
    if identifier == SVCTYPE_BASE + "EAA/Q" then "qeaa_provider"
    else if identifier == SVCTYPE_BASE + "EAA" then "eaa_provider"
    else if identifier == LOTE_BASE + "EUPIDProvidersList" then "pid_provider"
    else if identifier == LOTE_BASE + "EUWalletProvidersList" then "wallet_provider"
    else if identifier == LOTE_BASE + "EUWRPACProvidersList" then "access_ca"
    else if identifier == LOTE_BASE + "EUWRPRCProvidersList" then "wrprc_issuer"
    else if identifier == LOTE_BASE + "EUPubEAAProvidersList" then "pub_eaa_provider"
    else ""
  }

  const ASI_SIGNATURES := "http://uri.etsi.org/TrstSvc/TrustedList/SvcInfoExt/ForeSignatures"
  const ASI_SEALS := "http://uri.etsi.org/TrstSvc/TrustedList/SvcInfoExt/ForeSeals"
  const ASI_WEBSITE := "http://uri.etsi.org/TrstSvc/TrustedList/SvcInfoExt/ForWebSiteAuthentication"
  const QUALIFIER_QSCD := "http://uri.etsi.org/TrstSvc/TrustedList/SvcInfoExt/QCWithQSCD"
  const QUALIFIER_QSCD_MANAGED := "http://uri.etsi.org/TrstSvc/TrustedList/SvcInfoExt/QCQSCDManagedOnBehalf"

  const SKIP_INVALID := "invalid-certificate"
  const SKIP_NONE := "no-certificate"
  const SKIP_CONFLICT := "status-conflict"

  // ---- Acceptance policy ----

  predicate IsSpace(c: char) {
    c == ' ' || c == '\t' || c == '\n' || c == '\r'
  }

  function TrimLeft(s: string): string {
    if s != "" && IsSpace(s[0]) then TrimLeft(s[1..]) else s
  }

  function TrimRight(s: string): string {
    if s != "" && IsSpace(s[|s| - 1]) then TrimRight(s[..|s| - 1]) else s
  }

  function TrimSpace(s: string): string {
    TrimRight(TrimLeft(s))
  }

  /** The text contains "://". */
  predicate IsURI(s: string) {
    |s| >= 3 && (s[..3] == "://" || IsURI(s[1..]))
  }

  function NormalizeStatus(s: string): string {
    var t := TrimSpace(s);
    if t == "" || IsURI(t) then t else STATUS_BASE + t
  }

  datatype Policy = Policy(statuses: set<string>, national: set<string>, types: set<string>)

  function PolicyOf(acceptedStatuses: seq<string>, acceptedTypes: seq<string>): Policy {
    Policy(
      set s | s in acceptedStatuses :: NormalizeStatus(s),
      set s | s in acceptedStatuses && NormalizeStatus(s) in NATIONAL_EQUIVALENT :: NATIONAL_EQUIVALENT[NormalizeStatus(s)],
      if acceptedTypes == [] then {SERVICE_TYPE_CAQC} else set t | t in acceptedTypes)
  }

  /** One service entry of a list with the provider it is listed under. */
  datatype Entry = Entry(tspName: string, service: Service)

  function EntryOf(tspName: string): Service -> Entry {
    s => Entry(tspName, s)
  }

  function ProviderEntries(p: Provider): seq<Entry> {
    Map(EntryOf(p.name), p.services)
  }

  function Entries(providers: seq<Provider>): seq<Entry> {
    Flatten(Map(ProviderEntries, providers))
  }

  predicate Admitted(p: Policy, e: Entry) {
    e.service.typeIdentifier in p.types
  }

  predicate Accepted(p: Policy, e: Entry) {
    && Admitted(p, e)
    && (e.service.status in p.statuses
        || (e.service.typeIdentifier !in QUALIFIED_SVCTYPES && e.service.status in p.national))
  }

  // ---- Identities ----

  predicate Held(w: World, der: Bytes) {
    !w.certificate(der).Refused?
  }

  function Holding(w: World): Bytes -> bool {
    der => Held(w, der)
  }

  /** The certificates of a service that become anchors: parsed, or refused only
      for an unsupported curve and read structurally. */
  function ServiceCerts(w: World, s: Service): seq<Bytes> {
    match s.identities
    case Err(_) => []
    case Ok(ders) => Select(Holding(w), ders)
  }

  datatype Warning = Warning(
    tspName: string,
    serviceName: string,
    detail: string,
    code: string,
    fingerprint: string,
    keyAlgorithm: string,
    curve: string)

  function RefusalWarning(w: World, e: Entry): Bytes -> Warning {
    (der: Bytes) =>
      match w.certificate(der)
      case Refused(text, alg, curve) => Warning(e.tspName, e.service.name, text, SKIP_INVALID, w.sha256(der), alg, curve)
      case Parsed(f) => Warning(e.tspName, e.service.name, "", SKIP_INVALID, w.sha256(der), f.keyAlgorithm, f.curve)
      case Structural(f) => Warning(e.tspName, e.service.name, "", SKIP_INVALID, w.sha256(der), f.keyAlgorithm, f.curve)
  }

  function Refusing(w: World): Bytes -> bool {
    der => !Held(w, der)
  }

  function IdentityWarnings(w: World, e: Entry): seq<Warning> {
    match e.service.identities
    case Err(text) => [Warning(e.tspName, e.service.name, text, SKIP_INVALID, "", "", "")]
    case Ok(ders) => Map(RefusalWarning(w, e), Select(Refusing(w), ders))
  }

  function EntryWarnings(w: World, p: Policy, e: Entry): seq<Warning> {
    if !Accepted(p, e) then []
    else
      var skipped := IdentityWarnings(w, e);
      if ServiceCerts(w, e.service) == [] && skipped == []
      then [Warning(e.tspName, e.service.name, "no X509Certificate digital identity", SKIP_NONE, "", "", "")]
      else skipped
  }

  function WarningsOf(w: World, p: Policy): Entry -> seq<Warning> {
    e => EntryWarnings(w, p, e)
  }

  // ---- Qualifications ----

  function UseOf(ext: ServiceExtension): Option<string> {
    if ext.additionalInfo == Some(ASI_SIGNATURES) then Some(USE_SIGNATURE)
    else if ext.additionalInfo == Some(ASI_SEALS) then Some(USE_SEAL)
    else if ext.additionalInfo == Some(ASI_WEBSITE) then Some(USE_WEBSITE)
    else None
  }

  function AddNew(list: seq<string>, x: string): seq<string> {
    if x in list then list else list + [x]
  }

  function ServiceUses(exts: seq<ServiceExtension>): seq<string> {
    if exts == [] then []
    else
      var rest := ServiceUses(exts[..|exts| - 1]);
      match UseOf(exts[|exts| - 1])
      case None => rest
      case Some(u) => AddNew(rest, u)
  }

  function ExtensionQualifiers(ext: ServiceExtension): seq<string> {
    ext.qualifiers
  }

  function AllQualifiers(exts: seq<ServiceExtension>): seq<string> {
    Flatten(Map(ExtensionQualifiers, exts))
  }

  predicate QscdPositive(exts: seq<ServiceExtension>) {
    QUALIFIER_QSCD in AllQualifiers(exts) || QUALIFIER_QSCD_MANAGED in AllQualifiers(exts)
  }

  // ---- Candidates ----

  function FactsOf(w: World, der: Bytes): CertFacts {
    match w.certificate(der)
    case Parsed(f) => f
    case Structural(f) => f
    case Refused(_, alg, curve) => CertFacts("", "", 0, 0, alg, curve)
  }

  function Candidate(w: World, territory: string, e: Entry, der: Bytes): Anchor {
    var f := FactsOf(w, der);
    Anchor(
      territory, SOURCE_TL, e.tspName, e.service.name, e.service.typeIdentifier, e.service.status,
      e.service.statusStartingTime, der, w.sha256(der), f.subject, f.notBefore, f.notAfter,
      SortBy(TextLe, AllQualifiers(e.service.extensions)), QscdPositive(e.service.extensions),
      ServiceUses(e.service.extensions), f.keyAlgorithm, f.curve, TypeKey(e.service.typeIdentifier), [], 0)
  }

  function CandidateFor(w: World, territory: string, e: Entry): Bytes -> Anchor {
    der => Candidate(w, territory, e, der)
  }

  function EntryCandidates(w: World, p: Policy, territory: string): Entry -> seq<Anchor> {
    (e: Entry) => if Accepted(p, e) then Map(CandidateFor(w, territory, e), ServiceCerts(w, e.service)) else []
  }

  function Candidates(w: World, p: Policy, territory: string, entries: seq<Entry>): seq<Anchor> {
    Flatten(Map(EntryCandidates(w, p, territory), entries))
  }

  predicate CandidateLe(a: Anchor, b: Anchor) {
    KeyLe([a.tspName, a.serviceName, a.fingerprint], [b.tspName, b.serviceName, b.fingerprint])
  }

  // ---- Statuses per certificate, across all admitted entries ----

  type StatusMap = map<string, set<string>>

  function AddStatus(m: StatusMap, fp: string, status: string): StatusMap {
    m[fp := (if fp in m then m[fp] else {}) + {status}]
  }

  function AddStatuses(w: World, m: StatusMap, ders: seq<Bytes>, status: string): StatusMap {
    if ders == [] then m
    else AddStatus(AddStatuses(w, m, ders[..|ders| - 1], status), w.sha256(ders[|ders| - 1]), status)
  }

  function StatusesByCert(w: World, p: Policy, entries: seq<Entry>): StatusMap {
    if entries == [] then map[]
    else
      var e := entries[|entries| - 1];
      var rest := StatusesByCert(w, p, entries[..|entries| - 1]);
      if Admitted(p, e) then AddStatuses(w, rest, ServiceCerts(w, e.service), e.service.status) else rest
  }

  predicate Conflicted(m: StatusMap, fp: string) {
    fp in m && |m[fp]| > 1
  }

  // ---- Merging duplicates ----

  function MergeLists(kept: seq<string>, dup: seq<string>): seq<string> {
    if dup == [] then kept else AddNew(MergeLists(kept, dup[..|dup| - 1]), dup[|dup| - 1])
  }

  function MergeDuplicate(kept: Anchor, dup: Anchor): Anchor {
    kept.(uses := MergeLists(kept.uses, dup.uses),
          qualifiers := MergeLists(kept.qualifiers, dup.qualifiers),
          qcWithQSCD := kept.qcWithQSCD || dup.qcWithQSCD)
  }

  function FindAnchor(anchors: seq<Anchor>, fp: string): (r: Option<nat>)
    ensures r.Some? ==> r.value < |anchors| && anchors[r.value].fingerprint == fp
    ensures r.None? ==> forall i :: 0 <= i < |anchors| ==> anchors[i].fingerprint != fp
  {
    if anchors == [] then None
    else if anchors[|anchors| - 1].fingerprint == fp then Some(|anchors| - 1)
    else FindAnchor(anchors[..|anchors| - 1], fp)
  }

  function ConflictWarning(a: Anchor): Warning {
    Warning(a.tspName, a.serviceName, "conflicting statuses across duplicate service entries", SKIP_CONFLICT,
            a.fingerprint, "", "")
  }

  predicate Reported(ws: seq<Warning>, fp: string) {
    exists i :: 0 <= i < |ws| && ws[i].fingerprint == fp
  }

  datatype Merged = Merged(kept: seq<Anchor>, conflicts: seq<Warning>)

  function MergeInto(kept: seq<Anchor>, a: Anchor): seq<Anchor> {
    match FindAnchor(kept, a.fingerprint)
    case Some(i) => kept[i := MergeDuplicate(kept[i], a)]
    case None => kept + [a]
  }

  function Absorb(m: StatusMap, st: Merged, a: Anchor): Merged {
    if Conflicted(m, a.fingerprint) then
      if Reported(st.conflicts, a.fingerprint) then st else st.(conflicts := st.conflicts + [ConflictWarning(a)])
    else st.(kept := MergeInto(st.kept, a))
  }

  function Dedup(m: StatusMap, cs: seq<Anchor>): Merged {
    if cs == [] then Merged([], [])
    else Absorb(m, Dedup(m, cs[..|cs| - 1]), cs[|cs| - 1])
  }

  datatype Extracted = Extracted(anchors: seq<Anchor>, warnings: seq<Warning>)

  function ExtractEntries(w: World, p: Policy, territory: string, entries: seq<Entry>): Extracted {
    var merged := Dedup(StatusesByCert(w, p, entries), SortBy(CandidateLe, Candidates(w, p, territory, entries)));
    Extracted(merged.kept, Flatten(Map(WarningsOf(w, p), entries)) + merged.conflicts)
  }

  function Extract(w: World, p: Policy, territory: string, list: TrustedList): Result<Extracted, Failure> {
    match list.providers
    case None => Err(NoProviderList)
    case Some(providers) => Ok(ExtractEntries(w, p, territory, Entries(providers)))
  }

  /** The per-service skips a territory carries. */
  function Skip(w: Warning): SkippedService {
    SkippedService(w.tspName, w.serviceName, w.code, w.detail, w.fingerprint, w.keyAlgorithm, w.curve)
  }

  function Skipped(ws: seq<Warning>): seq<SkippedService> {
    Map(Skip, ws)
  }
}
