/** trust/vocabulary.go and the texts of trust/extract.go, written out: which statuses
    and service types a configuration accepts, which uses and device qualifications an
    extension grants, and which type a service type is served under. */
module Vocabulary {

  import opened Wrappers
  import opened Sequences
  import opened World
  import opened Extraction
  import opened Lotl
  import opened National

  // ---- Texts ----

  predicate Blank(c: char) {
    c in {' ', '\t', '\n', '\r'}
  }

  /** t is the stretch of s from i to j, and only blanks are around it. */
  ghost predicate StretchAt(s: string, t: string, i: int, j: int) {
    && 0 <= i <= j <= |s| && t == s[i..j]
    && (forall k :: 0 <= k < i ==> Blank(s[k]))
    && (forall k :: j <= k < |s| ==> Blank(s[k]))
    && (i < j ==> !Blank(s[i]) && !Blank(s[j - 1]))
  }

  /** t is s without the blanks around it. */
  ghost predicate TrimmedTo(s: string, t: string) {
    exists i, j :: StretchAt(s, t, i, j)
  }

  lemma {:induction false} TrimLeftAt(s: string) returns (i: nat)
    ensures i <= |s| && TrimLeft(s) == s[i..] && (forall k :: 0 <= k < i ==> Blank(s[k]))
    ensures TrimLeft(s) != "" ==> !Blank(TrimLeft(s)[0])
    decreases |s|
  {
    if s != "" && IsSpace(s[0]) {
      var n := TrimLeftAt(s[1..]);
      i := n + 1;
      assert s[1..][n..] == s[i..];
      forall k | 0 <= k < i ensures Blank(s[k]) {
        if k > 0 {
          assert s[1..][k - 1] == s[k];
        }
      }
    } else {
      i := 0;
    }
  }

  lemma {:induction false} TrimRightAt(s: string) returns (j: nat)
    ensures j <= |s| && TrimRight(s) == s[..j] && (forall k :: j <= k < |s| ==> Blank(s[k]))
    ensures TrimRight(s) != "" ==> !Blank(TrimRight(s)[|TrimRight(s)| - 1])
    decreases |s|
  {
    if s != "" && IsSpace(s[|s| - 1]) {
      var n := |s| - 1;
      j := TrimRightAt(s[..n]);
      assert s[..n][..j] == s[..j];
      forall k | j <= k < |s| ensures Blank(s[k]) {
        if k < n {
          assert s[..n][k] == s[k];
        }
      }
    } else {
      j := |s|;
    }
  }

  lemma {:induction false} StretchUnique(s: string, t: string, u: string, i: int, j: int, m: int, n: int)
    requires StretchAt(s, t, i, j) && StretchAt(s, u, m, n)
    ensures t == u
  {
    assert i < j ==> m <= i && j <= n;
    assert m < n ==> i <= m && n <= j;
  }

  lemma {:induction false} TrimIff(s: string, t: string)
    ensures TrimSpace(s) == t <==> TrimmedTo(s, t)
  {
    hide StretchAt;
    var i, j := TrimAt(s);
    if TrimmedTo(s, t) {
      var m, n :| StretchAt(s, t, m, n);
      StretchUnique(s, TrimSpace(s), t, i, j, m, n);
    }
  }

  lemma {:induction false} TrimAt(s: string) returns (i: int, j: int)
    ensures StretchAt(s, TrimSpace(s), i, j)
  {
    var l := TrimLeft(s);
    i := TrimLeftAt(s);
    var n := TrimRightAt(l);
    j := i + n;
    forall k | j <= k < |s| ensures Blank(s[k]) {
      assert l[k - i] == s[k];
    }
    if n > 0 {
      assert s[i] == l[0] && s[j - 1] == TrimSpace(s)[n - 1];
    }
  }

  /** The text has a scheme: "://" occurs in it. */
  ghost predicate HasScheme(t: string) {
    exists i :: 0 <= i && i + 2 < |t| && t[i] == ':' && t[i + 1] == '/' && t[i + 2] == '/'
  }

  lemma {:induction false} SchemeIff(t: string)
    ensures IsURI(t) <==> HasScheme(t)
    decreases |t|
  {
    if |t| >= 3 {
      SchemeIff(t[1..]);
      assert t[..3] == [t[0], t[1], t[2]];
      if HasScheme(t) {
        var i :| 0 <= i && i + 2 < |t| && t[i] == ':' && t[i + 1] == '/' && t[i + 2] == '/';
        if i > 0 {
          var u := t[1..];
          assert u[i - 1] == ':' && u[i - 1 + 1] == '/' && u[i - 1 + 2] == '/';
        }
      }
      if HasScheme(t[1..]) {
        var u := t[1..];
        var i :| 0 <= i && i + 2 < |u| && u[i] == ':' && u[i + 1] == '/' && u[i + 2] == '/';
        assert t[i + 1] == ':' && t[i + 1 + 1] == '/' && t[i + 1 + 2] == '/';
      }
    }
  }

  // ---- Namespaces ----

  ghost function StatusName(name: string): string {
    "http://uri.etsi.org/TrstSvc/TrustedList/Svcstatus/" + name
  }

  ghost function ServiceTypeName(name: string): string {
    "http://uri.etsi.org/TrstSvc/Svctype/" + name
  }

  ghost function ListTypeName(name: string): string {
    "http://uri.etsi.org/19602/LoTEType/" + name
  }

  // ---- Statuses ----

  /** The full status a configured text names: the trimmed text itself when it is empty
      or has a scheme, else that name in the status namespace. */
  ghost predicate NamesStatus(text: string, full: string) {
    exists t :: TrimmedTo(text, t) && full == if t == "" || HasScheme(t) then t else StatusName(t)
  }

  lemma {:induction false} NormalizeIff(text: string, full: string)
    ensures NormalizeStatus(text) == full <==> NamesStatus(text, full)
  {
    hide TrimmedTo, HasScheme;
    TrimIff(text, TrimSpace(text));
    SchemeIff(TrimSpace(text));
    if t :| TrimmedTo(text, t) {
      TrimIff(text, t);
    }
    forall t | TrimmedTo(text, t) ensures t == TrimSpace(text) {
      TrimIff(text, t);
    }
  }

  /** A service type approved at EU level. */
  ghost predicate EuQualified(id: string) {
    id in {
      ServiceTypeName("CA/QC"),
      ServiceTypeName("Certstatus/OCSP/QC"),
      ServiceTypeName("Certstatus/CRL/QC"),
      ServiceTypeName("TSA/QTST"),
      ServiceTypeName("EDS/Q"),
      ServiceTypeName("EDS/REM/Q"),
      ServiceTypeName("PSES/Q"),
      ServiceTypeName("QESValidation/Q"),
      ServiceTypeName("RemoteQSigCDManagement/Q"),
      ServiceTypeName("RemoteQSealCDManagement/Q"),
      ServiceTypeName("EAA/Q"),
      ServiceTypeName("ElectronicArchiving/Q"),
      ServiceTypeName("Ledgers/Q")
    }
  }

  /** The status a national-level service carries where a qualified one carries `full`. */
  ghost predicate NationalCounterpart(full: string, status: string) {
    || (full == StatusName("granted")
        && status == StatusName("recognisedatnationallevel"))
    || (full == StatusName("withdrawn")
        && status == StatusName("deprecatedatnationallevel"))
  }

  /** The configured types; none configured means the qualified CA type alone. */
  ghost predicate TypeAccepted(cfg: Config, id: string) {
    if cfg.acceptedTypes == [] then id == ServiceTypeName("CA/QC") else id in cfg.acceptedTypes
  }

  /** Some configured status is the service's, or its national counterpart where the
      type is not approved at EU level. */
  ghost predicate StatusAccepted(cfg: Config, s: Service) {
    || (exists i :: 0 <= i < |cfg.acceptedStatuses| && NamesStatus(cfg.acceptedStatuses[i], s.status))
    || (!EuQualified(s.typeIdentifier) && CounterpartAccepted(cfg, s.status))
  }

  ghost predicate Accepts(cfg: Config, s: Service) {
    TypeAccepted(cfg, s.typeIdentifier) && StatusAccepted(cfg, s)
  }

  lemma {:induction false} QualifiedIff(id: string)
    ensures id in QUALIFIED_SVCTYPES <==> EuQualified(id)
  {
  }

  lemma {:induction false} NationalIff(full: string, status: string)
    ensures full in NATIONAL_EQUIVALENT && NATIONAL_EQUIVALENT[full] == status <==> NationalCounterpart(full, status)
  {
    var n := |STATUS_BASE|;
    assert (STATUS_BASE + "granted")[n] == 'g' && (STATUS_BASE + "withdrawn")[n] == 'w';
  }

  lemma {:induction false} TypeAcceptedIff(cfg: Config, e: Entry)
    ensures Admitted(PolicyFor(cfg), e) <==> TypeAccepted(cfg, e.service.typeIdentifier)
  {
  }

  lemma {:induction false} StatusSet(cfg: Config, status: string)
    ensures status in PolicyFor(cfg).statuses
       <==> exists i :: 0 <= i < |cfg.acceptedStatuses| && NamesStatus(cfg.acceptedStatuses[i], status)
  {
    hide NormalizeStatus, NamesStatus;
    var ss := cfg.acceptedStatuses;
    forall s ensures NormalizeStatus(s) == status <==> NamesStatus(s, status) {
      NormalizeIff(s, status);
    }
    if i :| 0 <= i < |ss| && NamesStatus(ss[i], status) {
      assert ss[i] in ss;
    }
  }

  /** Some configured status has the status as its national counterpart. */
  ghost predicate CounterpartAccepted(cfg: Config, status: string) {
    exists i, full ::
      0 <= i < |cfg.acceptedStatuses| && NamesStatus(cfg.acceptedStatuses[i], full) && NationalCounterpart(full, status)
  }

  lemma {:induction false} NationalSet(cfg: Config, status: string)
    ensures status in PolicyFor(cfg).national <==> CounterpartAccepted(cfg, status)
  {
    hide NormalizeStatus, NamesStatus, NationalCounterpart;
    var ss := cfg.acceptedStatuses;
    forall s, full ensures NormalizeStatus(s) == full <==> NamesStatus(s, full) {
      NormalizeIff(s, full);
    }
    forall full ensures full in NATIONAL_EQUIVALENT && NATIONAL_EQUIVALENT[full] == status <==> NationalCounterpart(full, status) {
      NationalIff(full, status);
    }
    if status in PolicyFor(cfg).national {
      var s :| s in ss && NormalizeStatus(s) in NATIONAL_EQUIVALENT && NATIONAL_EQUIVALENT[NormalizeStatus(s)] == status;
      var i :| 0 <= i < |ss| && ss[i] == s;
      assert NamesStatus(ss[i], NormalizeStatus(s)) && NationalCounterpart(NormalizeStatus(s), status);
    }
    if CounterpartAccepted(cfg, status) {
      var i, full :| 0 <= i < |ss| && NamesStatus(ss[i], full) && NationalCounterpart(full, status);
      assert ss[i] in ss && NormalizeStatus(ss[i]) in NATIONAL_EQUIVALENT;
    }
  }

  /** The policy accepts exactly what the configuration says. */
  lemma {:induction false} AcceptedIff(cfg: Config, e: Entry)
    ensures Accepted(PolicyFor(cfg), e) <==> Accepts(cfg, e.service)
  {
    hide NamesStatus, NationalCounterpart, EuQualified, PolicyFor, TypeAccepted, Admitted;
    TypeAcceptedIff(cfg, e);
    StatusSet(cfg, e.service.status);
    NationalSet(cfg, e.service.status);
    QualifiedIff(e.service.typeIdentifier);
  }

  // ---- Uses and device qualifications ----

  /** The extension grants the use. */
  ghost predicate GrantsUse(ext: ServiceExtension, use: string) {
    || (ext.additionalInfo == Some("http://uri.etsi.org/TrstSvc/TrustedList/SvcInfoExt/ForeSignatures") && use == "signature")
    || (ext.additionalInfo == Some("http://uri.etsi.org/TrstSvc/TrustedList/SvcInfoExt/ForeSeals") && use == "seal")
    || (ext.additionalInfo == Some("http://uri.etsi.org/TrstSvc/TrustedList/SvcInfoExt/ForWebSiteAuthentication") && use == "website")
  }

  ghost predicate ServiceGrants(s: Service, use: string) {
    exists k :: 0 <= k < |s.extensions| && GrantsUse(s.extensions[k], use)
  }

  lemma {:induction false} UseOfIff(ext: ServiceExtension, use: string)
    ensures UseOf(ext) == Some(use) <==> GrantsUse(ext, use)
  {
    var n := |"http://uri.etsi.org/TrstSvc/TrustedList/SvcInfoExt/For"|;
    assert ASI_SIGNATURES[n] == 'e' && ASI_SEALS[n] == 'e' && ASI_WEBSITE[n] == 'W';
    assert ASI_SIGNATURES[n + 2] == 'i' && ASI_SEALS[n + 2] == 'e';
  }

  lemma {:induction false} ServiceUsesIff(exts: seq<ServiceExtension>, use: string)
    ensures use in ServiceUses(exts) <==> exists k :: 0 <= k < |exts| && GrantsUse(exts[k], use)
    ensures Distinct(ServiceUses(exts))
    decreases |exts|
  {
    hide UseOf, GrantsUse;
    if exts != [] {
      var n := |exts| - 1;
      ServiceUsesIff(exts[..n], use);
      UseOfIff(exts[n], use);
      if k :| 0 <= k < |exts| && GrantsUse(exts[k], use) && k < n {
        assert exts[..n][k] == exts[k];
      }
      if k :| 0 <= k < n && GrantsUse(exts[..n][k], use) {
        assert exts[k] == exts[..n][k];
      }
    }
  }

  /** The service lists the qualifier. */
  ghost predicate ServiceQualifier(s: Service, q: string) {
    exists k :: 0 <= k < |s.extensions| && q in s.extensions[k].qualifiers
  }

  /** The private key resides in a qualified device. */
  ghost predicate InDevice(s: Service) {
    || ServiceQualifier(s, "http://uri.etsi.org/TrstSvc/TrustedList/SvcInfoExt/QCWithQSCD")
    || ServiceQualifier(s, "http://uri.etsi.org/TrstSvc/TrustedList/SvcInfoExt/QCQSCDManagedOnBehalf")
  }

  lemma {:induction false} QualifiersIff(s: Service, q: string)
    ensures q in AllQualifiers(s.extensions) <==> ServiceQualifier(s, q)
  {
    FlattenMembers(Map(ExtensionQualifiers, s.extensions), q);
    var parts := Map(ExtensionQualifiers, s.extensions);
    if k :| 0 <= k < |parts| && q in parts[k] {
      assert q in s.extensions[k].qualifiers;
    }
    if k :| 0 <= k < |s.extensions| && q in s.extensions[k].qualifiers {
      assert q in parts[k];
    }
  }

  lemma {:induction false} DeviceIff(s: Service)
    ensures QscdPositive(s.extensions) <==> InDevice(s)
  {
    hide AllQualifiers, ServiceQualifier;
    QualifiersIff(s, QUALIFIER_QSCD);
    QualifiersIff(s, QUALIFIER_QSCD_MANAGED);
  }

  // ---- Types ----

  /** The type a published identifier is served under; "" is the untyped plane. */
  ghost predicate ServedUnder(id: string, key: string) {
    || (id == ServiceTypeName("EAA/Q") && key == "qeaa_provider")
    || (id == ServiceTypeName("EAA") && key == "eaa_provider")
    || (id == ListTypeName("EUPIDProvidersList") && key == "pid_provider")
    || (id == ListTypeName("EUWalletProvidersList") && key == "wallet_provider")
    || (id == ListTypeName("EUWRPACProvidersList") && key == "access_ca")
    || (id == ListTypeName("EUWRPRCProvidersList") && key == "wrprc_issuer")
    || (id == ListTypeName("EUPubEAAProvidersList") && key == "pub_eaa_provider")
    || (key == "" && id !in {
          ServiceTypeName("EAA/Q"), ServiceTypeName("EAA"),
          ListTypeName("EUPIDProvidersList"), ListTypeName("EUWalletProvidersList"),
          ListTypeName("EUWRPACProvidersList"), ListTypeName("EUWRPRCProvidersList"),
          ListTypeName("EUPubEAAProvidersList")})
  }

  lemma {:induction false} TypeKeyServes(id: string)
    ensures ServedUnder(id, TypeKey(id))
  {
  }
}
