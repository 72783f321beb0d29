/** What a file of declared anchors means: which entries are well declared, and every
    field of the anchors they declare. */
module Declarations {

  import opened Wrappers
  import opened Sequences
  import opened Order
  import opened Trust
  import opened World
  import opened Identity
  import opened Extraction
  import opened Vocabulary
  import opened Declared

  // ---- Types ----

  ghost predicate KnownRole(role: string) {
    role in {
      "pid_provider", "qeaa_provider", "pub_eaa_provider", "eaa_provider", "wallet_provider", "access_ca", "wrprc_issuer",
      "pid_provider_status", "qeaa_provider_status", "pub_eaa_provider_status", "eaa_provider_status"}
  }

  /** The type a single type text names; the untyped plane is named by nothing or "tsl_ca". */
  ghost predicate NamesRole(text: string, role: string) {
    exists t :: TrimmedTo(text, t) && role == if t == "tsl_ca" then "" else t
  }

  /** The entry declares its certificate under the type. */
  ghost predicate DeclaresRole(e: DeclaredEntry, role: string) {
    if e.hasTypes then exists i :: 0 <= i < |e.types| && TrimmedTo(e.types[i], role) else NamesRole(e.typeText, role)
  }

  /** A list of types replaces the single one; it is not empty, and every type in it is
      known and listed once. */
  ghost predicate TypesWell(e: DeclaredEntry) {
    if e.hasTypes
    then
      && !e.hasType && e.types != []
      && (forall i, t :: 0 <= i < |e.types| && TrimmedTo(e.types[i], t) ==> KnownRole(t))
      && (forall i, j, t :: 0 <= i < j < |e.types| && TrimmedTo(e.types[i], t) ==> !TrimmedTo(e.types[j], t))
    else forall role :: NamesRole(e.typeText, role) ==> role == "" || KnownRole(role)
  }

  lemma {:induction false} TrimExists(s: string)
    ensures TrimmedTo(s, TrimSpace(s)) && forall t :: TrimmedTo(s, t) ==> t == TrimSpace(s)
  {
    hide TrimmedTo;
    TrimIff(s, TrimSpace(s));
    forall t | TrimmedTo(s, t) ensures t == TrimSpace(s) {
      TrimIff(s, t);
    }
  }

  lemma {:induction false} RoleKnown(t: string)
    ensures t != "" && t != UNTYPED_ALIAS && t in ANCHOR_TYPES <==> KnownRole(t)
    ensures t in ANCHOR_TYPES <==> KnownRole(t)
  {
    assert UNTYPED_ALIAS[0] == 't';
  }

  lemma {:induction false} ListWell(e: DeclaredEntry)
    requires e.hasTypes
    ensures !e.hasType && e.types != [] && Roles(e.types).Ok? <==> TypesWell(e)
  {
    hide TrimmedTo, KnownRole, Roles, TrimSpace, UNTYPED_ALIAS, ANCHOR_TYPES;
    RolesIff(e.types);
    var ts := Map(TrimSpace, e.types);
    forall i | 0 <= i < |e.types| ensures TrimmedTo(e.types[i], ts[i]) && forall t :: TrimmedTo(e.types[i], t) ==> t == ts[i] {
      TrimExists(e.types[i]);
    }
    forall i | 0 <= i < |e.types| ensures GoodRole(e.types[i]) <==> KnownRole(ts[i]) {
      RoleKnown(ts[i]);
    }
    if TypesWell(e) {
      forall i, j | 0 <= i < j < |ts| ensures ts[i] != ts[j] {
        assert TrimmedTo(e.types[i], ts[i]) && !TrimmedTo(e.types[j], ts[i]);
      }
    }
    if Distinct(ts) {
      forall i, j, t | 0 <= i < j < |e.types| && TrimmedTo(e.types[i], t) ensures !TrimmedTo(e.types[j], t) {
        assert ts[i] != ts[j];
      }
    }
  }

  lemma {:induction false} OneWell(e: DeclaredEntry)
    requires !e.hasTypes
    ensures DeclaredTypes(e).Ok? <==> TypesWell(e)
    ensures DeclaredTypes(e).Ok? ==> |DeclaredTypes(e).value| == 1 && forall role :: NamesRole(e.typeText, role) <==> role == DeclaredTypes(e).value[0]
  {
    hide TrimmedTo, KnownRole;
    TrimExists(e.typeText);
    var t := TrimSpace(e.typeText);
    RoleKnown(if t == UNTYPED_ALIAS then "" else t);
    assert NamesRole(e.typeText, if t == UNTYPED_ALIAS then "" else t);
    forall role | NamesRole(e.typeText, role) ensures role == if t == UNTYPED_ALIAS then "" else t {
      var u :| TrimmedTo(e.typeText, u) && role == if u == "tsl_ca" then "" else u;
    }
  }

  /** The types of an entry are those it declares, if they are well listed. */
  lemma {:induction false} TypesIff(e: DeclaredEntry)
    ensures DeclaredTypes(e).Ok? <==> TypesWell(e)
    ensures DeclaredTypes(e).Ok? ==> forall role :: role in DeclaredTypes(e).value <==> DeclaresRole(e, role)
  {
    hide TrimmedTo, TypesWell, NamesRole, Roles;
    if e.hasTypes {
      ListWell(e);
      if DeclaredTypes(e).Ok? {
        RolesIff(e.types);
        var ts := Map(TrimSpace, e.types);
        forall role ensures role in ts <==> DeclaresRole(e, role) {
          if role in ts {
            var i :| 0 <= i < |ts| && ts[i] == role;
            TrimExists(e.types[i]);
          }
          if i :| 0 <= i < |e.types| && TrimmedTo(e.types[i], role) {
            TrimExists(e.types[i]);
            assert ts[i] == role;
          }
        }
      }
    } else {
      OneWell(e);
    }
  }

  // ---- Territories ----

  /** d is the capital of the letter c. */
  ghost predicate Capital(c: char, d: char) {
    'A' <= d <= 'Z' && (c == d || c as int == d as int + 32)
  }

  /** The text, blanks aside, is the two-letter code in either case. */
  ghost predicate NamesTerritory(text: string, code: string) {
    exists t :: TrimmedTo(text, t) && |t| == 2 && |code| == 2 && Capital(t[0], code[0]) && Capital(t[1], code[1])
  }

  lemma {:induction false} CapitalIff(c: char, d: char)
    ensures Upper(c) == d && 'A' <= d <= 'Z' <==> Capital(c, d)
  {
  }

  lemma {:induction false} UpperTerritory(t: string, code: string)
    ensures ToUpper(t) == code && ValidTerritory(code) <==> |t| == 2 && |code| == 2 && Capital(t[0], code[0]) && Capital(t[1], code[1])
  {
    hide Upper, Capital;
    if |t| == 2 && |code| == 2 {
      CapitalIff(t[0], code[0]);
      CapitalIff(t[1], code[1]);
      assert ToUpper(t) == [Upper(t[0]), Upper(t[1])];
      assert code == [code[0], code[1]];
    }
    assert |ToUpper(t)| == |t|;
  }

  lemma {:induction false} TerritoryIff(text: string, code: string)
    ensures ToUpper(TrimSpace(text)) == code && ValidTerritory(code) <==> NamesTerritory(text, code)
  {
    hide TrimmedTo, Capital, ToUpper, ValidTerritory;
    TrimExists(text);
    UpperTerritory(TrimSpace(text), code);
    if NamesTerritory(text, code) {
      var t :| TrimmedTo(text, t) && |t| == 2 && |code| == 2 && Capital(t[0], code[0]) && Capital(t[1], code[1]);
      assert t == TrimSpace(text);
    }
  }

  // ---- Entries ----

  /** What the certificate parser says; nothing but the key names where it refuses. */
  ghost predicate FactsAre(w: World, der: Bytes, f: CertFacts) {
    match w.certificate(der)
    case Parsed(g) => f == g
    case Structural(g) => f == g
    case Refused(_, alg, curve) => f == CertFacts("", "", 0, 0, alg, curve)
  }

  /** An entry with known keys only, well-listed types, a two-letter territory and exactly
      one certificate that has not expired. */
  ghost predicate WellStated(w: World, e: DeclaredEntry, now: Instant) {
    && e.knownKeysOnly && TypesWell(e)
    && (exists code :: NamesTerritory(e.territory, code))
    && exists der, f :: e.certs == Ok([der]) && FactsAre(w, der, f) && now <= f.notAfter
  }

  /** The identifier a type is published under. */
  ghost predicate PublishedAs(role: string, id: string) {
    || (role == "" && id == ServiceTypeName("CA/QC"))
    || (role == "qeaa_provider" && id == ServiceTypeName("EAA/Q"))
    || (role == "eaa_provider" && id == ServiceTypeName("EAA"))
    || (role == "pid_provider" && id == ListTypeName("EUPIDProvidersList"))
    || (role == "wallet_provider" && id == ListTypeName("EUWalletProvidersList"))
    || (role == "access_ca" && id == ListTypeName("EUWRPACProvidersList"))
    || (role == "wrprc_issuer" && id == ListTypeName("EUWRPRCProvidersList"))
    || (role == "pub_eaa_provider" && id == ListTypeName("EUPubEAAProvidersList"))
    || (id == "" && role !in {"", "qeaa_provider", "eaa_provider", "pid_provider", "wallet_provider", "access_ca", "wrprc_issuer", "pub_eaa_provider"})
  }

  /** The earlier of the certificate's end and the declared one. */
  ghost predicate EndsAt(end: Instant, notAfter: Instant, validUntil: Option<Instant>) {
    match validUntil
    case None => end == notAfter
    case Some(until) => end <= notAfter && end <= until && (end == notAfter || end == until)
  }

  /** The anchor the entry declares for its certificate under the type. */
  ghost predicate DeclaredAs(w: World, e: DeclaredEntry, role: string, a: Anchor) {
    && NamesTerritory(e.territory, a.territory)
    && a.source == "internal" && a.tspName == e.name && a.anchorType == role && PublishedAs(role, a.serviceType)
    && a.status == (if e.status == "" then StatusName("granted") else e.status) && a.useCases == e.useCases
    && a.qualifiers == [] && !a.qcWithQSCD && a.uses == [] && a.tlSequence == 0
    && a.fingerprint == w.sha256(a.certDER) && e.certs == Ok([a.certDER])
    && exists f ::
         && FactsAre(w, a.certDER, f)
         && a.serviceName == f.commonName && a.subject == f.subject && a.keyAlgorithm == f.keyAlgorithm && a.curve == f.curve
         && a.statusStartingTime == f.notBefore && a.notBefore == f.notBefore && EndsAt(a.notAfter, f.notAfter, e.validUntil)
  }

  lemma {:induction false} FactsIff(w: World, der: Bytes, f: CertFacts)
    ensures FactsOf(w, der) == f <==> FactsAre(w, der, f)
  {
  }

  lemma {:induction false} EndIff(end: Instant, notAfter: Instant, validUntil: Option<Instant>)
    ensures Capped(notAfter, validUntil) == end <==> EndsAt(end, notAfter, validUntil)
  {
  }

  lemma {:induction false} PublishedTypes(role: string)
    ensures PublishedAs(role, TypeIdentifier(role))
  {
  }

  /** Each type is published under one identifier. */
  lemma {:induction false} PublishedOnce(role: string, id: string)
    requires PublishedAs(role, id)
    ensures id == TypeIdentifier(role)
  {
    assert "qeaa_provider"[0] == 'q' && "eaa_provider"[0] == 'e' && "pid_provider"[1] == 'i' && "wallet_provider"[1] == 'a'
        && "access_ca"[0] == 'a' && "wrprc_issuer"[1] == 'r' && "pub_eaa_provider"[1] == 'u';
  }

  lemma {:induction false} OneIff(ders: seq<Bytes>, der: Bytes)
    ensures ders == [der] <==> |ders| == 1 && ders[0] == der
  {
  }

  lemma {:induction false} BuiltIff(w: World, e: DeclaredEntry, now: Instant)
    ensures BuildEntry(w, e, now).Ok? <==> WellStated(w, e, now)
  {
    hide TypesWell, NamesTerritory, FactsOf, FactsAre, DeclaredTypes, ToUpper, TrimSpace, ValidTerritory;
    TypesIff(e);
    var code := ToUpper(TrimSpace(e.territory));
    forall c ensures code == c && ValidTerritory(c) <==> NamesTerritory(e.territory, c) {
      TerritoryIff(e.territory, c);
    }
    if e.certs.Ok? {
      var ders := e.certs.value;
      forall der, f ensures FactsOf(w, der) == f <==> FactsAre(w, der, f) {
        FactsIff(w, der, f);
      }
      if |ders| == 1 {
        assert ders == [ders[0]];
        assert FactsAre(w, ders[0], FactsOf(w, ders[0]));
      }
    }
  }

  lemma {:induction false} AnchorIff(w: World, e: DeclaredEntry, now: Instant, role: string, a: Anchor)
    requires BuildEntry(w, e, now).Ok?
    ensures DeclaredAs(w, e, role, a) <==> a == DeclaredAnchor(w, e, e.certs.value[0], role)
  {
    hide NamesTerritory, FactsOf, FactsAre, DeclaredTypes, ToUpper, TrimSpace, ValidTerritory, Capped, EndsAt, PublishedAs, TypeIdentifier;
    var der := e.certs.value[0];
    OneIff(e.certs.value, a.certDER);
    TerritoryIff(e.territory, a.territory);
    var f := FactsOf(w, der);
    forall g ensures f == g <==> FactsAre(w, der, g) {
      FactsIff(w, der, g);
    }
    EndIff(a.notAfter, f.notAfter, e.validUntil);
    PublishedTypes(role);
    if PublishedAs(role, a.serviceType) {
      PublishedOnce(role, a.serviceType);
    }
  }

  lemma {:induction false} BuiltMembers(w: World, e: DeclaredEntry, now: Instant, a: Anchor)
    requires BuildEntry(w, e, now).Ok?
    ensures a in BuildEntry(w, e, now).value <==> exists role :: DeclaresRole(e, role) && DeclaredAs(w, e, role, a)
  {
    hide DeclaresRole, DeclaredAs, DeclaredTypes, DeclaredAnchor, FactsOf, ValidTerritory, ToUpper;
    TypesIff(e);
    var der, types := e.certs.value[0], DeclaredTypes(e).value;
    var built := BuildEntry(w, e, now).value;
    assert built == Map(DeclaredAnchorOf(w, e, der), types);
    if a in built {
      var i :| 0 <= i < |built| && built[i] == a;
      AnchorIff(w, e, now, types[i], a);
      assert types[i] in types;
    }
    if role :| DeclaresRole(e, role) && DeclaredAs(w, e, role, a) {
      AnchorIff(w, e, now, role, a);
      var i :| 0 <= i < |types| && types[i] == role;
      assert built[i] == a;
    }
  }

  // ---- Files ----

  /** No two entries declare certificates of one fingerprint. */
  ghost predicate NoneTwice(w: World, entries: seq<DeclaredEntry>) {
    forall i, j, c, d :: 0 <= i < j < |entries| && entries[i].certs == Ok([c]) && entries[j].certs == Ok([d]) ==> w.sha256(c) != w.sha256(d)
  }

  lemma {:induction false} OneCertificate(w: World, e: DeclaredEntry, now: Instant) returns (der: Bytes)
    requires BuildEntry(w, e, now).Ok?
    ensures e.certs == Ok([der]) && EntryFingerprint(w)(e) == w.sha256(der)
  {
    der := e.certs.value[0];
    OneIff(e.certs.value, der);
  }

  lemma {:induction false} NoneTwiceIff(w: World, entries: seq<DeclaredEntry>, now: Instant)
    requires AllValid(w, entries, now)
    ensures Distinct(Map(EntryFingerprint(w), entries)) <==> NoneTwice(w, entries)
  {
    hide BuildEntry;
    var fps := Map(EntryFingerprint(w), entries);
    if Distinct(fps) {
      forall i, j, c, d | 0 <= i < j < |entries| && entries[i].certs == Ok([c]) && entries[j].certs == Ok([d]) ensures w.sha256(c) != w.sha256(d) {
        assert fps[i] != fps[j];
      }
    }
    if NoneTwice(w, entries) {
      forall i, j | 0 <= i < j < |fps| ensures fps[i] != fps[j] {
        var c := OneCertificate(w, entries[i], now);
        var d := OneCertificate(w, entries[j], now);
      }
    }
  }

  /** The file declares the anchor. */
  ghost predicate Declares(w: World, entries: seq<DeclaredEntry>, a: Anchor) {
    exists i, role :: 0 <= i < |entries| && DeclaresRole(entries[i], role) && DeclaredAs(w, entries[i], role, a)
  }

  ghost predicate DeclaredBefore(a: Anchor, b: Anchor) {
    if a.fingerprint == b.fingerprint then a.anchorType != b.anchorType && StringLe(a.anchorType, b.anchorType)
    else StringLe(a.fingerprint, b.fingerprint)
  }

  lemma {:induction false} CollectedMembers(w: World, entries: seq<DeclaredEntry>, now: Instant, a: Anchor)
    requires AllValid(w, entries, now)
    ensures a in Flatten(Map(BuiltOrNone(w, now), entries)) <==> Declares(w, entries, a)
  {
    hide DeclaresRole, DeclaredAs, BuildEntry;
    var parts := Map(BuiltOrNone(w, now), entries);
    FlattenMembers(parts, a);
    if i :| 0 <= i < |parts| && a in parts[i] {
      BuiltMembers(w, entries[i], now, a);
    }
    if i, role :| 0 <= i < |entries| && DeclaresRole(entries[i], role) && DeclaredAs(w, entries[i], role, a) {
      BuiltMembers(w, entries[i], now, a);
      assert a in parts[i];
    }
  }

  lemma {:induction false} LoadedOrder(out: seq<Anchor>)
    requires SortedBy(DeclaredLe, out) && Distinct(Map(DeclaredKey, out))
    ensures forall i, j :: 0 <= i < j < |out| ==> DeclaredBefore(out[i], out[j])
  {
    forall i, j | 0 <= i < j < |out| ensures DeclaredBefore(out[i], out[j]) {
      var ks := Map(DeclaredKey, out);
      assert ks[i] != ks[j] && DeclaredLe(out[i], out[j]);
      KeyLeTwo(out[i].fingerprint, out[i].anchorType, out[j].fingerprint, out[j].anchorType);
    }
  }

  /** A file loads exactly when every entry is well stated and no certificate is declared
      twice, and then yields exactly the declared anchors, ordered by fingerprint and type. */
  lemma {:induction false} FileMeans(w: World, entries: seq<DeclaredEntry>, now: Instant)
    ensures var r := LoadDeclared(w, Decoded(entries), now);
            && (r.Ok? <==> (forall i :: 0 <= i < |entries| ==> WellStated(w, entries[i], now)) && NoneTwice(w, entries))
            && (r.Ok? ==> (forall a :: a in r.value <==> Declares(w, entries, a))
                          && forall i, j :: 0 <= i < j < |r.value| ==> DeclaredBefore(r.value[i], r.value[j]))
  {
    hide BuildEntry, WellStated, NoneTwice, Declares, DeclaredBefore, DeclaredLe, DeclaredKey, EntryFingerprint, WellDeclared;
    LoadExact(w, entries, now);
    forall i | 0 <= i < |entries| ensures BuildEntry(w, entries[i], now).Ok? <==> WellStated(w, entries[i], now) {
      BuiltIff(w, entries[i], now);
    }
    if AllValid(w, entries, now) {
      NoneTwiceIff(w, entries, now);
    }
    CollectWell(w, entries, now);
    var r := LoadDeclared(w, Decoded(entries), now);
    if r.Ok? {
      LoadedOrder(r.value);
      var all := CollectEntries(w, entries, now).value.anchors;
      SortKeepsElements(DeclaredLe, all);
      forall a ensures a in r.value <==> Declares(w, entries, a) {
        CollectedMembers(w, entries, now, a);
      }
    }
  }
}
