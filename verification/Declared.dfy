/** trust/internal.go: the operator-declared anchor file, from its decoded entries. */
module Declared {

  import opened Wrappers
  import opened Sequences
  import opened Order
  import opened Trust
  import opened World
  import opened Filter
  import opened Identity
  import opened Extraction

  const UNTYPED_ALIAS := "tsl_ca"
  const GRANTED := STATUS_BASE + "granted"

  /** A decoded entry. `certs` is the certificate material resolved and parsed. */
  datatype DeclaredEntry = DeclaredEntry(
    name: string,
    knownKeysOnly: bool,
    hasType: bool,
    typeText: string,
    hasTypes: bool,
    types: seq<string>,
    territory: string,
    status: string,
    certs: Result<seq<Bytes>, string>,
    validUntil: Option<Instant>,
    useCases: seq<string>)

  datatype DeclaredFile = NotConfigured | Unreadable(text: string) | Decoded(entries: seq<DeclaredEntry>)

  datatype Rejection =
    | UnreadableFile
    | UnknownKey
    | UnknownType
    | BothTypeKeys
    | NoTypes
    | UntypedRole
    | DuplicateType
    | BadTerritory
    | BadCertificate
    | NotOneCertificate
    | Expired
    | DuplicateCertificate

  function TypeIdentifier(key: string): string {
    if key == "" then SERVICE_TYPE_CAQC
    else if key == "qeaa_provider" then SVCTYPE_BASE + "EAA/Q"
    else if key == "eaa_provider" then SVCTYPE_BASE + "EAA"
    else if key == "pid_provider" then LOTE_BASE + "EUPIDProvidersList"
    else if key == "wallet_provider" then LOTE_BASE + "EUWalletProvidersList"
    else if key == "access_ca" then LOTE_BASE + "EUWRPACProvidersList"
    else if key == "wrprc_issuer" then LOTE_BASE + "EUWRPRCProvidersList"
    else if key == "pub_eaa_provider" then LOTE_BASE + "EUPubEAAProvidersList"
    else ""
  }

  // ---- One entry ----

  /** The roles listed so far, each known, none twice, none the untyped plane. */
  function Roles(types: seq<string>): Result<seq<string>, Rejection> {
    if types == [] then Ok([])
    else
      var out :- Roles(types[..|types| - 1]);
      var t := TrimSpace(types[|types| - 1]);
      if t == "" || t == UNTYPED_ALIAS then Err(UntypedRole)
      else if t !in ANCHOR_TYPES then Err(UnknownType)
      else if t in out then Err(DuplicateType)
      else Ok(out + [t])
  }

  function DeclaredTypes(e: DeclaredEntry): Result<seq<string>, Rejection> {
    if !e.hasTypes then
      var t := TrimSpace(e.typeText);
      var u := if t == UNTYPED_ALIAS then "" else t;
      if u != "" && u !in ANCHOR_TYPES then Err(UnknownType) else Ok([u])
    else if e.hasType then Err(BothTypeKeys)
    else if e.types == [] then Err(NoTypes)
    else Roles(e.types)
  }

  function Upper(c: char): char {
    if 'a' <= c <= 'z' then (c as int - 32) as char else c
  }

  function ToUpper(s: string): string {
    Map(Upper, s)
  }

  predicate ValidTerritory(t: string) {
    |t| == 2 && 'A' <= t[0] <= 'Z' && 'A' <= t[1] <= 'Z'
  }

  function Capped(notAfter: Instant, validUntil: Option<Instant>): Instant {
    if validUntil.Some? && validUntil.value < notAfter then validUntil.value else notAfter
  }

  function DeclaredAnchor(w: World, e: DeclaredEntry, der: Bytes, t: string): Anchor {
    var f := FactsOf(w, der);
    Anchor(
      ToUpper(TrimSpace(e.territory)), SOURCE_INTERNAL, e.name, f.commonName, TypeIdentifier(t),
      if e.status == "" then GRANTED else e.status, f.notBefore, der, w.sha256(der), f.subject, f.notBefore,
      Capped(f.notAfter, e.validUntil), [], false, [], f.keyAlgorithm, f.curve, t, e.useCases, 0)
  }

  function DeclaredAnchorOf(w: World, e: DeclaredEntry, der: Bytes): string -> Anchor {
    t => DeclaredAnchor(w, e, der, t)
  }

  function BuildEntry(w: World, e: DeclaredEntry, now: Instant): Result<seq<Anchor>, Rejection> {
    if !e.knownKeysOnly then Err(UnknownKey)
    else
      var types :- DeclaredTypes(e);
      if !ValidTerritory(ToUpper(TrimSpace(e.territory))) then Err(BadTerritory)
      else
        match e.certs
        case Err(_) => Err(BadCertificate)
        case Ok(certs) =>
          if |certs| != 1 then Err(NotOneCertificate)
          else if now > FactsOf(w, certs[0]).notAfter then Err(Expired)
          else Ok(Map(DeclaredAnchorOf(w, e, certs[0]), types))
  }

  // ---- The file ----

  datatype Loaded = Loaded(anchors: seq<Anchor>, seen: set<string>)

  function CollectEntries(w: World, entries: seq<DeclaredEntry>, now: Instant): Result<Loaded, Rejection> {
    if entries == [] then Ok(Loaded([], {}))
    else
      var before :- CollectEntries(w, entries[..|entries| - 1], now);
      var built :- BuildEntry(w, entries[|entries| - 1], now);
      BuiltHasFirst(w, entries[|entries| - 1], now);
      var fp := built[0].fingerprint;
      if fp in before.seen then Err(DuplicateCertificate)
      else Ok(Loaded(before.anchors + built, before.seen + {fp}))
  }

  predicate DeclaredLe(a: Anchor, b: Anchor) {
    KeyLe([a.fingerprint, a.anchorType], [b.fingerprint, b.anchorType])
  }

  function LoadDeclared(w: World, file: DeclaredFile, now: Instant): Result<seq<Anchor>, Rejection> {
    match file
    case NotConfigured => Ok([])
    case Unreadable(_) => Err(UnreadableFile)
    case Decoded(entries) =>
      var all :- CollectEntries(w, entries, now);
      Ok(SortBy(DeclaredLe, all.anchors))
  }

  // ---- The source's loops ----

  method CollectRoles(types: seq<string>) returns (r: Result<seq<string>, Rejection>)
    ensures r == Roles(types)
  {
    var out: seq<string> := [];
    for i := 0 to |types|
      invariant Roles(types[..i]) == Ok(out)
    {
      assert types[..i + 1][..i] == types[..i];
      var t := TrimSpace(types[i]);
      var bad := if t == "" || t == UNTYPED_ALIAS then Some(UntypedRole)
                 else if t !in ANCHOR_TYPES then Some(UnknownType)
                 else if t in out then Some(DuplicateType)
                 else None;
      if bad.Some? {
        RolesFail(types, i + 1);
        return Err(bad.value);
      }
      out := out + [t];
    }
    assert types[..|types|] == types;
    r := Ok(out);
  }

  lemma {:induction false} RolesFail(types: seq<string>, i: nat)
    requires i <= |types| && Roles(types[..i]).Err?
    ensures Roles(types) == Roles(types[..i])
    decreases |types| - i
  {
    if i == |types| {
      assert types[..i] == types;
    } else {
      assert types[..i + 1][..i] == types[..i];
      RolesFail(types, i + 1);
    }
  }

  lemma {:induction false} CollectFail(w: World, entries: seq<DeclaredEntry>, now: Instant, i: nat)
    requires i <= |entries| && CollectEntries(w, entries[..i], now).Err?
    ensures CollectEntries(w, entries, now) == CollectEntries(w, entries[..i], now)
    decreases |entries| - i
  {
    if i == |entries| {
      assert entries[..i] == entries;
    } else {
      assert entries[..i + 1][..i] == entries[..i];
      CollectFail(w, entries, now, i + 1);
    }
  }

  /** loadInternalBytes after decoding: one bad entry rejects the whole file. */
  method LoadInternal(w: World, entries: seq<DeclaredEntry>, now: Instant) returns (r: Result<seq<Anchor>, Rejection>)
    ensures r == LoadDeclared(w, Decoded(entries), now)
  {
    var anchors: seq<Anchor> := [];
    var seen: set<string> := {};
    for i := 0 to |entries|
      invariant CollectEntries(w, entries[..i], now) == Ok(Loaded(anchors, seen))
    {
      assert entries[..i + 1][..i] == entries[..i];
      var built := BuildEntry(w, entries[i], now);
      if built.Err? {
        CollectFail(w, entries, now, i + 1);
        return Err(built.error);
      }
      BuiltHasFirst(w, entries[i], now);
      var fp := built.value[0].fingerprint;
      if fp in seen {
        CollectFail(w, entries, now, i + 1);
        return Err(DuplicateCertificate);
      }
      seen := seen + {fp};
      anchors := anchors + built.value;
    }
    assert entries[..|entries|] == entries;
    r := Ok(SortBy(DeclaredLe, anchors));
  }

  // ---- What a load guarantees ----

  lemma {:induction false} RolesDistinct(types: seq<string>)
    ensures Roles(types).Ok? ==> |Roles(types).value| == |types| && Distinct(Roles(types).value)
    decreases |types|
  {
    if types != [] {
      RolesDistinct(types[..|types| - 1]);
    }
  }

  /** What every anchor of an accepted entry satisfies: it carries the entry's one
      certificate and never outlives it. */
  predicate WellDeclared(w: World, now: Instant, a: Anchor) {
    && CertConsistent(w, a)
    && a.source == SOURCE_INTERNAL
    && a.notAfter <= FactsOf(w, a.certDER).notAfter
    && now <= FactsOf(w, a.certDER).notAfter
  }

  lemma {:induction false} BuiltHasFirst(w: World, e: DeclaredEntry, now: Instant)
    requires BuildEntry(w, e, now).Ok?
    ensures BuildEntry(w, e, now).value != []
    ensures DeclaredTypes(e).Ok? && |BuildEntry(w, e, now).value| == |DeclaredTypes(e).value|
  {
    if e.hasTypes {
      RolesDistinct(e.types);
    }
  }

  ghost function EntryFingerprint(w: World): DeclaredEntry -> string {
    (e: DeclaredEntry) => if e.certs.Ok? && |e.certs.value| > 0 then w.sha256(e.certs.value[0]) else ""
  }

  lemma {:induction false} BuiltAnchors(w: World, e: DeclaredEntry, now: Instant)
    requires BuildEntry(w, e, now).Ok?
    ensures var built := BuildEntry(w, e, now).value;
            && Distinct(Map(DeclaredKey, built))
            && (forall i :: 0 <= i < |built| ==> built[i].fingerprint == EntryFingerprint(w)(e))
            && (forall i :: 0 <= i < |built| ==> WellDeclared(w, now, built[i]))
  {
    if e.hasTypes {
      RolesDistinct(e.types);
    }
    var built := BuildEntry(w, e, now).value;
    var types := DeclaredTypes(e).value;
    forall i, j | 0 <= i < j < |built| ensures Map(DeclaredKey, built)[i] != Map(DeclaredKey, built)[j] {
      assert types[i] != types[j];
      assert built[i].anchorType == types[i] && built[j].anchorType == types[j];
    }
  }

  function BuiltOrNone(w: World, now: Instant): DeclaredEntry -> seq<Anchor> {
    (e: DeclaredEntry) => var r := BuildEntry(w, e, now); if r.Ok? then r.value else []
  }

  ghost predicate AllValid(w: World, entries: seq<DeclaredEntry>, now: Instant) {
    forall i :: 0 <= i < |entries| ==> BuildEntry(w, entries[i], now).Ok?
  }

  function TypeCount(entries: seq<DeclaredEntry>): nat {
    if entries == [] then 0
    else
      var r := DeclaredTypes(entries[|entries| - 1]);
      TypeCount(entries[..|entries| - 1]) + if r.Ok? then |r.value| else 0
  }

  ghost predicate LoadedWell(w: World, entries: seq<DeclaredEntry>, now: Instant, l: Loaded) {
    && l.anchors == Flatten(Map(BuiltOrNone(w, now), entries))
    && (forall fp :: fp in l.seen <==> fp in Map(EntryFingerprint(w), entries))
    && (forall i :: 0 <= i < |l.anchors| ==> l.anchors[i].fingerprint in l.seen && WellDeclared(w, now, l.anchors[i]))
    && Distinct(Map(DeclaredKey, l.anchors))
    && |l.anchors| == TypeCount(entries)
  }

  lemma {:induction false} DistinctAcross(a: seq<Anchor>, b: seq<Anchor>, fp: string)
    requires Distinct(Map(DeclaredKey, a)) && Distinct(Map(DeclaredKey, b))
    requires forall i :: 0 <= i < |a| ==> a[i].fingerprint != fp
    requires forall i :: 0 <= i < |b| ==> b[i].fingerprint == fp
    ensures Distinct(Map(DeclaredKey, a + b))
  {
    var ks := Map(DeclaredKey, a + b);
    forall i, j | 0 <= i < j < |ks| ensures ks[i] != ks[j] {
      if j < |a| {
        assert ks[i] == Map(DeclaredKey, a)[i] && ks[j] == Map(DeclaredKey, a)[j];
      } else if i < |a| {
        assert ks[i].0 == a[i].fingerprint && ks[j].0 == b[j - |a|].fingerprint;
      } else {
        assert ks[i] == Map(DeclaredKey, b)[i - |a|] && ks[j] == Map(DeclaredKey, b)[j - |a|];
      }
    }
  }

  /** The anchors and the fingerprint one more valid entry adds. */
  lemma {:induction false} LoadedGrows(w: World, entries: seq<DeclaredEntry>, e: DeclaredEntry, now: Instant, l: Loaded)
    requires LoadedWell(w, entries, now, l)
    requires BuildEntry(w, e, now).Ok?
    requires EntryFingerprint(w)(e) !in l.seen
    ensures LoadedWell(w, entries + [e], now,
                       Loaded(l.anchors + BuildEntry(w, e, now).value, l.seen + {EntryFingerprint(w)(e)}))
  {
    var fp := EntryFingerprint(w)(e);
    var built := BuildEntry(w, e, now).value;
    BuiltHasFirst(w, e, now);
    BuiltAnchors(w, e, now);
    assert Map(BuiltOrNone(w, now), entries + [e])[..|entries|] == Map(BuiltOrNone(w, now), entries);
    assert Map(EntryFingerprint(w), entries + [e]) == Map(EntryFingerprint(w), entries) + [fp];
    assert (entries + [e])[..|entries|] == entries;
    DistinctAcross(l.anchors, built, fp);
  }

  lemma {:induction false} DistinctExtends(fps: seq<string>, fp: string)
    requires Distinct(fps)
    ensures Distinct(fps + [fp]) <==> fp !in fps
  {
    if fp in fps {
      var k :| 0 <= k < |fps| && fps[k] == fp;
      assert (fps + [fp])[k] == (fps + [fp])[|fps|];
    }
  }

  lemma {:induction false} CollectStep(w: World, entries: seq<DeclaredEntry>, e: DeclaredEntry, now: Instant)
    requires CollectEntries(w, entries, now).Ok?
    requires LoadedWell(w, entries, now, CollectEntries(w, entries, now).value)
    requires Distinct(Map(EntryFingerprint(w), entries))
    requires BuildEntry(w, e, now).Ok?
    ensures var r := CollectEntries(w, entries + [e], now);
            && (r.Ok? <==> Distinct(Map(EntryFingerprint(w), entries + [e])))
            && (r.Ok? ==> LoadedWell(w, entries + [e], now, r.value))
  {
    var before := CollectEntries(w, entries, now).value;
    var fp := EntryFingerprint(w)(e);
    BuiltHasFirst(w, e, now);
    BuiltAnchors(w, e, now);
    assert (entries + [e])[..|entries|] == entries;
    assert BuildEntry(w, e, now).value[0].fingerprint == fp;
    assert Map(EntryFingerprint(w), entries + [e]) == Map(EntryFingerprint(w), entries) + [fp];
    DistinctExtends(Map(EntryFingerprint(w), entries), fp);
    if fp !in before.seen {
      LoadedGrows(w, entries, e, now, before);
    }
  }

  lemma {:induction false} CollectWell(w: World, entries: seq<DeclaredEntry>, now: Instant)
    ensures CollectEntries(w, entries, now).Ok? <==> AllValid(w, entries, now) && Distinct(Map(EntryFingerprint(w), entries))
    ensures CollectEntries(w, entries, now).Ok? ==> LoadedWell(w, entries, now, CollectEntries(w, entries, now).value)
    decreases |entries|
  {
    if entries == [] {
      assert LoadedWell(w, [], now, Loaded([], {}));
    } else {
      var n := |entries| - 1;
      var init, e := entries[..n], entries[n];
      assert entries == init + [e];
      CollectWell(w, init, now);
      PrefixValid(w, init, e, now);
      if CollectEntries(w, init, now).Ok? && BuildEntry(w, e, now).Ok? {
        CollectStep(w, init, e, now);
      }
    }
  }

  lemma {:induction false} PrefixValid(w: World, entries: seq<DeclaredEntry>, e: DeclaredEntry, now: Instant)
    ensures AllValid(w, entries + [e], now) <==> AllValid(w, entries, now) && BuildEntry(w, e, now).Ok?
    ensures Distinct(Map(EntryFingerprint(w), entries + [e])) ==> Distinct(Map(EntryFingerprint(w), entries))
  {
    if AllValid(w, entries + [e], now) {
      assert (entries + [e])[|entries|] == e;
      forall i | 0 <= i < |entries| ensures BuildEntry(w, entries[i], now).Ok? {
        assert (entries + [e])[i] == entries[i];
      }
    }
    assert Map(EntryFingerprint(w), entries + [e])[..|entries|] == Map(EntryFingerprint(w), entries);
  }

  lemma DeclaredOrder()
    ensures TotalPreorder(DeclaredLe)
  {
    KeyOrder();
  }

  /** All or nothing, and what all is: a load succeeds exactly when every entry is
      valid and no certificate is declared twice; the anchors are then ordered by
      (fingerprint, type) without repeats, one per declared type, none outliving
      its certificate. */
  lemma {:induction false} LoadExact(w: World, entries: seq<DeclaredEntry>, now: Instant)
    ensures LoadDeclared(w, Decoded(entries), now).Ok?
       <==> AllValid(w, entries, now) && Distinct(Map(EntryFingerprint(w), entries))
    ensures LoadDeclared(w, Decoded(entries), now).Ok? ==>
              var out := LoadDeclared(w, Decoded(entries), now).value;
              && SortedBy(DeclaredLe, out)
              && Distinct(Map(DeclaredKey, out))
              && |out| == TypeCount(entries)
              && (forall i :: 0 <= i < |out| ==> WellDeclared(w, now, out[i]))
  {
    CollectWell(w, entries, now);
    if CollectEntries(w, entries, now).Ok? {
      var all := CollectEntries(w, entries, now).value.anchors;
      var out := SortBy(DeclaredLe, all);
      DeclaredOrder();
      SortBySorted(DeclaredLe, all);
      MapPermutation(DeclaredKey, all, out);
      DistinctPermutation(Map(DeclaredKey, all), Map(DeclaredKey, out));
      SortKeepsElements(DeclaredLe, all);
      forall i | 0 <= i < |out| ensures WellDeclared(w, now, out[i]) {
        assert out[i] in all;
      }
    }
  }

  lemma {:induction false} DeclaredSeparates(anchors: seq<Anchor>)
    requires Distinct(Map(DeclaredKey, anchors))
    ensures Separates(DeclaredLe, anchors)
  {
    forall x, y | x in anchors && y in anchors && DeclaredLe(x, y) && DeclaredLe(y, x) ensures x == y {
      var i :| 0 <= i < |anchors| && anchors[i] == x;
      var j :| 0 <= j < |anchors| && anchors[j] == y;
      PairKeyTie(x.fingerprint, x.anchorType, y.fingerprint, y.anchorType);
      assert Map(DeclaredKey, anchors)[i] == Map(DeclaredKey, anchors)[j];
    }
  }

  /** The two files load alike: both refused, or the same list. */
  ghost predicate LoadAlike(w: World, a: seq<DeclaredEntry>, b: seq<DeclaredEntry>, now: Instant) {
    && LoadDeclared(w, Decoded(a), now).Ok? == LoadDeclared(w, Decoded(b), now).Ok?
    && (LoadDeclared(w, Decoded(a), now).Ok? ==>
          LoadDeclared(w, Decoded(a), now).value == LoadDeclared(w, Decoded(b), now).value)
  }

  lemma {:induction false} SameAnchorsLoadAlike(w: World, a: seq<DeclaredEntry>, b: seq<DeclaredEntry>, now: Instant)
    requires CollectEntries(w, a, now).Ok? && CollectEntries(w, b, now).Ok?
    requires multiset(CollectEntries(w, a, now).value.anchors) == multiset(CollectEntries(w, b, now).value.anchors)
    ensures LoadAlike(w, a, b, now)
  {
    CollectWell(w, a, now);
    DeclaredSeparates(CollectEntries(w, a, now).value.anchors);
    DeclaredOrder();
    SortByPermutation(DeclaredLe, CollectEntries(w, a, now).value.anchors, CollectEntries(w, b, now).value.anchors);
  }

  lemma {:induction false} AllValidPermutes(w: World, a: seq<DeclaredEntry>, b: seq<DeclaredEntry>, now: Instant)
    requires multiset(a) == multiset(b)
    requires AllValid(w, a, now)
    ensures AllValid(w, b, now)
  {
    forall i | 0 <= i < |b| ensures BuildEntry(w, b[i], now).Ok? {
      assert b[i] in multiset(b);
      var j :| 0 <= j < |a| && a[j] == b[i];
    }
  }

  /** Reordering the entries changes neither the verdict nor the list. */
  lemma {:induction false} LoadOrderFree(w: World, a: seq<DeclaredEntry>, b: seq<DeclaredEntry>, now: Instant)
    requires multiset(a) == multiset(b)
    ensures LoadAlike(w, a, b, now)
  {
    CollectWell(w, a, now);
    CollectWell(w, b, now);
    MapPermutation(EntryFingerprint(w), a, b);
    if CollectEntries(w, a, now).Ok? {
      AllValidPermutes(w, a, b, now);
      DistinctPermutation(Map(EntryFingerprint(w), a), Map(EntryFingerprint(w), b));
      MapPermutation(BuiltOrNone(w, now), a, b);
      FlattenPermutation(Map(BuiltOrNone(w, now), a), Map(BuiltOrNone(w, now), b));
      SameAnchorsLoadAlike(w, a, b, now);
    } else if CollectEntries(w, b, now).Ok? {
      AllValidPermutes(w, b, a, now);
      DistinctPermutation(Map(EntryFingerprint(w), b), Map(EntryFingerprint(w), a));
    }
  }

  // ---- Order of the types inside an entry ----

  predicate GoodRole(t: string) {
    var u := TrimSpace(t);
    u != "" && u != UNTYPED_ALIAS && u in ANCHOR_TYPES
  }

  lemma {:induction false} RolesIff(types: seq<string>)
    ensures Roles(types).Ok? <==> (forall i :: 0 <= i < |types| ==> GoodRole(types[i])) && Distinct(Map(TrimSpace, types))
    ensures Roles(types).Ok? ==> Roles(types).value == Map(TrimSpace, types)
    decreases |types|
  {
    if types != [] {
      var n := |types| - 1;
      RolesIff(types[..n]);
      var ts := Map(TrimSpace, types);
      assert ts == Map(TrimSpace, types[..n]) + [ts[n]];
      assert GoodRole(types[n]) <==> ts[n] != "" && ts[n] != UNTYPED_ALIAS && ts[n] in ANCHOR_TYPES;
      if Distinct(ts) {
        assert Distinct(Map(TrimSpace, types[..n]));
        assert ts[n] !in Map(TrimSpace, types[..n]);
      }
      if forall i :: 0 <= i < |types| ==> GoodRole(types[i]) {
        assert forall i :: 0 <= i < n ==> GoodRole(types[..n][i]);
      }
      if Roles(types[..n]).Ok? && GoodRole(types[n]) {
        assert forall i :: 0 <= i < n ==> types[..n][i] == types[i];
      }
    }
  }

  lemma {:induction false} RolesPermute(a: seq<string>, b: seq<string>)
    requires multiset(a) == multiset(b)
    requires Roles(a).Ok?
    ensures Roles(b).Ok? && multiset(Roles(a).value) == multiset(Roles(b).value)
  {
    RolesIff(a);
    RolesIff(b);
    MapPermutation(TrimSpace, a, b);
    DistinctPermutation(Map(TrimSpace, a), Map(TrimSpace, b));
    forall i | 0 <= i < |b| ensures GoodRole(b[i]) {
      assert b[i] in multiset(b);
      var j :| 0 <= j < |a| && a[j] == b[i];
    }
  }

  /** The same entry with its types listed in another order. */
  ghost predicate SameButTypeOrder(a: DeclaredEntry, b: DeclaredEntry) {
    b == a.(types := b.types) && multiset(a.types) == multiset(b.types)
  }

  lemma {:induction false} BuildTypeOrderFree(w: World, a: DeclaredEntry, b: DeclaredEntry, now: Instant)
    requires SameButTypeOrder(a, b)
    requires BuildEntry(w, a, now).Ok?
    ensures BuildEntry(w, b, now).Ok?
    ensures multiset(BuildEntry(w, a, now).value) == multiset(BuildEntry(w, b, now).value)
  {
    SameLength(a.types, b.types);
    if a.hasTypes {
      RolesPermute(a.types, b.types);
    }
    var der := a.certs.value[0];
    MapPermutation(DeclaredAnchorOf(w, a, der), DeclaredTypes(a).value, DeclaredTypes(b).value);
    assert Map(DeclaredAnchorOf(w, a, der), DeclaredTypes(b).value) == Map(DeclaredAnchorOf(w, b, der), DeclaredTypes(b).value);
  }

  lemma {:induction false} TypeOrderCollects(w: World, a: seq<DeclaredEntry>, b: seq<DeclaredEntry>, now: Instant)
    requires |a| == |b| && forall i :: 0 <= i < |a| ==> SameButTypeOrder(a[i], b[i])
    requires CollectEntries(w, a, now).Ok?
    ensures CollectEntries(w, b, now).Ok?
    ensures multiset(CollectEntries(w, a, now).value.anchors) == multiset(CollectEntries(w, b, now).value.anchors)
  {
    CollectWell(w, a, now);
    CollectWell(w, b, now);
    forall i | 0 <= i < |a|
      ensures BuildEntry(w, b[i], now).Ok?
      ensures multiset(Map(BuiltOrNone(w, now), a)[i]) == multiset(Map(BuiltOrNone(w, now), b)[i])
    {
      BuildTypeOrderFree(w, a[i], b[i], now);
    }
    assert Map(EntryFingerprint(w), a) == Map(EntryFingerprint(w), b);
    FlattenPointwise(Map(BuiltOrNone(w, now), a), Map(BuiltOrNone(w, now), b));
  }

  /** Reordering the types inside entries changes neither the verdict nor the list. */
  lemma {:induction false} LoadTypeOrderFree(w: World, a: seq<DeclaredEntry>, b: seq<DeclaredEntry>, now: Instant)
    requires |a| == |b| && forall i :: 0 <= i < |a| ==> SameButTypeOrder(a[i], b[i])
    ensures LoadAlike(w, a, b, now)
  {
    if CollectEntries(w, a, now).Ok? {
      TypeOrderCollects(w, a, b, now);
      SameAnchorsLoadAlike(w, a, b, now);
    } else if CollectEntries(w, b, now).Ok? {
      assert forall i :: 0 <= i < |a| ==> SameButTypeOrder(b[i], a[i]);
      TypeOrderCollects(w, b, a, now);
      assert false;
    }
  }
}
