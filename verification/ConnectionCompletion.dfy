/** What identifies a `cloud.connection.complete` request to the idempotency store:
    the identity key and the text under the fingerprint. */
module ConnectionCompletion {
  import opened CanonicalJson
  import opened CanonicalMeaning
  import opened JsonObjects
  import opened Text
  import opened Wrappers

  const NUL: char := 0 as char

  /** The message fields that reach the request only in normalised form. */
  const NORMALIZED_KEYS: seq<string> :=
    ["providerId", "methodId", "extensionId", "origin", "policyVersion", "endpointProfileHash"]

  /** The message fields that are left behind: the routing tag is stripped by `handle`, the gate token by
      `#dispatch`, and two by the copying loop. */
  const IGNORED_KEYS: set<string> := {"type", "correlationId", "_bridgeRequestId", "sessionToken"}

  predicate Copied(key: string) { key !in NORMALIZED_KEYS && key !in IGNORED_KEYS }

  /** The copied fields that the request then has. */
  predicate Reaches(key: string) { Copied(key) && key != PROTO }

  /** The keys whose fields do not reach the request as they are. */
  const KEPT_BACK: seq<string> :=
    ["providerId", "methodId", "extensionId", "origin", "policyVersion", "endpointProfileHash",
     "type", "correlationId", "_bridgeRequestId", "sessionToken", "__proto__"]

  lemma ReachesIff(key: string)
    ensures Reaches(key) <==> key !in KEPT_BACK
  {
    var ks := KEPT_BACK;
    assert ks[..6] == NORMALIZED_KEYS && ks == ks[..6] + ks[6..];
    assert key in KEPT_BACK <==> key in ks[..6] || key in ks[6..];
  }

  predicate ReachesFirst(key: string) { Reaches(key) && IsIndex(key) }

  predicate ReachesLast(key: string) { Reaches(key) && !IsIndex(key) }

  datatype Identifiers = Identifiers(
    providerId: string, methodId: string, extensionId: string, origin: string, policyVersion: string)

  datatype Completion =
    | Refused(reasonCode: string)
    | Request(identityKey: string, fields: seq<Field>)

  /** `normalizeOptionalNonEmptyString`. */
  function NonEmpty(v: Json): Option<string> {
    if v.Str? && Trim(v.s) != "" then Some(Trim(v.s)) else None
  }

  function NormalizedAt(message: seq<Field>, key: string): Option<string> {
    NonEmpty(Lookup(message, key))
  }

  function Other(key: string): string -> bool { (k: string) => k != key }

  function StripField(message: seq<Field>, key: string): seq<Field> { KeepFields(message, Other(key)) }

  function TextField(m: seq<Field>, key: string): (r: seq<Field>)
    ensures NormalizedAt(m, key).Some? ==> r == [Field(key, Str(NormalizedAt(m, key).value))]
    ensures NormalizedAt(m, key).None? ==> r == []
  {
    match NormalizedAt(m, key)
    case Some(text) => [Field(key, Str(text))]
    case None => []
  }

  /** The fields a request starts with: those of the given keys that the message has text for. */
  function LeadingFields(m: seq<Field>, keys: seq<string>): (r: seq<Field>)
    ensures forall f :: f in r ==> f.key in keys && f.value.Str?
  {
    if keys == [] then [] else TextField(m, keys[0]) + LeadingFields(m, keys[1..])
  }

  function IdentityKey(namespace: string, ids: Identifiers): string {
    Join([namespace, ids.extensionId, ids.origin, ids.policyVersion, ids.providerId, ids.methodId], [NUL])
  }

  /** Whether cloud execution is enabled for a method, an extension and an origin. */
  type Rollout = (string, Option<string>, Option<string>) -> bool

  /** `handle`, the session gate's stripping, and `#handleCloudConnectionComplete` up to the
      reservation, for a message whose session is accepted. */
  method Complete(message: seq<Field>, namespace: string, allowed: Rollout) returns (r: Completion)
    requires DistinctKeys(message) && Ranked(KeyRank, message)
    ensures r == Completed(message, namespace, allowed)
  {
    var cleanMessage := StripField(message, "_bridgeRequestId");
    var stripped := StripField(cleanMessage, "sessionToken");
    GateKeepsOrder(message);
    var providerId, methodId := NormalizedAt(stripped, "providerId"), NormalizedAt(stripped, "methodId");
    var extensionId, origin := NormalizedAt(stripped, "extensionId"), NormalizedAt(stripped, "origin");
    var policyVersion := NormalizedAt(stripped, "policyVersion");
    var endpointProfileHash := NormalizedAt(stripped, "endpointProfileHash");
    if providerId.None? || methodId.None? {
      return Refused("request.invalid");
    }
    if !allowed(methodId.value, extensionId, origin) {
      return Refused("policy.denied");
    }
    if extensionId.None? || origin.None? || policyVersion.None? {
      return Refused("request.invalid");
    }
    var ids := Identifiers(providerId.value, methodId.value, extensionId.value, origin.value, policyVersion.value);
    var completionRequest := BuildRequest(stripped, ids, endpointProfileHash);
    r := Request(IdentityKey(namespace, ids), completionRequest);
  }

  method BuildRequest(m: seq<Field>, ids: Identifiers, endpointProfileHash: Option<string>)
    returns (completionRequest: seq<Field>)
    requires DistinctKeys(m) && Ranked(KeyRank, m)
    requires Normalizes(m, ids, endpointProfileHash)
    ensures completionRequest == RequestFields(m)
  {
    completionRequest := BuildLeading(m, ids, endpointProfileHash);
    LeadingFieldsAreFree(m);
    ReachingSplits();
    completionRequest := CopyFields(completionRequest, m, Copied, ReachesFirst, ReachesLast);
  }

  predicate Normalizes(m: seq<Field>, ids: Identifiers, endpointProfileHash: Option<string>) {
    && NormalizedAt(m, "providerId") == Some(ids.providerId)
    && NormalizedAt(m, "methodId") == Some(ids.methodId)
    && NormalizedAt(m, "extensionId") == Some(ids.extensionId)
    && NormalizedAt(m, "origin") == Some(ids.origin)
    && NormalizedAt(m, "policyVersion") == Some(ids.policyVersion)
    && NormalizedAt(m, "endpointProfileHash") == endpointProfileHash
  }

  /** The request as it is before the loop. */
  method BuildLeading(m: seq<Field>, ids: Identifiers, endpointProfileHash: Option<string>)
    returns (leading: seq<Field>)
    requires Normalizes(m, ids, endpointProfileHash)
    ensures leading == LeadingFields(m, NORMALIZED_KEYS)
  {
    var providerId := Field("providerId", Str(ids.providerId));
    var methodId := Field("methodId", Str(ids.methodId));
    var extensionId := Field("extensionId", Str(ids.extensionId));
    var origin := Field("origin", Str(ids.origin));
    var policyVersion := Field("policyVersion", Str(ids.policyVersion));
    LeadingFieldsOfIdentified(m, providerId, methodId, extensionId, origin, policyVersion);
    leading := [providerId, methodId, extensionId, origin, policyVersion];
    if endpointProfileHash.Some? {
      leading := leading + [Field("endpointProfileHash", Str(endpointProfileHash.value))];
    } else {
      assert leading + [] == leading;
    }
  }

  lemma ReachingSplits()
    ensures Splits(Copied, ReachesFirst, ReachesLast)
  {
  }

  /** The loop that assigns the remaining message fields to the request, for any choice of fields to copy: array
      indices end up in front, the others behind, and `__proto__` nowhere. */
  method CopyFields(leading: seq<Field>, message: seq<Field>, copied: string -> bool,
                    ghost first: string -> bool, ghost last: string -> bool)
    returns (completionRequest: seq<Field>)
    requires DistinctKeys(message) && Ranked(KeyRank, message)
    requires Splits(copied, first, last)
    requires forall f :: f in leading ==> !copied(f.key) && !IsIndex(f.key)
    ensures completionRequest == KeepFields(message, first) + leading + KeepFields(message, last)
  {
    completionRequest := leading;
    assert [] + leading + [] == leading;
    for i := 0 to |message|
      invariant completionRequest == KeepFields(message[..i], first) + leading + KeepFields(message[..i], last)
    {
      CopyStep(leading, message, i, copied, first, last);
      if copied(message[i].key) {
        completionRequest := Assign(completionRequest, message[i].key, message[i].value);
      }
    }
    assert message[..|message|] == message;
  }

  ghost predicate Splits(copied: string -> bool, first: string -> bool, last: string -> bool) {
    && (forall k :: first(k) <==> copied(k) && k != PROTO && IsIndex(k))
    && (forall k :: last(k) <==> copied(k) && k != PROTO && !IsIndex(k))
  }

  lemma CopyStep(leading: seq<Field>, message: seq<Field>, i: nat, copied: string -> bool,
                 first: string -> bool, last: string -> bool)
    requires i < |message| && DistinctKeys(message) && Ranked(KeyRank, message)
    requires Splits(copied, first, last)
    requires forall f :: f in leading ==> !copied(f.key) && !IsIndex(f.key)
    ensures var r := KeepFields(message[..i], first) + leading + KeepFields(message[..i], last);
      var f := message[i];
      (if copied(f.key) then Assign(r, f.key, f.value) else r)
        == KeepFields(message[..i + 1], first) + leading + KeepFields(message[..i + 1], last)
  {
    var f := message[i];
    var a, b := KeepFields(message[..i], first), KeepFields(message[..i], last);
    KeepFieldsStep(message, i, first);
    KeepFieldsStep(message, i, last);
    EarlierFields(message, i, a + b);
    AssignNew(a, leading, b, f, copied, first, last);
    WithEmpty(a);
    WithEmpty(b);
    Associate(a + leading, b, [f]);
  }

  lemma EarlierFields(message: seq<Field>, i: nat, earlier: seq<Field>)
    requires i < |message| && DistinctKeys(message) && Ranked(KeyRank, message)
    requires forall g :: g in earlier ==> g in message[..i]
    ensures forall g :: g in earlier ==> g.key != message[i].key && KeyRank(g.key) <= KeyRank(message[i].key)
  {
    forall g: Field | g in earlier ensures g.key != message[i].key && KeyRank(g.key) <= KeyRank(message[i].key) {
      var p :| 0 <= p < i && message[p] == g;
    }
  }

  lemma AssignFirst(a: seq<Field>, leading: seq<Field>, b: seq<Field>, f: Field)
    requires f.key != PROTO && IsIndex(f.key)
    requires forall g :: g in a + leading + b ==> g.key != f.key
    requires forall g :: g in a ==> KeyRank(g.key) <= KeyRank(f.key)
    requires forall g :: g in leading + b ==> !IsIndex(g.key)
    ensures Assign(a + leading + b, f.key, f.value) == a + [f] + leading + b
  {
    var tail := leading + b;
    Associate(a, leading, b);
    Associate(a + [f], leading, b);
    assert tail != [] ==> tail[0] in tail;
    PlaceBetween(KeyRank, a, tail, f);
    assert !HasKey(a + leading + b, f.key);
  }

  lemma AssignLast(r: seq<Field>, f: Field)
    requires f.key != PROTO
    requires forall g :: g in r ==> g.key != f.key && KeyRank(g.key) <= KeyRank(f.key)
    ensures Assign(r, f.key, f.value) == r + [f]
  {
    PlaceBetween(KeyRank, r, [], f);
    assert r + [] == r && r + [f] + [] == r + [f];
    assert !HasKey(r, f.key);
  }

  lemma AssignNew(a: seq<Field>, leading: seq<Field>, b: seq<Field>, f: Field, copied: string -> bool,
                  first: string -> bool, last: string -> bool)
    requires Splits(copied, first, last)
    requires forall g :: g in leading ==> !copied(g.key) && !IsIndex(g.key)
    requires forall g :: g in b ==> last(g.key)
    requires forall g :: g in a + b ==> g.key != f.key && KeyRank(g.key) <= KeyRank(f.key)
    ensures first(f.key) ==> Assign(a + leading + b, f.key, f.value) == a + [f] + leading + b
    ensures last(f.key) ==> Assign(a + leading + b, f.key, f.value) == a + leading + b + [f]
    ensures f.key == PROTO ==> Assign(a + leading + b, f.key, f.value) == a + leading + b
  {
    assert forall g :: g in a + leading + b ==> g in a + b || g in leading;
    if first(f.key) { AssignFirst(a, leading, b, f); }
    if last(f.key) { AssignLast(a + leading + b, f); }
  }

  // ----- specification ------------------------------------------------------

  function Gate(message: seq<Field>): seq<Field> {
    StripField(StripField(message, "_bridgeRequestId"), "sessionToken")
  }

  /** The identifiers of a gated message, where present. */
  function IdentifiersOf(m: seq<Field>): Identifiers {
    Identifiers(NormalizedAt(m, "providerId").GetOr(""), NormalizedAt(m, "methodId").GetOr(""),
                NormalizedAt(m, "extensionId").GetOr(""), NormalizedAt(m, "origin").GetOr(""),
                NormalizedAt(m, "policyVersion").GetOr(""))
  }

  /** The request's fields in property order. */
  function RequestOf(m: seq<Field>, ks: seq<string>): seq<Field> {
    KeepFields(m, ReachesFirst) + LeadingFields(m, ks) + KeepFields(m, ReachesLast)
  }

  function RequestFields(m: seq<Field>): seq<Field> {
    RequestOf(m, NORMALIZED_KEYS)
  }

  predicate HasIdentifiers(m: seq<Field>) {
    && NormalizedAt(m, "providerId").Some? && NormalizedAt(m, "methodId").Some?
    && NormalizedAt(m, "extensionId").Some? && NormalizedAt(m, "origin").Some?
    && NormalizedAt(m, "policyVersion").Some?
  }

  function Completed(message: seq<Field>, namespace: string, allowed: Rollout): Completion {
    var m := Gate(message);
    if NormalizedAt(m, "providerId").None? || NormalizedAt(m, "methodId").None? then Refused("request.invalid")
    else if !allowed(NormalizedAt(m, "methodId").value, NormalizedAt(m, "extensionId"), NormalizedAt(m, "origin")) then
      Refused("policy.denied")
    else if !HasIdentifiers(m) then Refused("request.invalid")
    else Request(IdentityKey(namespace, IdentifiersOf(m)), RequestFields(m))
  }

  /** What a list of fields says under a key, as JSON. */
  function MeaningAt(fields: seq<Field>, key: string): Option<Sem> {
    var m := FieldMap(fields);
    if key in m then Some(m[key]) else None
  }

  /** The value is a text that says `t`, up to outer white space; a blank text says nothing. */
  ghost predicate Says(v: Json, t: string) { v.Str? && t != "" && SpaceAround(v.s, t) }

  /** Both say the same, or neither says anything. */
  ghost predicate SayTheSame(v: Json, w: Json) { forall t :: Says(v, t) <==> Says(w, t) }

  /** Two messages ask for the same completion: the texts of their normalised fields are equal up to outer white space,
      and every other field that reaches the request means the same. */
  ghost predicate SameCompletion(a: seq<Field>, b: seq<Field>) {
    && (forall k :: k in NORMALIZED_KEYS ==> SayTheSame(Lookup(a, k), Lookup(b, k)))
    && (forall k :: Reaches(k) ==> MeaningAt(a, k) == MeaningAt(b, k))
  }

  ghost predicate AgreeNormalized(a: seq<Field>, b: seq<Field>) {
    && (forall k :: k in NORMALIZED_KEYS ==> NormalizedAt(a, k) == NormalizedAt(b, k))
    && (forall k :: Reaches(k) ==> MeaningAt(a, k) == MeaningAt(b, k))
  }

  /** A normalised text is what the value says, and there is none exactly if it says nothing. */
  lemma NonEmptyIff(v: Json)
    ensures forall t :: NonEmpty(v) == Some(t) <==> Says(v, t)
    ensures NonEmpty(v) == None <==> forall t :: !Says(v, t)
  {
    if v.Str? {
      forall t ensures Trim(v.s) == t <==> SpaceAround(v.s, t) { TrimIffSpaceAround(v.s, t); }
      assert Trim(v.s) != "" ==> Says(v, Trim(v.s));
    }
  }

  lemma SayTheSameIff(v: Json, w: Json)
    ensures SayTheSame(v, w) <==> NonEmpty(v) == NonEmpty(w)
  {
    NonEmptyIff(v);
    NonEmptyIff(w);
    if SayTheSame(v, w) && NonEmpty(v).Some? { assert Says(w, NonEmpty(v).value); }
  }

  lemma SameCompletionIffAgree(a: seq<Field>, b: seq<Field>)
    ensures SameCompletion(a, b) <==> AgreeNormalized(a, b)
  {
    forall k ensures SayTheSame(Lookup(a, k), Lookup(b, k)) <==> NormalizedAt(a, k) == NormalizedAt(b, k) {
      SayTheSameIff(Lookup(a, k), Lookup(b, k));
    }
  }

  // ----- the request's fields -----------------------------------------------

  lemma NormalizedThroughGate(m: seq<Field>, k: string)
    requires k in NORMALIZED_KEYS
    ensures NormalizedAt(Gate(m), k) == NormalizedAt(m, k)
  {
    NormalizedKeyPasses(k);
    LookupAfterKeep(m, Other("_bridgeRequestId"), k);
    LookupAfterKeep(StripField(m, "_bridgeRequestId"), Other("sessionToken"), k);
  }

  lemma NormalizedKeyPasses(k: string)
    requires k in NORMALIZED_KEYS
    ensures k != "_bridgeRequestId" && k != "sessionToken"
  {
  }

  lemma GateKeepsOrder(m: seq<Field>)
    requires DistinctKeys(m) && Ranked(KeyRank, m)
    ensures DistinctKeys(Gate(m)) && Ranked(KeyRank, Gate(m))
  {
    var clean := StripField(m, "_bridgeRequestId");
    KeepKeepsDistinct(m, Other("_bridgeRequestId"));
    KeepKeepsRanks(KeyRank, m, Other("_bridgeRequestId"));
    KeepKeepsDistinct(clean, Other("sessionToken"));
    KeepKeepsRanks(KeyRank, clean, Other("sessionToken"));
  }

  lemma NotAnIndex(key: string)
    requires key != "" && !IsDigit(key[0])
    ensures !IsIndex(key)
  {
  }

  lemma NormalizedKeysAreFree(k: string)
    requires k in NORMALIZED_KEYS
    ensures !IsIndex(k) && !Copied(k)
  {
    var ks := NORMALIZED_KEYS;
    var i :| 0 <= i < |ks| && ks[i] == k;
    assert ks[0][0] == 'p' && ks[1][0] == 'm' && ks[2][0] == 'e';
    assert ks[3][0] == 'o' && ks[4][0] == 'p' && ks[5][0] == 'e';
    NotAnIndex(k);
  }

  lemma LeadingFieldsAreFree(m: seq<Field>)
    ensures forall f :: f in LeadingFields(m, NORMALIZED_KEYS) ==> !Copied(f.key) && !IsIndex(f.key)
  {
    forall f | f in LeadingFields(m, NORMALIZED_KEYS) ensures !Copied(f.key) && !IsIndex(f.key) {
      NormalizedKeysAreFree(f.key);
    }
  }

  lemma LeadingFieldsInFull(m: seq<Field>)
    ensures LeadingFields(m, NORMALIZED_KEYS) ==
      TextField(m, "providerId") + (TextField(m, "methodId") + (TextField(m, "extensionId")
        + (TextField(m, "origin") + (TextField(m, "policyVersion") + TextField(m, "endpointProfileHash")))))
  {
    var ks := NORMALIZED_KEYS;
    LeadingFieldsFrom(m, ks, 0);
    LeadingFieldsFrom(m, ks, 1);
    LeadingFieldsFrom(m, ks, 2);
    LeadingFieldsFrom(m, ks, 3);
    LeadingFieldsFrom(m, ks, 4);
    LeadingFieldsFrom(m, ks, 5);
    assert ks[0..] == ks && ks[6..] == [];
    assert TextField(m, ks[5]) + [] == TextField(m, ks[5]);
  }

  lemma LeadingFieldsOfIdentified(m: seq<Field>, a: Field, b: Field, c: Field, d: Field, e: Field)
    requires [a] == TextField(m, "providerId")
    requires [b] == TextField(m, "methodId")
    requires [c] == TextField(m, "extensionId")
    requires [d] == TextField(m, "origin")
    requires [e] == TextField(m, "policyVersion")
    ensures LeadingFields(m, NORMALIZED_KEYS) == [a, b, c, d, e] + TextField(m, "endpointProfileHash")
  {
    LeadingFieldsInFull(m);
    FiveInFront(a, b, c, d, e, TextField(m, "endpointProfileHash"));
  }

  lemma LeadingFieldsFrom(m: seq<Field>, ks: seq<string>, i: nat)
    requires i < |ks|
    ensures LeadingFields(m, ks[i..]) == TextField(m, ks[i]) + LeadingFields(m, ks[i + 1..])
  {
    assert ks[i..][1..] == ks[i + 1..];
  }

  lemma FiveInFront<T>(a: T, b: T, c: T, d: T, e: T, rest: seq<T>)
    ensures [a] + ([b] + ([c] + ([d] + ([e] + rest)))) == [a, b, c, d, e] + rest
  {
  }

  ghost predicate NoDuplicates(ks: seq<string>) { forall i, j :: 0 <= i < j < |ks| ==> ks[i] != ks[j] }

  lemma NormalizedKeysDiffer()
    ensures NoDuplicates(NORMALIZED_KEYS)
  {
  }

  lemma PrependKeepsDistinct(first: seq<Field>, rest: seq<Field>, key: string)
    requires |first| <= 1 && (first != [] ==> first[0].key == key)
    requires DistinctKeys(rest) && forall f :: f in rest ==> f.key != key
    ensures DistinctKeys(first + rest)
  {
    forall j | 0 <= j < |rest| ensures rest[j].key != key { assert rest[j] in rest; }
  }

  lemma {:induction false} LeadingKeysDiffer(m: seq<Field>, ks: seq<string>)
    requires NoDuplicates(ks)
    ensures DistinctKeys(LeadingFields(m, ks))
  {
    if ks != [] {
      LeadingKeysDiffer(m, ks[1..]);
      MemberOfCons(ks, ks[0]);
      PrependKeepsDistinct(TextField(m, ks[0]), LeadingFields(m, ks[1..]), ks[0]);
    }
  }

  lemma {:induction false} LeadingMeaning(m: seq<Field>, ks: seq<string>, k: string)
    requires NoDuplicates(ks)
    ensures MeaningAt(LeadingFields(m, ks), k) ==
      if k in ks && NormalizedAt(m, k).Some? then Some(SString(NormalizedAt(m, k).value)) else None
  {
    if ks != [] {
      var rest := LeadingFields(m, ks[1..]);
      assert LeadingFields(m, ks) == TextField(m, ks[0]) + rest;
      MeaningAfterOptional(TextField(m, ks[0]), NormalizedAt(m, ks[0]), ks[0], rest, k);
      LeadingMeaning(m, ks[1..], k);
      MemberOfCons(ks, k);
    }
  }

  lemma MemberOfCons(ks: seq<string>, k: string)
    requires NoDuplicates(ks) && ks != []
    ensures k in ks <==> k == ks[0] || k in ks[1..]
    ensures k == ks[0] ==> k !in ks[1..]
  {
    assert ks == [ks[0]] + ks[1..];
  }

  lemma MeaningAfterOptional(first: seq<Field>, text: Option<string>, key: string, rest: seq<Field>, k: string)
    requires first == if text.Some? then [Field(key, Str(text.value))] else []
    ensures MeaningAt(first + rest, k)
      == if k == key && text.Some? then Some(SString(text.value)) else MeaningAt(rest, k)
  {
    if text.Some? {
      MeaningOfCons(first[0], rest, k);
    } else {
      assert first + rest == rest;
    }
  }

  lemma MeaningOfCons(f: Field, rest: seq<Field>, k: string)
    requires Retained(f.value)
    ensures MeaningAt([f] + rest, k) == if k == f.key then Some(Meaning(f.value)) else MeaningAt(rest, k)
  {
    assert ([f] + rest)[1..] == rest;
  }

  /** None of the keys is an array index or copied. */
  predicate FreeKeys(ks: seq<string>) { forall k :: k in ks ==> !IsIndex(k) && !Copied(k) }

  lemma NormalizedKeysAreFreeKeys()
    ensures FreeKeys(NORMALIZED_KEYS)
  {
    forall k | k in NORMALIZED_KEYS ensures !IsIndex(k) && !Copied(k) { NormalizedKeysAreFree(k); }
  }

  lemma RequestMembers(m: seq<Field>, ks: seq<string>, f: Field)
    ensures f in RequestOf(m, ks) <==> (f in m && Reaches(f.key)) || f in LeadingFields(m, ks)
  {
  }

  lemma RequestKeysDiffer(m: seq<Field>, ks: seq<string>)
    requires DistinctKeys(m) && NoDuplicates(ks) && FreeKeys(ks)
    ensures DistinctKeys(RequestOf(m, ks))
  {
    var i, l, c := KeepFields(m, ReachesFirst), LeadingFields(m, ks), KeepFields(m, ReachesLast);
    KeepKeepsDistinct(m, ReachesFirst);
    KeepKeepsDistinct(m, ReachesLast);
    LeadingKeysDiffer(m, ks);
    DistinctConcat(i, l);
    assert forall f :: f in i + l ==> f in i || f in l;
    DistinctConcat(i + l, c);
  }

  lemma RequestInOrder(m: seq<Field>, ks: seq<string>)
    requires Ranked(KeyRank, m) && FreeKeys(ks)
    ensures Ranked(KeyRank, RequestOf(m, ks))
  {
    var i, l, c := KeepFields(m, ReachesFirst), LeadingFields(m, ks), KeepFields(m, ReachesLast);
    KeepKeepsRanks(KeyRank, m, ReachesFirst);
    AllFree(l);
    AllFree(c);
    RanksOfConcat(KeyRank, i, l);
    assert forall f :: f in i + l ==> f in i || f in l;
    RanksOfConcat(KeyRank, i + l, c);
  }

  lemma AllFree(fs: seq<Field>)
    requires forall f :: f in fs ==> !IsIndex(f.key)
    ensures Ranked(KeyRank, fs)
  {
    forall i | 0 <= i < |fs| ensures KeyRank(fs[i].key) == FREE_RANK { assert fs[i] in fs; }
  }

  lemma RequestIsWellFormed(m: seq<Field>, ks: seq<string>)
    requires WellFormed(Obj(m)) && NoDuplicates(ks) && FreeKeys(ks)
    ensures WellFormed(Obj(RequestOf(m, ks)))
  {
    RequestKeysDiffer(m, ks);
    RequestInOrder(m, ks);
    forall f | f in RequestOf(m, ks) ensures WellFormed(f.value) { RequestMembers(m, ks, f); }
  }

  /** What a message prescribes for its request under each key. */
  function Prescribed(m: seq<Field>, ks: seq<string>, k: string): Option<Sem> {
    if Reaches(k) then MeaningAt(m, k)
    else if k in ks && NormalizedAt(m, k).Some? then Some(SString(NormalizedAt(m, k).value))
    else None
  }

  /** The request says under each key exactly what its message prescribes. */
  lemma RequestIsPrescribed(m: seq<Field>, ks: seq<string>, k: string)
    requires WellFormed(Obj(m)) && NoDuplicates(ks) && FreeKeys(ks)
    ensures MeaningAt(RequestOf(m, ks), k) == Prescribed(m, ks, k)
  {
    var l, r := LeadingFields(m, ks), RequestOf(m, ks);
    RequestKeysDiffer(m, ks);
    LeadingKeysDiffer(m, ks);
    LeadingMeaning(m, ks, k);
    if Reaches(k) {
      assert k !in ks;
      SameMeaningAt(m, r, k) by {
        forall f ensures f in r <==> (f in m && Reaches(f.key)) || f in l { RequestMembers(m, ks, f); }
      }
    } else {
      SameMeaningAt(l, r, k) by {
        forall f ensures f in r <==> (f in m && Reaches(f.key)) || f in l { RequestMembers(m, ks, f); }
      }
    }
  }

  /** Two lists with the same fields under a key say the same under it. */
  lemma SameMeaningAt(a: seq<Field>, b: seq<Field>, k: string)
    requires DistinctKeys(a) && DistinctKeys(b)
    requires forall f: Field :: f.key == k ==> (f in a <==> f in b)
    ensures MeaningAt(a, k) == MeaningAt(b, k)
  {
    if k in FieldMap(a) {
      var f :| f in a && Retained(f.value) && f.key == k;
      FieldMapAt(a, f);
      FieldMapAt(b, f);
    }
    if k in FieldMap(b) {
      var f :| f in b && Retained(f.value) && f.key == k;
      assert f in a;
    }
  }

  lemma GateIsWellFormed(m: seq<Field>)
    requires WellFormed(Obj(m))
    ensures WellFormed(Obj(Gate(m)))
  {
    KeepKeepsWellFormed(m, Other("_bridgeRequestId"));
    KeepKeepsWellFormed(StripField(m, "_bridgeRequestId"), Other("sessionToken"));
  }

  lemma CopiedKeyPasses(k: string)
    requires Copied(k)
    ensures k != "_bridgeRequestId" && k != "sessionToken"
  {
  }

  lemma GateMeaning(m: seq<Field>, k: string)
    requires WellFormed(Obj(m)) && Copied(k)
    ensures MeaningAt(Gate(m), k) == MeaningAt(m, k)
  {
    GateIsWellFormed(m);
    CopiedKeyPasses(k);
    SameMeaningAt(m, Gate(m), k);
  }

  lemma GateKeepsPrescription(m: seq<Field>, k: string)
    requires WellFormed(Obj(m))
    ensures Prescribed(Gate(m), NORMALIZED_KEYS, k) == Prescribed(m, NORMALIZED_KEYS, k)
  {
    if Reaches(k) { GateMeaning(m, k); } else if k in NORMALIZED_KEYS { NormalizedThroughGate(m, k); }
  }

  lemma SameCompletionIffSamePrescription(a: seq<Field>, b: seq<Field>)
    ensures AgreeNormalized(a, b)
      <==> forall k :: Prescribed(a, NORMALIZED_KEYS, k) == Prescribed(b, NORMALIZED_KEYS, k)
  {
    if forall k :: Prescribed(a, NORMALIZED_KEYS, k) == Prescribed(b, NORMALIZED_KEYS, k) {
      forall k | k in NORMALIZED_KEYS ensures NormalizedAt(a, k) == NormalizedAt(b, k) {
        assert Prescribed(a, NORMALIZED_KEYS, k) == Prescribed(b, NORMALIZED_KEYS, k);
      }
      forall k | Reaches(k) ensures MeaningAt(a, k) == MeaningAt(b, k) {
        assert Prescribed(a, NORMALIZED_KEYS, k) == Prescribed(b, NORMALIZED_KEYS, k);
      }
    }
  }

  lemma RequestPrescribedByMessage(m: seq<Field>, k: string)
    requires WellFormed(Obj(m))
    ensures MeaningAt(RequestFields(Gate(m)), k) == Prescribed(m, NORMALIZED_KEYS, k)
  {
    GateIsWellFormed(m);
    NormalizedKeysAreFreeKeys();
    NormalizedKeysDiffer();
    RequestIsPrescribed(Gate(m), NORMALIZED_KEYS, k);
    GateKeepsPrescription(m, k);
  }

  lemma SameFieldsIffSameCompletion(a: seq<Field>, b: seq<Field>)
    requires WellFormed(Obj(a)) && WellFormed(Obj(b))
    ensures FieldMap(RequestFields(Gate(a))) == FieldMap(RequestFields(Gate(b))) <==> SameCompletion(a, b)
  {
    var fa, fb := RequestFields(Gate(a)), RequestFields(Gate(b));
    SameMapIffSameEverywhere(fa, fb);
    RequestPrescribedEverywhere(a);
    RequestPrescribedEverywhere(b);
    SameCompletionIffSamePrescription(a, b);
    SameCompletionIffAgree(a, b);
  }

  lemma RequestPrescribedEverywhere(m: seq<Field>)
    requires WellFormed(Obj(m))
    ensures forall k :: MeaningAt(RequestFields(Gate(m)), k) == Prescribed(m, NORMALIZED_KEYS, k)
  {
    forall k ensures MeaningAt(RequestFields(Gate(m)), k) == Prescribed(m, NORMALIZED_KEYS, k) {
      RequestPrescribedByMessage(m, k);
    }
  }

  lemma GatedRequestIsWellFormed(m: seq<Field>)
    requires WellFormed(Obj(m))
    ensures WellFormed(Obj(RequestFields(Gate(m))))
  {
    GateIsWellFormed(m);
    NormalizedKeysDiffer();
    NormalizedKeysAreFreeKeys();
    RequestIsWellFormed(Gate(m), NORMALIZED_KEYS);
  }

  lemma SameIdentifiers(a: seq<Field>, b: seq<Field>)
    requires forall k :: k in NORMALIZED_KEYS ==> NormalizedAt(a, k) == NormalizedAt(b, k)
    ensures IdentifiersOf(a) == IdentifiersOf(b)
  {
    var ks := NORMALIZED_KEYS;
    forall i | 0 <= i < |ks| ensures NormalizedAt(a, ks[i]) == NormalizedAt(b, ks[i]) { assert ks[i] in ks; }
    assert ks[0] == "providerId" && ks[1] == "methodId" && ks[2] == "extensionId" && ks[3] == "origin";
    assert ks[4] == "policyVersion";
  }

  lemma SameMapIffSameEverywhere(a: seq<Field>, b: seq<Field>)
    ensures FieldMap(a) == FieldMap(b) <==> forall k :: MeaningAt(a, k) == MeaningAt(b, k)
  {
    if forall k :: MeaningAt(a, k) == MeaningAt(b, k) {
      var m, n := FieldMap(a), FieldMap(b);
      forall k ensures k in m <==> k in n { assert MeaningAt(a, k) == MeaningAt(b, k); }
      forall k | k in m ensures m[k] == n[k] { assert MeaningAt(a, k) == MeaningAt(b, k); }
    }
  }

  lemma {:induction false} SameLeadingFields(a: seq<Field>, b: seq<Field>, ks: seq<string>)
    requires forall k :: k in ks ==> NormalizedAt(a, k) == NormalizedAt(b, k)
    ensures LeadingFields(a, ks) == LeadingFields(b, ks)
  {
    if ks != [] {
      assert ks[0] in ks;
      SameLeadingFields(a, b, ks[1..]);
    }
  }

  lemma ProtoIsNoNormalizedKey(k: string)
    requires k in NORMALIZED_KEYS
    ensures k != PROTO
  {
  }

  /** The gate takes away nothing that the request would have. */
  lemma GateMakesNoDifference(m: seq<Field>)
    ensures RequestFields(Gate(m)) == RequestFields(m)
  {
    KeptThroughGate(m, ReachesFirst);
    KeptThroughGate(m, ReachesLast);
    forall k | k in NORMALIZED_KEYS ensures NormalizedAt(Gate(m), k) == NormalizedAt(m, k) {
      NormalizedThroughGate(m, k);
    }
    SameLeadingFields(Gate(m), m, NORMALIZED_KEYS);
  }

  lemma KeptThroughGate(m: seq<Field>, keep: string -> bool)
    requires forall k :: keep(k) ==> Reaches(k)
    ensures KeepFields(Gate(m), keep) == KeepFields(m, keep)
  {
    forall k | keep(k) ensures Other("_bridgeRequestId")(k) && Other("sessionToken")(k) { CopiedKeyPasses(k); }
    KeepOfKeep(m, Other("_bridgeRequestId"), keep);
    KeepOfKeep(StripField(m, "_bridgeRequestId"), Other("sessionToken"), keep);
  }

  lemma ProtoIsCopied()
    ensures Copied(PROTO) && PROTO != "_bridgeRequestId" && PROTO != "sessionToken"
  {
  }

  lemma RequestWithoutProto(m: seq<Field>)
    ensures RequestFields(StripField(m, PROTO)) == RequestFields(m)
  {
    KeepOfKeep(m, Other(PROTO), ReachesFirst);
    KeepOfKeep(m, Other(PROTO), ReachesLast);
    forall k | k in NORMALIZED_KEYS ensures NormalizedAt(StripField(m, PROTO), k) == NormalizedAt(m, k) {
      ProtoIsNoNormalizedKey(k);
      LookupAfterKeep(m, Other(PROTO), k);
    }
    SameLeadingFields(StripField(m, PROTO), m, NORMALIZED_KEYS);
  }

  lemma RequestHasNoProto(m: seq<Field>)
    ensures forall f :: f in RequestFields(m) ==> f.key != PROTO
  {
    forall f | f in LeadingFields(m, NORMALIZED_KEYS) ensures f.key != PROTO { ProtoIsNoNormalizedKey(f.key); }
  }

  /** An own `__proto__` field, wherever it stands, passes the gate and is copied, but makes no difference to the
      request. */
  lemma ProtoFieldIsLost(m: seq<Field>)
    ensures forall f :: f in m && f.key == PROTO ==> f in Gate(m) && Copied(f.key)
    ensures RequestFields(Gate(m)) == RequestFields(Gate(StripField(m, PROTO)))
    ensures forall f :: f in RequestFields(Gate(m)) ==> f.key != PROTO
  {
    ProtoIsCopied();
    GateMakesNoDifference(m);
    GateMakesNoDifference(StripField(m, PROTO));
    RequestWithoutProto(m);
    RequestHasNoProto(m);
  }

  // ----- the verdict --------------------------------------------------------

  /** The text that a message gives under a normalised key, if any. */
  ghost predicate Gives(message: seq<Field>, key: string, text: Option<string>) {
    match text
    case Some(t) => Says(Lookup(message, key), t)
    case None => forall t :: !Says(Lookup(message, key), t)
  }

  /** What a message gives under the keys that decide about it. */
  ghost predicate GivesAll(message: seq<Field>, providerId: Option<string>, methodId: Option<string>,
                           extensionId: Option<string>, origin: Option<string>, policyVersion: Option<string>)
  {
    && Gives(message, "providerId", providerId) && Gives(message, "methodId", methodId)
    && Gives(message, "extensionId", extensionId) && Gives(message, "origin", origin)
    && Gives(message, "policyVersion", policyVersion)
  }

  lemma GivesNormalized(message: seq<Field>, key: string, text: Option<string>)
    requires Gives(message, key, text)
    ensures NormalizedAt(message, key) == text
  {
    NonEmptyIff(Lookup(message, key));
  }

  /** Main result: a request without provider or method is invalid; then one whose method, extension and origin are not
      enabled is denied; then one without extension, origin or policy version is invalid; and any other is reserved
      under the namespace and its five texts, each behind a NUL. */
  lemma VerdictMeans(message: seq<Field>, namespace: string, allowed: Rollout, providerId: Option<string>,
                     methodId: Option<string>, extensionId: Option<string>, origin: Option<string>,
                     policyVersion: Option<string>)
    requires GivesAll(message, providerId, methodId, extensionId, origin, policyVersion)
    ensures var r := Completed(message, namespace, allowed);
      if providerId == None || methodId == None then r == Refused("request.invalid")
      else if !allowed(methodId.value, extensionId, origin) then r == Refused("policy.denied")
      else if extensionId == None || origin == None || policyVersion == None then r == Refused("request.invalid")
      else
        r.Request?
        && r.identityKey ==
             namespace + ([NUL] + (extensionId.value + ([NUL] + (origin.value + ([NUL] + (policyVersion.value
               + ([NUL] + (providerId.value + ([NUL] + methodId.value)))))))))
  {
    NormalizedForVerdict(message, "providerId", providerId);
    NormalizedForVerdict(message, "methodId", methodId);
    NormalizedForVerdict(message, "extensionId", extensionId);
    NormalizedForVerdict(message, "origin", origin);
    NormalizedForVerdict(message, "policyVersion", policyVersion);
    IdentityKeyParts(namespace, IdentifiersOf(Gate(message)));
  }

  lemma NormalizedForVerdict(message: seq<Field>, key: string, text: Option<string>)
    requires key in {"providerId", "methodId", "extensionId", "origin", "policyVersion"} && Gives(message, key, text)
    ensures NormalizedAt(Gate(message), key) == text
  {
    IsNormalizedKey(key);
    GivesNormalized(message, key, text);
    NormalizedThroughGate(message, key);
  }

  lemma IsNormalizedKey(key: string)
    requires key in {"providerId", "methodId", "extensionId", "origin", "policyVersion"}
    ensures key in NORMALIZED_KEYS
  {
    var ks := NORMALIZED_KEYS;
    assert ks[0] == "providerId" && ks[1] == "methodId" && ks[2] == "extensionId";
    assert ks[3] == "origin" && ks[4] == "policyVersion";
  }

  // ----- the identity key ---------------------------------------------------

  function NulCount(s: string): nat {
    if s == "" then 0 else (if s[0] == NUL then 1 else 0) + NulCount(s[1..])
  }

  predicate SameNulCounts(a: Identifiers, b: Identifiers) {
    && NulCount(a.extensionId) == NulCount(b.extensionId)
    && NulCount(a.origin) == NulCount(b.origin)
    && NulCount(a.policyVersion) == NulCount(b.policyVersion)
    && NulCount(a.providerId) == NulCount(b.providerId)
  }

  /** A part that ends at a NUL is found again when the number of NULs inside it is known. */
  lemma {:induction false} PartDecodes(x: string, y: string, p: string, q: string)
    requires x + ([NUL] + p) == y + ([NUL] + q) && NulCount(x) == NulCount(y)
    ensures x == y && p == q
  {
    var s, t := x + ([NUL] + p), y + ([NUL] + q);
    assert s[0] == (if x == "" then NUL else x[0]) && t[0] == if y == "" then NUL else y[0];
    if x == "" {
      assert p == s[1..] == t[1..] == q;
    } else {
      assert x[1..] + ([NUL] + p) == s[1..] == t[1..] == y[1..] + ([NUL] + q);
      PartDecodes(x[1..], y[1..], p, q);
      assert x == [x[0]] + x[1..] && y == [y[0]] + y[1..];
    }
  }

  lemma IdentityKeyParts(namespace: string, a: Identifiers)
    ensures IdentityKey(namespace, a) ==
      namespace + ([NUL] + (a.extensionId + ([NUL] + (a.origin + ([NUL] + (a.policyVersion
        + ([NUL] + (a.providerId + ([NUL] + a.methodId)))))))))
  {
    var ps := [namespace, a.extensionId, a.origin, a.policyVersion, a.providerId, a.methodId];
    JoinFrom(ps, 0);
    JoinFrom(ps, 1);
    JoinFrom(ps, 2);
    JoinFrom(ps, 3);
    JoinFrom(ps, 4);
    assert ps[0..] == ps && ps[5..] == [a.methodId];
  }

  lemma JoinFrom(ps: seq<string>, i: nat)
    requires i + 1 < |ps|
    ensures Join(ps[i..], [NUL]) == ps[i] + ([NUL] + Join(ps[i + 1..], [NUL]))
  {
    assert ps[i..][1..] == ps[i + 1..];
  }

  /** Main result: the key and the number of NULs in each part determine the identifiers, and
      only they do.  Identifiers free of NUL are the case where the counts are all zero. */
  lemma IdentityKeyIdentifies(namespace: string, a: Identifiers, b: Identifiers)
    ensures IdentityKey(namespace, a) == IdentityKey(namespace, b) && SameNulCounts(a, b) <==> a == b
  {
    if IdentityKey(namespace, a) == IdentityKey(namespace, b) && SameNulCounts(a, b) {
      IdentityKeyParts(namespace, a);
      IdentityKeyParts(namespace, b);
      var a4, b4 := a.providerId + ([NUL] + a.methodId), b.providerId + ([NUL] + b.methodId);
      var a3, b3 := a.policyVersion + ([NUL] + a4), b.policyVersion + ([NUL] + b4);
      var a2, b2 := a.origin + ([NUL] + a3), b.origin + ([NUL] + b3);
      var a1, b1 := a.extensionId + ([NUL] + a2), b.extensionId + ([NUL] + b2);
      PartDecodes(namespace, namespace, a1, b1);
      PartDecodes(a.extensionId, b.extensionId, a2, b2);
      PartDecodes(a.origin, b.origin, a3, b3);
      PartDecodes(a.policyVersion, b.policyVersion, a4, b4);
      PartDecodes(a.providerId, b.providerId, a.methodId, b.methodId);
    }
  }

  /** With a NUL inside an identifier two different requests can share one identity key. */
  lemma AmbiguousIdentityKey(namespace: string)
    ensures var a := Identifiers("p", "m", "e" + [NUL] + "f", "o", "v");
            var b := Identifiers("p", "m", "e", "f" + [NUL] + "o", "v");
            a != b && IdentityKey(namespace, a) == IdentityKey(namespace, b)
  {
    var a := Identifiers("p", "m", "e" + [NUL] + "f", "o", "v");
    var b := Identifiers("p", "m", "e", "f" + [NUL] + "o", "v");
    IdentityKeyParts(namespace, a);
    IdentityKeyParts(namespace, b);
    var rest := "v" + ([NUL] + ("p" + ([NUL] + "m")));
    assert a.extensionId + ([NUL] + (a.origin + ([NUL] + rest)))
        == b.extensionId + ([NUL] + (b.origin + ([NUL] + rest)));
    assert |a.extensionId| != |b.extensionId|;
  }
}
