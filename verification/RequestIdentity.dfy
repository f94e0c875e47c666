/** Exactly when connection completion requests that ask for the same have the same fingerprint text. */
module RequestIdentity {
  import opened CanonicalDecoding
  import opened CanonicalJson
  import opened CanonicalMeaning
  import opened CanonicalOrder
  import opened ConnectionCompletion
  import opened JsonObjects

  // ----- the order of a request's fields ------------------------------------

  function Position(ks: seq<string>, k: string): (i: nat)
    ensures i <= |ks| && (k in ks <==> i < |ks|) && (i < |ks| ==> ks[i] == k)
  {
    if ks == [] || ks[0] == k then 0 else 1 + Position(ks[1..], k)
  }

  /** Array indices first, then the normalised keys in their fixed order, then all others. */
  function RequestRank(ks: seq<string>): Rank {
    (k: string) => if IsIndex(k) then KeyRank(k) else FREE_RANK + Position(ks, k)
  }

  /** The fields come in the order of the keys. */
  predicate InKeyOrder(ks: seq<string>, fs: seq<Field>) {
    forall i, j :: 0 <= i < j < |fs| ==> Position(ks, fs[i].key) <= Position(ks, fs[j].key)
  }

  lemma PrependInKeyOrder(ks: seq<string>, first: seq<Field>, rest: seq<Field>)
    requires ks != [] && NoDuplicates(ks) && |first| <= 1 && (first != [] ==> first[0].key == ks[0])
    requires InKeyOrder(ks[1..], rest) && forall f :: f in rest ==> f.key in ks[1..]
    ensures InKeyOrder(ks, first + rest)
  {
    MemberOfCons(ks, ks[0]);
    forall j | 0 <= j < |rest| ensures Position(ks, rest[j].key) == 1 + Position(ks[1..], rest[j].key) {
      assert rest[j] in rest;
    }
  }

  lemma {:induction false} LeadingInOrder(m: seq<Field>, ks: seq<string>)
    requires NoDuplicates(ks)
    ensures InKeyOrder(ks, LeadingFields(m, ks))
  {
    if ks != [] {
      LeadingInOrder(m, ks[1..]);
      PrependInKeyOrder(ks, TextField(m, ks[0]), LeadingFields(m, ks[1..]));
    }
  }

  lemma PartsInOrder(ks: seq<string>, i: seq<Field>, l: seq<Field>, c: seq<Field>)
    requires Ranked(KeyRank, i) && forall f :: f in i ==> IsIndex(f.key)
    requires InKeyOrder(ks, l) && forall f :: f in l ==> f.key in ks && !IsIndex(f.key)
    requires forall f :: f in c ==> f.key !in ks && !IsIndex(f.key)
    ensures Ranked(RequestRank(ks), i + l + c)
  {
    var rank := RequestRank(ks);
    IndicesInOrder(rank, i);
    forall p, q | 0 <= p < q < |l| ensures rank(l[p].key) <= rank(l[q].key) { assert l[p] in l && l[q] in l; }
    forall p, q | 0 <= p < q < |c| ensures rank(c[p].key) <= rank(c[q].key) { assert c[p] in c && c[q] in c; }
    RanksOfConcat(rank, i, l);
    assert forall f :: f in i + l ==> f in i || f in l;
    RanksOfConcat(rank, i + l, c);
  }

  lemma RequestInRankOrder(m: seq<Field>, ks: seq<string>)
    requires Ranked(KeyRank, m) && NoDuplicates(ks) && FreeKeys(ks)
    ensures Ranked(RequestRank(ks), RequestOf(m, ks))
  {
    KeepKeepsRanks(KeyRank, m, ReachesFirst);
    LeadingInOrder(m, ks);
    PartsInOrder(ks, KeepFields(m, ReachesFirst), LeadingFields(m, ks), KeepFields(m, ReachesLast));
  }

  lemma IndicesInOrder(rank: Rank, fs: seq<Field>)
    requires Ranked(KeyRank, fs) && forall f :: f in fs ==> rank(f.key) == KeyRank(f.key)
    ensures Ranked(rank, fs)
  {
    forall p, q | 0 <= p < q < |fs| ensures rank(fs[p].key) <= rank(fs[q].key) { assert fs[p] in fs && fs[q] in fs; }
  }

  /** Different keys of one place in property order are not array indices. */
  lemma SameKeyRank(x: string, y: string)
    requires x != y && KeyRank(x) == KeyRank(y)
    ensures !IsIndex(x) && !IsIndex(y)
  {
  }

  lemma SameRequestRank(ks: seq<string>, x: string, y: string)
    requires x != y && RequestRank(ks)(x) == RequestRank(ks)(y)
    ensures !IsIndex(x) && !IsIndex(y) && x !in ks && y !in ks
  {
  }

  lemma RequestTieFree(le: Collation, m: seq<Field>, ks: seq<string>)
    requires DistinctKeys(m) && NoDuplicates(ks) && FreeKeys(ks)
    requires TieFreeFields(le, KeepFields(m, Reaches))
    ensures TieFreeBy(le, RequestRank(ks), RequestOf(m, ks))
  {
    var rank, r := RequestRank(ks), RequestOf(m, ks);
    RequestKeysDiffer(m, ks);
    forall i, j | 0 <= i < j < |r| && Retained(r[i].value) && Retained(r[j].value)
                  && rank(r[i].key) == rank(r[j].key)
      ensures !Tie(le, r[i].key, r[j].key)
    {
      SameRequestRank(ks, r[i].key, r[j].key);
      RequestMembers(m, ks, r[i]);
      RequestMembers(m, ks, r[j]);
      NoTieAmongCopied(le, KeepFields(m, Reaches), r[i], r[j]);
    }
  }

  lemma NoTieAmongCopied(le: Collation, c: seq<Field>, f: Field, g: Field)
    requires TieFreeFields(le, c) && f in c && g in c && f.key != g.key && Retained(f.value) && Retained(g.value)
    requires KeyRank(f.key) == KeyRank(g.key)
    ensures !Tie(le, f.key, g.key)
  {
    var p :| 0 <= p < |c| && c[p] == f;
    var q :| 0 <= q < |c| && c[q] == g;
    assert Tie(le, f.key, g.key) <==> Tie(le, g.key, f.key);
  }

  // ----- tie-free copied fields give the same text --------------------------

  /** No two copied fields of the message tie, nor anything inside them. */
  predicate CopiedTieFree(le: Collation, message: seq<Field>) {
    TieFree(le, Obj(KeepFields(Gate(message), Reaches)))
  }

  lemma RequestValueTieFree(le: Collation, m: seq<Field>, ks: seq<string>, f: Field)
    requires forall g :: g in KeepFields(m, Reaches) && Retained(g.value) ==> TieFree(le, g.value)
    requires f in RequestOf(m, ks) && Retained(f.value)
    ensures TieFree(le, f.value)
  {
    RequestMembers(m, ks, f);
    assert f in LeadingFields(m, ks) || f in KeepFields(m, Reaches);
  }

  lemma SameEntry(le: Collation, p: seq<Field>, q: seq<Field>, f: Field, g: Field)
    requires TotalPreorder(le) && WellFormed(Obj(p)) && WellFormed(Obj(q)) && FieldMap(p) == FieldMap(q)
    requires f in p && g in q && f.key == g.key && Retained(f.value) && Retained(g.value) && TieFree(le, f.value)
    ensures Normalize(le, f.value) == Normalize(le, g.value)
  {
    FieldMapAt(p, f);
    FieldMapAt(q, g);
    EqualMeaningGivesEqualNormalForm(le, f.value, g.value);
  }

  lemma SameMapSameNormalForm(le: Collation, m: seq<Field>, n: seq<Field>, ks: seq<string>)
    requires TotalPreorder(le) && WellFormed(Obj(m)) && WellFormed(Obj(n)) && NoDuplicates(ks) && FreeKeys(ks)
    requires TieFree(le, Obj(KeepFields(m, Reaches))) && FieldMap(RequestOf(m, ks)) == FieldMap(RequestOf(n, ks))
    ensures Normalize(le, Obj(RequestOf(m, ks))) == Normalize(le, Obj(RequestOf(n, ks)))
  {
    var p, q := RequestOf(m, ks), RequestOf(n, ks);
    RequestIsWellFormed(m, ks);
    RequestIsWellFormed(n, ks);
    RequestInRankOrder(m, ks);
    RequestInRankOrder(n, ks);
    RequestTieFree(le, m, ks);
    forall f | f in p && Retained(f.value) ensures TieFree(le, f.value) { RequestValueTieFree(le, m, ks, f); }
    SameListsSameNormalForm(le, RequestRank(ks), p, q);
  }

  lemma SameListsSameNormalForm(le: Collation, rank: Rank, p: seq<Field>, q: seq<Field>)
    requires TotalPreorder(le) && WellFormed(Obj(p)) && WellFormed(Obj(q)) && FieldMap(p) == FieldMap(q)
    requires Ranked(rank, p) && Ranked(rank, q) && TieFreeBy(le, rank, p)
    requires forall f :: f in p && Retained(f.value) ==> TieFree(le, f.value)
    ensures Normalize(le, Obj(p)) == Normalize(le, Obj(q))
  {
    forall f, g | f in p && g in q && f.key == g.key && Retained(f.value) && Retained(g.value)
      ensures Normalize(le, f.value) == Normalize(le, g.value)
    {
      SameEntry(le, p, q, f, g);
    }
    SameFieldsSameNormalForm(le, rank, p, q);
  }

  lemma SameCompletionSameNormalForm(le: Collation, a: seq<Field>, b: seq<Field>)
    requires TotalPreorder(le) && WellFormed(Obj(a)) && WellFormed(Obj(b))
    requires CopiedTieFree(le, a) && SameCompletion(a, b)
    ensures Normalize(le, Obj(RequestFields(Gate(a)))) == Normalize(le, Obj(RequestFields(Gate(b))))
  {
    SameFieldsIffSameCompletion(a, b);
    GateIsWellFormed(a);
    GateIsWellFormed(b);
    NormalizedKeysDiffer();
    NormalizedKeysAreFreeKeys();
    SameMapSameNormalForm(le, Gate(a), Gate(b), NORMALIZED_KEYS);
  }

  /** The text under the fingerprint. */
  function Fingerprinted(le: Collation, message: seq<Field>): string {
    Canonicalize(le, Obj(RequestFields(Gate(message))))
  }

  /** Main result: messages with the same text under the fingerprint ask for the same completion, whatever the
      collation; and messages that ask for the same completion have the same text, unless copied fields tie. */
  lemma SameTextIffSameCompletion(le: Collation, a: seq<Field>, b: seq<Field>)
    requires WellFormed(Obj(a)) && WellFormed(Obj(b))
    ensures Fingerprinted(le, a) == Fingerprinted(le, b) ==> SameCompletion(a, b)
    ensures TotalPreorder(le) && CopiedTieFree(le, a) && SameCompletion(a, b) ==>
      Fingerprinted(le, a) == Fingerprinted(le, b)
  {
    GatedRequestIsWellFormed(a);
    GatedRequestIsWellFormed(b);
    ObjectTexts(le, RequestFields(Gate(a)), RequestFields(Gate(b)));
    SameFieldsIffSameCompletion(a, b);
    if TotalPreorder(le) && CopiedTieFree(le, a) && SameCompletion(a, b) {
      SameCompletionSameNormalForm(le, a, b);
      SameTextIffSameNormalForm(le, Obj(RequestFields(Gate(a))), Obj(RequestFields(Gate(b))));
    }
  }

  // ----- ties among copied fields give different texts ----------------------

  lemma KeepInside(front: seq<Field>, mid: seq<Field>, rest: seq<Field>, keep: string -> bool)
    ensures KeepFields(front + mid + rest, keep)
      == KeepFields(front, keep) + KeepFields(mid, keep) + KeepFields(rest, keep)
  {
    KeepFieldsOfConcat(front + mid, rest, keep);
    KeepFieldsOfConcat(front, mid, keep);
  }

  lemma KeepPair(x: Field, y: Field, keep: string -> bool)
    ensures keep(x.key) && keep(y.key) ==> KeepFields([x, y], keep) == [x, y]
    ensures !keep(x.key) && !keep(y.key) ==> KeepFields([x, y], keep) == []
  {
    KeepFieldsOfConcat([x], [y], keep);
    KeepOne(x, keep);
    KeepOne(y, keep);
    assert [x] + [y] == [x, y];
  }

  /** What stands before two neighbouring copied fields in the request. */
  function Before(message: seq<Field>, front: seq<Field>, rest: seq<Field>): seq<Field> {
    (KeepFields(front, ReachesFirst) + KeepFields(rest, ReachesFirst)) + LeadingFields(message, NORMALIZED_KEYS)
    + KeepFields(front, ReachesLast)
  }

  lemma RequestAround(message: seq<Field>, front: seq<Field>, x: Field, y: Field, rest: seq<Field>)
    requires message == front + [x, y] + rest && ReachesLast(x.key) && ReachesLast(y.key)
    ensures RequestFields(message) == Before(message, front, rest) + [x, y] + KeepFields(rest, ReachesLast)
  {
    KeepInside(front, [x, y], rest, ReachesFirst);
    KeepInside(front, [x, y], rest, ReachesLast);
    KeepPair(x, y, ReachesFirst);
    KeepPair(x, y, ReachesLast);
    var i := KeepFields(front, ReachesFirst);
    assert i + [] == i;
    Regroup(i + KeepFields(rest, ReachesFirst), LeadingFields(message, NORMALIZED_KEYS), KeepFields(front, ReachesLast),
            [x, y], KeepFields(rest, ReachesLast));
  }

  lemma Regroup<T>(a: seq<T>, b: seq<T>, c: seq<T>, d: seq<T>, e: seq<T>)
    ensures a + b + (c + d + e) == a + b + c + d + e
  {
  }

  lemma SameMapSameCompletion(a: seq<Field>, b: seq<Field>)
    requires FieldMap(a) == FieldMap(b)
    requires forall k :: k in NORMALIZED_KEYS ==> NormalizedAt(a, k) == NormalizedAt(b, k)
    ensures SameCompletion(a, b)
  {
    SameCompletionIffAgree(a, b);
  }

  /** Messages with the same fields in different orders ask for the same completion. */
  lemma ReorderedMessage(a: seq<Field>, b: seq<Field>)
    requires DistinctKeys(a) && DistinctKeys(b) && forall f :: f in a <==> f in b
    ensures SameCompletion(a, b)
  {
    FieldMapByMembers(a, b);
    ReorderedNormalized(a, b);
    SameMapSameCompletion(a, b);
  }

  lemma ReorderedNormalized(a: seq<Field>, b: seq<Field>)
    requires DistinctKeys(a) && DistinctKeys(b) && forall f :: f in a <==> f in b
    ensures forall k :: k in NORMALIZED_KEYS ==> NormalizedAt(a, k) == NormalizedAt(b, k)
  {
    forall k | k in NORMALIZED_KEYS ensures NormalizedAt(a, k) == NormalizedAt(b, k) { LookupByMembers(a, b, k); }
  }

  lemma SwappedMessages(le: Collation, a: seq<Field>, i: nat, j: nat)
    requires TotalPreorder(le) && DistinctKeys(a) && Ranked(KeyRank, a) && i < j < |a|
    requires Retained(a[i].value) && Retained(a[j].value) && Tie(le, a[i].key, a[j].key)
    requires Reaches(a[i].key) && Reaches(a[j].key) && KeyRank(a[i].key) == KeyRank(a[j].key)
    ensures Fingerprinted(le, Adjacent(a, i, j, false)) != Fingerprinted(le, Adjacent(a, i, j, true))
  {
    var y, z := Adjacent(a, i, j, false), Adjacent(a, i, j, true);
    var front, rest := a[..i], a[i + 1..j] + a[j + 1..];
    AdjacentKeepsOrder(KeyRank, a, i, j, false);
    AdjacentKeepsOrder(KeyRank, a, i, j, true);
    ReorderedNormalized(y, z);
    SameLeadingFields(y, z, NORMALIZED_KEYS);
    SameKeyRank(a[i].key, a[j].key);
    RequestAround(y, front, a[i], a[j], rest);
    RequestAround(z, front, a[j], a[i], rest);
    GateMakesNoDifference(y);
    GateMakesNoDifference(z);
    SwappedTexts(le, RequestFields(y), RequestFields(z), Before(y, front, rest), a[i], a[j],
                 KeepFields(rest, ReachesLast));
  }

  lemma TiedCopiesHaveTwins(le: Collation, a: seq<Field>, f: Field, g: Field) returns (b: seq<Field>)
    requires TotalPreorder(le) && WellFormed(Obj(a)) && f in a && g in a && f.key != g.key
    requires Retained(f.value) && Retained(g.value) && Tie(le, f.key, g.key)
    requires Reaches(f.key) && Reaches(g.key) && KeyRank(f.key) == KeyRank(g.key)
    ensures WellFormed(Obj(b)) && SameCompletion(a, b) && Fingerprinted(le, a) != Fingerprinted(le, b)
  {
    var p :| 0 <= p < |a| && a[p] == f;
    var q :| 0 <= q < |a| && a[q] == g;
    var i, j := if p < q then p else q, if p < q then q else p;
    var y, z := Adjacent(a, i, j, false), Adjacent(a, i, j, true);
    AdjacentKeepsOrder(KeyRank, a, i, j, false);
    AdjacentKeepsOrder(KeyRank, a, i, j, true);
    ReorderedMessage(a, y);
    ReorderedMessage(a, z);
    SwappedMessages(le, a, i, j);
    b := if Fingerprinted(le, a) == Fingerprinted(le, y) then z else y;
  }

  lemma {:induction false} LookupAfterReplace(fs: seq<Field>, j: nat, f: Field, key: string)
    requires j < |fs| && fs[j].key != key && f.key != key
    ensures Lookup(fs[j := f], key) == Lookup(fs, key)
  {
    var gs := fs[j := f];
    if j == 0 {
      assert gs[1..] == fs[1..];
    } else {
      LookupAfterReplace(fs[1..], j - 1, f, key);
      assert gs[1..] == fs[1..][j - 1 := f];
    }
  }

  lemma ReplacedCopyKeepsText(a: seq<Field>, j: nat, f: Field, k: string)
    requires j < |a| && a[j].key == f.key && Reaches(f.key) && k in NORMALIZED_KEYS
    ensures NormalizedAt(a[j := f], k) == NormalizedAt(a, k)
  {
    NormalizedKeysAreFree(k);
    LookupAfterReplace(a, j, f, k);
  }

  lemma ReplacedMessage(a: seq<Field>, j: nat, f: Field)
    requires WellFormed(Obj(a)) && j < |a| && a[j].key == f.key && Reaches(f.key)
    requires WellFormed(f.value) && Retained(f.value) && Retained(a[j].value) && Meaning(f.value) == Meaning(a[j].value)
    ensures WellFormed(Obj(a[j := f])) && SameCompletion(a, a[j := f])
  {
    ReplaceKeepsWellFormed(a, j, f.value);
    ReplaceInFieldMap(a, j, f.value);
    forall k | k in NORMALIZED_KEYS ensures NormalizedAt(a, k) == NormalizedAt(a[j := f], k) {
      ReplacedCopyKeepsText(a, j, f, k);
    }
    SameMapSameCompletion(a, a[j := f]);
  }

  lemma DifferentEntry(le: Collation, p: seq<Field>, q: seq<Field>, f: Field, g: Field)
    requires DistinctKeys(p) && f in p && g in q && f.key == g.key && Retained(f.value) && Retained(g.value)
    requires Normalize(le, f.value) != Normalize(le, g.value)
    ensures Canonicalize(le, Obj(p)) != Canonicalize(le, Obj(q))
  {
    SameTextIffSameNormalForm(le, Obj(p), Obj(q));
    if Normalize(le, Obj(p)) == Normalize(le, Obj(q)) {
      PrintedEntry(le, p, f);
      PrintedEntry(le, q, g);
      PrintedEntriesAreUnique(le, p, TField(f.key, Normalize(le, f.value)), TField(g.key, Normalize(le, g.value)));
    }
  }

  lemma TiedValueHasTwin(le: Collation, a: seq<Field>, f: Field) returns (b: seq<Field>)
    requires TotalPreorder(le) && WellFormed(Obj(a)) && f in a && Reaches(f.key) && Retained(f.value)
    requires !TieFree(le, f.value)
    ensures WellFormed(Obj(b)) && SameCompletion(a, b) && Fingerprinted(le, a) != Fingerprinted(le, b)
  {
    var j :| 0 <= j < |a| && a[j] == f;
    var w := TiesHaveTwins(le, f.value);
    var g := Field(f.key, w);
    b := a[j := g];
    ReplacedMessage(a, j, g);
    GateMakesNoDifference(a);
    GateMakesNoDifference(b);
    NormalizedKeysDiffer();
    NormalizedKeysAreFreeKeys();
    RequestKeysDiffer(a, NORMALIZED_KEYS);
    assert b[j] in b;
    RequestMembers(a, NORMALIZED_KEYS, f);
    RequestMembers(b, NORMALIZED_KEYS, g);
    DifferentEntry(le, RequestFields(a), RequestFields(b), f, g);
  }

  // ----- the exact condition ------------------------------------------------

  lemma CopiedTiesHaveTwins(le: Collation, a: seq<Field>) returns (b: seq<Field>)
    requires TotalPreorder(le) && WellFormed(Obj(a)) && !CopiedTieFree(le, a)
    ensures WellFormed(Obj(b)) && SameCompletion(a, b) && Fingerprinted(le, a) != Fingerprinted(le, b)
  {
    var c := KeepFields(Gate(a), Reaches);
    GateIsWellFormed(a);
    KeepKeepsDistinct(Gate(a), Reaches);
    if TieFreeFields(le, c) {
      var f :| f in c && Retained(f.value) && !TieFree(le, f.value);
      b := TiedValueHasTwin(le, a, f);
    } else {
      var i, j :| 0 <= i < j < |c| && Retained(c[i].value) && Retained(c[j].value)
        && KeyRank(c[i].key) == KeyRank(c[j].key) && Tie(le, c[i].key, c[j].key);
      assert c[i] in c && c[j] in c;
      b := TiedCopiesHaveTwins(le, a, c[i], c[j]);
    }
  }

  /** What the normalised fields of a gated message decide. */
  predicate Acceptable(m: seq<Field>, allowed: Rollout) {
    HasIdentifiers(m)
    && allowed(NormalizedAt(m, "methodId").value, NormalizedAt(m, "extensionId"), NormalizedAt(m, "origin"))
  }

  lemma CompletedIffAcceptable(a: seq<Field>, namespace: string, allowed: Rollout)
    ensures Completed(a, namespace, allowed).Request? <==> Acceptable(Gate(a), allowed)
    ensures Completed(a, namespace, allowed).Request? ==>
      Completed(a, namespace, allowed)
        == Request(IdentityKey(namespace, IdentifiersOf(Gate(a))), RequestFields(Gate(a)))
  {
  }

  lemma SameNormalizedSameVerdict(m: seq<Field>, n: seq<Field>, allowed: Rollout)
    requires forall k :: k in NORMALIZED_KEYS ==> NormalizedAt(m, k) == NormalizedAt(n, k)
    ensures Acceptable(m, allowed) <==> Acceptable(n, allowed)
  {
    var ks := NORMALIZED_KEYS;
    forall i | 0 <= i < |ks| ensures NormalizedAt(m, ks[i]) == NormalizedAt(n, ks[i]) { assert ks[i] in ks; }
    assert ks[0] == "providerId" && ks[1] == "methodId" && ks[2] == "extensionId" && ks[3] == "origin";
    assert ks[4] == "policyVersion";
  }

  /** Messages that ask for the same completion are accepted alike, under the same identity key. */
  lemma SameCompletionSameVerdict(a: seq<Field>, b: seq<Field>, namespace: string, allowed: Rollout)
    requires SameCompletion(a, b)
    ensures Completed(a, namespace, allowed).Request? <==> Completed(b, namespace, allowed).Request?
    ensures Completed(a, namespace, allowed).Request? ==>
      Completed(a, namespace, allowed).identityKey == Completed(b, namespace, allowed).identityKey
  {
    SameCompletionIffAgree(a, b);
    forall k | k in NORMALIZED_KEYS ensures NormalizedAt(Gate(a), k) == NormalizedAt(Gate(b), k) {
      NormalizedThroughGate(a, k);
      NormalizedThroughGate(b, k);
    }
    SameNormalizedSameVerdict(Gate(a), Gate(b), allowed);
    SameIdentifiers(Gate(a), Gate(b));
    CompletedIffAcceptable(a, namespace, allowed);
    CompletedIffAcceptable(b, namespace, allowed);
  }

  /** What the idempotency store is given. */
  function Identity(le: Collation, completion: Completion): (string, string)
    requires completion.Request?
  {
    (completion.identityKey, Canonicalize(le, Obj(completion.fields)))
  }

  /** The identities of accepted messages agree exactly when the messages ask for the same completion. */
  ghost predicate IdentityIsExact(le: Collation, a: seq<Field>, namespace: string, allowed: Rollout)
    requires Completed(a, namespace, allowed).Request?
  {
    forall b :: WellFormed(Obj(b)) && Completed(b, namespace, allowed).Request? ==>
      (Identity(le, Completed(a, namespace, allowed)) == Identity(le, Completed(b, namespace, allowed))
       <==> SameCompletion(a, b))
  }

  lemma AcceptedText(le: Collation, a: seq<Field>, namespace: string, allowed: Rollout)
    requires Completed(a, namespace, allowed).Request?
    ensures Identity(le, Completed(a, namespace, allowed)).1 == Fingerprinted(le, a)
  {
  }

  /** Main result: for an accepted message, having the same identity key and fingerprint text is the same as asking for
      the same completion, if and only if no two of its copied fields tie, nor anything inside them. */
  lemma RequestIdentityIff(le: Collation, a: seq<Field>, namespace: string, allowed: Rollout)
    requires TotalPreorder(le) && WellFormed(Obj(a)) && Completed(a, namespace, allowed).Request?
    ensures IdentityIsExact(le, a, namespace, allowed) <==> CopiedTieFree(le, a)
  {
    AcceptedText(le, a, namespace, allowed);
    if CopiedTieFree(le, a) {
      forall b | WellFormed(Obj(b)) && Completed(b, namespace, allowed).Request?
        ensures Identity(le, Completed(a, namespace, allowed)) == Identity(le, Completed(b, namespace, allowed))
                <==> SameCompletion(a, b)
      {
        AcceptedText(le, b, namespace, allowed);
        SameTextIffSameCompletion(le, a, b);
        if SameCompletion(a, b) { SameCompletionSameVerdict(a, b, namespace, allowed); }
      }
    } else {
      var b := CopiedTiesHaveTwins(le, a);
      SameCompletionSameVerdict(a, b, namespace, allowed);
      AcceptedText(le, b, namespace, allowed);
    }
  }
}
