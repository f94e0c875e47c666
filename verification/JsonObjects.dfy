/** JavaScript objects as lists of own fields in property order: lookup, assignment and selection. */
module JsonObjects {
  import opened CanonicalJson
  import opened Text

  // ----- lookup -------------------------------------------------------------

  lemma {:induction false} LookupFinds(fs: seq<Field>, i: nat)
    requires DistinctKeys(fs) && i < |fs|
    ensures Lookup(fs, fs[i].key) == fs[i].value
  {
    if i > 0 {
      assert fs[0].key != fs[i].key;
      LookupFinds(fs[1..], i - 1);
    }
  }

  lemma {:induction false} LookupMisses(fs: seq<Field>, key: string)
    requires forall f :: f in fs ==> f.key != key
    ensures Lookup(fs, key) == Undefined
  {
    if fs != [] {
      assert fs[0] in fs;
      LookupMisses(fs[1..], key);
    }
  }

  /** Lookup does not depend on the order of the fields. */
  lemma LookupByMembers(fs: seq<Field>, gs: seq<Field>, key: string)
    requires DistinctKeys(fs) && DistinctKeys(gs) && forall f :: f in fs <==> f in gs
    ensures Lookup(fs, key) == Lookup(gs, key)
  {
    if f :| f in fs && f.key == key {
      var i :| 0 <= i < |fs| && fs[i] == f;
      var j :| 0 <= j < |gs| && gs[j] == f;
      LookupFinds(fs, i);
      LookupFinds(gs, j);
    } else {
      LookupMisses(fs, key);
      LookupMisses(gs, key);
    }
  }

  // ----- property order -----------------------------------------------------

  /** Array indices, by section 6.1.7 of ECMA-262: the numbers below 2^32 - 1 in decimal. */
  lemma IndexIff(key: string)
    ensures IsIndex(key) <==> exists n: nat :: n < 0xFFFF_FFFF && key == Decimal(n)
  {
    if n: nat :| n < 0xFFFF_FFFF && key == Decimal(n) { DecimalRoundTrip(n); }
  }

  /** Indices come first, the smaller before the greater, and all other keys behind them. */
  lemma RankMeans(a: string, b: string, n: nat, m: nat)
    requires a == Decimal(n) && n < 0xFFFF_FFFF
    ensures b == Decimal(m) && m < 0xFFFF_FFFF ==> (KeyRank(a) < KeyRank(b) <==> n < m)
    ensures !IsIndex(b) ==> KeyRank(a) < KeyRank(b)
  {
    IndexIff(a);
    DecimalRoundTrip(n);
    if b == Decimal(m) && m < 0xFFFF_FFFF {
      IndexIff(b);
      DecimalRoundTrip(m);
    }
  }

  // ----- assignment ---------------------------------------------------------

  function SetField(fields: seq<Field>, key: string, v: Json): (r: seq<Field>)
    ensures |r| == |fields| && forall i :: 0 <= i < |r| ==> r[i].key == fields[i].key
    ensures forall f :: f in r ==> f in fields || f == Field(key, v)
  {
    if fields == [] then []
    else if fields[0].key == key then [Field(key, v)] + fields[1..]
    else [fields[0]] + SetField(fields[1..], key, v)
  }

  lemma {:induction false} LookupAfterSet(fields: seq<Field>, key: string, v: Json, k: string)
    requires k == key ==> Lookup(fields, key) != Undefined
    ensures Lookup(SetField(fields, key, v), k) == if k == key then v else Lookup(fields, k)
  {
    if fields != [] {
      if fields[0].key == key {
        assert ([Field(key, v)] + fields[1..])[1..] == fields[1..];
      } else {
        LookupAfterSet(fields[1..], key, v, k);
        var r := SetField(fields[1..], key, v);
        assert ([fields[0]] + r)[1..] == r;
      }
    }
  }

  /** A new property goes behind those of its rank and before those of a higher one. */
  function Place(rank: Rank, fields: seq<Field>, f: Field): seq<Field> {
    if fields == [] || rank(fields[0].key) > rank(f.key) then [f] + fields
    else [fields[0]] + Place(rank, fields[1..], f)
  }

  predicate HasKey(fields: seq<Field>, key: string) { exists f :: f in fields && f.key == key }

  const PROTO: string := "__proto__"

  /** `object[key] = value`: under `__proto__` this runs the inherited setter, which adds no property. */
  function Assign(fields: seq<Field>, key: string, value: Json): seq<Field> {
    if key == PROTO then fields
    else if HasKey(fields, key) then SetField(fields, key, value)
    else Place(KeyRank, fields, Field(key, value))
  }

  lemma {:induction false} PlaceBetween(rank: Rank, a: seq<Field>, b: seq<Field>, f: Field)
    requires forall g :: g in a ==> rank(g.key) <= rank(f.key)
    requires b == [] || rank(b[0].key) > rank(f.key)
    ensures Place(rank, a + b, f) == a + [f] + b
  {
    if a == [] {
      assert a + b == b;
    } else {
      assert a[0] in a;
      PlaceBetween(rank, a[1..], b, f);
      assert (a + b)[1..] == a[1..] + b;
      assert [a[0]] + (a[1..] + [f] + b) == a + [f] + b;
    }
  }

  // ----- selection ----------------------------------------------------------

  function KeepFields(fields: seq<Field>, keep: string -> bool): (r: seq<Field>)
    ensures forall f :: f in r <==> f in fields && keep(f.key)
  {
    if fields == [] then []
    else (if keep(fields[0].key) then [fields[0]] else []) + KeepFields(fields[1..], keep)
  }

  lemma {:induction false} KeepFieldsOfConcat(a: seq<Field>, b: seq<Field>, keep: string -> bool)
    ensures KeepFields(a + b, keep) == KeepFields(a, keep) + KeepFields(b, keep)
  {
    if a == [] {
      assert a + b == b;
    } else {
      KeepFieldsOfConcat(a[1..], b, keep);
      assert (a + b)[1..] == a[1..] + b;
      Associate(if keep(a[0].key) then [a[0]] else [], KeepFields(a[1..], keep), KeepFields(b, keep));
    }
  }

  lemma KeepOne(f: Field, keep: string -> bool)
    ensures KeepFields([f], keep) == if keep(f.key) then [f] else []
  {
    assert [f][1..] == [];
  }

  lemma KeepFieldsStep(fields: seq<Field>, i: nat, keep: string -> bool)
    requires i < |fields|
    ensures KeepFields(fields[..i + 1], keep)
      == KeepFields(fields[..i], keep) + if keep(fields[i].key) then [fields[i]] else []
  {
    assert fields[..i + 1] == fields[..i] + [fields[i]];
    KeepFieldsOfConcat(fields[..i], [fields[i]], keep);
    KeepOne(fields[i], keep);
  }

  lemma {:induction false} KeepOfKeep(fields: seq<Field>, first: string -> bool, second: string -> bool)
    requires forall k :: second(k) ==> first(k)
    ensures KeepFields(KeepFields(fields, first), second) == KeepFields(fields, second)
  {
    if fields != [] {
      var rest := KeepFields(fields[1..], first);
      KeepOfKeep(fields[1..], first, second);
      assert ([fields[0]] + rest)[1..] == rest;
      assert [] + rest == rest;
    }
  }

  lemma {:induction false} KeepKeepsDistinct(fields: seq<Field>, keep: string -> bool)
    requires DistinctKeys(fields)
    ensures DistinctKeys(KeepFields(fields, keep))
  {
    if fields != [] {
      KeepKeepsDistinct(fields[1..], keep);
      var r := KeepFields(fields[1..], keep);
      forall j | 0 <= j < |r| ensures r[j].key != fields[0].key {
        assert r[j] in fields[1..];
        var i :| 0 < i < |fields| && fields[i] == r[j];
      }
    }
  }

  lemma {:induction false} KeepKeepsRanks(rank: Rank, fields: seq<Field>, keep: string -> bool)
    requires Ranked(rank, fields)
    ensures Ranked(rank, KeepFields(fields, keep))
  {
    if fields != [] {
      KeepKeepsRanks(rank, fields[1..], keep);
      var r := KeepFields(fields[1..], keep);
      forall j | 0 <= j < |r| ensures rank(fields[0].key) <= rank(r[j].key) {
        assert r[j] in fields[1..];
        var i :| 0 < i < |fields| && fields[i] == r[j];
      }
    }
  }

  lemma KeepKeepsWellFormed(fields: seq<Field>, keep: string -> bool)
    requires WellFormed(Obj(fields))
    ensures WellFormed(Obj(KeepFields(fields, keep)))
  {
    KeepKeepsDistinct(fields, keep);
    KeepKeepsRanks(KeyRank, fields, keep);
  }

  lemma {:induction false} LookupAfterKeep(fields: seq<Field>, keep: string -> bool, key: string)
    requires keep(key)
    ensures Lookup(KeepFields(fields, keep), key) == Lookup(fields, key)
  {
    if fields != [] {
      LookupAfterKeep(fields[1..], keep, key);
      var rest := KeepFields(fields[1..], keep);
      assert ([fields[0]] + rest)[1..] == rest;
      assert [] + rest == rest;
    }
  }

  lemma RanksOfConcat(rank: Rank, a: seq<Field>, b: seq<Field>)
    requires Ranked(rank, a) && Ranked(rank, b)
    requires forall f, g :: f in a && g in b ==> rank(f.key) <= rank(g.key)
    ensures Ranked(rank, a + b)
  {
    forall i, j | 0 <= i < |a| && 0 <= j < |b| ensures rank(a[i].key) <= rank(b[j].key) {
      assert a[i] in a && b[j] in b;
    }
  }

  lemma DistinctConcat(a: seq<Field>, b: seq<Field>)
    requires DistinctKeys(a) && DistinctKeys(b)
    requires forall f, g :: f in a && g in b ==> f.key != g.key
    ensures DistinctKeys(a + b)
  {
    forall i, j | 0 <= i < |a| && 0 <= j < |b| ensures a[i].key != b[j].key { assert a[i] in a && b[j] in b; }
  }
}
