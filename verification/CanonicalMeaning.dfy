/** What canonical text identifies.  `Meaning` reads a value the way a consumer of
    its JSON would: key order is gone, omitted fields are gone, and what JSON cannot
    say is null.  Equal text always means equal meaning, whatever the collation; equal
    meaning gives equal text exactly when no object has two printed keys that tie. */
module CanonicalMeaning {
  import opened CanonicalJson
  import opened CanonicalDecoding
  import opened Wrappers

  datatype Sem =
    | SNull
    | SBool(b: bool)
    | SNumber(n: NumberText)
    | SString(s: string)
    | SArray(items: seq<Sem>)
    | SObject(fields: map<string, Sem>)

  function Meaning(v: Json): Sem
    decreases v, 1
  {
    match v
    case Null | Undefined | Function | Symbol | BigInt | NonFinite => SNull
    case Bool(b) => SBool(b)
    case Finite(n) => SNumber(n)
    case Str(s) => SString(s)
    case Arr(items) => SArray(seq(|items|, i requires 0 <= i < |items| => Meaning(items[i])))
    case Obj(fs) => SObject(FieldMap(fs))
  }

  function FieldMap(fs: seq<Field>): (m: map<string, Sem>)
    ensures m.Keys == set f | f in fs && Retained(f.value) :: f.key
    decreases fs, 0
  {
    if fs == [] then map[]
    else
      var rest := FieldMap(fs[1..]);
      assert fs == [fs[0]] + fs[1..];
      if Retained(fs[0].value) then rest[fs[0].key := Meaning(fs[0].value)] else rest
  }

  lemma {:induction false} FieldMapAt(fs: seq<Field>, f: Field)
    requires DistinctKeys(fs) && f in fs && Retained(f.value)
    ensures f.key in FieldMap(fs) && FieldMap(fs)[f.key] == Meaning(f.value)
  {
    var i :| 0 <= i < |fs| && fs[i] == f;
    if i > 0 {
      assert fs[1..][i - 1] == f;
      FieldMapAt(fs[1..], f);
      assert f.key != fs[0].key;
    } else {
      assert FieldMap(fs)[f.key] == Meaning(f.value);
    }
  }

  /** The field map does not depend on the order of the fields. */
  lemma FieldMapByMembers(fs: seq<Field>, gs: seq<Field>)
    requires DistinctKeys(fs) && DistinctKeys(gs)
    requires forall f: Field :: Retained(f.value) ==> (f in fs <==> f in gs)
    ensures FieldMap(fs) == FieldMap(gs)
  {
    var m, n := FieldMap(fs), FieldMap(gs);
    forall f | f in fs && Retained(f.value)
      ensures f.key in m && f.key in n && m[f.key] == n[f.key]
    {
      FieldMapAt(fs, f);
      FieldMapAt(gs, f);
    }
    assert m.Keys == n.Keys;
  }

  // ----- equal text means equal meaning -------------------------------------

  function TreeMeaning(t: Tree): Sem
    decreases t, 1
  {
    match t
    case TNull => SNull
    case TBool(b) => SBool(b)
    case TNumber(n) => SNumber(n)
    case TString(s) => SString(s)
    case TArray(items) => SArray(seq(|items|, i requires 0 <= i < |items| => TreeMeaning(items[i])))
    case TObject(fs) => SObject(TreeMap(fs))
  }

  function TreeMap(fs: seq<TField>): map<string, Sem>
    decreases fs, 0
  {
    if fs == [] then map[] else TreeMap(fs[1..])[fs[0].key := TreeMeaning(fs[0].value)]
  }

  lemma {:induction false} TreeMapIsFieldMap(ts: seq<TField>, fs: seq<Field>)
    requires |ts| == |fs|
    requires forall i :: 0 <= i < |fs| ==> Retained(fs[i].value)
    requires forall i :: 0 <= i < |fs| ==>
      ts[i].key == fs[i].key && TreeMeaning(ts[i].value) == Meaning(fs[i].value)
    ensures TreeMap(ts) == FieldMap(fs)
  {
    if fs != [] { TreeMapIsFieldMap(ts[1..], fs[1..]); }
  }

  lemma {:induction false} InsertKeepsDistinct(le: Collation, f: Field, fs: seq<Field>)
    requires DistinctKeys(fs) && forall g :: g in fs ==> g.key != f.key
    ensures DistinctKeys(InsertField(le, f, fs))
  {
    if fs != [] && !le(f.key, fs[0].key) {
      InsertKeepsDistinct(le, f, fs[1..]);
      var r := InsertField(le, f, fs[1..]);
      forall j | 0 <= j < |r| ensures r[j].key != fs[0].key {
        assert r[j] in r;
        if r[j] != f { var i :| 0 <= i < |fs[1..]| && fs[1..][i] == r[j]; }
      }
    }
  }

  lemma {:induction false} SortKeepsDistinct(le: Collation, fs: seq<Field>)
    requires DistinctKeys(fs)
    ensures DistinctKeys(SortFields(le, fs))
  {
    if fs != [] {
      SortKeepsDistinct(le, fs[1..]);
      InsertKeepsDistinct(le, fs[0], SortFields(le, fs[1..]));
    }
  }

  lemma {:induction false} DropKeepsDistinct(fs: seq<Field>)
    requires DistinctKeys(fs)
    ensures DistinctKeys(DropOmitted(fs))
  {
    if fs != [] {
      DropKeepsDistinct(fs[1..]);
      var r := DropOmitted(fs[1..]);
      forall j | 0 <= j < |r| ensures r[j].key != fs[0].key {
        assert r[j] in fs[1..];
        var i :| 0 < i < |fs| && fs[i] == r[j];
      }
    }
  }

  lemma PrintedFieldsDistinct(le: Collation, fs: seq<Field>)
    requires DistinctKeys(fs)
    ensures DistinctKeys(PrintedFields(le, fs))
  {
    SortKeepsDistinct(le, fs);
    DropKeepsDistinct(SortFields(le, fs));
  }

  lemma {:induction false} NormalFormKeepsMeaning(le: Collation, v: Json)
    requires WellFormed(v)
    ensures TreeMeaning(Normalize(le, v)) == Meaning(v)
  {
    match v {
      case Arr(items) =>
        forall i | 0 <= i < |items|
          ensures TreeMeaning(Normalize(le, items[i])) == Meaning(items[i])
        {
          NormalFormKeepsMeaning(le, items[i]);
        }
      case Obj(fs) =>
        var kept, ts := PrintedFields(le, fs), Normalize(le, v).fields;
        forall i | 0 <= i < |kept| ensures TreeMeaning(ts[i].value) == Meaning(kept[i].value) {
          assert kept[i] in fs;
          NormalFormKeepsMeaning(le, kept[i].value);
        }
        TreeMapIsFieldMap(ts, kept);
        PrintedFieldsDistinct(le, fs);
        FieldMapByMembers(kept, fs);
      case _ =>
    }
  }

  /** Canonical text is injective on meanings, for every collation whatever. */
  lemma EqualTextMeansEqualMeaning(le: Collation, v: Json, w: Json)
    requires WellFormed(v) && WellFormed(w)
    requires Canonicalize(le, v) == Canonicalize(le, w)
    ensures Meaning(v) == Meaning(w)
  {
    SameTextIffSameNormalForm(le, v, w);
    NormalFormKeepsMeaning(le, v);
    NormalFormKeepsMeaning(le, w);
  }

  // ----- equal meaning gives equal text, unless keys tie ---------------------

  predicate Tie(le: Collation, a: string, b: string) { le(a, b) && le(b, a) }

  /** No two printed keys that may be listed in either order tie. */
  predicate TieFreeBy(le: Collation, rank: Rank, fs: seq<Field>) {
    forall i, j :: 0 <= i < j < |fs| && Retained(fs[i].value) && Retained(fs[j].value)
                   && rank(fs[i].key) == rank(fs[j].key) ==>
      !Tie(le, fs[i].key, fs[j].key)
  }

  predicate TieFreeFields(le: Collation, fs: seq<Field>) { TieFreeBy(le, KeyRank, fs) }

  /** No object inside the value has two printed keys that it may list in either order and the collation cannot
      tell apart. */
  predicate TieFree(le: Collation, v: Json) {
    match v
    case Arr(items) => forall x :: x in items ==> TieFree(le, x)
    case Obj(fs) => TieFreeFields(le, fs) && forall f :: f in fs && Retained(f.value) ==> TieFree(le, f.value)
    case _ => true
  }

  /** The collation with ties broken by rank: what the stable sort of a list in rank order amounts to. */
  function Refined(le: Collation, rank: Rank): Collation {
    (a: string, b: string) => le(a, b) && (le(b, a) ==> rank(a) <= rank(b))
  }

  lemma RefinedIsTotal(le: Collation, rank: Rank)
    requires TotalPreorder(le)
    ensures TotalPreorder(Refined(le, rank))
  {
  }

  ghost predicate Sorted(le: Collation, fs: seq<Field>) {
    forall i, j :: 0 <= i < j < |fs| ==> le(fs[i].key, fs[j].key)
  }

  lemma {:induction false} InsertSorts(le: Collation, rank: Rank, f: Field, fs: seq<Field>)
    requires TotalPreorder(le) && Sorted(Refined(le, rank), fs)
    requires forall g :: g in fs ==> rank(f.key) <= rank(g.key)
    ensures Sorted(Refined(le, rank), InsertField(le, f, fs))
  {
    var order := Refined(le, rank);
    if fs != [] {
      if le(f.key, fs[0].key) {
        forall j | 0 <= j < |fs| ensures order(f.key, fs[j].key) {
          assert fs[j] in fs;
          assert j > 0 ==> order(fs[0].key, fs[j].key);
        }
      } else {
        InsertSorts(le, rank, f, fs[1..]);
        var r := InsertField(le, f, fs[1..]);
        assert order(fs[0].key, f.key);
        assert forall j :: 0 <= j < |fs[1..]| ==> order(fs[0].key, fs[1..][j].key);
        forall j | 0 <= j < |r| ensures order(fs[0].key, r[j].key) { assert r[j] in r; }
      }
    }
  }

  lemma {:induction false} SortSorts(le: Collation, rank: Rank, fs: seq<Field>)
    requires TotalPreorder(le) && Ranked(rank, fs)
    ensures Sorted(Refined(le, rank), SortFields(le, fs))
  {
    if fs != [] {
      SortSorts(le, rank, fs[1..]);
      forall g | g in SortFields(le, fs[1..]) ensures rank(fs[0].key) <= rank(g.key) {
        var i :| 0 < i < |fs| && fs[i] == g;
      }
      InsertSorts(le, rank, fs[0], SortFields(le, fs[1..]));
    }
  }

  lemma {:induction false} DropKeepsSorted(le: Collation, fs: seq<Field>)
    requires Sorted(le, fs)
    ensures Sorted(le, DropOmitted(fs))
  {
    if fs != [] {
      DropKeepsSorted(le, fs[1..]);
      var r := DropOmitted(fs[1..]);
      forall j | 0 <= j < |r| ensures le(fs[0].key, r[j].key) {
        assert r[j] in fs[1..];
        var i :| 0 < i < |fs| && fs[i] == r[j];
      }
    }
  }

  lemma PrintedFieldsSorted(le: Collation, rank: Rank, fs: seq<Field>)
    requires TotalPreorder(le) && Ranked(rank, fs)
    ensures Sorted(Refined(le, rank), PrintedFields(le, fs))
  {
    SortSorts(le, rank, fs);
    DropKeepsSorted(Refined(le, rank), SortFields(le, fs));
  }

  /** What JSON has no text for is left out of an object. */
  predicate IsLeftOut(v: Json) { v == Undefined || v == Function || v == Symbol }

  /** The normal form of an object has the keys of the fields that are not left out, in the collation's order. */
  lemma NormalFormIsSorted(le: Collation, fs: seq<Field>, key: string)
    requires TotalPreorder(le) && Ranked(KeyRank, fs)
    ensures var ts := Normalize(le, Obj(fs)).fields;
      && (forall i, j :: 0 <= i < j < |ts| ==> le(ts[i].key, ts[j].key))
      && ((exists t :: t in ts && t.key == key) <==> exists f :: f in fs && f.key == key && !IsLeftOut(f.value))
  {
    PrintedFieldsSorted(le, KeyRank, fs);
    NormalFormHasKey(le, fs, key);
  }

  lemma NormalFormHasKey(le: Collation, fs: seq<Field>, key: string)
    ensures (exists t :: t in Normalize(le, Obj(fs)).fields && t.key == key)
      <==> exists f :: f in fs && f.key == key && !IsLeftOut(f.value)
  {
    var kept, ts := PrintedFields(le, fs), Normalize(le, Obj(fs)).fields;
    if t :| t in ts && t.key == key {
      var i :| 0 <= i < |ts| && ts[i] == t;
      assert kept[i] in fs && kept[i].key == key;
    }
    if f :| f in fs && f.key == key && !IsLeftOut(f.value) {
      assert f in kept;
      var i :| 0 <= i < |kept| && kept[i] == f;
      assert ts[i] in ts && ts[i].key == key;
    }
  }

  /** Main result: a reader of the canonical text gets a tree that means what the value means. */
  lemma CanonicalTextTellsTheMeaning(le: Collation, v: Json)
    requires WellFormed(v)
    ensures var r := ReadValue(Canonicalize(le, v));
      r.Some? && TreeMeaning(r.value.0) == Meaning(v) && r.value.1 == ""
  {
    CanonicalTextIsRead(le, v);
    NormalFormKeepsMeaning(le, v);
  }

  function Keys(fs: seq<Field>): (ks: seq<string>)
    ensures |ks| == |fs| && forall i :: 0 <= i < |fs| ==> ks[i] == fs[i].key
  {
    seq(|fs|, i requires 0 <= i < |fs| => fs[i].key)
  }

  /** Sorted, distinct, tie-free key lists with the same members are the same list. */
  lemma {:induction false} SortedKeysAreUnique(le: Collation, a: seq<string>, b: seq<string>)
    requires TotalPreorder(le)
    requires forall k :: k in a <==> k in b
    requires forall i, j :: 0 <= i < j < |a| ==> le(a[i], a[j]) && a[i] != a[j]
    requires forall i, j :: 0 <= i < j < |b| ==> le(b[i], b[j]) && b[i] != b[j]
    requires forall x, y :: x in a && y in a && Tie(le, x, y) ==> x == y
    ensures a == b
  {
    assert b != [] ==> b[0] in a;
    if a != [] {
      assert a[0] in b;
      assert Tie(le, a[0], b[0]);
      assert a == [a[0]] + a[1..] && b == [b[0]] + b[1..];
      assert a[0] !in a[1..] && b[0] !in b[1..];
      assert forall k :: k in a[1..] <==> k in a && k != a[0];
      assert forall k :: k in b[1..] <==> k in b && k != b[0];
      SortedKeysAreUnique(le, a[1..], b[1..]);
    }
  }

  /** Two objects with the same field map print the same keys in the same order, if the first has no ties. */
  lemma SamePrintedKeys(le: Collation, rank: Rank, fs: seq<Field>, gs: seq<Field>)
    requires TotalPreorder(le) && TieFreeBy(le, rank, fs)
    requires DistinctKeys(fs) && DistinctKeys(gs) && Ranked(rank, fs) && Ranked(rank, gs)
    requires FieldMap(fs).Keys == FieldMap(gs).Keys
    ensures Keys(PrintedFields(le, fs)) == Keys(PrintedFields(le, gs))
  {
    var p, q := PrintedFields(le, fs), PrintedFields(le, gs);
    RefinedIsTotal(le, rank);
    PrintedKeysAreOrdered(le, rank, fs);
    PrintedKeysAreOrdered(le, rank, gs);
    forall k ensures k in Keys(p) <==> k in FieldMap(fs) { PrintedKeysAreMapped(le, fs, k); }
    forall k ensures k in Keys(q) <==> k in FieldMap(gs) { PrintedKeysAreMapped(le, gs, k); }
    forall x, y | x in Keys(p) && y in Keys(p) && Tie(Refined(le, rank), x, y) ensures x == y {
      PrintedKeysTie(le, rank, fs, x, y);
    }
    SortedKeysAreUnique(Refined(le, rank), Keys(p), Keys(q));
  }

  lemma PrintedKeysAreOrdered(le: Collation, rank: Rank, fs: seq<Field>)
    requires TotalPreorder(le) && DistinctKeys(fs) && Ranked(rank, fs)
    ensures var ks := Keys(PrintedFields(le, fs));
            forall i, j :: 0 <= i < j < |ks| ==> Refined(le, rank)(ks[i], ks[j]) && ks[i] != ks[j]
  {
    PrintedFieldsDistinct(le, fs);
    PrintedFieldsSorted(le, rank, fs);
  }

  /** The field behind a printed key. */
  lemma FieldOfPrintedKey(le: Collation, fs: seq<Field>, k: string) returns (i: nat)
    requires k in Keys(PrintedFields(le, fs))
    ensures i < |fs| && fs[i].key == k && Retained(fs[i].value)
  {
    var p := PrintedFields(le, fs);
    var j :| 0 <= j < |p| && Keys(p)[j] == k;
    assert p[j] in fs;
    i :| 0 <= i < |fs| && fs[i] == p[j];
  }

  lemma PrintedKeysTie(le: Collation, rank: Rank, fs: seq<Field>, x: string, y: string)
    requires TieFreeBy(le, rank, fs)
    requires x in Keys(PrintedFields(le, fs)) && y in Keys(PrintedFields(le, fs)) && Tie(Refined(le, rank), x, y)
    ensures x == y
  {
    var i := FieldOfPrintedKey(le, fs, x);
    var j := FieldOfPrintedKey(le, fs, y);
    assert Tie(le, x, y) && Tie(le, y, x) && rank(x) == rank(y);
  }

  lemma PrintedKeysAreMapped(le: Collation, fs: seq<Field>, k: string)
    ensures k in Keys(PrintedFields(le, fs)) <==> k in FieldMap(fs)
  {
    var p := PrintedFields(le, fs);
    if k in Keys(p) {
      var i :| 0 <= i < |p| && p[i].key == k;
      assert p[i] in fs;
    }
    if k in FieldMap(fs) {
      var f :| f in fs && Retained(f.value) && f.key == k;
      assert f in p;
      var i :| 0 <= i < |p| && p[i] == f;
      assert Keys(p)[i] == k;
    }
  }

  lemma SamePrintedEntries(le: Collation, fs: seq<Field>, gs: seq<Field>)
    requires Keys(PrintedFields(le, fs)) == Keys(PrintedFields(le, gs))
    requires forall i :: 0 <= i < |PrintedFields(le, fs)| ==>
      Normalize(le, PrintedFields(le, fs)[i].value) == Normalize(le, PrintedFields(le, gs)[i].value)
    ensures Normalize(le, Obj(fs)) == Normalize(le, Obj(gs))
  {
    var p, q := PrintedFields(le, fs), PrintedFields(le, gs);
    assert |p| == |Keys(p)| == |Keys(q)| == |q|;
    forall i | 0 <= i < |p| ensures p[i].key == q[i].key { assert p[i].key == Keys(p)[i] == Keys(q)[i] == q[i].key; }
    assert Normalize(le, Obj(fs)).fields == Normalize(le, Obj(gs)).fields;
  }

  /** Objects that list the same fields in orders of one rank have the same normal form. */
  lemma SameFieldsSameNormalForm(le: Collation, rank: Rank, fs: seq<Field>, gs: seq<Field>)
    requires TotalPreorder(le) && TieFreeBy(le, rank, fs)
    requires DistinctKeys(fs) && DistinctKeys(gs) && Ranked(rank, fs) && Ranked(rank, gs)
    requires FieldMap(fs).Keys == FieldMap(gs).Keys
    requires forall f, g :: f in fs && g in gs && f.key == g.key && Retained(f.value) && Retained(g.value) ==>
      Normalize(le, f.value) == Normalize(le, g.value)
    ensures Normalize(le, Obj(fs)) == Normalize(le, Obj(gs))
  {
    var p, q := PrintedFields(le, fs), PrintedFields(le, gs);
    SamePrintedKeys(le, rank, fs, gs);
    assert |p| == |Keys(p)| == |Keys(q)| == |q|;
    forall i | 0 <= i < |p| ensures Normalize(le, p[i].value) == Normalize(le, q[i].value) {
      assert p[i].key == Keys(p)[i] == Keys(q)[i] == q[i].key;
      assert p[i] in p && q[i] in q;
    }
    SamePrintedEntries(le, fs, gs);
  }

  lemma {:induction false} EqualMeaningGivesEqualNormalForm(le: Collation, v: Json, w: Json)
    requires TotalPreorder(le) && WellFormed(v) && WellFormed(w) && TieFree(le, v)
    requires Meaning(v) == Meaning(w)
    ensures Normalize(le, v) == Normalize(le, w)
  {
    match v {
      case Arr(items) =>
        var m, n := Meaning(v).items, Meaning(w).items;
        forall i | 0 <= i < |items| ensures Normalize(le, items[i]) == Normalize(le, w.items[i]) {
          assert m[i] == n[i];
          EqualMeaningGivesEqualNormalForm(le, items[i], w.items[i]);
        }
      case Obj(fs) =>
        var gs := w.fields;
        forall f, g | f in fs && g in gs && f.key == g.key && Retained(f.value) && Retained(g.value)
          ensures Normalize(le, f.value) == Normalize(le, g.value)
        {
          FieldMapAt(fs, f);
          FieldMapAt(gs, g);
          EqualMeaningGivesEqualNormalForm(le, f.value, g.value);
        }
        SameFieldsSameNormalForm(le, KeyRank, fs, gs);
      case _ =>
    }
  }

  /** Main result: for a value without ties, the text identifies exactly the meaning. */
  lemma CanonicalTextIdentifiesMeaning(le: Collation, v: Json, w: Json)
    requires TotalPreorder(le) && WellFormed(v) && WellFormed(w) && TieFree(le, v)
    ensures Canonicalize(le, v) == Canonicalize(le, w) <==> Meaning(v) == Meaning(w)
  {
    if Canonicalize(le, v) == Canonicalize(le, w) { EqualTextMeansEqualMeaning(le, v, w); }
    if Meaning(v) == Meaning(w) {
      EqualMeaningGivesEqualNormalForm(le, v, w);
      SameTextIffSameNormalForm(le, v, w);
    }
  }

  /** The two halves for objects, with what each needs. */
  lemma ObjectTexts(le: Collation, fs: seq<Field>, gs: seq<Field>)
    requires WellFormed(Obj(fs)) && WellFormed(Obj(gs))
    ensures Canonicalize(le, Obj(fs)) == Canonicalize(le, Obj(gs)) ==> FieldMap(fs) == FieldMap(gs)
    ensures TotalPreorder(le) && TieFree(le, Obj(fs)) && FieldMap(fs) == FieldMap(gs)
      ==> Canonicalize(le, Obj(fs)) == Canonicalize(le, Obj(gs))
  {
    var v, w := Obj(fs), Obj(gs);
    if Canonicalize(le, v) == Canonicalize(le, w) { EqualTextMeansEqualMeaning(le, v, w); }
    if TotalPreorder(le) && TieFree(le, v) && FieldMap(fs) == FieldMap(gs) {
      CanonicalTextIdentifiesMeaning(le, v, w);
    }
  }
}
