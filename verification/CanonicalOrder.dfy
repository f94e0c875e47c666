/** The exact condition under which canonical text ignores property order.

    `localeCompare` is not a total order on strings: canonically equivalent spellings
    of one key compare equal.  Tied keys keep their property order under a stable sort,
    so an object holding two of them has more than one canonical text, unless JavaScript
    fixes their order because one of them is an array index. */
module CanonicalOrder {
  import opened Text
  import opened CanonicalJson
  import opened CanonicalDecoding
  import opened CanonicalMeaning

  /** Tied fields come out of the stable sort in the order they went in. */
  lemma {:induction false} TiedFieldsKeepTheirOrder(le: Collation, a: Field, b: Field, r: seq<Field>)
    returns (pre: seq<Field>, post: seq<Field>)
    requires TotalPreorder(le) && Tie(le, a.key, b.key)
    ensures InsertField(le, a, InsertField(le, b, r)) == pre + [a, b] + post
    ensures InsertField(le, b, InsertField(le, a, r)) == pre + [b, a] + post
  {
    if r == [] || le(b.key, r[0].key) {
      pre, post := [], r;
    } else {
      pre, post := TiedFieldsKeepTheirOrder(le, a, b, r[1..]);
      pre := [r[0]] + pre;
    }
  }

  /** What stands before and after two adjacent tied fields, once a field is inserted. */
  function Around(le: Collation, g: Field, pre: seq<Field>, a: Field, post: seq<Field>): (seq<Field>, seq<Field>) {
    if pre == [] then (if le(g.key, a.key) then ([g], post) else ([], InsertField(le, g, post)))
    else if le(g.key, pre[0].key) then ([g] + pre, post)
    else
      var rest := Around(le, g, pre[1..], a, post);
      ([pre[0]] + rest.0, rest.1)
  }

  lemma {:induction false} AroundByTie(le: Collation, g: Field, pre: seq<Field>, a: Field, b: Field, post: seq<Field>)
    requires TotalPreorder(le) && Tie(le, a.key, b.key)
    ensures Around(le, g, pre, a, post) == Around(le, g, pre, b, post)
  {
    if pre != [] { AroundByTie(le, g, pre[1..], a, b, post); }
  }

  /** A field inserted into a list with two adjacent tied fields does not come between them. */
  lemma {:induction false} InsertedFieldGoesAround(
      le: Collation, g: Field, pre: seq<Field>, a: Field, b: Field, post: seq<Field>)
    requires TotalPreorder(le) && Tie(le, a.key, b.key)
    ensures var around := Around(le, g, pre, a, post);
      InsertField(le, g, pre + [a, b] + post) == around.0 + [a, b] + around.1
  {
    var x := pre + [a, b] + post;
    if pre == [] {
      assert x[1..] == [b] + post && ([b] + post)[1..] == post;
    } else {
      assert x[1..] == pre[1..] + [a, b] + post;
      if !le(g.key, pre[0].key) { InsertedFieldGoesAround(le, g, pre[1..], a, b, post); }
    }
  }

  /** Sorting keeps two adjacent tied fields adjacent and in order, whatever stands around them. */
  lemma {:induction false} SortKeepsTiedFields(le: Collation, front: seq<Field>, a: Field, b: Field, rest: seq<Field>)
    returns (pre: seq<Field>, post: seq<Field>)
    requires TotalPreorder(le) && Tie(le, a.key, b.key)
    ensures SortFields(le, front + [a, b] + rest) == pre + [a, b] + post
    ensures SortFields(le, front + [b, a] + rest) == pre + [b, a] + post
  {
    var x, y := front + [a, b] + rest, front + [b, a] + rest;
    if front == [] {
      pre, post := TiedFieldsKeepTheirOrder(le, a, b, SortFields(le, rest));
      SortOfTwoInFront(le, a, b, rest);
      SortOfTwoInFront(le, b, a, rest);
      assert x == [a, b] + rest && y == [b, a] + rest;
    } else {
      assert x[1..] == front[1..] + [a, b] + rest && y[1..] == front[1..] + [b, a] + rest;
      pre, post := SortKeepsTiedFields(le, front[1..], a, b, rest);
      InsertedFieldGoesAround(le, front[0], pre, a, b, post);
      InsertedFieldGoesAround(le, front[0], pre, b, a, post);
      AroundByTie(le, front[0], pre, a, b, post);
      var around := Around(le, front[0], pre, a, post);
      pre, post := around.0, around.1;
    }
  }

  lemma {:induction false} DropOmittedOfConcat(fs: seq<Field>, gs: seq<Field>)
    ensures DropOmitted(fs + gs) == DropOmitted(fs) + DropOmitted(gs)
  {
    if fs == [] {
      assert fs + gs == gs;
    } else {
      DropOmittedOfConcat(fs[1..], gs);
      assert (fs + gs)[1..] == fs[1..] + gs;
      Associate(if Retained(fs[0].value) then [fs[0]] else [], DropOmitted(fs[1..]), DropOmitted(gs));
    }
  }

  lemma DropOmittedAround(pre: seq<Field>, x: Field, y: Field, post: seq<Field>)
    requires Retained(x.value) && Retained(y.value)
    ensures var p := DropOmitted(pre + [x, y] + post);
            |p| > |DropOmitted(pre)| && p[|DropOmitted(pre)|] == x
  {
    DropOmittedOfConcat(pre + [x, y], post);
    DropOmittedOfConcat(pre, [x, y]);
    assert [x, y][1..] == [y];
  }

  lemma SortOfTwoInFront(le: Collation, a: Field, b: Field, rest: seq<Field>)
    ensures SortFields(le, [a, b] + rest) == InsertField(le, a, InsertField(le, b, SortFields(le, rest)))
  {
    assert ([a, b] + rest)[1..] == [b] + rest;
    assert ([b] + rest)[1..] == rest;
  }

  /** Swapping two adjacent tied fields of an object changes its normal form. */
  lemma SwappingTiedFieldsChangesTheText(le: Collation, front: seq<Field>, a: Field, b: Field, rest: seq<Field>)
    requires TotalPreorder(le) && Tie(le, a.key, b.key) && a.key != b.key
    requires Retained(a.value) && Retained(b.value)
    ensures Normalize(le, Obj(front + [a, b] + rest)) != Normalize(le, Obj(front + [b, a] + rest))
  {
    var pre, post := SortKeepsTiedFields(le, front, a, b, rest);
    DropOmittedAround(pre, a, b, post);
    DropOmittedAround(pre, b, a, post);
    DifferentPrintedKey(le, front + [a, b] + rest, front + [b, a] + rest, |DropOmitted(pre)|);
  }

  lemma DifferentPrintedKey(le: Collation, fs: seq<Field>, gs: seq<Field>, i: nat)
    requires i < |PrintedFields(le, fs)| && i < |PrintedFields(le, gs)|
    requires PrintedFields(le, fs)[i].key != PrintedFields(le, gs)[i].key
    ensures Normalize(le, Obj(fs)) != Normalize(le, Obj(gs))
  {
    assert Normalize(le, Obj(fs)).fields[i].key == PrintedFields(le, fs)[i].key;
    assert Normalize(le, Obj(gs)).fields[i].key == PrintedFields(le, gs)[i].key;
  }

  /** The fields at `i` and `j` made neighbours at `i`, in their order or swapped. */
  function Adjacent(fs: seq<Field>, i: nat, j: nat, swapped: bool): (gs: seq<Field>)
    requires i < j < |fs|
    ensures gs == fs[..i] + (if swapped then [fs[j], fs[i]] else [fs[i], fs[j]]) + (fs[i + 1..j] + fs[j + 1..])
    ensures |gs| == |fs|
    ensures forall p :: 0 <= p < |fs| ==> gs[p] == fs[Source(i, j, swapped, p)]
  {
    fs[..i] + (if swapped then [fs[j], fs[i]] else [fs[i], fs[j]]) + (fs[i + 1..j] + fs[j + 1..])
  }

  function Source(i: nat, j: nat, swapped: bool, p: nat): nat
    requires i < j
  {
    if p == i then (if swapped then j else i)
    else if p == i + 1 then (if swapped then i else j)
    else if i < p <= j then p - 1
    else p
  }

  lemma SourceIsOneToOne(i: nat, j: nat, swapped: bool, p: nat, q: nat)
    requires i < j && p != q
    ensures Source(i, j, swapped, p) != Source(i, j, swapped, q)
  {
  }

  /** A place and its source are the same, or both lie between `i` and `j`. */
  lemma SourceIsNear(i: nat, j: nat, swapped: bool, p: nat)
    requires i < j
    ensures var q := Source(i, j, swapped, p); p == q || (i <= p <= j && i <= q <= j)
  {
  }

  lemma AdjacentHasTheSameFields(fs: seq<Field>, i: nat, j: nat, swapped: bool, f: Field)
    requires i < j < |fs|
    ensures f in Adjacent(fs, i, j, swapped) <==> f in fs
  {
    assert fs == fs[..i] + [fs[i]] + fs[i + 1..j] + [fs[j]] + fs[j + 1..];
  }

  lemma AdjacentKeepsRanks(rank: Rank, fs: seq<Field>, i: nat, j: nat, swapped: bool)
    requires i < j < |fs| && Ranked(rank, fs) && rank(fs[i].key) == rank(fs[j].key)
    ensures Ranked(rank, Adjacent(fs, i, j, swapped))
  {
    var gs := Adjacent(fs, i, j, swapped);
    var between := rank(fs[i].key);
    forall p | 0 <= p < |fs| ensures rank(gs[p].key) == rank(fs[p].key) {
      var q := Source(i, j, swapped, p);
      SourceIsNear(i, j, swapped, p);
      assert i <= p <= j ==> rank(fs[p].key) == between;
      assert i <= q <= j ==> rank(fs[q].key) == between;
    }
  }

  /** Fields of one rank may change places. */
  lemma AdjacentKeepsOrder(rank: Rank, fs: seq<Field>, i: nat, j: nat, swapped: bool)
    requires i < j < |fs| && DistinctKeys(fs) && Ranked(rank, fs) && rank(fs[i].key) == rank(fs[j].key)
    ensures var gs := Adjacent(fs, i, j, swapped);
      DistinctKeys(gs) && Ranked(rank, gs) && forall f :: f in gs <==> f in fs
  {
    var gs := Adjacent(fs, i, j, swapped);
    AdjacentKeepsRanks(rank, fs, i, j, swapped);
    forall p, q | 0 <= p < q < |gs| ensures gs[p].key != gs[q].key { SourceIsOneToOne(i, j, swapped, p, q); }
    forall f ensures f in gs <==> f in fs { AdjacentHasTheSameFields(fs, i, j, swapped, f); }
  }

  /** The entry an object's normal form holds for one of its printed fields. */
  lemma PrintedEntry(le: Collation, fs: seq<Field>, f: Field)
    requires f in fs && Retained(f.value)
    ensures TField(f.key, Normalize(le, f.value)) in Normalize(le, Obj(fs)).fields
  {
    var kept := PrintedFields(le, fs);
    var i :| 0 <= i < |kept| && kept[i] == f;
    assert Normalize(le, Obj(fs)).fields[i] == TField(f.key, Normalize(le, f.value));
  }

  lemma PrintedEntriesAreUnique(le: Collation, fs: seq<Field>, x: TField, y: TField)
    requires DistinctKeys(fs) && x.key == y.key
    requires x in Normalize(le, Obj(fs)).fields && y in Normalize(le, Obj(fs)).fields
    ensures x == y
  {
    PrintedFieldsDistinct(le, fs);
    var ts := Normalize(le, Obj(fs)).fields;
    var i :| 0 <= i < |ts| && ts[i] == x;
    var j :| 0 <= j < |ts| && ts[j] == y;
    assert PrintedFields(le, fs)[i].key == PrintedFields(le, fs)[j].key;
  }

  /** Replacing one field's value by another of the same meaning and a different normal form. */
  lemma ReplaceField(le: Collation, fs: seq<Field>, j: nat, x: Json)
    requires j < |fs| && WellFormed(Obj(fs)) && WellFormed(x)
    requires Retained(fs[j].value) && Retained(x)
    requires Meaning(x) == Meaning(fs[j].value)
    requires Normalize(le, x) != Normalize(le, fs[j].value)
    ensures var w := Obj(fs[j := Field(fs[j].key, x)]);
            WellFormed(w) && Meaning(w) == Meaning(Obj(fs)) && Normalize(le, w) != Normalize(le, Obj(fs))
  {
    var k := fs[j].key;
    var gs := fs[j := Field(k, x)];
    ReplaceKeepsWellFormed(fs, j, x);
    ReplaceInFieldMap(fs, j, x);
    if Normalize(le, Obj(gs)) == Normalize(le, Obj(fs)) {
      assert gs[j] in gs;
      PrintedEntry(le, fs, fs[j]);
      PrintedEntry(le, gs, gs[j]);
      PrintedEntriesAreUnique(le, fs, TField(k, Normalize(le, fs[j].value)), TField(k, Normalize(le, x)));
    }
  }

  lemma ReplaceKeepsWellFormed(fs: seq<Field>, j: nat, x: Json)
    requires j < |fs| && WellFormed(Obj(fs)) && WellFormed(x)
    ensures WellFormed(Obj(fs[j := Field(fs[j].key, x)]))
  {
    var gs := fs[j := Field(fs[j].key, x)];
    forall f | f in gs ensures WellFormed(f.value) {
      var i :| 0 <= i < |gs| && gs[i] == f;
      assert fs[i] in fs;
    }
  }

  lemma {:induction false} ReplaceInFieldMap(fs: seq<Field>, j: nat, x: Json)
    requires j < |fs| && Retained(fs[j].value) && Retained(x) && Meaning(x) == Meaning(fs[j].value)
    ensures FieldMap(fs[j := Field(fs[j].key, x)]) == FieldMap(fs)
  {
    var gs := fs[j := Field(fs[j].key, x)];
    if j == 0 {
      assert gs[1..] == fs[1..];
    } else {
      ReplaceInFieldMap(fs[1..], j - 1, x);
      assert gs[1..] == fs[1..][j - 1 := Field(fs[j].key, x)];
    }
  }

  lemma ReplaceItem(le: Collation, items: seq<Json>, i: nat, x: Json)
    requires i < |items| && WellFormed(Arr(items)) && WellFormed(x)
    requires Meaning(x) == Meaning(items[i]) && Normalize(le, x) != Normalize(le, items[i])
    ensures var v, w := Arr(items), Arr(items[i := x]);
            WellFormed(w) && Meaning(w) == Meaning(v) && Normalize(le, w) != Normalize(le, v)
  {
    var v, w := Arr(items), Arr(items[i := x]);
    assert forall k :: 0 <= k < |items| ==> Meaning(v).items[k] == Meaning(w).items[k];
    assert Normalize(le, w).items[i] == Normalize(le, x);
  }

  lemma SwapTiedFields(le: Collation, fs: seq<Field>, i: nat, j: nat) returns (w: Json)
    requires TotalPreorder(le) && WellFormed(Obj(fs)) && i < j < |fs|
    requires Retained(fs[i].value) && Retained(fs[j].value) && Tie(le, fs[i].key, fs[j].key)
    requires KeyRank(fs[i].key) == KeyRank(fs[j].key)
    ensures w.Obj? && WellFormed(w)
    ensures Meaning(w) == Meaning(Obj(fs)) && Normalize(le, w) != Normalize(le, Obj(fs))
  {
    var y, z := Adjacent(fs, i, j, false), Adjacent(fs, i, j, true);
    AdjacentKeepsOrder(KeyRank, fs, i, j, false);
    AdjacentKeepsOrder(KeyRank, fs, i, j, true);
    FieldMapByMembers(fs, y);
    FieldMapByMembers(fs, z);
    SwappingTiedFieldsChangesTheText(le, fs[..i], fs[i], fs[j], fs[i + 1..j] + fs[j + 1..]);
    w := if Normalize(le, Obj(y)) == Normalize(le, Obj(fs)) then Obj(z) else Obj(y);
  }

  /** A value with a tie somewhere inside has a twin that means the same and prints differently. */
  lemma {:induction false} TiesHaveTwins(le: Collation, v: Json) returns (w: Json)
    requires TotalPreorder(le) && WellFormed(v) && !TieFree(le, v)
    ensures WellFormed(w) && Meaning(w) == Meaning(v) && Normalize(le, w) != Normalize(le, v)
    ensures Retained(w)
  {
    match v {
      case Arr(items) =>
        var i :| 0 <= i < |items| && !TieFree(le, items[i]);
        var x := TiesHaveTwins(le, items[i]);
        ReplaceItem(le, items, i, x);
        w := Arr(items[i := x]);
      case Obj(fs) =>
        if TieFreeFields(le, fs) {
          var j :| 0 <= j < |fs| && Retained(fs[j].value) && !TieFree(le, fs[j].value);
          assert fs[j] in fs;
          var x := TiesHaveTwins(le, fs[j].value);
          ReplaceField(le, fs, j, x);
          w := Obj(fs[j := Field(fs[j].key, x)]);
        } else {
          var i, j :| 0 <= i < j < |fs| && Retained(fs[i].value) && Retained(fs[j].value)
            && KeyRank(fs[i].key) == KeyRank(fs[j].key) && Tie(le, fs[i].key, fs[j].key);
          w := SwapTiedFields(le, fs, i, j);
        }
      case _ =>
    }
  }

  ghost predicate TextDependsOnMeaningOnly(le: Collation, v: Json) {
    forall w :: WellFormed(w) && Meaning(w) == Meaning(v) ==> Canonicalize(le, w) == Canonicalize(le, v)
  }

  /** Main result: property order is irrelevant to a value's text if and only if the value has no ties. */
  lemma OrderIndependentIffTieFree(le: Collation, v: Json)
    requires TotalPreorder(le) && WellFormed(v)
    ensures TextDependsOnMeaningOnly(le, v) <==> TieFree(le, v)
  {
    if TieFree(le, v) {
      forall w | WellFormed(w) && Meaning(w) == Meaning(v)
        ensures Canonicalize(le, w) == Canonicalize(le, v)
      {
        CanonicalTextIdentifiesMeaning(le, v, w);
      }
    } else {
      var w := TiesHaveTwins(le, v);
      SameTextIffSameNormalForm(le, v, w);
    }
  }

  lemma TwoFreeFields(x: Field, y: Field)
    requires x.key != y.key && KeyRank(x.key) == KeyRank(y.key) && WellFormed(x.value) && WellFormed(y.value)
    ensures WellFormed(Obj([x, y]))
  {
    assert forall f :: f in [x, y] <==> f == x || f == y;
  }

  /** An object with two keys that tie and are not array indices has two canonical texts, one for each order. */
  lemma TiedKeysWitness(le: Collation, a: string, b: string)
    requires TotalPreorder(le) && Tie(le, a, b) && a != b && !IsIndex(a) && !IsIndex(b)
    ensures var v, w := Obj([Field(a, Null), Field(b, Null)]), Obj([Field(b, Null), Field(a, Null)]);
            WellFormed(v) && WellFormed(w) && Meaning(v) == Meaning(w) && Canonicalize(le, v) != Canonicalize(le, w)
  {
    var x, y := Field(a, Null), Field(b, Null);
    TwoFreeFields(x, y);
    TwoFreeFields(y, x);
    SwappedMeaning(x, y);
    SwappedTexts(le, [x, y], [y, x], [], x, y, []);
  }

  lemma SwappedMeaning(x: Field, y: Field)
    requires x.key != y.key
    ensures Meaning(Obj([x, y])) == Meaning(Obj([y, x]))
  {
    assert forall f :: f in [x, y] <==> f in [y, x];
    FieldMapByMembers([x, y], [y, x]);
  }

  lemma SwappedTexts(le: Collation, fs: seq<Field>, gs: seq<Field>,
                     front: seq<Field>, a: Field, b: Field, rest: seq<Field>)
    requires TotalPreorder(le) && Tie(le, a.key, b.key) && a.key != b.key
    requires Retained(a.value) && Retained(b.value)
    requires fs == front + [a, b] + rest && gs == front + [b, a] + rest
    ensures Canonicalize(le, Obj(fs)) != Canonicalize(le, Obj(gs))
  {
    SwappingTiedFieldsChangesTheText(le, front, a, b, rest);
    SameTextIffSameNormalForm(le, Obj(fs), Obj(gs));
  }
}
