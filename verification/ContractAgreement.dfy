/** The loader's check that an adapter's manifest and its code declare the same connection methods. */
module ContractAgreement {
  import opened Text
  import opened CanonicalDecoding
  import opened CanonicalJson
  import opened CanonicalMeaning
  import opened CanonicalOrder
  import opened JsonObjects
  import opened Wrappers

  /** The fields of one connection method descriptor. */
  type Descriptor = seq<Field>

  datatype ParseResult =
    | Parsed(methods: seq<Descriptor>)
    | NotAnArray
    | InvalidDescriptor(index: nat)
    | DuplicateId(index: nat, firstIndex: nat)

  // ----- descriptors --------------------------------------------------------

  predicate IsTokenChar(c: char) { 'a' <= c <= 'z' || IsDigit(c) }

  /** Lowercase words joined by single dots, underscores or dashes. */
  predicate IsToken(s: string) {
    && s != "" && IsTokenChar(s[0]) && IsTokenChar(s[|s| - 1])
    && (forall i :: 0 <= i < |s| ==> IsTokenChar(s[i]) || s[i] in "._-")
    && (forall i :: 0 < i < |s| ==> IsTokenChar(s[i - 1]) || IsTokenChar(s[i]))
  }

  /** `requireNonEmptyToken`; the pattern refuses the empty string as well. */
  function TokenAt(fields: seq<Field>, key: string): Option<string> {
    var v := Lookup(fields, key);
    if v.Str? && IsToken(Trim(v.s)) then Some(Trim(v.s)) else None
  }

  lemma SetKeepsWellFormed(fields: seq<Field>, key: string, v: Json)
    requires WellFormed(Obj(fields)) && WellFormed(v)
    ensures WellFormed(Obj(SetField(fields, key, v)))
  {
    forall f | f in SetField(fields, key, v) ensures WellFormed(f.value) {}
  }

  /** `parseConnectionMethodDescriptor`: the input's fields with both tokens trimmed in place. */
  function ParseDescriptor(input: Json): Option<Descriptor> {
    if !input.Obj? then None
    else
      var id, authFlow := TokenAt(input.fields, "id"), TokenAt(input.fields, "authFlow");
      if id.None? || authFlow.None? then None
      else Some(SetField(SetField(input.fields, "id", Str(id.value)), "authFlow", Str(authFlow.value)))
  }

  predicate HasId(d: Descriptor) { Lookup(d, "id").Str? }

  function IdOf(d: Descriptor): string {
    var v := Lookup(d, "id");
    if v.Str? then v.s else ""
  }

  lemma ParsedDescriptor(input: Json)
    requires WellFormed(input) && ParseDescriptor(input).Some?
    ensures var d := ParseDescriptor(input).value; HasId(d) && IsToken(IdOf(d)) && WellFormed(Obj(d))
  {
    var id, authFlow := TokenAt(input.fields, "id").value, TokenAt(input.fields, "authFlow").value;
    var first := SetField(input.fields, "id", Str(id));
    SetKeepsWellFormed(input.fields, "id", Str(id));
    SetKeepsWellFormed(first, "authFlow", Str(authFlow));
    LookupAfterSet(input.fields, "id", Str(id), "id");
    LookupAfterSet(first, "authFlow", Str(authFlow), "id");
  }

  // ----- what a descriptor is -----------------------------------------------

  predicate IsWord(s: string) { s != "" && forall i :: 0 <= i < |s| ==> 'a' <= s[i] <= 'z' || '0' <= s[i] <= '9' }

  /** The language of the source's pattern: a word, or a word, a separator and the rest of the pattern. */
  ghost predicate Matches(s: string) {
    IsWord(s) || exists n :: 0 < n < |s| && IsWord(s[..n]) && s[n] in {'.', '_', '-'} && Matches(s[n + 1..])
  }

  /** The length of the word in front. */
  function WordLength(s: string): (n: nat)
    ensures n <= |s| && (forall i :: 0 <= i < n ==> IsTokenChar(s[i])) && (n < |s| ==> !IsTokenChar(s[n]))
  {
    if s == "" || !IsTokenChar(s[0]) then 0 else 1 + WordLength(s[1..])
  }

  /** A token's first word is all of it, or stands before a separator and another token. */
  lemma TokenSplits(s: string, n: nat)
    requires IsToken(s) && n == WordLength(s) && n < |s|
    ensures 0 < n && s[n] in {'.', '_', '-'} && IsToken(s[n + 1..])
  {
    var rest := s[n + 1..];
    assert IsTokenChar(s[n + 1]);
    assert forall i :: 0 <= i < |rest| ==> rest[i] == s[n + 1 + i];
  }

  lemma {:induction false} TokenMatches(s: string)
    requires IsToken(s)
    ensures Matches(s)
    decreases |s|
  {
    var n := WordLength(s);
    if n < |s| {
      TokenSplits(s, n);
      TokenMatches(s[n + 1..]);
      assert IsWord(s[..n]);
    }
  }

  lemma WordThenToken(s: string, n: nat)
    requires 0 < n < |s| && IsWord(s[..n]) && s[n] in {'.', '_', '-'} && IsToken(s[n + 1..])
    ensures IsToken(s)
  {
    var word, rest := s[..n], s[n + 1..];
    assert forall i :: 0 <= i < n ==> s[i] == word[i];
    assert forall i :: n < i < |s| ==> s[i] == rest[i - n - 1];
  }

  lemma {:induction false} MatchIsToken(s: string)
    requires Matches(s)
    ensures IsToken(s)
    decreases |s|
  {
    if !IsWord(s) {
      var n :| 0 < n < |s| && IsWord(s[..n]) && s[n] in {'.', '_', '-'} && Matches(s[n + 1..]);
      MatchIsToken(s[n + 1..]);
      WordThenToken(s, n);
    }
  }

  /** A token is what the pattern matches. */
  lemma TokenIffMatches(s: string)
    ensures IsToken(s) <==> Matches(s)
  {
    if IsToken(s) { TokenMatches(s); }
    if Matches(s) { MatchIsToken(s); }
  }

  lemma TokenAtMeans(fields: seq<Field>, key: string, t: string)
    ensures TokenAt(fields, key) == Some(t) <==>
      Lookup(fields, key).Str? && SpaceAround(Lookup(fields, key).s, t) && Matches(t)
  {
    if Lookup(fields, key).Str? { TrimIffSpaceAround(Lookup(fields, key).s, t); }
    TokenIffMatches(t);
  }

  /** The field holds a token, up to white space around it. */
  ghost predicate HoldsToken(fields: seq<Field>, key: string) {
    exists t :: Lookup(fields, key).Str? && SpaceAround(Lookup(fields, key).s, t) && Matches(t)
  }

  lemma TokenAtIff(fields: seq<Field>, key: string)
    ensures TokenAt(fields, key).Some? <==> HoldsToken(fields, key)
  {
    if TokenAt(fields, key).Some? { TokenAtMeans(fields, key, TokenAt(fields, key).value); }
    if t :| Lookup(fields, key).Str? && SpaceAround(Lookup(fields, key).s, t) && Matches(t) {
      TokenAtMeans(fields, key, t);
    }
  }

  /** The field is as it was, or a token without the white space that was around it. */
  ghost predicate IsParsedField(input: Field, f: Field) {
    && f.key == input.key
    && if f.key == "id" || f.key == "authFlow"
       then input.value.Str? && f.value.Str? && SpaceAround(input.value.s, f.value.s) && Matches(f.value.s)
       else f.value == input.value
  }

  lemma {:induction false} SetFieldAt(fields: seq<Field>, key: string, v: Json, i: nat)
    requires DistinctKeys(fields) && i < |fields|
    ensures SetField(fields, key, v)[i] == if fields[i].key == key then Field(key, v) else fields[i]
  {
    if fields[0].key == key {
      assert i > 0 ==> fields[0].key != fields[i].key;
    } else if i > 0 {
      SetFieldAt(fields[1..], key, v, i - 1);
    }
  }

  lemma ParsedFieldAt(fields: seq<Field>, id: string, authFlow: string, i: nat)
    requires DistinctKeys(fields) && i < |fields|
    requires TokenAt(fields, "id") == Some(id) && TokenAt(fields, "authFlow") == Some(authFlow)
    ensures IsParsedField(fields[i], SetField(SetField(fields, "id", Str(id)), "authFlow", Str(authFlow))[i])
  {
    var first := SetField(fields, "id", Str(id));
    SetFieldAt(fields, "id", Str(id), i);
    SetFieldAt(first, "authFlow", Str(authFlow), i);
    LookupFinds(fields, i);
    if fields[i].key == "id" { TokenAtMeans(fields, "id", id); }
    if fields[i].key == "authFlow" { TokenAtMeans(fields, "authFlow", authFlow); }
  }

  /** The parsed fields are those of the input in their order, the two tokens without the white space around them. */
  ghost predicate IsParsedFrom(fields: seq<Field>, d: Descriptor) {
    |d| == |fields| && forall i :: 0 <= i < |d| ==> IsParsedField(fields[i], d[i])
  }

  lemma ParsedInPlace(fields: seq<Field>, id: string, authFlow: string)
    requires DistinctKeys(fields)
    requires TokenAt(fields, "id") == Some(id) && TokenAt(fields, "authFlow") == Some(authFlow)
    ensures IsParsedFrom(fields, SetField(SetField(fields, "id", Str(id)), "authFlow", Str(authFlow)))
  {
    var d := SetField(SetField(fields, "id", Str(id)), "authFlow", Str(authFlow));
    forall i | 0 <= i < |fields| ensures IsParsedField(fields[i], d[i]) { ParsedFieldAt(fields, id, authFlow, i); }
  }

  /** A descriptor is an object with two tokens, `id` and `authFlow`. */
  lemma DescriptorIff(input: Json)
    ensures ParseDescriptor(input).Some? <==>
      input.Obj? && HoldsToken(input.fields, "id") && HoldsToken(input.fields, "authFlow")
  {
    if input.Obj? {
      TokenAtIff(input.fields, "id");
      TokenAtIff(input.fields, "authFlow");
    }
  }

  /** A descriptor is parsed to its own fields. */
  lemma DescriptorIsParsedInPlace(fields: seq<Field>)
    requires DistinctKeys(fields) && ParseDescriptor(Obj(fields)).Some?
    ensures IsParsedFrom(fields, ParseDescriptor(Obj(fields)).value)
  {
    ParsedInPlace(fields, TokenAt(fields, "id").value, TokenAt(fields, "authFlow").value);
  }

  // ----- the list -----------------------------------------------------------

  function Parses(items: seq<Json>): (ps: seq<Option<Descriptor>>)
    ensures |ps| == |items| && forall i :: 0 <= i < |ps| ==> ps[i] == ParseDescriptor(items[i])
  {
    seq(|items|, i requires 0 <= i < |items| => ParseDescriptor(items[i]))
  }

  /** The descriptors that were parsed. */
  function Values(ps: seq<Option<Descriptor>>): (ds: seq<Descriptor>)
    ensures |ds| == |ps| && forall i :: 0 <= i < |ds| ==> ds[i] == ps[i].GetOr([])
  {
    seq(|ps|, i requires 0 <= i < |ps| => ps[i].GetOr([]))
  }

  ghost predicate AllParse(ps: seq<Option<Descriptor>>) { forall i :: 0 <= i < |ps| ==> ps[i].Some? }

  ghost predicate DistinctIds(methods: seq<Descriptor>) {
    forall i, j :: 0 <= i < j < |methods| ==> IdOf(methods[i]) != IdOf(methods[j])
  }

  /** Every item is a well-formed descriptor and no id occurs twice. */
  ghost predicate Accepted(ps: seq<Option<Descriptor>>) { AllParse(ps) && DistinctIds(Values(ps)) }

  /** `parseConnectionMethods`: all or nothing, with the first fault reported. */
  method ParseConnectionMethods(input: Json) returns (r: ParseResult)
    ensures r.Parsed? <==> input.Arr? && Accepted(Parses(input.items))
    ensures r.Parsed? ==> r.methods == Values(Parses(input.items))
    ensures r.NotAnArray? <==> !input.Arr?
    ensures r.InvalidDescriptor? ==>
      && r.index < |input.items| && ParseDescriptor(input.items[r.index]).None?
      && Accepted(Parses(input.items)[..r.index])
    ensures r.DuplicateId? ==>
      var ps := Parses(input.items);
      && r.firstIndex < r.index < |ps| && Accepted(ps[..r.index]) && ps[r.index].Some?
      && IdOf(Values(ps)[r.firstIndex]) == IdOf(Values(ps)[r.index])
  {
    if !input.Arr? {
      return NotAnArray;
    }
    r := ParseItems(input.items, ParseDescriptor, Parses(input.items));
  }

  /** The loop, for any way of parsing one item. */
  method ParseItems(items: seq<Json>, parse: Json -> Option<Descriptor>, ghost ps: seq<Option<Descriptor>>)
    returns (r: ParseResult)
    requires |ps| == |items| && forall i :: 0 <= i < |ps| ==> ps[i] == parse(items[i])
    ensures !r.NotAnArray?
    ensures r.Parsed? <==> Accepted(ps)
    ensures r.Parsed? ==> r.methods == Values(ps)
    ensures r.InvalidDescriptor? ==> r.index < |ps| && ps[r.index].None? && Accepted(ps[..r.index])
    ensures r.DuplicateId? ==>
      && r.firstIndex < r.index < |ps| && Accepted(ps[..r.index]) && ps[r.index].Some?
      && IdOf(Values(ps)[r.firstIndex]) == IdOf(Values(ps)[r.index])
  {
    var seenIds: map<string, nat> := map[];
    var normalized: seq<Descriptor> := [];
    for index := 0 to |items|
      invariant Accepted(ps[..index]) && normalized == Values(ps[..index])
      invariant forall i :: 0 <= i < index ==> IdOf(normalized[i]) in seenIds
      invariant forall id :: id in seenIds ==> seenIds[id] < index && IdOf(normalized[seenIds[id]]) == id
    {
      var parsed := parse(items[index]);
      if parsed.None? {
        return InvalidDescriptor(index);
      }
      var id := IdOf(parsed.value);
      if id in seenIds {
        DuplicateIsRefused(ps, seenIds[id], index);
        return DuplicateId(index, seenIds[id]);
      }
      AcceptedExtends(ps, index);
      seenIds := seenIds[id := index];
      normalized := normalized + [parsed.value];
    }
    assert ps[..|items|] == ps;
    r := Parsed(normalized);
  }

  lemma AcceptedExtends(ps: seq<Option<Descriptor>>, n: nat)
    requires n < |ps| && Accepted(ps[..n]) && ps[n].Some?
    ensures Values(ps[..n + 1]) == Values(ps[..n]) + [ps[n].value]
    ensures (forall i :: 0 <= i < n ==> IdOf(Values(ps[..n])[i]) != IdOf(ps[n].value)) ==> Accepted(ps[..n + 1])
  {
    assert Values(ps[..n + 1]) == Values(ps[..n]) + [ps[n].value];
  }

  lemma DuplicateIsRefused(ps: seq<Option<Descriptor>>, i: nat, j: nat)
    requires i < j < |ps| && ps[j].Some?
    requires IdOf(Values(ps[..j])[i]) == IdOf(ps[j].value)
    ensures !Accepted(ps) && IdOf(Values(ps)[i]) == IdOf(Values(ps)[j])
  {
    assert Values(ps)[i] == Values(ps[..j])[i];
  }

  // ----- the comparison -----------------------------------------------------

  datatype Difference = Difference(missing: set<string>, unexpected: set<string>, mismatched: set<string>)

  function Entries(le: Collation, methods: seq<Descriptor>): (es: seq<(string, string)>)
    ensures |es| == |methods|
    ensures forall i :: 0 <= i < |es| ==> es[i] == (IdOf(methods[i]), Canonicalize(le, Obj(methods[i])))
  {
    seq(|methods|, i requires 0 <= i < |methods| => (IdOf(methods[i]), Canonicalize(le, Obj(methods[i]))))
  }

  /** `new Map(entries)`: a later entry replaces an earlier one with the same key. */
  function MapOf(entries: seq<(string, string)>): map<string, string> {
    if entries == [] then map[]
    else MapOf(entries[..|entries| - 1])[entries[|entries| - 1].0 := entries[|entries| - 1].1]
  }

  function Missing(e: map<string, string>, a: map<string, string>): set<string> {
    set id | id in e && id !in a
  }

  function Mismatched(e: map<string, string>, a: map<string, string>): set<string> {
    set id | id in e && id in a && e[id] != a[id]
  }

  function DifferenceOf(e: map<string, string>, a: map<string, string>): Option<Difference> {
    if Missing(e, a) == {} && Missing(a, e) == {} && Mismatched(e, a) == {} then None
    else Some(Difference(Missing(e, a), Missing(a, e), Mismatched(e, a)))
  }

  function CompareConnectionMethods(le: Collation, expected: seq<Descriptor>, actual: seq<Descriptor>)
    : Option<Difference>
  {
    DifferenceOf(MapOf(Entries(le, expected)), MapOf(Entries(le, actual)))
  }

  lemma NoDifferenceIffEqualMaps(e: map<string, string>, a: map<string, string>)
    ensures DifferenceOf(e, a) == None <==> e == a
  {
    if DifferenceOf(e, a) == None {
      forall id ensures (id in e <==> id in a) && (id in e && id in a ==> e[id] == a[id]) {
        assert id !in Missing(e, a) && id !in Missing(a, e) && id !in Mismatched(e, a);
      }
    }
  }

  ghost predicate DistinctFirst(entries: seq<(string, string)>) {
    forall i, j :: 0 <= i < j < |entries| ==> entries[i].0 != entries[j].0
  }

  lemma {:induction false} MapOfEntry(entries: seq<(string, string)>, k: string, v: string)
    requires DistinctFirst(entries)
    ensures k in MapOf(entries) && MapOf(entries)[k] == v <==> (k, v) in entries
  {
    if entries != [] {
      var n := |entries| - 1;
      MapOfEntry(entries[..n], k, v);
      assert entries == entries[..n] + [entries[n]];
      if entries[n].0 == k {
        assert forall i :: 0 <= i < n ==> entries[..n][i].0 != k;
      }
    }
  }

  ghost predicate Declares(methods: seq<Descriptor>, meaning: Sem) {
    exists d :: d in methods && Meaning(Obj(d)) == meaning
  }

  /** The two lists declare the same methods, whatever the order of methods and of fields. */
  ghost predicate SameMethods(expected: seq<Descriptor>, actual: seq<Descriptor>) {
    forall m :: Declares(expected, m) <==> Declares(actual, m)
  }

  ghost predicate Comparable(methods: seq<Descriptor>) {
    && DistinctIds(methods)
    && forall d :: d in methods ==> HasId(d) && WellFormed(Obj(d))
  }

  lemma {:induction false} MeaningOfLookup(fs: seq<Field>, key: string)
    requires Lookup(fs, key).Str?
    ensures key in FieldMap(fs) && FieldMap(fs)[key] == SString(Lookup(fs, key).s)
  {
    if fs[0].key != key { MeaningOfLookup(fs[1..], key); }
  }

  /** Descriptors that mean the same have the same id. */
  lemma SameMeaningSameId(d: Descriptor, e: Descriptor)
    requires HasId(d) && HasId(e) && Meaning(Obj(d)) == Meaning(Obj(e))
    ensures IdOf(d) == IdOf(e)
  {
    MeaningOfLookup(d, "id");
    MeaningOfLookup(e, "id");
  }

  /** The map holds an id and a text exactly when a method has them. */
  lemma MapOfMethod(le: Collation, methods: seq<Descriptor>, id: string, text: string)
    requires DistinctIds(methods)
    ensures id in MapOf(Entries(le, methods)) && MapOf(Entries(le, methods))[id] == text
      <==> exists d :: d in methods && IdOf(d) == id && Canonicalize(le, Obj(d)) == text
  {
    var es := Entries(le, methods);
    MapOfEntry(es, id, text);
    if (id, text) in es {
      var i :| 0 <= i < |es| && es[i] == (id, text);
      assert methods[i] in methods;
    }
    if d :| d in methods && IdOf(d) == id && Canonicalize(le, Obj(d)) == text {
      var i :| 0 <= i < |methods| && methods[i] == d;
      assert es[i] == (id, text);
    }
  }

  lemma EqualMapsDeclareTheSame(le: Collation, from: seq<Descriptor>, to: seq<Descriptor>, m: Sem)
    requires Comparable(from) && Comparable(to) && MapOf(Entries(le, from)) == MapOf(Entries(le, to))
    requires Declares(from, m)
    ensures Declares(to, m)
  {
    var d :| d in from && Meaning(Obj(d)) == m;
    MapOfMethod(le, from, IdOf(d), Canonicalize(le, Obj(d)));
    MapOfMethod(le, to, IdOf(d), Canonicalize(le, Obj(d)));
    var c :| c in to && IdOf(c) == IdOf(d) && Canonicalize(le, Obj(c)) == Canonicalize(le, Obj(d));
    EqualTextMeansEqualMeaning(le, Obj(c), Obj(d));
  }

  /** An entry of one list's map is an entry of the other's, if the lists declare the same methods. */
  lemma SameMethodsShareEntries(
      le: Collation, tieFree: seq<Descriptor>, other: seq<Descriptor>, d: Descriptor, flipped: bool)
    requires TotalPreorder(le) && Comparable(tieFree) && Comparable(other) && SameMethods(tieFree, other)
    requires forall x :: x in tieFree ==> TieFree(le, Obj(x))
    requires d in if flipped then other else tieFree
    ensures var m := MapOf(Entries(le, if flipped then tieFree else other));
            IdOf(d) in m && m[IdOf(d)] == Canonicalize(le, Obj(d))
  {
    var from, to := if flipped then other else tieFree, if flipped then tieFree else other;
    assert Declares(from, Meaning(Obj(d)));
    var c :| c in to && Meaning(Obj(c)) == Meaning(Obj(d));
    SameMeaningSameId(c, d);
    if flipped {
      CanonicalTextIdentifiesMeaning(le, Obj(c), Obj(d));
    } else {
      CanonicalTextIdentifiesMeaning(le, Obj(d), Obj(c));
    }
    MapOfMethod(le, to, IdOf(d), Canonicalize(le, Obj(d)));
  }

  lemma SameMethodsGiveEqualMaps(le: Collation, expected: seq<Descriptor>, actual: seq<Descriptor>)
    requires TotalPreorder(le) && Comparable(expected) && Comparable(actual) && SameMethods(expected, actual)
    requires forall d :: d in expected ==> TieFree(le, Obj(d))
    ensures MapOf(Entries(le, expected)) == MapOf(Entries(le, actual))
  {
    var e, a := MapOf(Entries(le, expected)), MapOf(Entries(le, actual));
    forall id ensures (id in e ==> id in a && a[id] == e[id]) && (id in a ==> id in e && a[id] == e[id]) {
      if id in e {
        MapOfMethod(le, expected, id, e[id]);
        var d :| d in expected && IdOf(d) == id && Canonicalize(le, Obj(d)) == e[id];
        SameMethodsShareEntries(le, expected, actual, d, false);
      }
      if id in a {
        MapOfMethod(le, actual, id, a[id]);
        var d :| d in actual && IdOf(d) == id && Canonicalize(le, Obj(d)) == a[id];
        SameMethodsShareEntries(le, expected, actual, d, true);
      }
    }
  }

  ghost predicate TieFreeMethods(le: Collation, methods: seq<Descriptor>) {
    TotalPreorder(le) && forall d :: d in methods ==> TieFree(le, Obj(d))
  }

  /** Main result: two lists that show no difference declare the same methods, whatever the collation; and two
      lists that declare the same methods show none, unless keys of an expected descriptor tie. */
  lemma NoDifferenceIffSameMethods(le: Collation, expected: seq<Descriptor>, actual: seq<Descriptor>)
    requires Comparable(expected) && Comparable(actual)
    ensures CompareConnectionMethods(le, expected, actual) == None ==> SameMethods(expected, actual)
    ensures TieFreeMethods(le, expected) && SameMethods(expected, actual)
      ==> CompareConnectionMethods(le, expected, actual) == None
  {
    NoDifferenceIffEqualMaps(MapOf(Entries(le, expected)), MapOf(Entries(le, actual)));
    if MapOf(Entries(le, expected)) == MapOf(Entries(le, actual)) {
      forall m ensures Declares(expected, m) <==> Declares(actual, m) {
        if Declares(expected, m) { EqualMapsDeclareTheSame(le, expected, actual, m); }
        if Declares(actual, m) { EqualMapsDeclareTheSame(le, actual, expected, m); }
      }
    }
    if TieFreeMethods(le, expected) && SameMethods(expected, actual) {
      SameMethodsGiveEqualMaps(le, expected, actual);
    }
  }

  ghost predicate HasMethod(methods: seq<Descriptor>, id: string) { exists d :: d in methods && IdOf(d) == id }

  /** Both lists have a method of that id, and the two have different texts. */
  ghost predicate Differs(le: Collation, expected: seq<Descriptor>, actual: seq<Descriptor>, id: string) {
    exists d, c :: d in expected && c in actual && IdOf(d) == id && IdOf(c) == id
                   && Canonicalize(le, Obj(d)) != Canonicalize(le, Obj(c))
  }

  lemma MapHasMethod(le: Collation, methods: seq<Descriptor>, id: string)
    requires DistinctIds(methods)
    ensures id in MapOf(Entries(le, methods)) <==> HasMethod(methods, id)
  {
    var m := MapOf(Entries(le, methods));
    if id in m { MapOfMethod(le, methods, id, m[id]); }
    if d :| d in methods && IdOf(d) == id { MapOfMethod(le, methods, id, Canonicalize(le, Obj(d))); }
  }

  lemma MapsDiffer(le: Collation, expected: seq<Descriptor>, actual: seq<Descriptor>, id: string)
    requires DistinctIds(expected) && DistinctIds(actual)
    ensures id in Mismatched(MapOf(Entries(le, expected)), MapOf(Entries(le, actual)))
      <==> Differs(le, expected, actual, id)
  {
    var e, a := MapOf(Entries(le, expected)), MapOf(Entries(le, actual));
    if id in e && id in a {
      MapOfMethod(le, expected, id, e[id]);
      MapOfMethod(le, actual, id, a[id]);
    }
    if d, c :| d in expected && c in actual && IdOf(d) == id && IdOf(c) == id
               && Canonicalize(le, Obj(d)) != Canonicalize(le, Obj(c)) {
      MapOfMethod(le, expected, id, Canonicalize(le, Obj(d)));
      MapOfMethod(le, actual, id, Canonicalize(le, Obj(c)));
    }
  }

  /** A difference names the ids that only one list has, and those whose methods have different texts. */
  lemma DifferenceNamesTheIds(le: Collation, expected: seq<Descriptor>, actual: seq<Descriptor>, id: string)
    requires DistinctIds(expected) && DistinctIds(actual)
    requires CompareConnectionMethods(le, expected, actual).Some?
    ensures var d := CompareConnectionMethods(le, expected, actual).value;
      && (id in d.missing <==> HasMethod(expected, id) && !HasMethod(actual, id))
      && (id in d.unexpected <==> HasMethod(actual, id) && !HasMethod(expected, id))
      && (id in d.mismatched <==> Differs(le, expected, actual, id))
  {
    MapHasMethod(le, expected, id);
    MapHasMethod(le, actual, id);
    MapsDiffer(le, expected, actual, id);
  }

  lemma FieldBehind(fs: seq<Field>, key: string) returns (i: nat)
    requires key in FieldMap(fs)
    ensures i < |fs| && fs[i].key == key && Retained(fs[i].value)
  {
    var f :| f in fs && Retained(f.value) && f.key == key;
    i :| 0 <= i < |fs| && fs[i] == f;
  }

  lemma StringMeaning(v: Json)
    requires Meaning(v).SString?
    ensures v == Str(Meaning(v).s)
  {
  }

  lemma LookupOfMeaning(fs: seq<Field>, key: string)
    requires DistinctKeys(fs) && key in FieldMap(fs) && FieldMap(fs)[key].SString?
    ensures Lookup(fs, key) == Str(FieldMap(fs)[key].s)
  {
    var i := FieldBehind(fs, key);
    FieldMapAt(fs, fs[i]);
    LookupFinds(fs, i);
    StringMeaning(fs[i].value);
  }

  lemma SameMeaningKeepsId(d: Descriptor, e: Descriptor)
    requires HasId(d) && WellFormed(Obj(e)) && Meaning(Obj(d)) == Meaning(Obj(e))
    ensures HasId(e) && IdOf(e) == IdOf(d)
  {
    MeaningOfLookup(d, "id");
    LookupOfMeaning(e, "id");
  }

  lemma DeclaresByPosition(from: seq<Descriptor>, to: seq<Descriptor>, m: Sem)
    requires |from| == |to| && forall j :: 0 <= j < |from| ==> Meaning(Obj(from[j])) == Meaning(Obj(to[j]))
    requires Declares(from, m)
    ensures Declares(to, m)
  {
    var d :| d in from && Meaning(Obj(d)) == m;
    var j :| 0 <= j < |from| && from[j] == d;
    assert to[j] in to && Meaning(Obj(to[j])) == m;
  }

  lemma ComparableByPosition(from: seq<Descriptor>, to: seq<Descriptor>)
    requires Comparable(from) && |from| == |to|
    requires forall j :: 0 <= j < |to| ==> HasId(to[j]) && WellFormed(Obj(to[j])) && IdOf(to[j]) == IdOf(from[j])
    ensures Comparable(to)
  {
  }

  /** Replacing a method by one that means the same leaves the list saying the same. */
  lemma ReplaceMethod(methods: seq<Descriptor>, i: nat, e: Descriptor)
    requires Comparable(methods) && i < |methods| && WellFormed(Obj(e)) && Meaning(Obj(e)) == Meaning(Obj(methods[i]))
    ensures Comparable(methods[i := e]) && SameMethods(methods, methods[i := e]) && IdOf(e) == IdOf(methods[i])
  {
    var other := methods[i := e];
    assert forall j :: 0 <= j < |methods| ==> methods[j] in methods;
    SameMeaningKeepsId(methods[i], e);
    ComparableByPosition(methods, other);
    forall m ensures Declares(methods, m) <==> Declares(other, m) {
      if Declares(methods, m) { DeclaresByPosition(methods, other, m); }
      if Declares(other, m) { DeclaresByPosition(other, methods, m); }
    }
  }

  lemma DifferentTextIsDifference(le: Collation, expected: seq<Descriptor>, actual: seq<Descriptor>, i: nat)
    requires DistinctIds(expected) && DistinctIds(actual) && i < |expected| && i < |actual|
    requires IdOf(expected[i]) == IdOf(actual[i])
    requires Canonicalize(le, Obj(expected[i])) != Canonicalize(le, Obj(actual[i]))
    ensures CompareConnectionMethods(le, expected, actual) != None
  {
    assert expected[i] in expected && actual[i] in actual;
    MapOfMethod(le, expected, IdOf(expected[i]), Canonicalize(le, Obj(expected[i])));
    MapOfMethod(le, actual, IdOf(actual[i]), Canonicalize(le, Obj(actual[i])));
    NoDifferenceIffEqualMaps(MapOf(Entries(le, expected)), MapOf(Entries(le, actual)));
  }

  lemma TiesBreakAgreement(le: Collation, expected: seq<Descriptor>, i: nat) returns (actual: seq<Descriptor>)
    requires TotalPreorder(le) && Comparable(expected) && i < |expected| && !TieFree(le, Obj(expected[i]))
    ensures Comparable(actual) && SameMethods(expected, actual)
    ensures CompareConnectionMethods(le, expected, actual) != None
  {
    assert expected[i] in expected;
    var w := TiesHaveTwins(le, Obj(expected[i]));
    assert w.Obj?;
    actual := expected[i := w.fields];
    ReplaceMethod(expected, i, w.fields);
    SameTextIffSameNormalForm(le, Obj(expected[i]), w);
    DifferentTextIsDifference(le, expected, actual, i);
  }

  /** Every list that declares the same methods compares without a difference. */
  ghost predicate AgreesWithAllSame(le: Collation, expected: seq<Descriptor>) {
    forall actual :: Comparable(actual) && SameMethods(expected, actual) ==>
      CompareConnectionMethods(le, expected, actual) == None
  }

  /** Main result: a manifest's list agrees with every list that declares the same methods if and only if none of
      its descriptors has tied keys. */
  lemma AgreementIffTieFree(le: Collation, expected: seq<Descriptor>)
    requires TotalPreorder(le) && Comparable(expected)
    ensures AgreesWithAllSame(le, expected) <==> forall d :: d in expected ==> TieFree(le, Obj(d))
  {
    if forall d :: d in expected ==> TieFree(le, Obj(d)) {
      forall actual | Comparable(actual) && SameMethods(expected, actual)
        ensures CompareConnectionMethods(le, expected, actual) == None
      {
        NoDifferenceIffSameMethods(le, expected, actual);
      }
    } else {
      var d :| d in expected && !TieFree(le, Obj(d));
      var i :| 0 <= i < |expected| && expected[i] == d;
      var actual := TiesBreakAgreement(le, expected, i);
    }
  }

  // ----- strict validation --------------------------------------------------

  datatype Listing = Threw | Returned(value: Json)

  /** What the validator can see of a candidate contract. */
  datatype Candidate = Candidate(isAdapterContract: bool, missingMethods: set<string>, listing: Listing)

  datatype Validation = Valid(methods: seq<Descriptor>) | Invalid

  /** What strict validation promises: the code implements the contract, lists well-formed methods
      with distinct ids, and lists the methods its manifest declares. */
  ghost predicate Conforms(candidate: Candidate, expected: Option<seq<Descriptor>>) {
    && candidate.isAdapterContract && candidate.missingMethods == {}
    && candidate.listing.Returned? && candidate.listing.value.Arr?
    && Accepted(Parses(candidate.listing.value.items))
    && (expected.Some? ==> SameMethods(expected.value, Values(Parses(candidate.listing.value.items))))
  }

  /** `validateCloudAdapterContractV2Strict`. */
  method ValidateStrict(le: Collation, candidate: Candidate, expected: Option<seq<Descriptor>>)
    returns (r: Validation)
    requires candidate.listing.Returned? ==> WellFormed(candidate.listing.value)
    requires expected.Some? ==> Comparable(expected.value)
    ensures r.Valid? ==> Conforms(candidate, expected)
    ensures Conforms(candidate, expected) && (expected.Some? ==> TieFreeMethods(le, expected.value)) ==> r.Valid?
    ensures r.Valid? ==> r.methods == Values(Parses(candidate.listing.value.items))
  {
    if !candidate.isAdapterContract || candidate.missingMethods != {} || candidate.listing.Threw? {
      return Invalid;
    }
    var listed := ParseConnectionMethods(candidate.listing.value);
    if !listed.Parsed? {
      return Invalid;
    }
    if expected.Some? {
      ParsedListIsComparable(candidate.listing.value.items);
      NoDifferenceIffSameMethods(le, expected.value, listed.methods);
      var diff := CompareConnectionMethods(le, expected.value, listed.methods);
      if diff.Some? {
        return Invalid;
      }
    }
    r := Valid(listed.methods);
  }

  /** What the parsing loop accepts is what the comparison needs. */
  lemma ParsedListIsComparable(items: seq<Json>)
    requires Accepted(Parses(items)) && WellFormed(Arr(items))
    ensures Comparable(Values(Parses(items)))
  {
    var ds := Values(Parses(items));
    forall d | d in ds ensures HasId(d) && WellFormed(Obj(d)) {
      var i :| 0 <= i < |ds| && ds[i] == d;
      assert items[i] in items;
      ParsedDescriptor(items[i]);
    }
  }
}
