/** The canonical JSON text that request fingerprints and contract comparison rest on.

    The printer is split in two for the proofs: `Normalize` sorts, drops and
    nulls, `Print` writes.  Printing is uniquely decodable, so two values have the
    same text exactly when they normalise to the same tree; what remains is when
    two values that mean the same normalise to the same tree. */
module CanonicalJson {
  import opened Text

  // ----- values -------------------------------------------------------------

  predicate IsNumberChar(c: char) { IsDigit(c) || c in "+-.e" }

  predicate IsNumberText(s: string) {
    s != "" && (IsDigit(s[0]) || s[0] == '-') && forall i :: 0 <= i < |s| ==> IsNumberChar(s[i])
  }

  /** A finite number is represented by its rendering, which is one-to-one but for 0 and -0. */
  type NumberText = s: string | IsNumberText(s) witness "0"

  /** A JavaScript value; an object is its list of own enumerable fields in property order. */
  datatype Json =
    | Null
    | Undefined
    | Function
    | Symbol
    | BigInt
    | Bool(b: bool)
    | NonFinite
    | Finite(n: NumberText)
    | Str(s: string)
    | Arr(items: seq<Json>)
    | Obj(fields: seq<Field>)

  datatype Field = Field(key: string, value: Json)

  /** `Collation(a, b)` stands for `a.localeCompare(b) <= 0`. */
  type Collation = (string, string) -> bool

  ghost predicate TotalPreorder(le: Collation) {
    && (forall a, b :: le(a, b) || le(b, a))
    && (forall a, b, c :: le(a, b) && le(b, c) ==> le(a, c))
  }

  predicate Retained(v: Json) { !v.Undefined? && !v.Function? && !v.Symbol? }

  predicate DistinctKeys(fs: seq<Field>) {
    forall i, j :: 0 <= i < j < |fs| ==> fs[i].key != fs[j].key
  }

  // ----- property order -----------------------------------------------------

  /** Where a key comes among an object's keys: lower ranks first, equal ranks in order of creation. */
  type Rank = string -> nat

  predicate Ranked(rank: Rank, fs: seq<Field>) {
    forall i, j :: 0 <= i < j < |fs| ==> rank(fs[i].key) <= rank(fs[j].key)
  }

  /** The rank of keys that are not array indices. */
  const FREE_RANK: nat := 0xFFFF_FFFF

  predicate IsIndex(key: string) {
    key != "" && AllDigits(key) && DecimalValue(key) < FREE_RANK && key == Decimal(DecimalValue(key))
  }

  /** JavaScript lists array indices first, in ascending order. */
  function KeyRank(key: string): nat { if IsIndex(key) then DecimalValue(key) else FREE_RANK }

  /** Every object in the value has distinct keys in property order, as every JavaScript object has. */
  predicate WellFormed(v: Json) {
    match v
    case Arr(items) => forall x :: x in items ==> WellFormed(x)
    case Obj(fs) => DistinctKeys(fs) && Ranked(KeyRank, fs) && forall f :: f in fs ==> WellFormed(f.value)
    case _ => true
  }

  /** `record[key]`. */
  function Lookup(fields: seq<Field>, key: string): Json {
    if fields == [] then Undefined
    else if fields[0].key == key then fields[0].value
    else Lookup(fields[1..], key)
  }

  // ----- the printer --------------------------------------------------------

  function HexDigit(d: nat): char
    requires d < 16
  {
    if d < 10 then (d + 48) as char else (d + 87) as char
  }

  /** The escape that `JSON.stringify` gives one character of a string. */
  function Escape(c: char): (e: string)
    ensures e != "" && e[0] != '\"'
  {
    if c == '\"' then "\\\""
    else if c == '\\' then "\\\\"
    else if c as int == 8 then "\\b"
    else if c as int == 9 then "\\t"
    else if c as int == 10 then "\\n"
    else if c as int == 12 then "\\f"
    else if c as int == 13 then "\\r"
    else if c < ' ' then "\\u00" + [HexDigit(c as int / 16), HexDigit(c as int % 16)]
    else [c]
  }

  function EscapeAll(s: string): string {
    if s == "" then "" else Escape(s[0]) + EscapeAll(s[1..])
  }

  /** `JSON.stringify` of a string. */
  function Quote(s: string): string { "\"" + EscapeAll(s) + "\"" }

  function InsertField(le: Collation, f: Field, fs: seq<Field>): (r: seq<Field>)
    ensures forall x :: x in r <==> x == f || x in fs
    ensures |r| == |fs| + 1
  {
    if fs == [] || le(f.key, fs[0].key) then [f] + fs
    else [fs[0]] + InsertField(le, f, fs[1..])
  }

  /** The stable sort by key; with a total preorder it is the only stable sorted order. */
  function SortFields(le: Collation, fs: seq<Field>): (r: seq<Field>)
    ensures forall x :: x in r <==> x in fs
    ensures |r| == |fs|
  {
    if fs == [] then [] else InsertField(le, fs[0], SortFields(le, fs[1..]))
  }

  function DropOmitted(fs: seq<Field>): (r: seq<Field>)
    ensures forall x :: x in r <==> x in fs && Retained(x.value)
  {
    if fs == [] then []
    else (if Retained(fs[0].value) then [fs[0]] else []) + DropOmitted(fs[1..])
  }

  function PrintedFields(le: Collation, fs: seq<Field>): (r: seq<Field>)
    ensures forall x :: x in r <==> x in fs && Retained(x.value)
  {
    DropOmitted(SortFields(le, fs))
  }

  function Canonicalize(le: Collation, v: Json): string {
    match v
    case Null | Undefined | Function | Symbol | BigInt | NonFinite => "null"
    case Bool(b) => if b then "true" else "false"
    case Finite(n) => n
    case Str(s) => Quote(s)
    case Arr(items) =>
      "[" + Join(seq(|items|, i requires 0 <= i < |items| => Canonicalize(le, items[i])), ",") + "]"
    case Obj(fs) =>
      var kept := PrintedFields(le, fs);
      "{" + Join(seq(|kept|, i requires 0 <= i < |kept| =>
        assert kept[i] in fs; Quote(kept[i].key) + ":" + Canonicalize(le, kept[i].value)), ",") + "}"
  }

  // ----- normal forms -------------------------------------------------------

  datatype Tree =
    | TNull
    | TBool(b: bool)
    | TNumber(n: NumberText)
    | TString(s: string)
    | TArray(items: seq<Tree>)
    | TObject(fields: seq<TField>)

  datatype TField = TField(key: string, value: Tree)

  function Normalize(le: Collation, v: Json): Tree {
    match v
    case Null | Undefined | Function | Symbol | BigInt | NonFinite => TNull
    case Bool(b) => TBool(b)
    case Finite(n) => TNumber(n)
    case Str(s) => TString(s)
    case Arr(items) => TArray(seq(|items|, i requires 0 <= i < |items| => Normalize(le, items[i])))
    case Obj(fs) =>
      var kept := PrintedFields(le, fs);
      TObject(seq(|kept|, i requires 0 <= i < |kept| =>
        assert kept[i] in fs; TField(kept[i].key, Normalize(le, kept[i].value))))
  }

  function Print(t: Tree): string
    decreases t, 0
  {
    match t
    case TNull => "null"
    case TBool(b) => if b then "true" else "false"
    case TNumber(n) => n
    case TString(s) => Quote(s)
    case TArray(items) => "[" + PrintItems(items) + "]"
    case TObject(fields) => "{" + PrintFields(fields) + "}"
  }

  function PrintItems(ts: seq<Tree>): string
    decreases ts, 1
  {
    if |ts| == 0 then ""
    else if |ts| == 1 then Print(ts[0])
    else Print(ts[0]) + "," + PrintItems(ts[1..])
  }

  function PrintFields(fs: seq<TField>): string
    decreases fs, 1
  {
    if |fs| == 0 then ""
    else if |fs| == 1 then Quote(fs[0].key) + ":" + Print(fs[0].value)
    else Quote(fs[0].key) + ":" + Print(fs[0].value) + "," + PrintFields(fs[1..])
  }

  lemma {:induction false} JoinIsPrintItems(parts: seq<string>, ts: seq<Tree>)
    requires |parts| == |ts| && forall i :: 0 <= i < |ts| ==> parts[i] == Print(ts[i])
    ensures Join(parts, ",") == PrintItems(ts)
  {
    if |ts| > 1 { JoinIsPrintItems(parts[1..], ts[1..]); }
  }

  lemma {:induction false} JoinIsPrintFields(parts: seq<string>, fs: seq<TField>)
    requires |parts| == |fs|
    requires forall i :: 0 <= i < |fs| ==> parts[i] == Quote(fs[i].key) + ":" + Print(fs[i].value)
    ensures Join(parts, ",") == PrintFields(fs)
  {
    if |fs| > 1 { JoinIsPrintFields(parts[1..], fs[1..]); }
  }

  lemma {:induction false} CanonicalTextIsPrintedNormalForm(le: Collation, v: Json)
    ensures Canonicalize(le, v) == Print(Normalize(le, v))
  {
    match v {
      case Arr(items) =>
        var parts := seq(|items|, i requires 0 <= i < |items| => Canonicalize(le, items[i]));
        forall i | 0 <= i < |items| ensures parts[i] == Print(Normalize(le, items[i])) {
          CanonicalTextIsPrintedNormalForm(le, items[i]);
        }
        JoinIsPrintItems(parts, Normalize(le, v).items);
      case Obj(fs) =>
        var kept := PrintedFields(le, fs);
        var tree := Normalize(le, v);
        var parts := seq(|kept|, i requires 0 <= i < |kept| =>
          assert kept[i] in fs; Quote(kept[i].key) + ":" + Canonicalize(le, kept[i].value));
        forall i | 0 <= i < |kept|
          ensures parts[i] == Quote(tree.fields[i].key) + ":" + Print(tree.fields[i].value)
        {
          assert kept[i] in fs;
          CanonicalTextIsPrintedNormalForm(le, kept[i].value);
        }
        JoinIsPrintFields(parts, tree.fields);
      case _ =>
    }
  }
}
