/** Canonical text can be read back: a reader of JSON, as RFC 8259 describes it, gets the printed tree from its text
    even when more text follows, so nesting is never ambiguous. */
module CanonicalDecoding {
  import opened CanonicalJson
  import opened Text
  import opened Wrappers

  // ----- a reader of JSON without white space -------------------------------

  /** What is read at the front of a text, and the text behind it. */
  type Reading<T> = Option<(T, string)>

  function HexValue(c: char): Option<nat> {
    if '0' <= c <= '9' then Some(c as int - 48)
    else if 'a' <= c <= 'f' then Some(c as int - 87)
    else if 'A' <= c <= 'F' then Some(c as int - 55)
    else None
  }

  /** Four hexadecimal digits; those of a surrogate stand for no character. */
  function ReadCode(s: string): Reading<char> {
    if |s| < 4 then None
    else
      match (HexValue(s[0]), HexValue(s[1]), HexValue(s[2]), HexValue(s[3]))
      case (Some(a), Some(b), Some(c), Some(d)) =>
        var code := ((a * 16 + b) * 16 + c) * 16 + d;
        if code < 0xD800 then Some((code as char, s[4..])) else None
      case _ => None
  }

  /** One character of a string, by section 7. */
  function ReadChar(s: string): (r: Reading<char>)
    requires s != ""
    ensures r.Some? ==> |r.value.1| < |s|
  {
    if s[0] != '\\' then (if s[0] < ' ' then None else Some((s[0], s[1..])))
    else if |s| == 1 then None
    else if s[1] in "\"\\/" then Some((s[1], s[2..]))
    else if s[1] == 'b' then Some((8 as char, s[2..]))
    else if s[1] == 'f' then Some((12 as char, s[2..]))
    else if s[1] == 'n' then Some((10 as char, s[2..]))
    else if s[1] == 'r' then Some((13 as char, s[2..]))
    else if s[1] == 't' then Some((9 as char, s[2..]))
    else if s[1] == 'u' then ReadCode(s[2..])
    else None
  }

  /** A string from behind its opening quote. */
  function ReadString(s: string): (r: Reading<string>)
    ensures r.Some? ==> |r.value.1| < |s|
    decreases |s|
  {
    if s == "" then None
    else if s[0] == '\"' then Some(("", s[1..]))
    else
      match ReadChar(s)
      case None => None
      case Some((c, more)) =>
        match ReadString(more)
        case None => None
        case Some((text, rest)) => Some(([c] + text, rest))
  }

  /** How many characters at the front can belong to a number. */
  function NumberLength(s: string): (n: nat)
    ensures n <= |s| && (forall i :: 0 <= i < n ==> IsNumberChar(s[i])) && (n < |s| ==> !IsNumberChar(s[n]))
  {
    if s == "" || !IsNumberChar(s[0]) then 0 else 1 + NumberLength(s[1..])
  }

  /** A value, by sections 3 to 7. */
  function ReadValue(s: string): (r: Reading<Tree>)
    ensures r.Some? ==> |r.value.1| < |s|
    decreases |s|, 0
  {
    if s == "" then None
    else if s[0] == '\"' then
      match ReadString(s[1..])
      case None => None
      case Some((text, rest)) => Some((TString(text), rest))
    else if s[0] == '[' then
      if |s| > 1 && s[1] == ']' then Some((TArray([]), s[2..]))
      else
        match ReadItems(s[1..])
        case None => None
        case Some((items, rest)) => Some((TArray(items), rest))
    else if s[0] == '{' then
      if |s| > 1 && s[1] == '}' then Some((TObject([]), s[2..]))
      else
        match ReadFields(s[1..])
        case None => None
        case Some((fields, rest)) => Some((TObject(fields), rest))
    else if IsDigit(s[0]) || s[0] == '-' then
      Some((TNumber(s[..NumberLength(s)]), s[NumberLength(s)..]))
    else if "null" <= s then Some((TNull, s[4..]))
    else if "true" <= s then Some((TBool(true), s[4..]))
    else if "false" <= s then Some((TBool(false), s[5..]))
    else None
  }

  /** One item or more, separated by commas, and the closing bracket. */
  function ReadItems(s: string): (r: Reading<seq<Tree>>)
    ensures r.Some? ==> |r.value.1| < |s|
    decreases |s|, 1
  {
    match ReadValue(s)
    case None => None
    case Some((item, more)) =>
      if more != "" && more[0] == ']' then Some(([item], more[1..]))
      else if more != "" && more[0] == ',' then
        match ReadItems(more[1..])
        case None => None
        case Some((items, rest)) => Some(([item] + items, rest))
      else None
  }

  function ReadField(s: string): (r: Reading<TField>)
    ensures r.Some? ==> |r.value.1| < |s|
    decreases |s|, 1
  {
    if s == "" || s[0] != '\"' then None
    else
      match ReadString(s[1..])
      case None => None
      case Some((key, more)) =>
        if more == "" || more[0] != ':' then None
        else
          match ReadValue(more[1..])
          case None => None
          case Some((value, rest)) => Some((TField(key, value), rest))
  }

  /** One field or more, separated by commas, and the closing brace. */
  function ReadFields(s: string): (r: Reading<seq<TField>>)
    ensures r.Some? ==> |r.value.1| < |s|
    decreases |s|, 2
  {
    match ReadField(s)
    case None => None
    case Some((field, more)) =>
      if more != "" && more[0] == '}' then Some(([field], more[1..]))
      else if more != "" && more[0] == ',' then
        match ReadFields(more[1..])
        case None => None
        case Some((fields, rest)) => Some(([field] + fields, rest))
      else None
  }

  // ----- reading what was printed -------------------------------------------

  /** What may follow a value in a text: nothing, or a character that ends a number. */
  predicate Delimits(r: string) { r == "" || r[0] in ",]}" }

  lemma HexIsRead(d: nat)
    requires d < 16
    ensures HexValue(HexDigit(d)) == Some(d)
  {
  }

  lemma CodeIsRead(c: char, x: string)
    requires c < ' '
    ensures ReadCode("00" + [HexDigit(c as int / 16), HexDigit(c as int % 16)] + x) == Some((c, x))
  {
    HexIsRead(c as int / 16);
    HexIsRead(c as int % 16);
    var s := "00" + [HexDigit(c as int / 16), HexDigit(c as int % 16)] + x;
    assert s[4..] == x;
  }

  lemma EscapeIsRead(c: char, x: string)
    ensures (Escape(c) + x)[0] != '\"' && ReadChar(Escape(c) + x) == Some((c, x))
  {
    var s := Escape(c) + x;
    if |Escape(c)| == 6 {
      assert s[2..] == "00" + [HexDigit(c as int / 16), HexDigit(c as int % 16)] + x;
      CodeIsRead(c, x);
    } else {
      assert s[|Escape(c)|..] == x;
    }
  }

  lemma {:induction false} StringIsRead(a: string, r: string)
    ensures ReadString(EscapeAll(a) + ("\"" + r)) == Some((a, r))
    decreases |a|
  {
    var s := EscapeAll(a) + ("\"" + r);
    if a == "" {
      assert s[1..] == r;
    } else {
      var more := EscapeAll(a[1..]) + ("\"" + r);
      Associate(Escape(a[0]), EscapeAll(a[1..]), "\"" + r);
      EscapeIsRead(a[0], more);
      StringIsRead(a[1..], r);
      assert [a[0]] + a[1..] == a;
    }
  }

  lemma QuoteIsRead(a: string, r: string)
    ensures var s := Quote(a) + r; s[0] == '\"' && ReadString(s[1..]) == Some((a, r))
  {
    assert (Quote(a) + r)[1..] == EscapeAll(a) + ("\"" + r);
    StringIsRead(a, r);
  }

  lemma NumberIsRead(n: NumberText, r: string)
    requires Delimits(r)
    ensures ReadValue(n + r) == Some((TNumber(n), r))
  {
    var s, k := n + r, NumberLength(n + r);
    assert forall i :: 0 <= i < |n| ==> IsNumberChar(s[i]);
    assert r != "" ==> !IsNumberChar(s[|n|]);
    assert k == |n|;
    assert s[..k] == n && s[k..] == r;
  }

  lemma LiteralIsRead(literal: string, r: string)
    requires literal in {"null", "true", "false"}
    ensures ReadValue(literal + r) ==
      Some((if literal == "null" then TNull else TBool(literal == "true"), r))
  {
    var s := literal + r;
    assert s[|literal|..] == r && literal <= s;
  }

  /** What a reader gets from a printed tree is the tree, whatever follows it. */
  lemma {:induction false} PrintIsRead(t: Tree, r: string)
    requires Delimits(r)
    ensures ReadValue(Print(t) + r) == Some((t, r))
    decreases t, 0
  {
    match t {
      case TNull => LiteralIsRead("null", r);
      case TBool(b) => LiteralIsRead(if b then "true" else "false", r);
      case TNumber(n) => NumberIsRead(n, r);
      case TString(a) => QuoteIsRead(a, r);
      case TArray(items) =>
        Inside('[', PrintItems(items), ']', r);
        if items != [] { ItemsAreRead(items, r); }
      case TObject(fields) =>
        Inside('{', PrintFields(fields), '}', r);
        if fields != [] { FieldsAreRead(fields, r); }
    }
  }

  lemma Inside(open: char, a: string, close: char, r: string)
    ensures var s := ([open] + a + [close]) + r; s[0] == open && s[1..] == a + ([close] + r)
    ensures a == "" ==> var s := ([open] + a + [close]) + r; s[1] == close && s[2..] == r
  {
  }

  /** What follows the first item or field of a list: the close, or a comma and the rest. */
  function After(last: bool, rest: string, close: string): string {
    if last then close else "," + (rest + close)
  }

  lemma AfterFirst(last: bool, rest: string, close: char, r: string)
    ensures var a := After(last, rest, [close] + r);
      a != "" && if last then a[0] == close && a[1..] == r else a[0] == ',' && a[1..] == rest + ([close] + r)
  {
  }

  lemma FirstItem(ts: seq<Tree>, r: string)
    requires ts != []
    ensures PrintItems(ts) + ("]" + r) == Print(ts[0]) + After(|ts| == 1, PrintItems(ts[1..]), "]" + r)
  {
    BehindItem(Print(ts[0]), PrintItems(ts[1..]), "]" + r);
  }

  lemma BehindItem(v: string, tail: string, close: string)
    ensures v + close == v + After(true, tail, close)
    ensures (v + "," + tail) + close == v + After(false, tail, close)
  {
  }

  /** No item begins like the end of a list. */
  lemma ItemsDoNotClose(ts: seq<Tree>, r: string)
    requires ts != []
    ensures var s := PrintItems(ts) + ("]" + r); s != "" && s[0] != ']'
  {
    assert Print(ts[0]) != "" && Print(ts[0])[0] != ']';
    FirstItem(ts, r);
  }

  lemma {:induction false} ItemsAreRead(ts: seq<Tree>, r: string)
    requires ts != []
    ensures var s := PrintItems(ts) + ("]" + r);
      s != "" && s[0] != ']' && ReadItems(s) == Some((ts, r))
    decreases ts, 1
  {
    var rest := After(|ts| == 1, PrintItems(ts[1..]), "]" + r);
    ItemsDoNotClose(ts, r);
    FirstItem(ts, r);
    AfterFirst(|ts| == 1, PrintItems(ts[1..]), ']', r);
    PrintIsRead(ts[0], rest);
    assert ReadValue(PrintItems(ts) + ("]" + r)) == Some((ts[0], rest));
    assert ts == [ts[0]] + ts[1..];
    if |ts| > 1 {
      ItemsAreRead(ts[1..], r);
      assert rest[0] == ',' && ReadItems(rest[1..]) == Some((ts[1..], r));
    } else {
      assert [ts[0]] == ts && rest[0] == ']' && rest[1..] == r;
    }
  }

  lemma FirstField(fs: seq<TField>, r: string)
    requires fs != []
    ensures PrintFields(fs) + ("}" + r)
      == Quote(fs[0].key) + (":" + (Print(fs[0].value) + After(|fs| == 1, PrintFields(fs[1..]), "}" + r)))
  {
    BehindField(Quote(fs[0].key), Print(fs[0].value), PrintFields(fs[1..]), "}" + r);
  }

  lemma BehindField(q: string, v: string, tail: string, close: string)
    ensures (q + ":" + v) + close == q + (":" + (v + After(true, tail, close)))
    ensures (q + ":" + v + "," + tail) + close == q + (":" + (v + After(false, tail, close)))
  {
  }

  lemma {:induction false} FieldIsRead(f: TField, rest: string)
    requires Delimits(rest)
    ensures ReadField(Quote(f.key) + (":" + (Print(f.value) + rest))) == Some((f, rest))
    decreases f, 1
  {
    QuoteIsRead(f.key, ":" + (Print(f.value) + rest));
    assert (":" + (Print(f.value) + rest))[1..] == Print(f.value) + rest;
    PrintIsRead(f.value, rest);
  }

  lemma {:induction false} FieldsAreRead(fs: seq<TField>, r: string)
    requires fs != []
    ensures var s := PrintFields(fs) + ("}" + r);
      s != "" && s[0] != '}' && ReadFields(s) == Some((fs, r))
    decreases fs, 2
  {
    var rest := After(|fs| == 1, PrintFields(fs[1..]), "}" + r);
    FirstField(fs, r);
    AfterFirst(|fs| == 1, PrintFields(fs[1..]), '}', r);
    QuoteIsRead(fs[0].key, ":" + (Print(fs[0].value) + rest));
    FieldIsRead(fs[0], rest);
    assert ReadField(PrintFields(fs) + ("}" + r)) == Some((fs[0], rest));
    assert fs == [fs[0]] + fs[1..];
    if |fs| > 1 {
      FieldsAreRead(fs[1..], r);
      assert rest[0] == ',' && ReadFields(rest[1..]) == Some((fs[1..], r));
    } else {
      assert [fs[0]] == fs && rest[0] == '}' && rest[1..] == r;
    }
  }

  /** Printed trees with more text behind them that are equal are the same trees with the same text. */
  lemma PrintDecodes(t: Tree, u: Tree, r: string, s: string)
    requires Delimits(r) && Delimits(s)
    requires Print(t) + r == Print(u) + s
    ensures t == u && r == s
  {
    PrintIsRead(t, r);
    PrintIsRead(u, s);
  }

  /** Main result: a reader of JSON gets the normal form of a value from its canonical text, and nothing is left. */
  lemma CanonicalTextIsRead(le: Collation, v: Json)
    ensures ReadValue(Canonicalize(le, v)) == Some((Normalize(le, v), ""))
  {
    CanonicalTextIsPrintedNormalForm(le, v);
    PrintIsRead(Normalize(le, v), "");
    WithEmpty(Canonicalize(le, v));
  }

  /** Two values have the same text exactly when they normalise to the same tree. */
  lemma SameTextIffSameNormalForm(le: Collation, v: Json, w: Json)
    ensures Canonicalize(le, v) == Canonicalize(le, w) <==> Normalize(le, v) == Normalize(le, w)
  {
    CanonicalTextIsPrintedNormalForm(le, v);
    CanonicalTextIsPrintedNormalForm(le, w);
    CanonicalTextIsRead(le, v);
    CanonicalTextIsRead(le, w);
  }
}
