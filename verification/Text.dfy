/** String operations shared by the models: the parts of JavaScript's `String`
    that the modelled code relies on, with the laws the proofs need. */
module Text {
  lemma Associate<T>(a: seq<T>, b: seq<T>, c: seq<T>)
    ensures (a + b) + c == a + (b + c)
  {
  }

  lemma WithEmpty<T>(s: seq<T>)
    ensures [] + s == s && s + [] == s
  {
  }

  // ----- trim ---------------------------------------------------------------

  /** The white space and line terminators that `trim` removes. */
  predicate IsSpace(c: char) {
    || '\U{0009}' <= c <= '\U{000d}' || c == ' ' || c == '\U{00a0}' || c == '\U{1680}'
    || '\U{2000}' <= c <= '\U{200a}' || c == '\U{2028}' || c == '\U{2029}' || c == '\U{202f}'
    || c == '\U{205f}' || c == '\U{3000}' || c == '\U{feff}'
  }

  /** White space and line terminators by their code points, as in sections 12.2 and 12.3 of ECMA-262. */
  const SPACES: seq<int> :=
    [0x09, 0x0B, 0x0C, 0xFEFF, 0x0A, 0x0D, 0x2028, 0x2029, 0x20, 0xA0, 0x1680, 0x2000, 0x2001, 0x2002, 0x2003, 0x2004,
     0x2005, 0x2006, 0x2007, 0x2008, 0x2009, 0x200A, 0x202F, 0x205F, 0x3000]

  lemma SpaceIff(c: char)
    ensures IsSpace(c) <==> c as int in SPACES
  {
  }

  function TrimStart(s: string): (r: string)
    ensures r == "" || !IsSpace(r[0])
    ensures |r| <= |s| && s[|s| - |r|..] == r
    ensures forall k :: 0 <= k < |s| - |r| ==> IsSpace(s[k])
  {
    if s != "" && IsSpace(s[0]) then TrimStart(s[1..]) else s
  }

  function TrimEnd(s: string): (r: string)
    ensures r == "" || !IsSpace(r[|r| - 1])
    ensures |r| <= |s| && s[..|r|] == r
    ensures forall k :: |r| <= k < |s| ==> IsSpace(s[k])
  {
    if s != "" && IsSpace(s[|s| - 1]) then TrimEnd(s[..|s| - 1]) else s
  }

  function Trim(s: string): (r: string)
    ensures Trimmed(r)
  {
    TrimEnd(TrimStart(s))
  }

  predicate Trimmed(s: string) {
    s == "" || (!IsSpace(s[0]) && !IsSpace(s[|s| - 1]))
  }

  predicate AllSpace(s: string) { forall i :: 0 <= i < |s| ==> IsSpace(s[i]) }

  /** The text is `t` with nothing but white space around it, and `t` itself has none around it. */
  ghost predicate SpaceAround(s: string, t: string) {
    Trimmed(t) && exists before, after :: AllSpace(before) && AllSpace(after) && s == before + t + after
  }

  lemma TrimEndLeavesSpace(r: string)
    ensures AllSpace(r[|TrimEnd(r)|..]) && r == TrimEnd(r) + r[|TrimEnd(r)|..]
  {
    var t := TrimEnd(r);
    assert r == r[..|t|] + r[|t|..];
  }

  lemma TrimStartLeavesSpace(s: string)
    ensures AllSpace(s[..|s| - |TrimStart(s)|]) && s == s[..|s| - |TrimStart(s)|] + TrimStart(s)
  {
    var r := TrimStart(s);
    assert s == s[..|s| - |r|] + s[|s| - |r|..];
  }

  lemma TrimLeavesSpace(s: string)
    ensures SpaceAround(s, Trim(s))
  {
    var r := TrimStart(s);
    TrimStartLeavesSpace(s);
    TrimEndLeavesSpace(r);
    MiddleText(s, s[..|s| - |r|], Trim(s), r[|Trim(s)|..]);
  }

  lemma MiddleText(s: string, before: string, t: string, after: string)
    requires Trimmed(t) && AllSpace(before) && AllSpace(after) && s == before + (t + after)
    ensures SpaceAround(s, t)
  {
    Associate(before, t, after);
  }

  lemma NoLongerSpace(before: string, t: string, after: string, x: string, rest: string)
    requires AllSpace(x) && Trimmed(t) && t != "" && before + t + after == x + rest
    ensures |x| <= |before|
  {
    var s := before + t + after;
    assert s[|before|] == t[0];
    assert forall i :: 0 <= i < |x| ==> s[i] == x[i];
  }

  lemma NoShorterText(before: string, t: string, after: string, u: string, y: string)
    requires AllSpace(y) && Trimmed(t) && t != "" && before + t + after == before + u + y
    ensures |t| <= |u|
  {
    var s := before + t + after;
    assert s[|before| + |t| - 1] == t[|t| - 1];
    assert forall i :: |before| + |u| <= i < |s| ==> s[i] == y[i - |before| - |u|];
  }

  lemma SameMiddle(before: string, t: string, after: string, u: string, y: string)
    requires before + t + after == before + u + y && |t| == |u|
    ensures t == u
  {
    var s := before + t + after;
    assert t == s[|before|..|before| + |t|] && u == s[|before|..|before| + |u|];
  }

  lemma SpaceAroundText(s: string, t: string, u: string)
    requires SpaceAround(s, t) && SpaceAround(s, u) && t != "" && u != ""
    ensures t == u
  {
    var before, after :| AllSpace(before) && AllSpace(after) && s == before + t + after;
    var x, y :| AllSpace(x) && AllSpace(y) && s == x + u + y;
    Associate(x, u, y);
    Associate(before, t, after);
    NoLongerSpace(before, t, after, x, u + y);
    NoLongerSpace(x, u, y, before, t + after);
    assert x == s[..|x|] == before;
    NoShorterText(before, t, after, u, y);
    NoShorterText(before, u, y, t, after);
    SameMiddle(before, t, after, u, y);
  }

  lemma BlankText(s: string, t: string)
    requires SpaceAround(s, "") && SpaceAround(s, t)
    ensures t == ""
  {
    var before, after :| AllSpace(before) && AllSpace(after) && s == before + "" + after;
    assert AllSpace(s);
    var x, y :| AllSpace(x) && AllSpace(y) && s == x + t + y;
    if t != "" {
      WithEmpty(s);
      NoLongerSpace(x, t, y, s, "");
    }
  }

  /** What `trim` gives is the one text without white space around it that the given text has in its middle. */
  lemma TrimIffSpaceAround(s: string, t: string)
    ensures Trim(s) == t <==> SpaceAround(s, t)
  {
    TrimLeavesSpace(s);
    if SpaceAround(s, t) {
      if t == "" { BlankText(s, Trim(s)); }
      else if Trim(s) == "" { BlankText(s, t); }
      else { SpaceAroundText(s, t, Trim(s)); }
    }
  }

  lemma TrimOfTrimmed(s: string)
    requires Trimmed(s)
    ensures Trim(s) == s
  {
  }

  // ----- split and join -----------------------------------------------------

  /** `s.split(sep)` for a one-character separator. */
  function Split(s: string, sep: char): (parts: seq<string>)
    ensures |parts| >= 1
    ensures forall p :: p in parts ==> sep !in p
  {
    if s == "" then [""]
    else
      var rest := Split(s[1..], sep);
      if s[0] == sep then [""] + rest else [[s[0]] + rest[0]] + rest[1..]
  }

  /** `parts.join(sep)`. */
  function Join(parts: seq<string>, sep: string): string {
    if |parts| == 0 then ""
    else if |parts| == 1 then parts[0]
    else parts[0] + sep + Join(parts[1..], sep)
  }

  lemma {:induction false} JoinOfSplit(s: string, sep: char)
    ensures Join(Split(s, sep), [sep]) == s
  {
    if s == "" {
    } else {
      JoinOfSplit(s[1..], sep);
      var rest := Split(s[1..], sep);
      var parts := Split(s, sep);
      if s[0] == sep {
        assert parts[1..] == rest;
        assert s == [sep] + s[1..];
      } else {
        assert parts[1..] == rest[1..];
        assert s == [s[0]] + s[1..];
      }
    }
  }

  lemma {:induction false} SplitWithoutSeparator(s: string, sep: char)
    requires sep !in s
    ensures Split(s, sep) == [s]
  {
    if s != "" {
      assert s[0] in s;
      SplitWithoutSeparator(s[1..], sep);
      assert [s[0]] + s[1..] == s;
    }
  }

  /** Joins the last part of `l` to the first part of `r`. */
  function Glue(l: seq<string>, r: seq<string>): seq<string>
    requires l != [] && r != []
  {
    if |l| == 1 then [l[0] + r[0]] + r[1..] else [l[0]] + Glue(l[1..], r)
  }

  /** Splitting a concatenation glues the last part of the left to the first part of the right. */
  lemma {:induction false} SplitOfConcat(a: string, b: string, sep: char)
    ensures Split(a + b, sep) == Glue(Split(a, sep), Split(b, sep))
  {
    var l, r := Split(a, sep), Split(b, sep);
    if a == "" {
      assert a + b == b;
      assert "" + r[0] == r[0];
      assert [r[0]] + r[1..] == r;
    } else {
      SplitOfConcat(a[1..], b, sep);
      assert (a + b)[1..] == a[1..] + b;
      GlueOfHead(a[0], Split(a[1..], sep), r, sep);
    }
  }

  lemma GlueOfHead(c: char, l: seq<string>, r: seq<string>, sep: char)
    requires l != [] && r != []
    ensures Glue([""] + l, r) == [""] + Glue(l, r)
    ensures Glue([[c] + l[0]] + l[1..], r) == [[c] + Glue(l, r)[0]] + Glue(l, r)[1..]
  {
    assert ([""] + l)[1..] == l;
    assert ([[c] + l[0]] + l[1..])[1..] == l[1..];
    assert ([c] + l[0]) + r[0] == [c] + (l[0] + r[0]);
  }

  lemma {:induction false} SplitOfJoined(p: string, rest: string, sep: char)
    requires sep !in p
    ensures Split(p + [sep] + rest, sep) == [p] + Split(rest, sep)
  {
    SplitWithoutSeparator(p, sep);
    SplitOfConcat(p, [sep] + rest, sep);
    assert p + [sep] + rest == p + ([sep] + rest);
    assert ([sep] + rest)[1..] == rest;
    assert p + "" == p;
  }

  // ----- decimal numbers ----------------------------------------------------

  predicate IsDigit(c: char) { '0' <= c <= '9' }

  predicate AllDigits(s: string) { forall i :: 0 <= i < |s| ==> IsDigit(s[i]) }

  /** `String(n)` for a natural number. */
  function Decimal(n: nat): (s: string)
    ensures |s| >= 1 && AllDigits(s)
  {
    if n < 10 then [(n + 48) as char] else Decimal(n / 10) + [(n % 10 + 48) as char]
  }

  /** The value of a string of decimal digits. */
  function DecimalValue(s: string): nat
    requires AllDigits(s)
  {
    if s == "" then 0
    else 10 * DecimalValue(s[..|s| - 1]) + (s[|s| - 1] as int - 48)
  }

  lemma {:induction false} DecimalRoundTrip(n: nat)
    ensures DecimalValue(Decimal(n)) == n
  {
    var s := Decimal(n);
    if n < 10 {
      assert s[..|s| - 1] == "";
    } else {
      DecimalRoundTrip(n / 10);
      assert s[..|s| - 1] == Decimal(n / 10);
    }
  }
}
