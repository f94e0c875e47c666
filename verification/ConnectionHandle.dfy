/** Parsing cloud connection handles: `connh.<providerId>.<methodId>.<uuid>.<bindingEpoch>.<signature>`. */
module ConnectionHandle {
  import opened OrderedChecks
  import opened Text
  import opened Wrappers

  datatype Field = Str(text: string) | NotText

  type Record = map<string, Field>

  datatype Handle = Handle(
    connectionHandle: string, providerId: string, methodId: string, extensionId: string, origin: string,
    bindingEpoch: nat, signature: string)

  datatype ParseError =
    | NotAnObject
    | Missing(field: string)
    | NotAString(field: string)
    | Blank(field: string)
    | WrongBinding
    | WrongFormat
    | BadUuid
    | BadEpoch
    | EpochOutOfRange
    | BadSignature

  // ----- the segments -------------------------------------------------------

  predicate IsLowerHex(c: char) { '0' <= c <= '9' || 'a' <= c <= 'f' }

  predicate IsDash(i: int) { i == 8 || i == 13 || i == 18 || i == 23 }

  /** The lower-case text form of RFC 4122, section 3, with the version digit of section 4.1.3 and the variant
      of section 4.1.1. */
  predicate CanonicalUuid(s: string) {
    && |s| == 36
    && (forall i :: 0 <= i < 36 ==> if IsDash(i) then s[i] == '-' else IsLowerHex(s[i]))
    && '1' <= s[14] <= '5'
    && (s[19] == '8' || s[19] == '9' || s[19] == 'a' || s[19] == 'b')
  }

  predicate IsTokenChar(c: char) {
    'A' <= c <= 'Z' || 'a' <= c <= 'z' || '0' <= c <= '9' || c == '_' || c == '-'
  }

  predicate Token(s: string) { s != "" && forall i :: 0 <= i < |s| ==> IsTokenChar(s[i]) }

  predicate Digits(s: string) { s != "" && AllDigits(s) }

  const MAX_SAFE: nat := 9007199254740991

  // ----- the parser ---------------------------------------------------------

  function RequireNonEmptyString(record: Record, field: string): Result<string, ParseError> {
    if field !in record then Err(Missing(field))
    else if record[field].NotText? then Err(NotAString(field))
    else if Trim(record[field].text) == "" then Err(Blank(field))
    else Ok(Trim(record[field].text))
  }

  function Prefix(providerId: string, methodId: string): string { "connh." + (providerId + ("." + (methodId + "."))) }

  function ParseSuffix(parts: seq<string>): Result<(nat, string), ParseError> {
    if |parts| != 3 then Err(WrongFormat)
    else if !CanonicalUuid(parts[0]) then Err(BadUuid)
    else if !Digits(parts[1]) then Err(BadEpoch)
    else if DecimalValue(parts[1]) > MAX_SAFE then Err(EpochOutOfRange)
    else if !Token(parts[2]) then Err(BadSignature)
    else Ok((DecimalValue(parts[1]), parts[2]))
  }

  function ParseBound(handle: string, providerId: string, methodId: string, extensionId: string, origin: string)
    : Result<Handle, ParseError>
  {
    var prefix := Prefix(providerId, methodId);
    if !(prefix <= handle) then Err(WrongBinding)
    else
      match ParseSuffix(Split(handle[|prefix|..], '.'))
      case Err(e) => Err(e)
      case Ok(suffix) => Ok(Handle(handle, providerId, methodId, extensionId, origin, suffix.0, suffix.1))
  }

  function Parse(input: Option<Record>): Result<Handle, ParseError> {
    if input.None? then Err(NotAnObject)
    else
      var record := input.value;
      var handle := RequireNonEmptyString(record, "connectionHandle");
      var providerId := RequireNonEmptyString(record, "providerId");
      var methodId := RequireNonEmptyString(record, "methodId");
      var extensionId := RequireNonEmptyString(record, "extensionId");
      var origin := RequireNonEmptyString(record, "origin");
      if handle.Err? then Err(handle.error)
      else if providerId.Err? then Err(providerId.error)
      else if methodId.Err? then Err(methodId.error)
      else if extensionId.Err? then Err(extensionId.error)
      else if origin.Err? then Err(origin.error)
      else ParseBound(handle.value, providerId.value, methodId.value, extensionId.value, origin.value)
  }

  // ----- the printed form ---------------------------------------------------

  function Suffix(uuid: string, epoch: string, signature: string): string {
    uuid + ['.'] + (epoch + ['.'] + signature)
  }

  function Print(providerId: string, methodId: string, uuid: string, epoch: string, signature: string): string {
    Prefix(providerId, methodId) + Suffix(uuid, epoch, signature)
  }

  /** Segments that a well-formed handle can have. */
  predicate WellFormed(uuid: string, epoch: string, signature: string) {
    CanonicalUuid(uuid) && Digits(epoch) && Token(signature)
  }

  lemma SegmentsHaveNoDot(uuid: string, epoch: string, signature: string)
    requires WellFormed(uuid, epoch, signature)
    ensures '.' !in uuid && '.' !in epoch && '.' !in signature
  {
    assert forall i :: 0 <= i < |uuid| ==> (IsDash(i) || IsLowerHex(uuid[i]));
    assert forall i :: 0 <= i < |signature| ==> IsTokenChar(signature[i]);
    assert forall i :: 0 <= i < |epoch| ==> IsDigit(epoch[i]);
  }

  lemma SuffixSplits(uuid: string, epoch: string, signature: string)
    requires '.' !in uuid && '.' !in epoch && '.' !in signature
    ensures Split(Suffix(uuid, epoch, signature), '.') == [uuid, epoch, signature]
  {
    SplitOfJoined(uuid, epoch + ['.'] + signature, '.');
    SplitOfJoined(epoch, signature, '.');
    SplitWithoutSeparator(signature, '.');
  }

  lemma SplitsAreSuffixes(s: string)
    requires |Split(s, '.')| == 3
    ensures var p := Split(s, '.'); s == Suffix(p[0], p[1], p[2])
  {
    var p := Split(s, '.');
    JoinOfSplit(s, '.');
    assert p[1..][1..] == [p[2]] && p[1..][0] == p[1];
    assert Join(p, ['.']) == p[0] + ['.'] + Join(p[1..], ['.']);
    assert Join(p[1..], ['.']) == p[1] + ['.'] + Join([p[2]], ['.']);
  }

  /** The three segments of a handle are determined by its text. */
  lemma SegmentsAreUnique(p: string, m: string, u: string, e: string, s: string, u': string, e': string, s': string)
    requires WellFormed(u, e, s) && WellFormed(u', e', s')
    requires Print(p, m, u, e, s) == Print(p, m, u', e', s')
    ensures u == u' && e == e' && s == s'
  {
    SegmentsHaveNoDot(u, e, s);
    SegmentsHaveNoDot(u', e', s');
    AfterPrefix(Prefix(p, m), Suffix(u, e, s));
    AfterPrefix(Prefix(p, m), Suffix(u', e', s'));
    SuffixSplits(u, e, s);
    SuffixSplits(u', e', s');
    var parts := Split(Suffix(u, e, s), '.');
    assert parts[0] == u' && parts[1] == e' && parts[2] == s';
  }

  lemma AfterPrefix(prefix: string, rest: string)
    ensures prefix <= prefix + rest && (prefix + rest)[|prefix|..] == rest
  {
  }

  /** What the parser makes of a text with the given segments. */
  lemma ParseOfPrinted(p: string, m: string, x: string, o: string, uuid: string, epoch: string, signature: string)
    requires WellFormed(uuid, epoch, signature)
    ensures var handle := Print(p, m, uuid, epoch, signature);
      ParseBound(handle, p, m, x, o)
        == if DecimalValue(epoch) <= MAX_SAFE then Ok(Handle(handle, p, m, x, o, DecimalValue(epoch), signature))
           else Err(EpochOutOfRange)
  {
    SegmentsHaveNoDot(uuid, epoch, signature);
    SuffixSplits(uuid, epoch, signature);
    AfterPrefix(Prefix(p, m), Suffix(uuid, epoch, signature));
  }

  ghost predicate Printable(handle: string, p: string, m: string) {
    exists uuid, epoch, signature ::
      WellFormed(uuid, epoch, signature) && DecimalValue(epoch) <= MAX_SAFE
      && handle == Print(p, m, uuid, epoch, signature)
  }

  /** Main result: a text is accepted under a binding if and only if it is the printed form of some well-formed
      segments whose epoch is below 2^53. */
  lemma AcceptedIffPrintable(handle: string, p: string, m: string, x: string, o: string)
    ensures ParseBound(handle, p, m, x, o).Ok? <==> Printable(handle, p, m)
  {
    if Printable(handle, p, m) {
      var uuid, epoch, signature :|
        WellFormed(uuid, epoch, signature) && DecimalValue(epoch) <= MAX_SAFE
        && handle == Print(p, m, uuid, epoch, signature);
      ParseOfPrinted(p, m, x, o, uuid, epoch, signature);
    }
    if ParseBound(handle, p, m, x, o).Ok? {
      var rest := handle[|Prefix(p, m)|..];
      var parts := Split(rest, '.');
      SplitsAreSuffixes(rest);
      assert handle == Prefix(p, m) + rest;
      assert WellFormed(parts[0], parts[1], parts[2]) && handle == Print(p, m, parts[0], parts[1], parts[2]);
    }
  }

  /** Printing gives a text that trimming leaves alone. */
  lemma PrintedIsTrimmed(p: string, m: string, uuid: string, epoch: string, signature: string)
    requires WellFormed(uuid, epoch, signature)
    ensures Trim(Print(p, m, uuid, epoch, signature)) == Print(p, m, uuid, epoch, signature)
  {
    var handle := Print(p, m, uuid, epoch, signature);
    assert handle[0] == 'c';
    assert handle[|handle| - 1] == signature[|signature| - 1];
    assert IsTokenChar(signature[|signature| - 1]);
    TrimOfTrimmed(handle);
  }

  // ----- the segments, by their patterns ------------------------------------

  predicate AllHex(s: string, n: nat) {
    |s| == n && forall i :: 0 <= i < n ==> s[i] in "0123456789abcdef"
  }

  /** Five groups of hexadecimal digits, the third behind a version and the fourth behind a variant. */
  predicate AreUuidGroups(a: string, b: string, c: string, d: string, e: string) {
    && AllHex(a, 8) && AllHex(b, 4) && AllHex(c, 4) && AllHex(d, 4) && AllHex(e, 12)
    && c[0] in "12345" && d[0] in "89ab"
  }

  function Dashed(a: string, b: string, c: string, d: string, e: string): string {
    a + ("-" + (b + ("-" + (c + ("-" + (d + ("-" + e)))))))
  }

  ghost predicate MatchesUuid(s: string) {
    exists a, b, c, d, e :: AreUuidGroups(a, b, c, d, e) && s == Dashed(a, b, c, d, e)
  }

  lemma HexIsHex(c: char)
    ensures IsLowerHex(c) <==> c in "0123456789abcdef"
  {
  }

  lemma DashedAt(a: string, b: string, c: string, d: string, e: string, i: nat)
    requires |a| == 8 && |b| == 4 && |c| == 4 && |d| == 4 && |e| == 12 && i < 36
    ensures |Dashed(a, b, c, d, e)| == 36
    ensures Dashed(a, b, c, d, e)[i] ==
      if IsDash(i) then '-'
      else if i < 8 then a[i] else if i < 13 then b[i - 9] else if i < 18 then c[i - 14]
      else if i < 23 then d[i - 19] else e[i - 24]
  {
  }

  lemma HexGroup(s: string, i: nat, n: nat)
    requires i + n <= |s| && forall k :: i <= k < i + n ==> IsLowerHex(s[k])
    ensures AllHex(s[i..i + n], n)
  {
    var group := s[i..i + n];
    forall k | 0 <= k < n ensures group[k] in "0123456789abcdef" { HexIsHex(group[k]); }
  }

  lemma GroupsOfUuid(s: string)
    requires CanonicalUuid(s)
    ensures AreUuidGroups(s[0..8], s[9..13], s[14..18], s[19..23], s[24..36])
  {
    HexGroup(s, 0, 8);
    HexGroup(s, 9, 4);
    HexGroup(s, 14, 4);
    HexGroup(s, 19, 4);
    HexGroup(s, 24, 12);
  }

  lemma UuidMatches(s: string)
    requires CanonicalUuid(s)
    ensures MatchesUuid(s)
  {
    var a, b, c, d, e := s[0..8], s[9..13], s[14..18], s[19..23], s[24..36];
    assert AreUuidGroups(a, b, c, d, e) by { GroupsOfUuid(s); }
    forall i | 0 <= i < 36 ensures s[i] == Dashed(a, b, c, d, e)[i] { DashedAt(a, b, c, d, e, i); }
    DashedAt(a, b, c, d, e, 0);
    assert s == Dashed(a, b, c, d, e);
  }

  lemma MatchIsUuid(s: string)
    requires MatchesUuid(s)
    ensures CanonicalUuid(s)
  {
    var a, b, c, d, e :| AreUuidGroups(a, b, c, d, e) && s == Dashed(a, b, c, d, e);
    DashedAt(a, b, c, d, e, 0);
    forall i | 0 <= i < 36 ensures if IsDash(i) then s[i] == '-' else IsLowerHex(s[i]) {
      DashedAt(a, b, c, d, e, i);
      HexIsHex(s[i]);
    }
    DashedAt(a, b, c, d, e, 14);
    DashedAt(a, b, c, d, e, 19);
  }

  /** The uuid test is the source's pattern. */
  lemma UuidIffMatches(s: string)
    ensures CanonicalUuid(s) <==> MatchesUuid(s)
  {
    if CanonicalUuid(s) { UuidMatches(s); }
    if MatchesUuid(s) { MatchIsUuid(s); }
  }

  /** A letter, a digit, an underscore or a dash, by its code point. */
  predicate IsTokenCode(code: int) {
    0x41 <= code <= 0x5A || 0x61 <= code <= 0x7A || 0x30 <= code <= 0x39 || code == 0x5F || code == 0x2D
  }

  predicate MatchesToken(s: string) { |s| > 0 && forall i :: 0 <= i < |s| ==> IsTokenCode(s[i] as int) }

  predicate MatchesDigits(s: string) { |s| > 0 && forall i :: 0 <= i < |s| ==> s[i] in "0123456789" }

  lemma DigitIff(c: char)
    ensures IsDigit(c) <==> c in "0123456789"
  {
  }

  /** The tests of signature and epoch are the source's patterns. */
  lemma TokenIffMatches(s: string)
    ensures Token(s) <==> MatchesToken(s)
  {
    assert forall i :: 0 <= i < |s| ==> (IsTokenChar(s[i]) <==> IsTokenCode(s[i] as int));
  }

  lemma DigitsIffMatches(s: string)
    ensures Digits(s) <==> MatchesDigits(s)
  {
    forall i | 0 <= i < |s| ensures IsDigit(s[i]) <==> s[i] in "0123456789" { DigitIff(s[i]); }
  }

  /** The field is a text that is not blank. */
  predicate HasText(record: Record, field: string) {
    field in record && record[field].Str? && Trim(record[field].text) != ""
  }

  function TextOf(record: Record, field: string): string
    requires HasText(record, field)
  {
    Trim(record[field].text)
  }

  predicate HasAllTexts(record: Record) {
    HasText(record, "connectionHandle") && HasText(record, "providerId") && HasText(record, "methodId")
    && HasText(record, "extensionId") && HasText(record, "origin")
  }

  lemma TextIsRequired(record: Record, field: string)
    ensures HasText(record, field) <==> RequireNonEmptyString(record, field).Ok?
    ensures HasText(record, field) ==> RequireNonEmptyString(record, field).value == TextOf(record, field)
  {
  }

  lemma ParseIsParseBound(record: Record)
    ensures Parse(Some(record)).Ok? ==> HasAllTexts(record)
    ensures HasAllTexts(record) ==>
      Parse(Some(record)) == ParseBound(TextOf(record, "connectionHandle"), TextOf(record, "providerId"),
        TextOf(record, "methodId"), TextOf(record, "extensionId"), TextOf(record, "origin"))
  {
    TextIsRequired(record, "connectionHandle");
    TextIsRequired(record, "providerId");
    TextIsRequired(record, "methodId");
    TextIsRequired(record, "extensionId");
    TextIsRequired(record, "origin");
  }

  /** Main result: a record is accepted if and only if all its fields are non-blank texts and its handle, trimmed, is
      the printed form of its trimmed ids with some well-formed segments whose epoch is below 2^53. */
  lemma ParseAcceptsIff(record: Record)
    ensures Parse(Some(record)).Ok? <==>
      HasAllTexts(record)
      && Printable(TextOf(record, "connectionHandle"), TextOf(record, "providerId"), TextOf(record, "methodId"))
  {
    ParseIsParseBound(record);
    if HasAllTexts(record) {
      AcceptedIffPrintable(TextOf(record, "connectionHandle"), TextOf(record, "providerId"),
        TextOf(record, "methodId"), TextOf(record, "extensionId"), TextOf(record, "origin"));
    }
  }

  /** Main result: parsing what was printed for any ids, dots or not, returns the epoch and the signature it was
      printed from, and an all-digit epoch is refused if and only if it is 2^53 or more. */
  lemma ParseUndoesPrint(record: Record, uuid: string, epoch: string, signature: string)
    requires HasAllTexts(record) && WellFormed(uuid, epoch, signature)
    requires TextOf(record, "connectionHandle")
      == Print(TextOf(record, "providerId"), TextOf(record, "methodId"), uuid, epoch, signature)
    ensures Parse(Some(record)) ==
      if DecimalValue(epoch) <= MAX_SAFE
      then Ok(Handle(TextOf(record, "connectionHandle"), TextOf(record, "providerId"), TextOf(record, "methodId"),
                     TextOf(record, "extensionId"), TextOf(record, "origin"), DecimalValue(epoch), signature))
      else Err(EpochOutOfRange)
  {
    ParseIsParseBound(record);
    ParseOfPrinted(TextOf(record, "providerId"), TextOf(record, "methodId"), TextOf(record, "extensionId"),
      TextOf(record, "origin"), uuid, epoch, signature);
  }

  // ----- which fault is reported --------------------------------------------

  ghost function FieldChecks(record: Record, field: string): seq<Check<ParseError>> {
    [Check(Missing(field), field in record),
     Check(NotAString(field), field in record ==> record[field].Str?),
     Check(Blank(field), field in record && record[field].Str? ==> !AllSpace(record[field].text))]
  }

  /** The tests of the segments behind the prefix. */
  ghost function SegmentChecks(parts: seq<string>): seq<Check<ParseError>> {
    [Check(WrongFormat, |parts| == 3),
     Check(BadUuid, |parts| == 3 ==> MatchesUuid(parts[0])),
     Check(BadEpoch, |parts| == 3 ==> MatchesDigits(parts[1])),
     Check(EpochOutOfRange, |parts| == 3 && Digits(parts[1]) ==> DecimalValue(parts[1]) < 0x20_0000_0000_0000),
     Check(BadSignature, |parts| == 3 ==> MatchesToken(parts[2]))]
  }

  ghost function TextChecks(handle: string, p: string, m: string): seq<Check<ParseError>> {
    [Check(WrongBinding, Prefix(p, m) <= handle)]
    + if Prefix(p, m) <= handle then SegmentChecks(Split(handle[|Prefix(p, m)|..], '.')) else []
  }

  /** The tests of the fields in order, and then others. */
  ghost function ChecksFrom(record: Record, fields: seq<string>, last: seq<Check<ParseError>>): seq<Check<ParseError>>
    decreases |fields|
  {
    if fields == [] then last else FieldChecks(record, fields[0]) + ChecksFrom(record, fields[1..], last)
  }

  const FIELDS: seq<string> := ["connectionHandle", "providerId", "methodId", "extensionId", "origin"]

  /** All tests in order: each field's, and those of the handle's text once there are all texts. */
  ghost function AllChecks(record: Record): seq<Check<ParseError>> {
    ChecksFrom(record, FIELDS, BindingChecks(record))
  }

  ghost function BindingChecks(record: Record): seq<Check<ParseError>> {
    if HasAllTexts(record)
    then TextChecks(TextOf(record, "connectionHandle"), TextOf(record, "providerId"), TextOf(record, "methodId"))
    else []
  }

  /** What a result has to do with the tests. */
  ghost predicate Obeys<T>(checks: seq<Check<ParseError>>, r: Result<T, ParseError>) {
    if r.Ok? then AllPassed(checks) else FailsFirst(checks, r.error)
  }

  lemma NotBlank(text: string)
    ensures Trim(text) == "" <==> AllSpace(text)
  {
    TrimIffSpaceAround(text, "");
    if AllSpace(text) { assert text == text + "" + ""; }
  }

  lemma FieldObeys(record: Record, field: string)
    ensures Obeys(FieldChecks(record, field), RequireNonEmptyString(record, field))
  {
    var checks := FieldChecks(record, field);
    if field in record && record[field].Str? { NotBlank(record[field].text); }
    if !checks[0].passed { FailsAt(checks, 0); }
    else if !checks[1].passed { FailsAt(checks, 1); }
    else if !checks[2].passed { FailsAt(checks, 2); }
  }

  lemma SegmentsObey(parts: seq<string>)
    ensures Obeys(SegmentChecks(parts), ParseSuffix(parts))
  {
    var checks := SegmentChecks(parts);
    if |parts| == 3 {
      UuidIffMatches(parts[0]);
      DigitsIffMatches(parts[1]);
      TokenIffMatches(parts[2]);
    }
    if !checks[0].passed { FailsAt(checks, 0); }
    else if !checks[1].passed { FailsAt(checks, 1); }
    else if !checks[2].passed { FailsAt(checks, 2); }
    else if !checks[3].passed { FailsAt(checks, 3); }
    else if !checks[4].passed { FailsAt(checks, 4); }
  }

  lemma TextObeys(handle: string, p: string, m: string, x: string, o: string)
    ensures Obeys(TextChecks(handle, p, m), ParseBound(handle, p, m, x, o))
  {
    var first := [Check(WrongBinding, Prefix(p, m) <= handle)];
    if Prefix(p, m) <= handle {
      var parts := Split(handle[|Prefix(p, m)|..], '.');
      SegmentsObey(parts);
      PassedConcat(first, SegmentChecks(parts));
      if ParseSuffix(parts).Err? { FailsInSecond(first, SegmentChecks(parts), ParseSuffix(parts).error); }
    } else {
      FailsAt(TextChecks(handle, p, m), 0);
    }
  }

  /** The first of two groups of tests decides, unless it is passed. */
  lemma ObeysBoth<S, T>(a: seq<Check<ParseError>>, b: seq<Check<ParseError>>, r: Result<S, ParseError>,
                        rest: Result<T, ParseError>)
    requires Obeys(a, r) && (r.Ok? ==> Obeys(b, rest))
    ensures Obeys(a + b, if r.Err? then Err(r.error) else rest)
  {
    PassedConcat(a, b);
    if r.Err? { FailsInFirst(a, b, r.error); }
    else if rest.Err? { FailsInSecond(a, b, rest.error); }
  }

  lemma BindingObeys(record: Record)
    requires HasAllTexts(record)
    ensures Obeys(BindingChecks(record), Parse(Some(record)))
  {
    ParseIsParseBound(record);
    TextObeys(TextOf(record, "connectionHandle"), TextOf(record, "providerId"), TextOf(record, "methodId"),
              TextOf(record, "extensionId"), TextOf(record, "origin"));
  }

  /** What is made of a record from the first of some fields on. */
  function ParseFrom(record: Record, fields: seq<string>, rest: Result<Handle, ParseError>): Result<Handle, ParseError>
    decreases |fields|
  {
    if fields == [] then rest
    else
      var r := RequireNonEmptyString(record, fields[0]);
      if r.Err? then Err(r.error) else ParseFrom(record, fields[1..], rest)
  }

  predicate HasTexts(record: Record, fields: seq<string>) { forall f :: f in fields ==> HasText(record, f) }

  lemma {:induction false} FieldsObey(record: Record, fields: seq<string>, last: seq<Check<ParseError>>,
                                      rest: Result<Handle, ParseError>)
    requires HasTexts(record, fields) ==> Obeys(last, rest)
    ensures Obeys(ChecksFrom(record, fields, last), ParseFrom(record, fields, rest))
    decreases |fields|
  {
    if fields != [] {
      var r := RequireNonEmptyString(record, fields[0]);
      FieldObeys(record, fields[0]);
      TextIsRequired(record, fields[0]);
      if r.Ok? { FieldsObey(record, fields[1..], last, rest); }
      ObeysBoth(FieldChecks(record, fields[0]), ChecksFrom(record, fields[1..], last), r,
                ParseFrom(record, fields[1..], rest));
    }
  }

  lemma ParseFromOne(record: Record, f: string, fields: seq<string>, rest: Result<Handle, ParseError>)
    ensures ParseFrom(record, [f] + fields, rest) ==
      var r := RequireNonEmptyString(record, f);
      if r.Err? then Err(r.error) else ParseFrom(record, fields, rest)
  {
    assert ([f] + fields)[1..] == fields;
  }

  lemma ParseIsInOrder(record: Record)
    ensures Parse(Some(record)) == ParseFrom(record, FIELDS, Parse(Some(record)))
  {
    var rest := Parse(Some(record));
    ParseFromOne(record, "origin", [], rest);
    ParseFromOne(record, "extensionId", ["origin"], rest);
    ParseFromOne(record, "methodId", ["extensionId", "origin"], rest);
    ParseFromOne(record, "providerId", ["methodId", "extensionId", "origin"], rest);
    ParseFromOne(record, "connectionHandle", ["providerId", "methodId", "extensionId", "origin"], rest);
  }

  lemma HasTextsHasAll(record: Record)
    requires HasTexts(record, FIELDS)
    ensures HasAllTexts(record)
  {
    assert FIELDS[0] in FIELDS && FIELDS[1] in FIELDS && FIELDS[2] in FIELDS && FIELDS[3] in FIELDS
      && FIELDS[4] in FIELDS;
  }

  lemma BindingObeysIfTexts(record: Record)
    ensures HasTexts(record, FIELDS) ==> Obeys(BindingChecks(record), Parse(Some(record)))
  {
    if HasTexts(record, FIELDS) {
      HasTextsHasAll(record);
      BindingObeys(record);
    }
  }

  /** Main result: the fault that is reported is that of the first test that fails, field by field and then from the
      binding to the signature. */
  lemma ErrorsMean(record: Record)
    ensures Parse(None) == Err(NotAnObject)
    ensures if Parse(Some(record)).Ok? then AllPassed(AllChecks(record))
            else FailsFirst(AllChecks(record), Parse(Some(record)).error)
  {
    BindingObeysIfTexts(record);
    FieldsObey(record, FIELDS, BindingChecks(record), Parse(Some(record)));
    ParseIsInOrder(record);
  }

  /** An epoch printed from a number comes back as that number. */
  lemma EpochComesBack(n: nat)
    ensures Digits(Decimal(n)) && DecimalValue(Decimal(n)) == n
  {
    DecimalRoundTrip(n);
  }

  /** The record that a caller builds from a printed handle and the ids it was printed for. */
  function Printed(p: string, m: string, x: string, o: string, uuid: string, epoch: string, signature: string): Record {
    map["connectionHandle" := Str(Print(p, m, uuid, epoch, signature)),
        "providerId" := Str(p), "methodId" := Str(m), "extensionId" := Str(x), "origin" := Str(o)]
  }

  predicate IsText(s: string) { s != "" && Trimmed(s) }

  lemma PrintedHasText(record: Record, field: string, text: string)
    requires IsText(text) && field in record && record[field] == Str(text)
    ensures HasText(record, field) && TextOf(record, field) == text
  {
    TrimOfTrimmed(text);
  }

  lemma PrintedHasAllTexts(p: string, m: string, x: string, o: string, uuid: string, epoch: string, signature: string)
    requires IsText(p) && IsText(m) && IsText(x) && IsText(o) && WellFormed(uuid, epoch, signature)
    ensures var record := Printed(p, m, x, o, uuid, epoch, signature);
      && HasAllTexts(record)
      && TextOf(record, "connectionHandle") == Print(p, m, uuid, epoch, signature)
      && TextOf(record, "providerId") == p && TextOf(record, "methodId") == m
      && TextOf(record, "extensionId") == x && TextOf(record, "origin") == o
  {
    var record := Printed(p, m, x, o, uuid, epoch, signature);
    PrintedIsTrimmed(p, m, uuid, epoch, signature);
    PrintedHasText(record, "connectionHandle", Print(p, m, uuid, epoch, signature));
    PrintedHasText(record, "providerId", p);
    PrintedHasText(record, "methodId", m);
    PrintedHasText(record, "extensionId", x);
    PrintedHasText(record, "origin", o);
  }

  /** Main result: a handle that is printed for any non-blank trimmed ids and any number comes back as that number and
      the signature, and is refused if and only if the number is 2^53 or more. */
  lemma PrintedHandleComesBack(p: string, m: string, x: string, o: string, uuid: string, n: nat, signature: string)
    requires IsText(p) && IsText(m) && IsText(x) && IsText(o) && CanonicalUuid(uuid) && Token(signature)
    ensures Parse(Some(Printed(p, m, x, o, uuid, Decimal(n), signature))) ==
      if n <= MAX_SAFE then Ok(Handle(Print(p, m, uuid, Decimal(n), signature), p, m, x, o, n, signature))
      else Err(EpochOutOfRange)
  {
    EpochComesBack(n);
    PrintedHasAllTexts(p, m, x, o, uuid, Decimal(n), signature);
    ParseUndoesPrint(Printed(p, m, x, o, uuid, Decimal(n), signature), uuid, Decimal(n), signature);
  }

  // ----- handles and bindings -----------------------------------------------

  lemma {:induction false} GlueLength(l: seq<string>, r: seq<string>)
    requires l != [] && r != []
    ensures |Glue(l, r)| == |l| + |r| - 1
  {
    if |l| > 1 { GlueLength(l[1..], r); }
  }

  lemma PartsAddUp(z: string, w: string)
    ensures |Split(z + ("." + w), '.')| == |Split(z, '.')| + |Split(w, '.')|
  {
    SplitOfConcat(z, "." + w, '.');
    assert ("." + w)[1..] == w;
    GlueLength(Split(z, '.'), Split("." + w, '.'));
  }

  lemma LongerSuffixContains(text: string, a: string, r: string, b: string, t: string)
    requires text == a + ("." + r) && text == b + ("." + t) && |r| > |t|
    ensures r == r[..|r| - |t| - 1] + ("." + t)
  {
    var k := |r| - |t| - 1;
    assert r == text[|a| + 1..];
    assert "." + t == text[|b|..];
    assert |b| == |a| + 1 + k;
    assert r[k..] == text[|b|..];
    assert r == r[..k] + r[k..];
  }

  /** A text with more characters in its last three segments would have more than three. */
  lemma NoLongerSuffix(text: string, a: string, r: string, b: string, t: string)
    requires text == a + ("." + r) && text == b + ("." + t)
    requires |Split(r, '.')| == |Split(t, '.')|
    ensures |r| <= |t|
  {
    if |r| > |t| {
      LongerSuffixContains(text, a, r, b, t);
      PartsAddUp(r[..|r| - |t| - 1], t);
    }
  }

  /** The id part of a binding. */
  function Ids(p: string, m: string): string { p + ("." + m) }

  lemma PrefixIsIds(p: string, m: string, rest: string)
    ensures Prefix(p, m) + rest == ("connh." + Ids(p, m)) + ("." + rest)
    ensures Prefix(p, m) == "connh." + (Ids(p, m) + ".")
  {
    assert p + ("." + (m + ".")) == Ids(p, m) + ".";
    assert ("connh." + (Ids(p, m) + ".")) + rest == ("connh." + Ids(p, m)) + ("." + rest);
  }

  lemma SameTextSameIds(p: string, m: string, r: string, q: string, n: string, t: string)
    requires Prefix(p, m) + r == Prefix(q, n) + t && |Split(r, '.')| == |Split(t, '.')|
    ensures Ids(p, m) == Ids(q, n)
  {
    var text := Prefix(p, m) + r;
    PrefixIsIds(p, m, r);
    PrefixIsIds(q, n, t);
    var a, b := "connh." + Ids(p, m), "connh." + Ids(q, n);
    NoLongerSuffix(text, a, r, b, t);
    NoLongerSuffix(text, b, t, a, r);
    assert a == text[..|text| - |r| - 1] && b == text[..|text| - |t| - 1];
    assert Ids(p, m) == a[6..] && Ids(q, n) == b[6..];
  }

  /** Main result: a handle accepted under one binding is accepted under another if and only if the two ids, joined
      by a dot, read the same; so when ids may hold dots, a handle does not determine its provider. */
  lemma AcceptedUnderBothIff(handle: string, p: string, m: string, q: string, n: string, x: string, o: string)
    requires ParseBound(handle, p, m, x, o).Ok?
    ensures ParseBound(handle, q, n, x, o).Ok? <==> Ids(p, m) == Ids(q, n)
  {
    if ParseBound(handle, q, n, x, o).Ok? {
      AcceptedHasThree(handle, p, m, x, o);
      AcceptedHasThree(handle, q, n, x, o);
      SameTextSameIds(p, m, handle[|Prefix(p, m)|..], q, n, handle[|Prefix(q, n)|..]);
    }
    if Ids(p, m) == Ids(q, n) {
      PrefixIsIds(p, m, "");
      PrefixIsIds(q, n, "");
    }
  }

  lemma AcceptedHasThree(handle: string, p: string, m: string, x: string, o: string)
    requires ParseBound(handle, p, m, x, o).Ok?
    ensures |Prefix(p, m)| <= |handle| && handle == Prefix(p, m) + handle[|Prefix(p, m)|..]
    ensures |Split(handle[|Prefix(p, m)|..], '.')| == 3
  {
  }

  // ----- the number type ----------------------------------------------------

  /** A rounding of natural numbers that is exact below 2^53 and keeps order, as conversion to a double does. */
  ghost predicate RoundsLikeDouble(round: nat -> nat) {
    && (forall n: nat :: n <= MAX_SAFE + 1 ==> round(n) == n)
    && (forall a: nat, b: nat :: a <= b ==> round(a) <= round(b))
  }

  /** Rounding changes neither which epochs are accepted nor the value of an accepted one. */
  lemma RoundingIsHarmless(round: nat -> nat, n: nat)
    requires RoundsLikeDouble(round)
    ensures round(n) <= MAX_SAFE <==> n <= MAX_SAFE
    ensures n <= MAX_SAFE ==> round(n) == n
  {
    assert round(MAX_SAFE + 1) == MAX_SAFE + 1;
  }
}
