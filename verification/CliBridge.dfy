/** The CLI bridge adapter: requests and streams multiplexed over one process, one JSON message a line. */
module CliBridge {
  import opened Text
  import opened Wrappers

  datatype Kind = Chunk | StreamEnd | ErrorReply | OtherReply

  datatype Id = NoId | ForeignId | TextId(text: string)

  /** `JSON.parse` of a line: not JSON, the value `null`, or a message. Other values have no id. */
  datatype Parsed = NotJson | Null | Message(id: Id, kind: Kind, content: string)

  /** How a line reads: the adapter trims it, skips it if it is blank, and otherwise parses it as JSON. */
  type Reader = string -> Parsed

  /** Whether a stream's chunk callback throws: its id, what its caller got so far, and the chunk. */
  type Callback = (string, seq<Outcome>, string) -> bool

  /** What the adapter is given from outside. */
  datatype Environment = Environment(reader: Reader, throws: Callback)

  /** What a caller's callback and promise get. */
  datatype Outcome = Delivered(content: string) | Resolved(content: string) | Rejected

  /** What the adapter keeps, and in `seen` what each caller got. */
  datatype State = State(
    buffer: string, counter: nat, pending: set<string>, streams: set<string>, seen: map<string, seq<Outcome>>)

  const START: State := State("", 0, {}, {}, map[])

  // ----- one line -----------------------------------------------------------

  function Readings(lines: seq<string>, reader: Reader): seq<Parsed> {
    seq(|lines|, i requires 0 <= i < |lines| => reader(lines[i]))
  }

  function At(s: State, id: string): seq<Outcome> { if id in s.seen then s.seen[id] else [] }

  function Emit(s: State, id: string, o: Outcome): State { s.(seen := s.seen[id := At(s, id) + [o]]) }

  function Settle(s: State, id: string, o: Outcome): State {
    Emit(s.(pending := s.pending - {id}, streams := s.streams - {id}), id, o)
  }

  function HandleMessage(s: State, id: string, kind: Kind, content: string): State {
    if kind == Chunk then (if id in s.streams && content != "" then Emit(s, id, Delivered(content)) else s)
    else if kind == StreamEnd then (if id in s.streams then Settle(s, id, Resolved("")) else s)
    else if kind == ErrorReply && id in s.streams then Settle(s, id, Rejected)
    else if id in s.pending then Settle(s, id, Resolved(content))
    else s
  }

  function HandleLine(s: State, p: Parsed): State {
    match p
    case Message(TextId(id), kind, content) => HandleMessage(s, id, kind, content)
    case _ => s
  }

  /** A chunk that reaches a callback. */
  predicate Delivers(s: State, p: Parsed) {
    p.Message? && p.id.TextId? && p.kind == Chunk && p.id.text in s.streams && p.content != ""
  }

  /** Reading the id of `null` throws, and so may the callback that gets a chunk; neither is caught. */
  predicate Faults(s: State, p: Parsed, throws: Callback) {
    p == Null || (Delivers(s, p) && throws(p.id.text, At(s, p.id.text), p.content))
  }

  /** The lines of one data event: a fault ends the loop, and the rest are not handled. */
  function HandleLines(s: State, read: seq<Parsed>, throws: Callback): State
    decreases |read|
  {
    if read == [] then s
    else
      var t := HandleLine(s, read[0]);
      if Faults(s, read[0], throws) then t else HandleLines(t, read[1..], throws)
  }

  function Last(parts: seq<string>): string
    requires parts != []
  {
    parts[|parts| - 1]
  }

  function Complete<T>(parts: seq<T>): seq<T>
    requires parts != []
  {
    parts[..|parts| - 1]
  }

  /** One data event. */
  function Feed(s: State, data: string, env: Environment): State {
    var parts := Split(s.buffer + data, '\n');
    HandleLines(s.(buffer := Last(parts)), Readings(Complete(parts), env.reader), env.throws)
  }

  function FeedAll(s: State, chunks: seq<string>, env: Environment): State
    decreases |chunks|
  {
    if chunks == [] then s else FeedAll(Feed(s, chunks[0], env), chunks[1..], env)
  }

  function Concat(chunks: seq<string>): string
    decreases |chunks|
  {
    if chunks == [] then "" else chunks[0] + Concat(chunks[1..])
  }

  // ----- splitting at any point ---------------------------------------------

  lemma CompleteCons(l: seq<string>)
    requires |l| > 1
    ensures Complete(l) == [l[0]] + Complete(l[1..])
  {
  }

  lemma {:induction false} GlueAtLast(l: seq<string>, r: seq<string>)
    requires l != [] && r != []
    ensures Glue(l, r) == Complete(l) + Glue([Last(l)], r)
  {
    if |l| == 1 {
      assert l == [Last(l)] && Complete(l) == [];
      assert [] + Glue(l, r) == Glue(l, r);
    } else {
      GlueAtLast(l[1..], r);
      CompleteCons(l);
      Associate([l[0]], Complete(l[1..]), Glue([Last(l)], r));
    }
  }

  /** Splitting a text that arrives in two parts: the last piece of the first part is carried over. */
  lemma SplitCarriesOver(a: string, b: string)
    ensures Split(a + b, '\n') == Complete(Split(a, '\n')) + Split(Last(Split(a, '\n')) + b, '\n')
  {
    var l, r := Split(a, '\n'), Split(b, '\n');
    var tail := Last(l);
    assert tail in l;
    SplitOfConcat(a, b, '\n');
    SplitWithoutSeparator(tail, '\n');
    SplitOfConcat(tail, b, '\n');
    GlueAtLast(l, r);
  }

  lemma ReadingsConcat(a: seq<string>, b: seq<string>, reader: Reader)
    ensures Readings(a + b, reader) == Readings(a, reader) + Readings(b, reader)
  {
  }

  lemma HandleLineFrame(s: State, p: Parsed, b: string)
    ensures HandleLine(s, p).buffer == s.buffer
    ensures HandleLine(s.(buffer := b), p) == HandleLine(s, p).(buffer := b)
  {
  }

  lemma {:induction false} HandleLinesKeepsBuffer(s: State, read: seq<Parsed>, b: string, throws: Callback)
    ensures HandleLines(s, read, throws).buffer == s.buffer
    ensures HandleLines(s.(buffer := b), read, throws) == HandleLines(s, read, throws).(buffer := b)
    decreases |read|
  {
    if read != [] {
      HandleLineFrame(s, read[0], b);
      if !Faults(s, read[0], throws) { HandleLinesKeepsBuffer(HandleLine(s, read[0]), read[1..], b, throws); }
    }
  }

  // ----- what a fault hides -------------------------------------------------

  predicate NoFault(s: State, read: seq<Parsed>, throws: Callback)
    decreases |read|
  {
    read == [] || (!Faults(s, read[0], throws) && NoFault(HandleLine(s, read[0]), read[1..], throws))
  }

  /** The lines whose handling is begun: all, or those up to the first that faults. */
  function HandledPart(s: State, read: seq<Parsed>, throws: Callback): seq<Parsed>
    decreases |read|
  {
    if read == [] then []
    else [read[0]] + if Faults(s, read[0], throws) then [] else HandledPart(HandleLine(s, read[0]), read[1..], throws)
  }

  /** A line that reaches a waiting caller: a chunk, an end or an error of its stream, or the reply to its request. */
  predicate Effective(s: State, p: Parsed) {
    p.Message? && p.id.TextId?
    && match p.kind
       case Chunk => p.id.text in s.streams && p.content != ""
       case StreamEnd => p.id.text in s.streams
       case ErrorReply => p.id.text in s.streams || p.id.text in s.pending
       case OtherReply => p.id.text in s.pending
  }

  predicate NoneEffective(s: State, read: seq<Parsed>) { forall i :: 0 <= i < |read| ==> !Effective(s, read[i]) }

  /** After the first line that faults, if any does, no line has an effect. */
  predicate QuietAfterFault(s: State, read: seq<Parsed>, throws: Callback)
    decreases |read|
  {
    if read == [] then true
    else
      var t := HandleLine(s, read[0]);
      if Faults(s, read[0], throws) then NoneEffective(t, read[1..]) else QuietAfterFault(t, read[1..], throws)
  }

  /** All lines, whatever faults: what lines in data events of their own do. */
  function HandleAll(s: State, read: seq<Parsed>): State
    decreases |read|
  {
    if read == [] then s else HandleAll(HandleLine(s, read[0]), read[1..])
  }

  /** The retained text has no part in what the lines do. */
  lemma {:induction false} BufferFrame(s: State, b: string, read: seq<Parsed>, throws: Callback)
    ensures NoFault(s.(buffer := b), read, throws) <==> NoFault(s, read, throws)
    ensures HandledPart(s.(buffer := b), read, throws) == HandledPart(s, read, throws)
    ensures QuietAfterFault(s.(buffer := b), read, throws) <==> QuietAfterFault(s, read, throws)
    ensures HandleAll(s.(buffer := b), read) == HandleAll(s, read).(buffer := b)
    decreases |read|
  {
    if read != [] {
      HandleLineFrame(s, read[0], b);
      BufferFrame(HandleLine(s, read[0]), b, read[1..], throws);
    }
  }

  /** A line has an effect exactly when its caller gets something, and no line takes anything back. */
  lemma EffectIsSeen(s: State, p: Parsed, id: string)
    ensures |At(HandleLine(s, p), id)| == |At(s, id)| + if Effective(s, p) && p.id.text == id then 1 else 0
    ensures !Effective(s, p) ==> HandleLine(s, p) == s
  {
  }

  lemma {:induction false} NothingIsTakenBack(s: State, read: seq<Parsed>, id: string)
    ensures |At(HandleAll(s, read), id)| >= |At(s, id)|
    decreases |read|
  {
    if read != [] {
      EffectIsSeen(s, read[0], id);
      NothingIsTakenBack(HandleLine(s, read[0]), read[1..], id);
    }
  }

  lemma {:induction false} NoEffectNoChange(s: State, read: seq<Parsed>, throws: Callback)
    requires NoneEffective(s, read)
    ensures HandleAll(s, read) == s && QuietAfterFault(s, read, throws)
    decreases |read|
  {
    if read != [] {
      EffectIsSeen(s, read[0], "");
      assert forall i :: 0 <= i < |read[1..]| ==> read[1..][i] == read[i + 1];
      NoEffectNoChange(s, read[1..], throws);
    }
  }

  lemma {:induction false} SomeEffectIsSeen(s: State, read: seq<Parsed>) returns (id: string)
    requires !NoneEffective(s, read)
    ensures |At(HandleAll(s, read), id)| > |At(s, id)|
    decreases |read|
  {
    if Effective(s, read[0]) {
      id := read[0].id.text;
      EffectIsSeen(s, read[0], id);
      NothingIsTakenBack(HandleLine(s, read[0]), read[1..], id);
    } else {
      EffectIsSeen(s, read[0], "");
      assert forall i :: 1 <= i < |read| ==> read[i] == read[1..][i - 1];
      id := SomeEffectIsSeen(s, read[1..]);
    }
  }

  /** A fault makes no difference exactly when the lines it hides have no effect. */
  lemma {:induction false} QuietIffNothingIsHidden(s: State, read: seq<Parsed>, throws: Callback)
    ensures QuietAfterFault(s, read, throws) <==> HandleLines(s, read, throws) == HandleAll(s, read)
    decreases |read|
  {
    if read != [] {
      var t := HandleLine(s, read[0]);
      if !Faults(s, read[0], throws) {
        QuietIffNothingIsHidden(t, read[1..], throws);
      } else if NoneEffective(t, read[1..]) {
        NoEffectNoChange(t, read[1..], throws);
      } else {
        var id := SomeEffectIsSeen(t, read[1..]);
      }
    }
  }

  lemma {:induction false} HandleAllConcat(s: State, a: seq<Parsed>, b: seq<Parsed>)
    ensures HandleAll(s, a + b) == HandleAll(HandleAll(s, a), b)
    decreases |a|
  {
    if a == [] {
      assert a + b == b;
    } else {
      assert (a + b)[1..] == a[1..] + b && (a + b)[0] == a[0];
      HandleAllConcat(HandleLine(s, a[0]), a[1..], b);
    }
  }

  lemma NoneEffectiveOfConcat(s: State, a: seq<Parsed>, b: seq<Parsed>)
    requires NoneEffective(s, a + b)
    ensures NoneEffective(s, a) && NoneEffective(s, b)
  {
    assert forall i :: 0 <= i < |a| ==> (a + b)[i] == a[i];
    assert forall i :: 0 <= i < |b| ==> (a + b)[|a| + i] == b[i];
  }

  lemma {:induction false} QuietOfConcat(s: State, a: seq<Parsed>, b: seq<Parsed>, throws: Callback)
    requires QuietAfterFault(s, a + b, throws)
    ensures QuietAfterFault(s, a, throws) && QuietAfterFault(HandleAll(s, a), b, throws)
    decreases |a|
  {
    if a == [] {
      assert a + b == b;
    } else {
      var t := HandleLine(s, a[0]);
      assert (a + b)[1..] == a[1..] + b && (a + b)[0] == a[0];
      if Faults(s, a[0], throws) {
        NoneEffectiveOfConcat(t, a[1..], b);
        NoEffectNoChange(t, a[1..], throws);
        NoEffectNoChange(t, b, throws);
      } else {
        QuietOfConcat(t, a[1..], b, throws);
      }
    }
  }

  /** A line faults when it is `null`, or a chunk with some text for a stream whose callback throws on it. */
  lemma FaultsMean(s: State, p: Parsed, throws: Callback)
    ensures Faults(s, p, throws) <==>
      match p
      case Null => true
      case Message(TextId(id), Chunk, content) =>
        id in s.streams && |content| > 0 && throws(id, if id in s.seen then s.seen[id] else [], content)
      case _ => false
  {
  }

  /** No line faults in the state that the lines before it leave. */
  lemma {:induction false} NoFaultIff(s: State, read: seq<Parsed>, throws: Callback)
    ensures NoFault(s, read, throws) <==>
      forall i :: 0 <= i < |read| ==> !Faults(HandleAll(s, read[..i]), read[i], throws)
    decreases |read|
  {
    if read != [] {
      var t := HandleLine(s, read[0]);
      NoFaultIff(t, read[1..], throws);
      assert HandleAll(s, read[..0]) == s;
      forall i | 0 < i < |read| ensures HandleAll(s, read[..i]) == HandleAll(t, read[1..][..i - 1]) {
        assert read[..i][1..] == read[1..][..i - 1];
      }
      forall i | 0 <= i < |read| - 1
        ensures Faults(HandleAll(t, read[1..][..i]), read[1..][i], throws)
           <==> Faults(HandleAll(s, read[..i + 1]), read[i + 1], throws)
      {
        assert read[1..][i] == read[i + 1];
      }
      if NoFault(s, read, throws) {
        forall i | 0 <= i < |read| ensures !Faults(HandleAll(s, read[..i]), read[i], throws) {
          if i > 0 { assert !Faults(HandleAll(t, read[1..][..i - 1]), read[1..][i - 1], throws); }
        }
      }
    }
  }

  // ----- chunk independence -------------------------------------------------

  /** What is read from the lines that a text completes. */
  function Lines(s: State, data: string, env: Environment): seq<Parsed> {
    Readings(Complete(Split(s.buffer + data, '\n')), env.reader)
  }

  /** The text retained after a data event. */
  function Tail(s: State, data: string): string { Last(Split(s.buffer + data, '\n')) }

  lemma FeedBuffer(s: State, data: string, env: Environment)
    ensures Feed(s, data, env).buffer == Tail(s, data)
    ensures '\n' !in Feed(s, data, env).buffer
  {
    var parts := Split(s.buffer + data, '\n');
    assert Last(parts) in parts;
    HandleLinesKeepsBuffer(s.(buffer := Last(parts)), Lines(s, data, env), "", env.throws);
  }

  lemma LinesOfConcat(s: State, t: State, a: string, b: string, env: Environment)
    requires t.buffer == Tail(s, a)
    ensures Lines(s, a + b, env) == Lines(s, a, env) + Lines(t, b, env)
    ensures Tail(s, a + b) == Tail(t, b)
  {
    assert s.buffer + (a + b) == (s.buffer + a) + b;
    SplitCarriesOver(s.buffer + a, b);
    var l, r := Complete(Split(s.buffer + a, '\n')), Split(t.buffer + b, '\n');
    assert Complete(l + r) == l + Complete(r);
    ReadingsConcat(l, Complete(r), env.reader);
  }

  /** Everything the completed lines do, one at a time. */
  function FeedLines(s: State, data: string, env: Environment): State {
    HandleAll(s, Lines(s, data, env)).(buffer := Tail(s, data))
  }

  lemma FeedIsFeedLinesIff(s: State, data: string, env: Environment)
    ensures QuietAfterFault(s, Lines(s, data, env), env.throws) <==> Feed(s, data, env) == FeedLines(s, data, env)
  {
    var t := s.(buffer := Tail(s, data));
    BufferFrame(s, Tail(s, data), Lines(s, data, env), env.throws);
    QuietIffNothingIsHidden(t, Lines(s, data, env), env.throws);
  }

  lemma FeedLinesTwice(s: State, a: string, b: string, env: Environment)
    ensures FeedLines(FeedLines(s, a, env), b, env) == FeedLines(s, a + b, env)
  {
    var t := FeedLines(s, a, env);
    LinesOfConcat(s, t, a, b, env);
    HandleAllConcat(s, Lines(s, a, env), Lines(t, b, env));
    BufferFrame(HandleAll(s, Lines(s, a, env)), Tail(s, a), Lines(t, b, env), env.throws);
  }

  lemma QuietTwice(s: State, a: string, b: string, env: Environment)
    requires QuietAfterFault(s, Lines(s, a + b, env), env.throws)
    ensures var t := FeedLines(s, a, env);
      QuietAfterFault(s, Lines(s, a, env), env.throws) && QuietAfterFault(t, Lines(t, b, env), env.throws)
  {
    var t := FeedLines(s, a, env);
    LinesOfConcat(s, t, a, b, env);
    QuietOfConcat(s, Lines(s, a, env), Lines(t, b, env), env.throws);
    BufferFrame(HandleAll(s, Lines(s, a, env)), Tail(s, a), Lines(t, b, env), env.throws);
  }

  lemma NoData(s: State, env: Environment)
    requires '\n' !in s.buffer
    ensures Lines(s, "", env) == [] && FeedLines(s, "", env) == s
  {
    assert s.buffer + "" == s.buffer;
    SplitWithoutSeparator(s.buffer, '\n');
  }

  /** Without effects behind a fault, every chunking does what the lines do one at a time. */
  lemma {:induction false} QuietChunks(s: State, chunks: seq<string>, env: Environment)
    requires '\n' !in s.buffer && QuietAfterFault(s, Lines(s, Concat(chunks), env), env.throws)
    ensures FeedAll(s, chunks, env) == FeedLines(s, Concat(chunks), env)
    decreases |chunks|
  {
    if chunks == [] {
      NoData(s, env);
    } else {
      var rest := Concat(chunks[1..]);
      FeedBuffer(s, chunks[0], env);
      QuietTwice(s, chunks[0], rest, env);
      FeedIsFeedLinesIff(s, chunks[0], env);
      QuietChunks(Feed(s, chunks[0], env), chunks[1..], env);
      FeedLinesTwice(s, chunks[0], rest, env);
    }
  }

  /** The finest chunking: one character a data event. */
  function Singles(data: string): (chunks: seq<string>)
    ensures Concat(chunks) == data
  {
    if data == "" then [] else
      assert [data[0]] + data[1..] == data;
      assert ([[data[0]]] + Singles(data[1..]))[1..] == Singles(data[1..]);
      [[data[0]]] + Singles(data[1..])
  }

  /** One character completes at most one line, so nothing is hidden. */
  lemma OneCharacter(s: State, c: char, env: Environment)
    requires '\n' !in s.buffer
    ensures Feed(s, [c], env) == FeedLines(s, [c], env)
  {
    SplitWithoutSeparator(s.buffer, '\n');
    SplitOfConcat(s.buffer, [c], '\n');
    assert [c][1..] == "";
    assert |Split([c], '\n')| <= 2;
    assert |Lines(s, [c], env)| <= 1;
    FeedIsFeedLinesIff(s, [c], env);
  }

  lemma {:induction false} SinglesHideNothing(s: State, data: string, env: Environment)
    requires '\n' !in s.buffer
    ensures FeedAll(s, Singles(data), env) == FeedLines(s, data, env)
    decreases |data|
  {
    if data == "" {
      NoData(s, env);
    } else {
      var c, rest := [data[0]], data[1..];
      assert data == c + rest && Singles(data)[1..] == Singles(rest);
      FeedBuffer(s, c, env);
      OneCharacter(s, data[0], env);
      SinglesHideNothing(Feed(s, c, env), rest, env);
      FeedLinesTwice(s, c, rest, env);
    }
  }

  /** Every chunking leaves the adapter, and every caller, with the same. */
  ghost predicate ChunkIndependent(s: State, data: string, env: Environment) {
    forall chunks :: Concat(chunks) == data ==> FeedAll(s, chunks, env) == Feed(s, data, env)
  }

  /** Main result: every chunking of a text has the same effect if and only if, after the first line it completes that
      faults, by reading `null` or by bringing a chunk to a callback that throws on it, no line has an effect. */
  lemma ChunkIndependentIff(s: State, data: string, env: Environment)
    requires '\n' !in s.buffer
    ensures ChunkIndependent(s, data, env) <==> QuietAfterFault(s, Lines(s, data, env), env.throws)
  {
    FeedIsFeedLinesIff(s, data, env);
    if QuietAfterFault(s, Lines(s, data, env), env.throws) {
      forall chunks | Concat(chunks) == data ensures FeedAll(s, chunks, env) == Feed(s, data, env) {
        QuietChunks(s, chunks, env);
      }
    } else {
      SinglesHideNothing(s, data, env);
      assert FeedAll(s, Singles(data), env) != Feed(s, data, env);
    }
  }

  /** Main result: whatever the chunking and whatever threw, the retained buffer is the text after the last newline. */
  lemma {:induction false} BufferIsTail(s: State, chunks: seq<string>, env: Environment)
    requires '\n' !in s.buffer
    ensures FeedAll(s, chunks, env).buffer == Last(Split(s.buffer + Concat(chunks), '\n'))
    decreases |chunks|
  {
    if chunks == [] {
      assert s.buffer + "" == s.buffer;
      SplitWithoutSeparator(s.buffer, '\n');
    } else {
      var t := Feed(s, chunks[0], env);
      FeedBuffer(s, chunks[0], env);
      LinesOfConcat(s, t, chunks[0], Concat(chunks[1..]), env);
      BufferIsTail(t, chunks[1..], env);
    }
  }

  // ----- the adapter's own reader -------------------------------------------

  /** The adapter's own reader, over the JSON parser; `None` stands for a text that is not JSON. */
  function LineReader(parse: string -> Option<Parsed>): Reader {
    (line: string) =>
      if Trim(line) == "" || parse(Trim(line)) == None then NotJson else parse(Trim(line)).value
  }

  predicate ReadsNull(line: string, parse: string -> Option<Parsed>) {
    Trim(line) != "" && parse(Trim(line)) == Some(Null)
  }

  /** A line is read by its text without the white space around it. */
  lemma LineReaderMeans(line: string, parse: string -> Option<Parsed>, text: string)
    requires SpaceAround(line, text)
    ensures text != "" && parse(text).Some? ==> LineReader(parse)(line) == parse(text).value
    ensures text == "" || parse(text).None? ==> LineReader(parse)(line) == NotJson
    ensures ReadsNull(line, parse) <==> text != "" && parse(text) == Some(Null)
  {
    TrimIffSpaceAround(line, text);
  }

  lemma LineReaderReadsNull(line: string, parse: string -> Option<Parsed>)
    ensures LineReader(parse)(line) == Null <==> ReadsNull(line, parse)
  {
  }

  /** If a line reads `null`, no line after it has an effect. */
  predicate QuietAfterNull(s: State, lines: seq<string>, parse: string -> Option<Parsed>)
    decreases |lines|
  {
    var reader := LineReader(parse);
    if lines == [] then true
    else if ReadsNull(lines[0], parse) then forall i :: 1 <= i < |lines| ==> !Effective(s, reader(lines[i]))
    else QuietAfterNull(HandleLine(s, reader(lines[0])), lines[1..], parse)
  }

  ghost predicate NeverThrows(throws: Callback) {
    forall id, seen, content :: !throws(id, seen, content)
  }

  lemma {:induction false} OnlyNullFaults(s: State, lines: seq<string>, parse: string -> Option<Parsed>,
                                          throws: Callback)
    requires NeverThrows(throws)
    ensures QuietAfterFault(s, Readings(lines, LineReader(parse)), throws) <==> QuietAfterNull(s, lines, parse)
    decreases |lines|
  {
    if lines != [] {
      var read := Readings(lines, LineReader(parse));
      assert read[1..] == Readings(lines[1..], LineReader(parse));
      LineReaderReadsNull(lines[0], parse);
      if read[0] == Null {
        NoneEffectiveFromOne(s, lines, LineReader(parse));
      } else {
        OnlyNullFaults(HandleLine(s, read[0]), lines[1..], parse, throws);
      }
    }
  }

  lemma NoneEffectiveFromOne(s: State, lines: seq<string>, reader: Reader)
    requires lines != []
    ensures NoneEffective(s, Readings(lines, reader)[1..])
      <==> forall i :: 1 <= i < |lines| ==> !Effective(s, reader(lines[i]))
  {
    var rest := Readings(lines, reader)[1..];
    assert forall i :: 0 <= i < |rest| ==> rest[i] == reader(lines[i + 1]);
    if NoneEffective(s, rest) {
      forall i | 1 <= i < |lines| ensures !Effective(s, reader(lines[i])) { assert rest[i - 1] == reader(lines[i]); }
    }
  }

  /** The same for the adapter's own reader and callbacks that never throw, in terms of the lines themselves. */
  lemma AdapterIsChunkIndependentIff(s: State, data: string, parse: string -> Option<Parsed>, throws: Callback)
    requires '\n' !in s.buffer && NeverThrows(throws)
    ensures ChunkIndependent(s, data, Environment(LineReader(parse), throws))
      <==> QuietAfterNull(s, Complete(Split(s.buffer + data, '\n')), parse)
  {
    ChunkIndependentIff(s, data, Environment(LineReader(parse), throws));
    OnlyNullFaults(s, Complete(Split(s.buffer + data, '\n')), parse, throws);
  }

  // ----- ids and settlement over whole runs ---------------------------------

  datatype Event =
    | Request(stream: bool)
    | Data(data: string)
    | TimedOut(id: string)
    | WriteFailed(id: string)
    | ProcessGone(farewell: bool)

  predicate Waiting(s: State, id: string) { id in s.pending || id in s.streams }

  function RejectAll(s: State): State {
    s.(pending := {}, streams := {},
       seen := map id | id in s.seen :: if Waiting(s, id) then s.seen[id] + [Rejected] else s.seen[id])
  }

  function Open(s: State, stream: bool): State {
    var id := Decimal(s.counter + 1);
    s.(counter := s.counter + 1, seen := s.seen[id := []],
       pending := if stream then s.pending else s.pending + {id},
       streams := if stream then s.streams + {id} else s.streams)
  }

  /** A process that is gone takes every waiting caller with it; a shutdown first spends an id on a farewell. */
  function Step(s: State, e: Event, env: Environment): State {
    match e
    case Request(stream) => Open(s, stream)
    case Data(data) => Feed(s, data, env)
    case TimedOut(id) => if Waiting(s, id) then Settle(s, id, Rejected) else s
    case WriteFailed(id) => if Waiting(s, id) then Settle(s, id, Rejected) else s
    case ProcessGone(farewell) => RejectAll(s.(counter := s.counter + if farewell then 1 else 0))
  }

  function Run(s: State, events: seq<Event>, env: Environment): State
    decreases |events|
  {
    if events == [] then s else Run(Step(s, events[0], env), events[1..], env)
  }

  /** How many ids a run spends: one on every request, and one on every farewell. */
  function Spent(events: seq<Event>): nat
    decreases |events|
  {
    if events == [] then 0
    else (if events[0].Request? || events[0] == ProcessGone(true) then 1 else 0) + Spent(events[1..])
  }

  lemma {:induction false} IdsAreCounted(s: State, events: seq<Event>, env: Environment)
    ensures Run(s, events, env).counter == s.counter + Spent(events)
    decreases |events|
  {
    if events != [] {
      if events[0].Data? { DataSpendsNothing(s, events[0].data, env); }
      IdsAreCounted(Step(s, events[0], env), events[1..], env);
    }
  }

  lemma DataSpendsNothing(s: State, data: string, env: Environment)
    ensures Feed(s, data, env).counter == s.counter
  {
    var parts := Split(s.buffer + data, '\n');
    LinesSpendNothing(s.(buffer := Last(parts)), Readings(Complete(parts), env.reader), env.throws);
  }

  lemma {:induction false} LinesSpendNothing(s: State, read: seq<Parsed>, throws: Callback)
    ensures HandleLines(s, read, throws).counter == s.counter
    decreases |read|
  {
    if read != [] && !Faults(s, read[0], throws) { LinesSpendNothing(HandleLine(s, read[0]), read[1..], throws); }
  }

  ghost predicate Issued(s: State, id: string) { exists n: nat :: 1 <= n <= s.counter && id == Decimal(n) }

  /** Chunks, and at the end at most one settlement, which comes exactly when the caller stops waiting. */
  predicate Shaped(outcomes: seq<Outcome>, waiting: bool) {
    && (forall i :: 0 <= i < |outcomes| - 1 ==> outcomes[i].Delivered?)
    && (waiting <==> outcomes == [] || outcomes[|outcomes| - 1].Delivered?)
  }

  ghost predicate Inv(s: State) {
    && s.pending !! s.streams
    && '\n' !in s.buffer
    && (forall id :: Waiting(s, id) ==> id in s.seen)
    && (forall id :: id in s.seen ==> Issued(s, id) && Shaped(s.seen[id], Waiting(s, id)))
  }

  lemma NextIdIsNew(s: State)
    requires Inv(s)
    ensures Decimal(s.counter + 1) !in s.seen
  {
    if Decimal(s.counter + 1) in s.seen {
      var n: nat :| 1 <= n <= s.counter && Decimal(s.counter + 1) == Decimal(n);
      DecimalRoundTrip(n);
      DecimalRoundTrip(s.counter + 1);
    }
  }

  lemma SettleKeepsInv(s: State, id: string, o: Outcome)
    requires Inv(s) && Waiting(s, id) && !o.Delivered?
    ensures Inv(Settle(s, id, o))
  {
    var t := Settle(s, id, o);
    forall x | x in t.seen ensures Issued(t, x) && Shaped(t.seen[x], Waiting(t, x)) {
      assert Issued(s, x);
      assert Waiting(t, x) <==> Waiting(s, x) && x != id;
    }
  }

  lemma DeliverKeepsInv(s: State, id: string, content: string)
    requires Inv(s) && id in s.streams
    ensures Inv(Emit(s, id, Delivered(content)))
  {
    var t := Emit(s, id, Delivered(content));
    forall x | x in t.seen ensures Issued(t, x) && Shaped(t.seen[x], Waiting(t, x)) {
      assert Waiting(s, id) && Issued(s, x);
      assert Waiting(t, x) <==> Waiting(s, x);
    }
  }

  lemma LineKeepsInv(s: State, p: Parsed)
    requires Inv(s)
    ensures Inv(HandleLine(s, p))
  {
    match p {
      case Message(TextId(id), kind, content) =>
        if kind == Chunk {
          if id in s.streams { DeliverKeepsInv(s, id, content); }
        } else if kind == StreamEnd {
          if id in s.streams { SettleKeepsInv(s, id, Resolved("")); }
        } else if kind == ErrorReply && id in s.streams {
          SettleKeepsInv(s, id, Rejected);
        } else if id in s.pending {
          SettleKeepsInv(s, id, Resolved(content));
        }
      case _ =>
    }
  }

  lemma BufferKeepsInv(s: State, buffer: string)
    requires Inv(s) && '\n' !in buffer
    ensures Inv(s.(buffer := buffer))
  {
    var t := s.(buffer := buffer);
    assert forall x :: Waiting(t, x) <==> Waiting(s, x);
    forall x | x in t.seen ensures Issued(t, x) { assert Issued(s, x); }
  }

  lemma {:induction false} HandleLinesKeepsInv(s: State, read: seq<Parsed>, throws: Callback)
    requires Inv(s)
    ensures Inv(HandleLines(s, read, throws))
    decreases |read|
  {
    if read != [] {
      LineKeepsInv(s, read[0]);
      if !Faults(s, read[0], throws) { HandleLinesKeepsInv(HandleLine(s, read[0]), read[1..], throws); }
    }
  }

  lemma FeedKeepsInv(s: State, data: string, env: Environment)
    requires Inv(s)
    ensures Inv(Feed(s, data, env))
  {
    var parts := Split(s.buffer + data, '\n');
    assert Last(parts) in parts;
    BufferKeepsInv(s, Last(parts));
    HandleLinesKeepsInv(s.(buffer := Last(parts)), Lines(s, data, env), env.throws);
  }

  lemma OpenKeepsInv(s: State, stream: bool)
    requires Inv(s)
    ensures Inv(Open(s, stream))
  {
    NextIdIsNew(s);
    var t := Open(s, stream);
    var id := Decimal(s.counter + 1);
    assert !Waiting(s, id);
    forall x | x in t.seen ensures Issued(t, x) && Shaped(t.seen[x], Waiting(t, x)) {
      assert Waiting(t, x) <==> Waiting(s, x) || x == id;
      if x != id { assert Issued(s, x); }
    }
  }

  lemma RejectAllKeepsInv(s: State, counter: nat)
    requires Inv(s) && s.counter <= counter
    ensures Inv(RejectAll(s.(counter := counter)))
  {
    var m := s.(counter := counter);
    var t := RejectAll(m);
    forall x | x in t.seen ensures Issued(t, x) && Shaped(t.seen[x], Waiting(t, x)) {
      assert Issued(s, x);
      assert Waiting(m, x) <==> Waiting(s, x);
    }
  }

  lemma StepKeepsInv(s: State, e: Event, env: Environment)
    requires Inv(s)
    ensures Inv(Step(s, e, env))
  {
    match e {
      case Request(stream) => OpenKeepsInv(s, stream);
      case Data(data) => FeedKeepsInv(s, data, env);
      case TimedOut(id) => if Waiting(s, id) { SettleKeepsInv(s, id, Rejected); }
      case WriteFailed(id) => if Waiting(s, id) { SettleKeepsInv(s, id, Rejected); }
      case ProcessGone(farewell) => RejectAllKeepsInv(s, s.counter + if farewell then 1 else 0);
    }
  }

  lemma {:induction false} RunKeepsInv(s: State, events: seq<Event>, env: Environment)
    requires Inv(s)
    ensures Inv(Run(s, events, env))
    decreases |events|
  {
    if events != [] {
      StepKeepsInv(s, events[0], env);
      RunKeepsInv(Step(s, events[0], env), events[1..], env);
    }
  }

  /** Main result: in every run an id is in at most one table, every caller gets chunks and then at most one
      settlement, and it is in a table exactly as long as it has none. */
  lemma EveryCallerSettlesOnce(events: seq<Event>, env: Environment)
    ensures var s := Run(START, events, env);
      && s.pending !! s.streams
      && forall id :: id in s.seen ==> Shaped(s.seen[id], Waiting(s, id))
  {
    RunKeepsInv(START, events, env);
  }

  // ----- each caller sees its own part of a run -----------------------------

  predicate IsFor(p: Parsed, id: string) { p.Message? && p.id == TextId(id) }

  /** What a message says to a waiting caller. */
  function Said(p: Parsed, id: string, stream: bool): seq<Outcome> {
    if !IsFor(p, id) then []
    else match p.kind
      case Chunk => if stream && p.content != "" then [Delivered(p.content)] else []
      case StreamEnd => if stream then [Resolved("")] else []
      case ErrorReply => if stream then [Rejected] else [Resolved(p.content)]
      case OtherReply => if stream then [] else [Resolved(p.content)]
  }

  /** What a run brings to the tables: a handled line, or that one caller or all of them are given up. */
  datatype Signal = Heard(p: Parsed) | Lost(id: string) | AllLost

  function Tells(signal: Signal, id: string, stream: bool): seq<Outcome> {
    match signal
    case Heard(p) => Said(p, id, stream)
    case Lost(x) => if x == id then [Rejected] else []
    case AllLost => [Rejected]
  }

  predicate Ended(outcomes: seq<Outcome>) { outcomes != [] && !outcomes[|outcomes| - 1].Delivered? }

  /** What signals say to a waiting caller: a stream's chunks until it ends or fails, or a request's first reply. */
  function View(signals: seq<Signal>, id: string, stream: bool): seq<Outcome>
    decreases |signals|
  {
    if signals == [] then []
    else
      var told := Tells(signals[0], id, stream);
      told + if Ended(told) then [] else View(signals[1..], id, stream)
  }

  function AllHeard(read: seq<Parsed>): seq<Signal> {
    seq(|read|, i requires 0 <= i < |read| => Heard(read[i]))
  }

  function SignalsOf(s: State, e: Event, env: Environment): seq<Signal> {
    match e
    case Request(_) => []
    case Data(data) => AllHeard(HandledPart(s, Lines(s, data, env), env.throws))
    case TimedOut(id) => [Lost(id)]
    case WriteFailed(id) => [Lost(id)]
    case ProcessGone(_) => [AllLost]
  }

  function Signals(s: State, events: seq<Event>, env: Environment): seq<Signal>
    decreases |events|
  {
    if events == [] then []
    else SignalsOf(s, events[0], env) + Signals(Step(s, events[0], env), events[1..], env)
  }

  lemma EndedOfConcat(a: seq<Outcome>, b: seq<Outcome>)
    requires !Ended(a)
    ensures Ended(a + b) <==> Ended(b)
  {
    if b == [] { assert a + b == a; }
  }

  lemma {:induction false} ViewConcat(a: seq<Signal>, b: seq<Signal>, id: string, stream: bool)
    ensures View(a + b, id, stream)
      == View(a, id, stream) + if Ended(View(a, id, stream)) then [] else View(b, id, stream)
    decreases |a|
  {
    if a == [] {
      assert a + b == b;
    } else {
      var told, rest := Tells(a[0], id, stream), View(a[1..], id, stream);
      assert (a + b)[1..] == a[1..] + b && (a + b)[0] == a[0];
      ViewConcat(a[1..], b, id, stream);
      if !Ended(told) {
        EndedOfConcat(told, rest);
        Associate(told, rest, if Ended(rest) then [] else View(b, id, stream));
      } else {
        assert told + [] == told;
      }
    }
  }

  /** From `s` to `t` a waiting caller got `told`, and waits on unless that ended it. */
  predicate Told(s: State, t: State, id: string, told: seq<Outcome>) {
    && At(t, id) == At(s, id) + told
    && (Waiting(t, id) <==> !Ended(told))
    && (Waiting(t, id) ==> (id in t.streams <==> id in s.streams))
  }

  predicate Unmoved(s: State, t: State, id: string) { At(t, id) == At(s, id) && !Waiting(t, id) }

  lemma ToldOn(s: State, t: State, u: State, id: string, a: seq<Outcome>, b: seq<Outcome>)
    requires Told(s, t, id, a)
    requires if Ended(a) then b == [] && Unmoved(t, u, id) else Told(t, u, id, b)
    ensures Told(s, u, id, a + b)
  {
    Associate(At(s, id), a, b);
    if Ended(a) { assert a + b == a; } else { EndedOfConcat(a, b); }
  }

  /** A message for someone else, or a duplicate for a caller that has settled, changes nothing for a caller. */
  lemma OtherMessage(s: State, p: Parsed, id: string)
    requires !Waiting(s, id)
    ensures Unmoved(s, HandleLine(s, p), id)
  {
  }

  lemma OwnMessage(s: State, p: Parsed, id: string)
    requires s.pending !! s.streams && Waiting(s, id)
    ensures HandleLine(s, p).pending !! HandleLine(s, p).streams
    ensures Told(s, HandleLine(s, p), id, Said(p, id, id in s.streams))
  {
    assert At(s, id) + [] == At(s, id);
  }

  lemma {:induction false} LinesLeaveSettled(s: State, read: seq<Parsed>, throws: Callback, id: string)
    requires !Waiting(s, id)
    ensures Unmoved(s, HandleLines(s, read, throws), id)
    decreases |read|
  {
    if read != [] {
      OtherMessage(s, read[0], id);
      LinesLeaveSettled(HandleLine(s, read[0]), read[1..], throws, id);
    }
  }

  lemma ViewOfHeard(p: Parsed, rest: seq<Parsed>, id: string, stream: bool)
    ensures View(AllHeard([p] + rest), id, stream)
      == Said(p, id, stream) + if Ended(Said(p, id, stream)) then [] else View(AllHeard(rest), id, stream)
  {
    assert AllHeard([p] + rest)[1..] == AllHeard(rest) && AllHeard([p] + rest)[0] == Heard(p);
  }

  /** A fault hides lines, and only that: what was handled is heard. */
  lemma {:induction false} LinesAreHeard(s: State, read: seq<Parsed>, throws: Callback, id: string)
    requires s.pending !! s.streams && Waiting(s, id)
    ensures Told(s, HandleLines(s, read, throws), id,
                 View(AllHeard(HandledPart(s, read, throws)), id, id in s.streams))
    decreases |read|, 0
  {
    if read == [] {
      assert At(s, id) + [] == At(s, id);
    } else {
      var t, stream := HandleLine(s, read[0]), id in s.streams;
      var rest := if Faults(s, read[0], throws) then [] else HandledPart(t, read[1..], throws);
      OwnMessage(s, read[0], id);
      ViewOfHeard(read[0], rest, id, stream);
      ThenHeard(t, read[1..], throws, id, stream, Faults(s, read[0], throws), Ended(Said(read[0], id, stream)));
      var u := HandleLines(s, read, throws);
      ToldOn(s, t, u, id, Said(read[0], id, stream),
             if Ended(Said(read[0], id, stream)) then [] else View(AllHeard(rest), id, stream));
    }
  }

  lemma ThenHeard(t: State, read: seq<Parsed>, throws: Callback, id: string, stream: bool, faulted: bool, ended: bool)
    requires t.pending !! t.streams && (Waiting(t, id) <==> !ended)
    requires Waiting(t, id) ==> (id in t.streams <==> stream)
    ensures var u := if faulted then t else HandleLines(t, read, throws);
      var part := if faulted then [] else HandledPart(t, read, throws);
      if ended then Unmoved(t, u, id) else Told(t, u, id, View(AllHeard(part), id, stream))
    decreases |read|, 1
  {
    if faulted {
      assert At(t, id) + [] == At(t, id);
    } else if ended {
      LinesLeaveSettled(t, read, throws, id);
    } else {
      LinesAreHeard(t, read, throws, id);
    }
  }

  lemma DataIsHeard(s: State, data: string, env: Environment, id: string)
    requires Inv(s) && Waiting(s, id)
    ensures Told(s, Feed(s, data, env), id, View(SignalsOf(s, Data(data), env), id, id in s.streams))
  {
    var tail := Last(Split(s.buffer + data, '\n'));
    LinesAreHeard(s.(buffer := tail), Lines(s, data, env), env.throws, id);
    BufferFrame(s, tail, Lines(s, data, env), env.throws);
  }

  lemma ViewOfOne(signal: Signal, id: string, stream: bool)
    ensures View([signal], id, stream) == Tells(signal, id, stream)
  {
    assert Tells(signal, id, stream) + [] == Tells(signal, id, stream);
  }

  lemma LossIsHeard(s: State, x: string, id: string)
    requires Waiting(s, id)
    ensures Told(s, if Waiting(s, x) then Settle(s, x, Rejected) else s, id, View([Lost(x)], id, id in s.streams))
  {
    ViewOfOne(Lost(x), id, id in s.streams);
    assert At(s, id) + [] == At(s, id);
  }

  lemma RejectionIsHeard(s: State, counter: nat, id: string)
    requires Waiting(s, id) && id in s.seen
    ensures Told(s, RejectAll(s.(counter := counter)), id, View([AllLost], id, id in s.streams))
  {
    ViewOfOne(AllLost, id, id in s.streams);
    assert Waiting(s.(counter := counter), id);
  }

  lemma OpenIsNotHeard(s: State, stream: bool, id: string)
    requires Inv(s) && Waiting(s, id)
    ensures Told(s, Open(s, stream), id, [])
  {
    NextIdIsNew(s);
    assert At(s, id) + [] == At(s, id);
  }

  lemma StepIsHeard(s: State, e: Event, env: Environment, id: string)
    requires Inv(s) && Waiting(s, id)
    ensures Told(s, Step(s, e, env), id, View(SignalsOf(s, e, env), id, id in s.streams))
  {
    match e {
      case Request(stream) => OpenIsNotHeard(s, stream, id);
      case Data(data) => DataIsHeard(s, data, env, id);
      case TimedOut(x) => LossIsHeard(s, x, id);
      case WriteFailed(x) => LossIsHeard(s, x, id);
      case ProcessGone(farewell) => RejectionIsHeard(s, s.counter + if farewell then 1 else 0, id);
    }
  }

  lemma StepLeavesSettled(s: State, e: Event, env: Environment, id: string)
    requires Inv(s) && id in s.seen && !Waiting(s, id)
    ensures Unmoved(s, Step(s, e, env), id)
  {
    match e {
      case Request(stream) => NextIdIsNew(s);
      case Data(data) =>
        LinesLeaveSettled(s.(buffer := Last(Split(s.buffer + data, '\n'))), Lines(s, data, env), env.throws, id);
      case _ =>
    }
  }

  lemma StepKeepsSeen(s: State, e: Event, env: Environment, id: string)
    requires Inv(s) && id in s.seen && !Waiting(s, id)
    ensures id in Step(s, e, env).seen
  {
    if e.Data? {
      var parts := Split(s.buffer + e.data, '\n');
      LinesKeepSeen(s.(buffer := Last(parts)), Lines(s, e.data, env), env.throws, id);
    }
  }

  lemma {:induction false} LinesKeepSeen(s: State, read: seq<Parsed>, throws: Callback, id: string)
    requires id in s.seen
    ensures id in HandleLines(s, read, throws).seen
    decreases |read|
  {
    if read != [] { LinesKeepSeen(HandleLine(s, read[0]), read[1..], throws, id); }
  }

  /** Main result: a caller that has settled sees nothing more, whatever follows: no duplicate or late reply, no new
      request under its id, no lost process. */
  lemma {:induction false} SettledSeesNothing(s: State, events: seq<Event>, env: Environment, id: string)
    requires Inv(s) && id in s.seen && !Waiting(s, id)
    ensures Unmoved(s, Run(s, events, env), id)
    decreases |events|
  {
    if events != [] {
      StepKeepsInv(s, events[0], env);
      StepLeavesSettled(s, events[0], env, id);
      StepKeepsSeen(s, events[0], env, id);
      SettledSeesNothing(Step(s, events[0], env), events[1..], env, id);
    }
  }

  /** A waiting caller sees what the signals of a run say to it. */
  lemma {:induction false} RunIsHeard(s: State, events: seq<Event>, env: Environment, id: string)
    requires Inv(s) && Waiting(s, id)
    ensures Told(s, Run(s, events, env), id, View(Signals(s, events, env), id, id in s.streams))
    decreases |events|
  {
    if events == [] {
      assert At(s, id) + [] == At(s, id);
    } else {
      var t, u, stream := Step(s, events[0], env), Run(s, events, env), id in s.streams;
      var first, rest := SignalsOf(s, events[0], env), Signals(t, events[1..], env);
      StepKeepsInv(s, events[0], env);
      StepIsHeard(s, events[0], env, id);
      ViewConcat(first, rest, id, stream);
      if Ended(View(first, id, stream)) {
        StepSettlesSeen(t, id, At(s, id), View(first, id, stream));
        SettledSeesNothing(t, events[1..], env, id);
      } else {
        RunIsHeard(t, events[1..], env, id);
      }
      ToldOn(s, t, u, id, View(first, id, stream),
             if Ended(View(first, id, stream)) then [] else View(rest, id, stream));
    }
  }

  lemma StepSettlesSeen(t: State, id: string, before: seq<Outcome>, told: seq<Outcome>)
    requires At(t, id) == before + told && told != []
    ensures id in t.seen
  {
  }

  lemma {:induction false} RunConcat(s: State, a: seq<Event>, b: seq<Event>, env: Environment)
    ensures Run(s, a + b, env) == Run(Run(s, a, env), b, env)
    decreases |a|
  {
    if a == [] {
      assert a + b == b;
    } else {
      assert (a + b)[1..] == a[1..] + b && (a + b)[0] == a[0];
      RunConcat(Step(s, a[0], env), a[1..], b, env);
    }
  }

  lemma OpenWaits(s: State, stream: bool)
    requires Inv(s)
    ensures var t, id := Open(s, stream), Decimal(s.counter + 1);
      id !in s.seen && Waiting(t, id) && At(t, id) == [] && (id in t.streams <==> stream)
  {
    NextIdIsNew(s);
    assert !Waiting(s, Decimal(s.counter + 1));
  }

  lemma OpenedSeesItsRun(s: State, stream: bool, later: seq<Event>, env: Environment)
    requires Inv(s)
    ensures var t, id := Open(s, stream), Decimal(s.counter + 1);
      id !in s.seen && At(Run(t, later, env), id) == View(Signals(t, later, env), id, stream)
  {
    var t, id := Open(s, stream), Decimal(s.counter + 1);
    OpenKeepsInv(s, stream);
    OpenWaits(s, stream);
    RunIsHeard(t, later, env, id);
    NothingBefore(View(Signals(t, later, env), id, stream));
  }

  lemma NothingBefore(told: seq<Outcome>)
    ensures [] + told == told
  {
  }

  lemma RunRequest(s: State, stream: bool, later: seq<Event>, env: Environment)
    ensures Run(s, [Request(stream)] + later, env) == Run(Open(s, stream), later, env)
  {
    assert ([Request(stream)] + later)[1..] == later && ([Request(stream)] + later)[0] == Request(stream);
  }

  /** Main result: a request made at any point of any run gets an id that no caller had before, and then its caller
      sees exactly what the handled lines with its id say, up to its settlement, or that it was given up: whatever
      requests, data events, faults, timeouts and lost processes come in between. */
  lemma CallerSeesItsRun(before: seq<Event>, stream: bool, later: seq<Event>, env: Environment)
    ensures var s := Run(START, before, env);
      var t, id := Open(s, stream), Decimal(s.counter + 1);
      && id !in s.seen
      && At(Run(START, before + ([Request(stream)] + later), env), id) == View(Signals(t, later, env), id, stream)
  {
    var s := Run(START, before, env);
    RunKeepsInv(START, before, env);
    OpenedSeesItsRun(s, stream, later, env);
    RunConcat(START, before, [Request(stream)] + later, env);
    RunRequest(s, stream, later, env);
  }

  // ----- the adapter object -------------------------------------------------

  class Adapter {
    var buffer: string
    var counter: nat
    var pending: set<string>
    var streams: set<string>
    var seen: map<string, seq<Outcome>>

    ghost function Current(): State
      reads this
    {
      State(buffer, counter, pending, streams, seen)
    }

    constructor ()
      ensures Current() == START && Inv(Current())
    {
      buffer, counter, pending, streams, seen := "", 0, {}, {}, map[];
    }

    method Add(id: string, o: Outcome)
      modifies this`seen
      ensures Current() == Emit(old(Current()), id, o)
    {
      seen := seen[id := (if id in seen then seen[id] else []) + [o]];
    }

    /** Hands a message to its caller; the result tells whether the chunk callback threw. */
    method OnMessage(id: string, kind: Kind, content: string, throws: Callback) returns (threw: bool)
      requires pending !! streams
      modifies this
      ensures Current() == HandleMessage(old(Current()), id, kind, content)
      ensures threw <==>
        kind == Chunk && id in old(streams) && content != "" && throws(id, old(At(Current(), id)), content)
    {
      threw := false;
      if kind == Chunk {
        if id in streams && content != "" {
          threw := throws(id, if id in seen then seen[id] else [], content);
          Add(id, Delivered(content));
        }
      } else if kind == StreamEnd {
        if id in streams {
          streams := streams - {id};
          Add(id, Resolved(""));
          assert pending == old(pending) - {id};
        }
      } else if kind == ErrorReply && id in streams {
        streams := streams - {id};
        Add(id, Rejected);
        assert pending == old(pending) - {id};
      } else if id in pending {
        pending := pending - {id};
        Add(id, Resolved(content));
        assert streams == old(streams) - {id};
      }
    }

    /** One turn of the loop in `#onData`, once the line is read. */
    method OnParsed(parsed: Parsed, throws: Callback) returns (threw: bool)
      requires pending !! streams
      modifies this
      ensures pending !! streams
      ensures threw <==> Faults(old(Current()), parsed, throws)
      ensures Current() == HandleLine(old(Current()), parsed)
    {
      threw := parsed == Null;
      if parsed.Message? && parsed.id.TextId? {
        threw := OnMessage(parsed.id.text, parsed.kind, parsed.content, throws);
      }
    }

    /** The loop in `#onData`. */
    method HandleEach(lines: seq<string>, env: Environment) returns (threw: bool)
      requires pending !! streams
      modifies this
      ensures Current() == HandleLines(old(Current()), Readings(lines, env.reader), env.throws)
      ensures threw <==> !NoFault(old(Current()), Readings(lines, env.reader), env.throws)
    {
      ghost var read := Readings(lines, env.reader);
      var i := 0;
      assert read[0..] == read;
      while i < |lines|
        invariant 0 <= i <= |lines|
        invariant pending !! streams
        invariant NoFault(old(Current()), read, env.throws) <==> NoFault(Current(), read[i..], env.throws)
        invariant HandleLines(old(Current()), read, env.throws) == HandleLines(Current(), read[i..], env.throws)
      {
        assert read[i..][0] == read[i] && read[i..][1..] == read[i + 1..];
        threw := OnParsed(env.reader(lines[i]), env.throws);
        if threw { return; }
        i := i + 1;
      }
      threw := false;
    }

    /** `#onData`; the result tells whether it threw. */
    method OnData(data: string, env: Environment) returns (threw: bool)
      requires Inv(Current())
      modifies this
      ensures Inv(Current())
      ensures Current() == Feed(old(Current()), data, env)
      ensures threw <==> !NoFault(old(Current()), Lines(old(Current()), data, env), env.throws)
    {
      FeedKeepsInv(Current(), data, env);
      var parts := Split(buffer + data, '\n');
      BufferFrame(Current(), Last(parts), Lines(Current(), data, env), env.throws);
      buffer := Last(parts);
      threw := HandleEach(Complete(parts), env);
    }

    /** The synchronous part of `#request` and `streamMessage`. */
    method BeginRequest(stream: bool) returns (id: string)
      requires Inv(Current())
      modifies this
      ensures Inv(Current())
      ensures Current() == Open(old(Current()), stream) && id == Decimal(old(counter) + 1)
    {
      OpenKeepsInv(Current(), stream);
      counter := counter + 1;
      id := Decimal(counter);
      seen := seen[id := []];
      if stream { streams := streams + {id}; } else { pending := pending + {id}; }
    }

    method RejectEach(ids: set<string>)
      requires forall id :: id in ids ==> id in seen
      modifies this`seen
      ensures seen == map id | id in old(seen) :: if id in ids then old(seen)[id] + [Rejected] else old(seen)[id]
    {
      var todo := ids;
      while todo != {}
        invariant todo <= ids && seen.Keys == old(seen).Keys
        invariant forall id :: id in seen ==>
          seen[id] == if id in ids - todo then old(seen)[id] + [Rejected] else old(seen)[id]
        decreases |todo|
      {
        var id :| id in todo;
        todo := todo - {id};
        Add(id, Rejected);
      }
    }

    /** `#rejectAllPending`. */
    method RejectAllPending()
      requires pending !! streams && forall id :: Waiting(Current(), id) ==> id in seen
      modifies this
      ensures Current() == RejectAll(old(Current()))
    {
      RejectEach(pending);
      RejectEach(streams);
      pending, streams := {}, {};
    }
  }
}
