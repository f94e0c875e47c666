/** The extension's one-port multiplexer: many requests share a native port, and each gets its own replies. */
module VaultProxy {
  import opened Text
  import opened Wrappers

  datatype Value = Str(text: string) | Other(json: string)

  type Message = map<string, Value>

  const TAG: string := "_bridgeRequestId"

  /** What a request's promise and chunk callback get to see. */
  datatype Outcome = Delta(text: string) | Resolved(response: Message) | PostFailed | Disconnected

  datatype Event =
    | Send(message: Message, streaming: bool, stamp: string, connectFails: bool, postFails: bool)
    | Inbound(received: Option<Message>)
    | Disconnect

  /** `pending` tells whether a waiting request wants chunks; `seen` and `posted` record what went out. */
  datatype State = State(
    connected: bool, nextId: nat, pending: map<string, bool>,
    seen: map<string, seq<Outcome>>, posted: seq<Message>)

  const START: State := State(false, 0, map[], map[], [])

  function RequestId(n: nat, stamp: string): string { "_vp." + (Decimal(n) + ("." + stamp)) }

  function Owner(m: Message): Option<string> {
    if TAG in m && m[TAG].Str? then Some(m[TAG].text) else None
  }

  function Tagged(m: Message, id: string): Message { m[TAG := Str(id)] }

  function Clean(m: Message): Message { m - {TAG} }

  predicate IsChunk(m: Message) {
    "type" in m && (m["type"] == Str("cloud.chat.stream.chunk") || m["type"] == Str("cli.chat.stream.chunk"))
  }

  function DeltaOf(m: Message): string {
    if "delta" in m && m["delta"].Str? then m["delta"].text else ""
  }

  /** How a waiting request reacts to a message that carries its id. */
  function Reaction(m: Message, streaming: bool): seq<Outcome> {
    if !IsChunk(m) then [Resolved(Clean(m))]
    else if streaming && DeltaOf(m) != "" then [Delta(DeltaOf(m))]
    else []
  }

  function At(s: State, id: string): seq<Outcome> { if id in s.seen then s.seen[id] else [] }

  // ----- the port as a state machine ----------------------------------------

  function StepSend(s: State, message: Message, streaming: bool, stamp: string,
                    connectFails: bool, postFails: bool): State
  {
    if !s.connected && connectFails then s
    else
      var id := RequestId(s.nextId + 1, stamp);
      if postFails then
        s.(connected := true, nextId := s.nextId + 1, pending := s.pending - {id}, seen := s.seen[id := [PostFailed]])
      else
        s.(connected := true, nextId := s.nextId + 1, pending := s.pending[id := streaming], seen := s.seen[id := []],
           posted := s.posted + [Tagged(message, id)])
  }

  function StepInbound(s: State, received: Option<Message>): State {
    if received.None? || Owner(received.value).None? then s
    else
      var m := received.value;
      var id := Owner(m).value;
      if id !in s.pending then s
      else s.(seen := s.seen[id := At(s, id) + Reaction(m, s.pending[id])],
              pending := if IsChunk(m) then s.pending else s.pending - {id})
  }

  function StepDisconnect(s: State): State {
    s.(connected := false, pending := map[],
       seen := map id | id in s.seen :: if id in s.pending then s.seen[id] + [Disconnected] else s.seen[id])
  }

  function Step(s: State, e: Event): State {
    match e
    case Send(m, streaming, stamp, connectFails, postFails) => StepSend(s, m, streaming, stamp, connectFails, postFails)
    case Inbound(received) => StepInbound(s, received)
    case Disconnect => StepDisconnect(s)
  }

  function Run(s: State, events: seq<Event>): State
    decreases |events|
  {
    if events == [] then s else Run(Step(s, events[0]), events[1..])
  }

  // ----- ids never repeat ---------------------------------------------------

  lemma DotEndsHead(s: string, a: string, b: string, x: string, y: string)
    requires '.' !in b && s == a + ("." + x) && s == b + ("." + y)
    ensures |b| <= |a|
  {
    assert s[|a|] == '.';
    assert forall i :: 0 <= i < |b| ==> s[i] == b[i];
  }

  lemma HeadBeforeDot(s: string, a: string, b: string, x: string, y: string)
    requires '.' !in a && '.' !in b && s == a + ("." + x) && s == b + ("." + y)
    ensures a == b && x == y
  {
    DotEndsHead(s, a, b, x, y);
    DotEndsHead(s, b, a, y, x);
    assert a == s[..|a|] && b == s[..|b|];
    assert x == s[|a| + 1..] && y == s[|b| + 1..];
  }

  /** Request ids made from different counter values differ, whatever the clock said. */
  lemma RequestIdsDiffer(n: nat, m: nat, x: string, y: string)
    requires RequestId(n, x) == RequestId(m, y)
    ensures n == m && x == y
  {
    var a, b := Decimal(n) + ("." + x), Decimal(m) + ("." + y);
    assert a == ("_vp." + a)[4..] && b == ("_vp." + b)[4..];
    DecimalRoundTrip(n);
    DecimalRoundTrip(m);
    HeadBeforeDot(a, Decimal(n), Decimal(m), x, y);
  }

  /** The id was given out, at or before the current counter value. */
  ghost predicate Issued(s: State, id: string) {
    exists n: nat, stamp :: 1 <= n <= s.nextId && id == RequestId(n, stamp)
  }

  ghost predicate Inv(s: State) {
    && (forall id :: id in s.pending ==> id in s.seen)
    && (forall id :: id in s.seen ==> Issued(s, id))
    && (!s.connected ==> s.pending == map[])
  }

  lemma NextIdIsNew(s: State, stamp: string)
    requires Inv(s)
    ensures RequestId(s.nextId + 1, stamp) !in s.seen
  {
    var id := RequestId(s.nextId + 1, stamp);
    if id in s.seen {
      var n: nat, x :| 1 <= n <= s.nextId && id == RequestId(n, x);
      RequestIdsDiffer(n, s.nextId + 1, x, stamp);
    }
  }

  lemma IssuedStaysIssued(s: State, t: State, id: string)
    requires Issued(s, id) && s.nextId <= t.nextId
    ensures Issued(t, id)
  {
    var n: nat, stamp :| 1 <= n <= s.nextId && id == RequestId(n, stamp);
    assert 1 <= n <= t.nextId && id == RequestId(n, stamp);
  }

  lemma StepKeepsInv(s: State, e: Event)
    requires Inv(s)
    ensures Inv(Step(s, e)) && s.nextId <= Step(s, e).nextId
  {
    var t := Step(s, e);
    forall id | id in t.seen ensures Issued(t, id) {
      if id in s.seen { IssuedStaysIssued(s, t, id); }
      else { assert e.Send? && t.nextId >= 1 && id == RequestId(t.nextId, e.stamp); }
    }
  }

  lemma {:induction false} RunKeepsInv(s: State, events: seq<Event>)
    requires Inv(s)
    ensures Inv(Run(s, events))
    decreases |events|
  {
    if events != [] {
      StepKeepsInv(s, events[0]);
      RunKeepsInv(Step(s, events[0]), events[1..]);
    }
  }

  // ----- demultiplexing is projection ---------------------------------------

  /** The messages for one id that arrive before the first disconnect. */
  function Own(events: seq<Event>, id: string): seq<Message>
    decreases |events|
  {
    if events == [] || events[0].Disconnect? then []
    else if events[0].Inbound? && events[0].received.Some? && Owner(events[0].received.value) == Some(id)
    then [events[0].received.value] + Own(events[1..], id)
    else Own(events[1..], id)
  }

  /** Non-empty deltas in order, up to the first message that is not a chunk. */
  function Replies(messages: seq<Message>, streaming: bool): seq<Outcome>
    decreases |messages|
  {
    if messages == [] then []
    else Reaction(messages[0], streaming) + (if IsChunk(messages[0]) then Replies(messages[1..], streaming) else [])
  }

  predicate Answered(messages: seq<Message>) { exists i :: 0 <= i < |messages| && !IsChunk(messages[i]) }

  /** What a request waiting for `id` should see of a run. */
  function Projection(events: seq<Event>, id: string, streaming: bool): seq<Outcome> {
    Outcomes(Own(events, id), streaming, Disconnect in events)
  }

  /** What a caller sees of the messages that reach it before the first disconnect. */
  function Outcomes(messages: seq<Message>, streaming: bool, disconnected: bool): seq<Outcome> {
    Replies(messages, streaming) + if !Answered(messages) && disconnected then [Disconnected] else []
  }

  predicate Settles(events: seq<Event>, id: string) { Answered(Own(events, id)) || Disconnect in events }

  lemma AnsweredCons(m: Message, messages: seq<Message>)
    ensures Answered([m] + messages) <==> !IsChunk(m) || Answered(messages)
  {
    if !IsChunk(m) { assert !IsChunk(([m] + messages)[0]); }
    if i :| 0 <= i < |messages| && !IsChunk(messages[i]) { assert !IsChunk(([m] + messages)[i + 1]); }
  }

  /** A request that is not waiting sees nothing more. */
  lemma {:induction false} SettledStaysSettled(s: State, id: string, events: seq<Event>)
    requires Inv(s) && id in s.seen && id !in s.pending
    ensures At(Run(s, events), id) == At(s, id) && id in Run(s, events).seen && id !in Run(s, events).pending
    decreases |events|
  {
    if events != [] {
      if events[0].Send? { NextIdIsNew(s, events[0].stamp); }
      StepKeepsInv(s, events[0]);
      SettledStaysSettled(Step(s, events[0]), id, events[1..]);
    }
  }

  predicate IsFor(e: Event, id: string) {
    e.Inbound? && e.received.Some? && Owner(e.received.value) == Some(id)
  }

  lemma ProjectionStep(e: Event, rest: seq<Event>, id: string, streaming: bool)
    ensures Projection([e] + rest, id, streaming) ==
      if e.Disconnect? then [Disconnected]
      else if !IsFor(e, id) then Projection(rest, id, streaming)
      else Reaction(e.received.value, streaming)
           + (if IsChunk(e.received.value) then Projection(rest, id, streaming) else [])
    ensures Settles([e] + rest, id) <==>
      e.Disconnect? || (IsFor(e, id) && !IsChunk(e.received.value)) || Settles(rest, id)
  {
    OwnCons(e, rest, id);
    assert Disconnect in [e] + rest <==> e == Disconnect || Disconnect in rest;
    if e.Disconnect? {
      WithEmpty([Disconnected]);
    } else if IsFor(e, id) {
      OutcomesCons(e.received.value, Own(rest, id), streaming, Disconnect in rest);
      AnsweredCons(e.received.value, Own(rest, id));
    }
  }

  lemma OwnCons(e: Event, rest: seq<Event>, id: string)
    ensures Own([e] + rest, id) ==
      if e.Disconnect? then [] else if IsFor(e, id) then [e.received.value] + Own(rest, id) else Own(rest, id)
  {
    assert ([e] + rest)[1..] == rest;
  }

  lemma OutcomesCons(m: Message, messages: seq<Message>, streaming: bool, disconnected: bool)
    ensures Outcomes([m] + messages, streaming, disconnected)
      == Reaction(m, streaming) + if IsChunk(m) then Outcomes(messages, streaming, disconnected) else []
  {
    AnsweredCons(m, messages);
    RepliesCons(m, messages, streaming);
    if IsChunk(m) {
      Associate(Reaction(m, streaming), Replies(messages, streaming),
                if !Answered(messages) && disconnected then [Disconnected] else []);
    } else {
      WithEmpty(Reaction(m, streaming));
    }
  }

  predicate Ends(e: Event, id: string) { e.Disconnect? || (IsFor(e, id) && !IsChunk(e.received.value)) }

  function Observed(e: Event, id: string, streaming: bool): seq<Outcome> {
    if e.Disconnect? then [Disconnected] else if IsFor(e, id) then Reaction(e.received.value, streaming) else []
  }

  /** One step, as a waiting request sees it. */
  lemma StepObserved(s: State, e: Event, id: string)
    requires Inv(s) && id in s.pending
    ensures var t := Step(s, e);
      && id in t.seen
      && (id in t.pending ==> t.pending[id] == s.pending[id])
      && (id in t.pending <==> !Ends(e, id))
      && At(t, id) == At(s, id) + Observed(e, id, s.pending[id])
  {
    match e {
      case Send(m, streaming, stamp, connectFails, postFails) =>
        SendIsNotObserved(s, m, streaming, stamp, connectFails, postFails, id);
      case _ => WithEmpty(At(s, id));
    }
  }

  lemma SendIsNotObserved(s: State, m: Message, streaming: bool, stamp: string, connectFails: bool, postFails: bool,
                          id: string)
    requires Inv(s) && id in s.pending
    ensures var t := StepSend(s, m, streaming, stamp, connectFails, postFails);
      id in t.seen && id in t.pending && t.pending[id] == s.pending[id] && At(t, id) == At(s, id) + []
  {
    NextIdIsNew(s, stamp);
    WithEmpty(At(s, id));
  }

  lemma ObservedThenProjected(first: seq<Outcome>, e: Event, rest: seq<Event>, id: string, streaming: bool)
    ensures first + Projection([e] + rest, id, streaming)
      == (first + Observed(e, id, streaming)) + (if Ends(e, id) then [] else Projection(rest, id, streaming))
  {
    ProjectionStep(e, rest, id, streaming);
  }

  /** Main result: whatever else happens on the port, a waiting request sees exactly the messages that carry
      its id, as non-empty deltas and then the first answer, or the disconnect if that comes first. */
  lemma {:induction false} DemultiplexingIsProjection(s: State, id: string, events: seq<Event>)
    requires Inv(s) && id in s.pending
    ensures At(Run(s, events), id) == At(s, id) + Projection(events, id, s.pending[id])
    ensures id in Run(s, events).pending <==> !Settles(events, id)
    decreases |events|, 1
  {
    if events != [] {
      var e, rest := events[0], events[1..];
      assert events == [e] + rest;
      StepKeepsInv(s, e);
      StepObserved(s, e, id);
      ObservedThenProjected(At(s, id), e, rest, id, s.pending[id]);
      ProjectionStep(e, rest, id, s.pending[id]);
      ThenRun(s, Step(s, e), e, rest, id);
    }
  }

  lemma ThenRun(s: State, t: State, e: Event, rest: seq<Event>, id: string)
    requires Inv(t) && id in s.pending && id in t.seen
    requires id in t.pending ==> t.pending[id] == s.pending[id]
    requires id in t.pending <==> !Ends(e, id)
    ensures At(Run(t, rest), id) ==
      At(t, id) + if Ends(e, id) then [] else Projection(rest, id, s.pending[id])
    ensures id in Run(t, rest).pending <==> !Ends(e, id) && !Settles(rest, id)
    decreases |rest|, 2
  {
    if id in t.pending {
      DemultiplexingIsProjection(t, id, rest);
    } else {
      SettledStaysSettled(t, id, rest);
    }
  }

  /** Main result: a request sent at any point of any run gets an id no request had before; if the post fails
      it sees that failure alone, and otherwise its projection of all that follows. */
  lemma SentRequestSeesItsProjection(before: seq<Event>, send: Event, after: seq<Event>)
    requires send.Send? && (Run(START, before).connected || !send.connectFails)
    ensures var s := Run(START, before);
      var id := RequestId(s.nextId + 1, send.stamp);
      && id !in s.seen
      && At(Run(Step(s, send), after), id)
           == if send.postFails then [PostFailed] else Projection(after, id, send.streaming)
  {
    var s := Run(START, before);
    var id := RequestId(s.nextId + 1, send.stamp);
    RunKeepsInv(START, before);
    NextIdIsNew(s, send.stamp);
    StepKeepsInv(s, send);
    var t := Step(s, send);
    if send.postFails {
      SettledStaysSettled(t, id, after);
    } else {
      DemultiplexingIsProjection(t, id, after);
      assert [] + Projection(after, id, send.streaming) == Projection(after, id, send.streaming);
    }
  }

  /** After any run a disconnect leaves no request waiting; every request that was waiting sees it, and then nothing
      more, whatever follows. */
  lemma DisconnectRejectsAll(before: seq<Event>, after: seq<Event>, id: string)
    requires id in Run(START, before).pending
    ensures var s := Run(START, before);
      var t := Step(s, Disconnect);
      t.pending == map[] && At(Run(t, after), id) == At(s, id) + [Disconnected]
  {
    var s := Run(START, before);
    RunKeepsInv(START, before);
    StepKeepsInv(s, Disconnect);
    SettledStaysSettled(Step(s, Disconnect), id, after);
  }

  // ----- the port and the host together -------------------------------------

  /** Something the bridge wrote while it handled the frame of request `owner`. */
  datatype Written = Written(owner: string, message: Message)

  /** What arrives when the host tags every chunk and response with the id of the frame it handles. */
  function Wire(written: seq<Written>): seq<Option<Message>>
    decreases |written|
  {
    if written == [] then []
    else [Some(Tagged(written[0].message, written[0].owner))] + Wire(written[1..])
  }

  function WrittenFor(written: seq<Written>, id: string): seq<Message>
    decreases |written|
  {
    if written == [] then []
    else if written[0].owner == id then [written[0].message] + WrittenFor(written[1..], id)
    else WrittenFor(written[1..], id)
  }

  /** What arrives in a run, whatever is sent and disconnected in between. */
  function Received(events: seq<Event>): seq<Option<Message>>
    decreases |events|
  {
    if events == [] then []
    else if events[0].Inbound? then [events[0].received] + Received(events[1..])
    else Received(events[1..])
  }

  /** How much of it arrives before the first disconnect. */
  function Heard(events: seq<Event>): nat
    decreases |events|
  {
    if events == [] || events[0].Disconnect? then 0
    else (if events[0].Inbound? then 1 else 0) + Heard(events[1..])
  }

  lemma TaggedReaction(m: Message, id: string, streaming: bool)
    ensures Owner(Tagged(m, id)) == Some(id)
    ensures IsChunk(Tagged(m, id)) == IsChunk(m) && Reaction(Tagged(m, id), streaming) == Reaction(m, streaming)
  {
    assert TAG != "type" && TAG != "delta";
    assert Clean(Tagged(m, id)) == Clean(m);
  }

  /** What was written first for an id is what is heard first, but for the tag. */
  lemma HeardFirst(w: Written, own: seq<Message>, mine: seq<Message>, id: string, streaming: bool)
    requires Replies(own, streaming) == Replies(mine, streaming) && (Answered(own) <==> Answered(mine))
    ensures var own' := if w.owner == id then [Tagged(w.message, w.owner)] + own else own;
      var mine' := if w.owner == id then [w.message] + mine else mine;
      Replies(own', streaming) == Replies(mine', streaming) && (Answered(own') <==> Answered(mine'))
  {
    if w.owner == id { SameFirstReply(w.message, id, own, mine, streaming); }
  }

  lemma WrittenCons(written: seq<Written>, n: nat, id: string)
    requires n < |written|
    ensures WrittenFor(written[..n + 1], id) ==
      if written[0].owner == id then [written[0].message] + WrittenFor(written[1..][..n], id)
      else WrittenFor(written[1..][..n], id)
  {
    assert written[..n + 1][1..] == written[1..][..n];
  }

  lemma OwnOfInbound(events: seq<Event>, w: Written, id: string)
    requires events != [] && events[0] == Inbound(Some(Tagged(w.message, w.owner)))
    ensures Own(events, id) ==
      if w.owner == id then [Tagged(w.message, w.owner)] + Own(events[1..], id) else Own(events[1..], id)
  {
  }

  /** Tags aside, the messages for an id before the first disconnect are those written for it so far. */
  lemma {:induction false} OwnOfRun(events: seq<Event>, written: seq<Written>, id: string, streaming: bool)
    requires Received(events) == Wire(written)
    ensures Heard(events) <= |written|
    ensures var mine := WrittenFor(written[..Heard(events)], id);
      Replies(Own(events, id), streaming) == Replies(mine, streaming)
      && (Answered(Own(events, id)) <==> Answered(mine))
    decreases |events|
  {
    if events == [] || events[0].Disconnect? {
      assert WrittenFor(written[..0], id) == [];
    } else if events[0].Inbound? {
      WireTail(events, written);
      OwnOfRun(events[1..], written[1..], id, streaming);
      var n := Heard(events[1..]);
      OwnOfInbound(events, written[0], id);
      WrittenCons(written, n, id);
      HeardFirst(written[0], Own(events[1..], id), WrittenFor(written[1..][..n], id), id, streaming);
    } else {
      OwnOfRun(events[1..], written, id, streaming);
    }
  }

  lemma WireTail(events: seq<Event>, written: seq<Written>)
    requires events != [] && events[0].Inbound? && Received(events) == Wire(written)
    ensures written != [] && events[0].received == Some(Tagged(written[0].message, written[0].owner))
    ensures Received(events[1..]) == Wire(written[1..])
  {
    assert Received(events)[0] == events[0].received;
    assert Received(events)[1..] == Received(events[1..]);
    assert Wire(written)[1..] == Wire(written[1..]);
  }

  lemma SameFirstReply(m: Message, id: string, a: seq<Message>, b: seq<Message>, streaming: bool)
    requires Replies(a, streaming) == Replies(b, streaming) && (Answered(a) <==> Answered(b))
    ensures Replies([Tagged(m, id)] + a, streaming) == Replies([m] + b, streaming)
    ensures Answered([Tagged(m, id)] + a) <==> Answered([m] + b)
  {
    TaggedReaction(m, id, streaming);
    RepliesCons(Tagged(m, id), a, streaming);
    RepliesCons(m, b, streaming);
    AnsweredCons(Tagged(m, id), a);
    AnsweredCons(m, b);
  }

  lemma RepliesCons(m: Message, messages: seq<Message>, streaming: bool)
    ensures Replies([m] + messages, streaming)
      == Reaction(m, streaming) + (if IsChunk(m) then Replies(messages, streaming) else [])
  {
    assert ([m] + messages)[1..] == messages;
  }

  /** The request can be posted: the port is there or can be opened, and posting does not throw. */
  predicate Posts(s: State, send: Event) {
    send.Send? && (s.connected || !send.connectFails) && !send.postFails
  }

  /** Main result: sent at any point of any run, with any sends and disconnects and the host's writes for any requests
      in between, a request sees the replies its own handler call wrote before the first disconnect, without their
      tags, and then the disconnect if they hold no answer. */
  lemma RequestSeesItsOwnHandler(before: seq<Event>, send: Event, after: seq<Event>, written: seq<Written>)
    requires Posts(Run(START, before), send) && Received(after) == Wire(written)
    ensures var s := Run(START, before);
      var id := RequestId(s.nextId + 1, send.stamp);
      && Heard(after) <= |written|
      && At(Run(Step(s, send), after), id)
           == Outcomes(WrittenFor(written[..Heard(after)], id), send.streaming, Disconnect in after)
  {
    var id := RequestId(Run(START, before).nextId + 1, send.stamp);
    SentRequestSeesItsProjection(before, send, after);
    OwnOfRun(after, written, id, send.streaming);
  }

  function Deltas(chunks: seq<Message>): seq<Outcome>
    decreases |chunks|
  {
    if chunks == [] then []
    else (if DeltaOf(chunks[0]) != "" then [Delta(DeltaOf(chunks[0]))] else []) + Deltas(chunks[1..])
  }

  /** A chunk comes before the other replies, as its text or not at all. */
  lemma ChunkReplies(chunk: Message, rest: seq<Message>)
    requires IsChunk(chunk)
    ensures Replies([chunk] + rest, false) == Replies(rest, false)
    ensures Replies([chunk] + rest, true)
      == (if DeltaOf(chunk) != "" then [Delta(DeltaOf(chunk))] else []) + Replies(rest, true)
  {
    RepliesCons(chunk, rest, true);
    RepliesCons(chunk, rest, false);
  }

  /** A handler call that writes chunks and returns a response reaches a streaming caller whole. */
  lemma {:induction false} CompletedCall(chunks: seq<Message>, response: Message, late: seq<Message>)
    requires forall c :: c in chunks ==> IsChunk(c)
    requires !IsChunk(response)
    ensures Replies(chunks + [response] + late, true) == Deltas(chunks) + [Resolved(Clean(response))]
    ensures Replies(chunks + [response] + late, false) == [Resolved(Clean(response))]
    decreases |chunks|
  {
    if chunks == [] {
      assert chunks + [response] + late == [response] + late;
      RepliesCons(response, late, true);
      RepliesCons(response, late, false);
      WithEmpty([Resolved(Clean(response))]);
    } else {
      var rest := chunks[1..] + [response] + late;
      assert chunks + [response] + late == [chunks[0]] + rest && chunks[0] in chunks;
      CompletedCall(chunks[1..], response, late);
      ChunkReplies(chunks[0], rest);
      Associate(if DeltaOf(chunks[0]) != "" then [Delta(DeltaOf(chunks[0]))] else [], Deltas(chunks[1..]),
                [Resolved(Clean(response))]);
    }
  }

  /** What the host writes for posted frames, when each frame's handler call writes the given messages. */
  function HostWrites(frames: seq<Message>, outputs: seq<seq<Message>>): seq<Written>
    requires |frames| == |outputs|
    decreases |frames|
  {
    if frames == [] then []
    else WritesFor(Owner(frames[0]).GetOr(""), outputs[0]) + HostWrites(frames[1..], outputs[1..])
  }

  function WritesFor(owner: string, messages: seq<Message>): seq<Written>
    decreases |messages|
  {
    if messages == [] then [] else [Written(owner, messages[0])] + WritesFor(owner, messages[1..])
  }

  lemma {:induction false} WrittenForConcat(a: seq<Written>, b: seq<Written>, id: string)
    ensures WrittenFor(a + b, id) == WrittenFor(a, id) + WrittenFor(b, id)
    decreases |a|
  {
    if a == [] {
      assert a + b == b;
    } else {
      assert (a + b)[0] == a[0] && (a + b)[1..] == a[1..] + b;
      WrittenForConcat(a[1..], b, id);
      Associate([a[0].message], WrittenFor(a[1..], id), WrittenFor(b, id));
    }
  }

  lemma {:induction false} WrittenForOwner(owner: string, messages: seq<Message>, id: string)
    ensures WrittenFor(WritesFor(owner, messages), id) == if owner == id then messages else []
    decreases |messages|
  {
    if messages != [] {
      WrittenForOwner(owner, messages[1..], id);
      assert ([Written(owner, messages[0])] + WritesFor(owner, messages[1..]))[1..] == WritesFor(owner, messages[1..]);
    }
  }

  /** Frames are tagged with ids of their own. */
  ghost predicate DistinctOwners(frames: seq<Message>) {
    && (forall i :: 0 <= i < |frames| ==> Owner(frames[i]).Some?)
    && (forall i, j :: 0 <= i < j < |frames| ==> Owner(frames[i]) != Owner(frames[j]))
  }

  ghost predicate NoOwner(frames: seq<Message>, id: string) {
    forall i :: 0 <= i < |frames| ==> Owner(frames[i]) != Some(id)
  }

  lemma {:induction false} NothingForStrangers(frames: seq<Message>, outputs: seq<seq<Message>>, id: string)
    requires |frames| == |outputs| && NoOwner(frames, id)
    requires forall i :: 0 <= i < |frames| ==> Owner(frames[i]).Some?
    ensures WrittenFor(HostWrites(frames, outputs), id) == []
    decreases |frames|
  {
    if frames != [] {
      var owner := Owner(frames[0]).value;
      NothingForStrangers(frames[1..], outputs[1..], id);
      WrittenForConcat(WritesFor(owner, outputs[0]), HostWrites(frames[1..], outputs[1..]), id);
      WrittenForOwner(owner, outputs[0], id);
    }
  }

  lemma {:induction false} OwnOutput(frames: seq<Message>, outputs: seq<seq<Message>>, k: nat)
    requires |frames| == |outputs| && DistinctOwners(frames) && k < |frames|
    ensures WrittenFor(HostWrites(frames, outputs), Owner(frames[k]).value) == outputs[k]
    decreases |frames|
  {
    var owner, id := Owner(frames[0]).value, Owner(frames[k]).value;
    WrittenForConcat(WritesFor(owner, outputs[0]), HostWrites(frames[1..], outputs[1..]), id);
    WrittenForOwner(owner, outputs[0], id);
    if k == 0 {
      assert forall i :: 0 <= i < |frames[1..]| ==> frames[1..][i] == frames[i + 1];
      NothingForStrangers(frames[1..], outputs[1..], id);
      WithEmpty(outputs[0]);
    } else {
      OwnOutput(frames[1..], outputs[1..], k - 1);
      WithEmpty(outputs[k]);
    }
  }

  /** Every posted frame carries an id that was given out when it was posted, and no two carry the same. */
  ghost predicate PostedInv(s: State) {
    && DistinctOwners(s.posted)
    && (forall i :: 0 <= i < |s.posted| ==> Owner(s.posted[i]).value in s.seen)
  }

  lemma StepKeepsPosted(s: State, e: Event)
    requires Inv(s) && PostedInv(s)
    ensures PostedInv(Step(s, e))
  {
    if e.Send? {
      NextIdIsNew(s, e.stamp);
      TaggedReaction(e.message, RequestId(s.nextId + 1, e.stamp), e.streaming);
    }
  }

  lemma {:induction false} RunKeepsPosted(s: State, events: seq<Event>)
    requires Inv(s) && PostedInv(s)
    ensures PostedInv(Run(s, events))
    decreases |events|
  {
    if events != [] {
      StepKeepsInv(s, events[0]);
      StepKeepsPosted(s, events[0]);
      RunKeepsPosted(Step(s, events[0]), events[1..]);
    }
  }

  lemma StepPosts(s: State, e: Event)
    ensures s.posted <= Step(s, e).posted
  {
  }

  lemma {:induction false} RunPosts(s: State, events: seq<Event>)
    ensures s.posted <= Run(s, events).posted
    decreases |events|
  {
    if events != [] {
      StepPosts(s, events[0]);
      RunPosts(Step(s, events[0]), events[1..]);
    }
  }

  lemma PostedFrame(s: State, send: Event, after: seq<Event>)
    requires Inv(s) && PostedInv(s) && Posts(s, send)
    ensures var frames := Run(Step(s, send), after).posted;
      && DistinctOwners(frames) && |s.posted| < |frames|
      && Owner(frames[|s.posted|]) == Some(RequestId(s.nextId + 1, send.stamp))
  {
    var t := Step(s, send);
    StepKeepsInv(s, send);
    StepKeepsPosted(s, send);
    RunKeepsPosted(t, after);
    RunPosts(t, after);
    TaggedReaction(send.message, RequestId(s.nextId + 1, send.stamp), send.streaming);
    assert t.posted[|s.posted|] == Run(t, after).posted[|s.posted|];
  }

  lemma LaterHoldsOwnOutput(frames: seq<Message>, outputs: seq<seq<Message>>, k: nat,
                            earlier: seq<Written>, later: seq<Written>)
    requires |frames| == |outputs| && DistinctOwners(frames) && k < |frames|
    requires earlier + later == HostWrites(frames, outputs)
    requires WrittenFor(earlier, Owner(frames[k]).value) == []
    ensures WrittenFor(later, Owner(frames[k]).value) == outputs[k]
  {
    var id := Owner(frames[k]).value;
    OwnOutput(frames, outputs, k);
    WrittenForConcat(earlier, later, id);
    assert [] + WrittenFor(later, id) == WrittenFor(later, id);
  }

  lemma NothingIsAdded(later: seq<Written>, messages: seq<Message>, streaming: bool)
    ensures later[..|later|] == later
    ensures Outcomes(messages, streaming, false) == Replies(messages, streaming)
  {
  }

  /** Main result: if the host handles all frames posted in a run and handler call `k` writes `outputs[k]`, and nothing
      is written for a frame before it is posted, then the request of frame `k` sees exactly the replies in
      `outputs[k]`, unless the port is disconnected. */
  lemma EveryFrameReachesItsCaller(
      before: seq<Event>, send: Event, after: seq<Event>,
      earlier: seq<Written>, later: seq<Written>, outputs: seq<seq<Message>>)
    requires Posts(Run(START, before), send) && Received(after) == Wire(later) && Disconnect !in after
    requires |outputs| == |Run(Step(Run(START, before), send), after).posted|
    requires earlier + later == HostWrites(Run(Step(Run(START, before), send), after).posted, outputs)
    requires WrittenFor(earlier, RequestId(Run(START, before).nextId + 1, send.stamp)) == []
    ensures var s := Run(START, before);
      var k := |s.posted|;
      && k < |outputs|
      && At(Run(Step(s, send), after), RequestId(s.nextId + 1, send.stamp)) == Replies(outputs[k], send.streaming)
  {
    var s := Run(START, before);
    var id := RequestId(s.nextId + 1, send.stamp);
    RunKeepsInv(START, before);
    RunKeepsPosted(START, before);
    PostedFrame(s, send, after);
    LaterHoldsOwnOutput(Run(Step(s, send), after).posted, outputs, |s.posted|, earlier, later);
    RequestSeesItsOwnHandler(before, send, after, later);
    AllIsHeard(after, later);
    NothingIsAdded(later, outputs[|s.posted|], send.streaming);
  }

  lemma {:induction false} AllIsHeard(events: seq<Event>, written: seq<Written>)
    requires Disconnect !in events && Received(events) == Wire(written)
    ensures Heard(events) == |written|
    decreases |events|
  {
    if events != [] {
      assert events[0] in events;
      if events[0].Inbound? {
        WireTail(events, written);
        AllIsHeard(events[1..], written[1..]);
      } else {
        AllIsHeard(events[1..], written);
      }
    }
  }

  // ----- what is posted, from the events alone -------------------------------

  /** A call that got a port and an id: what it asked for, and whether its frame could be posted. */
  datatype Request = Request(id: string, message: Message, posts: bool)

  predicate OpenAfter(e: Event, open: bool) {
    match e
    case Send(_, _, _, connectFails, _) => open || !connectFails
    case Inbound(_) => open
    case Disconnect => false
  }

  /** The request that an event makes when the port is open or not and `n` ids are given out. */
  function RequestOf(e: Event, open: bool, n: nat): seq<Request> {
    if e.Send? && OpenAfter(e, open) then [Request(RequestId(n + 1, e.stamp), e.message, !e.postFails)] else []
  }

  function Requests(events: seq<Event>, open: bool, n: nat): seq<Request>
    decreases |events|
  {
    if events == [] then []
    else
      var first := RequestOf(events[0], open, n);
      first + Requests(events[1..], OpenAfter(events[0], open), n + |first|)
  }

  /** Those whose frame could be posted. */
  function Postable(requests: seq<Request>): seq<Request>
    decreases |requests|
  {
    if requests == [] then []
    else (if requests[0].posts then [requests[0]] else []) + Postable(requests[1..])
  }

  function Ids(requests: seq<Request>): set<string> { set r | r in requests :: r.id }

  /** The frame is the message with the id under the tag, whatever the message had there. */
  predicate IsFrameOf(frame: Message, request: Request) {
    && "_bridgeRequestId" in frame && frame["_bridgeRequestId"] == Str(request.id)
    && (forall k :: k in request.message ==> k in frame)
    && (forall k :: k in frame && k != "_bridgeRequestId" ==>
          k in request.message && frame[k] == request.message[k])
  }

  ghost predicate AreFramesOf(frames: seq<Message>, requests: seq<Request>) {
    |frames| == |requests| && forall i :: 0 <= i < |frames| ==> IsFrameOf(frames[i], requests[i])
  }

  /** Between the states these requests were made, and their frames posted in order. */
  ghost predicate Makes(s: State, t: State, requests: seq<Request>) {
    && t.nextId == s.nextId + |requests| && t.seen.Keys == s.seen.Keys + Ids(requests)
    && exists frames :: AreFramesOf(frames, Postable(requests)) && t.posted == s.posted + frames
  }

  lemma TaggedIsFrame(m: Message, id: string, posts: bool)
    ensures IsFrameOf(Tagged(m, id), Request(id, m, posts))
  {
  }

  lemma MakesNothing(s: State, t: State)
    requires t.nextId == s.nextId && t.seen.Keys == s.seen.Keys && t.posted == s.posted
    ensures Makes(s, t, [])
  {
    WithEmpty(s.posted);
    assert AreFramesOf([], Postable([])) && t.posted == s.posted + [];
  }

  lemma SendMakes(s: State, e: Event)
    requires e.Send? && OpenAfter(e, s.connected)
    ensures Makes(s, Step(s, e), RequestOf(e, s.connected, s.nextId))
  {
    var t, requests := Step(s, e), RequestOf(e, s.connected, s.nextId);
    var r := requests[0];
    assert requests == [r] && requests[1..] == [];
    TaggedIsFrame(r.message, r.id, r.posts);
    var frames := if r.posts then [Tagged(r.message, r.id)] else [];
    WithEmpty(s.posted);
    assert AreFramesOf(frames, Postable(requests)) && t.posted == s.posted + frames;
    assert Ids(requests) == {r.id};
  }

  /** Whoever waits has a record of what it saw. */
  predicate Recorded(s: State) { s.pending.Keys <= s.seen.Keys }

  lemma StepMakes(s: State, e: Event)
    requires Recorded(s)
    ensures Makes(s, Step(s, e), RequestOf(e, s.connected, s.nextId))
    ensures Step(s, e).connected == OpenAfter(e, s.connected) && Recorded(Step(s, e))
  {
    if e.Send? && OpenAfter(e, s.connected) { SendMakes(s, e); } else { MakesNothing(s, Step(s, e)); }
  }

  lemma PostableConcat(first: seq<Request>, rest: seq<Request>)
    requires |first| <= 1
    ensures Postable(first + rest) == Postable(first) + Postable(rest)
  {
    if first == [] {
      WithEmpty(rest);
      WithEmpty(Postable(rest));
    } else {
      assert (first + rest)[1..] == rest && first[1..] == [];
    }
  }

  lemma FramesConcat(a: seq<Message>, b: seq<Message>, p: seq<Request>, q: seq<Request>)
    requires AreFramesOf(a, p) && AreFramesOf(b, q)
    ensures AreFramesOf(a + b, p + q)
  {
  }

  lemma IdsConcat(a: seq<Request>, b: seq<Request>)
    ensures Ids(a + b) == Ids(a) + Ids(b)
  {
  }

  lemma MakesThen(s: State, t: State, u: State, first: seq<Request>, rest: seq<Request>)
    requires |first| <= 1 && Makes(s, t, first) && Makes(t, u, rest)
    ensures Makes(s, u, first + rest)
  {
    var a :| AreFramesOf(a, Postable(first)) && t.posted == s.posted + a;
    var b :| AreFramesOf(b, Postable(rest)) && u.posted == t.posted + b;
    PostableConcat(first, rest);
    FramesConcat(a, b, Postable(first), Postable(rest));
    Associate(s.posted, a, b);
    IdsConcat(first, rest);
  }

  lemma MakesInOrder(s: State, t: State, u: State, e: Event, rest: seq<Event>)
    requires Makes(s, t, RequestOf(e, s.connected, s.nextId)) && t.connected == OpenAfter(e, s.connected)
    requires Makes(t, u, Requests(rest, t.connected, t.nextId))
    ensures Makes(s, u, Requests([e] + rest, s.connected, s.nextId))
  {
    var first := RequestOf(e, s.connected, s.nextId);
    assert ([e] + rest)[1..] == rest;
    assert Requests([e] + rest, s.connected, s.nextId) == first + Requests(rest, t.connected, t.nextId);
    MakesThen(s, t, u, first, Requests(rest, t.connected, t.nextId));
  }

  lemma {:induction false} RunMakes(s: State, events: seq<Event>)
    requires Recorded(s)
    ensures Makes(s, Run(s, events), Requests(events, s.connected, s.nextId))
    decreases |events|
  {
    if events == [] {
      MakesNothing(s, s);
    } else {
      StepMakes(s, events[0]);
      RunMakes(Step(s, events[0]), events[1..]);
      assert events == [events[0]] + events[1..];
      MakesInOrder(s, Step(s, events[0]), Run(s, events), events[0], events[1..]);
    }
  }

  /** Main result: what a run has posted are the messages of the sends whose frame could be posted, in order, each under
      its own id and otherwise as the caller gave it; and the ids given out are those of the sends that got a port. */
  lemma PostedFramesAreTheRequests(events: seq<Event>)
    ensures var t := Run(START, events);
      var requests := Requests(events, false, 0);
      && AreFramesOf(t.posted, Postable(requests))
      && t.nextId == |requests| && t.seen.Keys == Ids(requests)
  {
    RunMakes(START, events);
    var t, requests := Run(START, events), Requests(events, false, 0);
    var frames :| AreFramesOf(frames, Postable(requests)) && t.posted == START.posted + frames;
    WithEmpty(frames);
  }

  // ----- what a message means -------------------------------------------------

  /** A message belongs to the request whose id it carries as a text. */
  lemma OwnerMeans(m: Message, id: string)
    ensures Owner(m) == Some(id) <==> "_bridgeRequestId" in m && m["_bridgeRequestId"] == Str(id)
  {
  }

  predicate IsDelta(m: Message) {
    "type" in m && m["type"].Str? && m["type"].text in ["cloud.chat.stream.chunk", "cli.chat.stream.chunk"]
  }

  predicate CarriesText(m: Message) { "delta" in m && m["delta"].Str? && |m["delta"].text| > 0 }

  /** A caller sees the text of a chunk, if it asked for chunks and there is one, and any other message as its answer,
      without the id. */
  lemma ReactionMeans(m: Message, streaming: bool)
    ensures IsDelta(m) && streaming && CarriesText(m) ==> Reaction(m, streaming) == [Delta(m["delta"].text)]
    ensures IsDelta(m) && !(streaming && CarriesText(m)) ==> Reaction(m, streaming) == []
    ensures !IsDelta(m) ==>
      && |Reaction(m, streaming)| == 1 && Reaction(m, streaming)[0].Resolved?
      && var response := Reaction(m, streaming)[0].response;
         && response.Keys == m.Keys - {"_bridgeRequestId"}
         && forall k :: k in response ==> response[k] == m[k]
    ensures IsChunk(m) <==> IsDelta(m)
  {
  }

  // ----- the port object ----------------------------------------------------

  class VaultPort {
    var connected: bool
    var nextId: nat
    var pending: map<string, bool>
    var seen: map<string, seq<Outcome>>
    var posted: seq<Message>

    function Current(): State
      reads this
    {
      State(connected, nextId, pending, seen, posted)
    }

    /** Whoever waits has a record of what it saw. */
    ghost predicate Valid()
      reads this
    {
      forall id :: id in pending ==> id in seen
    }

    constructor ()
      ensures Valid() && Current() == START
    {
      connected, nextId, pending, seen, posted := false, 0, map[], map[], [];
    }

    method Observe(id: string, outcomes: seq<Outcome>)
      modifies this`seen
      ensures seen == old(seen)[id := At(old(Current()), id) + outcomes]
    {
      seen := seen[id := (if id in seen then seen[id] else []) + outcomes];
    }

    /** `sendViaPort`, and with `streaming` `sendBridgeStreamingMessage`; no id is returned when connecting throws. */
    method Send(message: Message, streaming: bool, stamp: string, connectFails: bool, postFails: bool)
      returns (id: Option<string>)
      requires Valid()
      modifies this
      ensures Valid()
      ensures Current() == StepSend(old(Current()), message, streaming, stamp, connectFails, postFails)
      ensures id == if !old(connected) && connectFails then None else Some(RequestId(old(nextId) + 1, stamp))
    {
      if !connected {
        if connectFails { return None; }
        connected := true;
      }
      nextId := nextId + 1;
      var reqId := RequestId(nextId, stamp);
      pending := pending[reqId := streaming];
      if postFails {
        pending := pending - {reqId};
        seen := seen[reqId := [PostFailed]];
        assert pending == old(pending) - {reqId};
      } else {
        seen := seen[reqId := []];
        posted := posted + [Tagged(message, reqId)];
      }
      id := Some(reqId);
    }

    method OnMessage(received: Option<Message>)
      requires Valid()
      modifies this
      ensures Valid()
      ensures Current() == StepInbound(old(Current()), received)
    {
      if received.None? { return; }
      var m := received.value;
      var owner := Owner(m);
      if owner.None? { return; }
      if owner.value !in pending { return; }
      if IsChunk(m) {
        var delta := DeltaOf(m);
        var forwarded := if pending[owner.value] && delta != "" then [Delta(delta)] else [];
        Observe(owner.value, forwarded);
        return;
      }
      pending := pending - {owner.value};
      Observe(owner.value, [Resolved(Clean(m))]);
    }

    method OnDisconnect()
      requires Valid()
      modifies this
      ensures Valid()
      ensures Current() == StepDisconnect(old(Current()))
    {
      connected := false;
      RejectEach();
      pending := map[];
    }

    /** The loop in the disconnect listener. */
    method RejectEach()
      requires Valid()
      modifies this`seen
      ensures seen == map id | id in old(seen) ::
        if id in pending then old(seen)[id] + [Disconnected] else old(seen)[id]
    {
      var todo := pending.Keys;
      while todo != {}
        invariant todo <= pending.Keys
        invariant seen.Keys == old(seen).Keys
        invariant forall id :: id in seen ==>
          seen[id] == if id in pending && id !in todo then old(seen)[id] + [Disconnected] else old(seen)[id]
        decreases |todo|
      {
        var id :| id in todo;
        Observe(id, [Disconnected]);
        todo := todo - {id};
      }
    }
  }
}
