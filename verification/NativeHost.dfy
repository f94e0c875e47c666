/** The bridge's native messaging host.  Input events arrive at any time, also while the
    drain loop awaits a handler or a write; an `await` therefore ends a step. */
module NativeHost {
  import opened Framing
  import opened Text

  datatype Phase = Idle | LoopHead | AwaitingHandler | AwaitingWrite

  datatype Verdict = Pending | Resolved | Rejected

  /** Why the promise chain rejected: the stream itself, or a handler or write that failed. */
  datatype Fault = NoFault | BadStream | Environment

  /** The host's fields, the promise chain behind `#drainQueue`, and a record of the run.

      The chain holds `drains` scheduled calls of `#drainBuffer` and, after the input ended,
      the final check.  `refused` holds a frame that was cut off the buffer but did not parse. */
  datatype HostState = HostState(
    buffer: Bytes, drains: nat, endCheck: bool, phase: Phase, fault: Fault, verdict: Verdict,
    ended: bool, inputFailed: bool, received: Bytes, calls: seq<Body>, refused: Bytes, discarded: bool)

  datatype Event =
    | Data(chunk: Bytes)
    | End
    | InputError
    | RunJob
    | Loop
    | HandlerReturns(responds: bool)
    | HandlerThrows
    | WriteSucceeds
    | WriteFails

  const FRESH: HostState := HostState([], 0, false, Idle, NoFault, Pending, false, false, [], [], [], false)

  function Settle(v: Verdict, to: Verdict): Verdict { if v == Pending then to else v }

  function Fail(s: HostState, fault: Fault): HostState {
    s.(phase := Idle, fault := fault, verdict := Settle(s.verdict, Rejected))
  }

  /** The next link of the chain; a rejected chain skips it. */
  function RunJobStep(s: HostState): HostState {
    if s.phase != Idle then s
    else if s.drains > 0 then
      s.(drains := s.drains - 1, phase := if s.fault == NoFault then LoopHead else Idle)
    else if s.endCheck then
      s.(endCheck := false,
         verdict := Settle(s.verdict, if s.fault == NoFault && s.buffer == [] then Resolved else Rejected))
    else s
  }

  /** One turn of the `while` in `#drainBuffer`, up to the next `await`. */
  function LoopStep(c: Config, s: HostState): HostState {
    if s.phase != LoopHead then s
    else if |s.buffer| < 4 then s.(phase := Idle)
    else
      var n := ReadUInt32LE(s.buffer);
      if n == 0 then s.(buffer := [], phase := Idle, discarded := true)
      else if n > c.maxFrameBytes then Fail(s, BadStream)
      else if |s.buffer| < 4 + n then s.(phase := Idle)
      else
        var frame := s.buffer[4..4 + n];
        var cut := s.(buffer := s.buffer[4 + n..]);
        if !c.parses(frame) then Fail(cut.(refused := s.buffer[..4 + n]), BadStream)
        else cut.(calls := s.calls + [frame], phase := AwaitingHandler)
  }

  /** An event that cannot happen in a state leaves the state alone. */
  function Step(c: Config, s: HostState, e: Event): HostState {
    match e
    case Data(chunk) =>
      if s.ended then s
      else s.(buffer := s.buffer + chunk, received := s.received + chunk, drains := s.drains + 1)
    case End => if s.ended then s else s.(ended := true, endCheck := true)
    case InputError => s.(inputFailed := true, verdict := Settle(s.verdict, Rejected))
    case RunJob => RunJobStep(s)
    case Loop => LoopStep(c, s)
    case HandlerReturns(responds) =>
      if s.phase != AwaitingHandler then s else s.(phase := if responds then AwaitingWrite else LoopHead)
    case HandlerThrows => if s.phase != AwaitingHandler then s else Fail(s, Environment)
    case WriteSucceeds => if s.phase != AwaitingWrite then s else s.(phase := LoopHead)
    case WriteFails => if s.phase != AwaitingWrite then s else Fail(s, Environment)
  }

  function Run(c: Config, s: HostState, events: seq<Event>): HostState
    decreases |events|
  {
    if events == [] then s else Run(c, Step(c, s, events[0]), events[1..])
  }

  // ----- what every step keeps ----------------------------------------------

  /** No byte is lost or read twice: the stream is the handled frames, then the refused one, then the buffer. */
  ghost predicate Accounted(c: Config, s: HostState) {
    && AllAccepted(c, s.calls)
    && (!s.discarded ==> s.received == EncodeAll(s.calls) + s.refused + s.buffer)
    && (s.discarded ==> ShutDown(c, s))
  }

  /** A zero-length frame was read; if nothing came behind it, everything before it was handled. */
  ghost predicate ShutDown(c: Config, s: HostState) {
    var r := Read(c, s.received);
    && r.stop == ZeroLength
    && (|r.rest| == 4 ==> s.calls == r.bodies && s.buffer == [] && s.refused == [] && s.fault != BadStream)
  }

  /** The chain rejects for the stream's sake only at a frame that is too long or does not parse. */
  ghost predicate FaultsAreReal(c: Config, s: HostState) {
    && (s.refused != [] ==> s.fault == BadStream)
    && (s.fault == BadStream ==> FrontOf(c, s.refused + s.buffer) in {TooLong, Unparsable})
    && (s.fault != NoFault ==> s.phase == Idle && s.verdict == Rejected)
  }

  /** Between drains nothing complete is left in the buffer. */
  ghost predicate Drained(c: Config, s: HostState) {
    s.fault == NoFault && s.phase == Idle && s.drains == 0 ==>
      FrontOf(c, s.buffer) == Incomplete && |s.buffer| <= c.maxFrameBytes + 3
  }

  /** The verdict is resolved only by the final check, after everything was handled. */
  ghost predicate VerdictIsEarned(s: HostState) {
    && (s.endCheck ==> s.ended)
    && (s.verdict == Resolved ==>
          s.ended && !s.endCheck && s.drains == 0 && s.phase == Idle && s.fault == NoFault && s.buffer == [])
    && (s.verdict == Rejected && s.fault == NoFault && !s.inputFailed ==>
          s.ended && !s.endCheck && s.drains == 0 && s.phase == Idle && s.buffer != [])
    && (s.ended && !s.endCheck ==> s.drains == 0 && s.phase == Idle && s.verdict != Pending)
  }

  ghost predicate Inv(c: Config, s: HostState) {
    Accounted(c, s) && FaultsAreReal(c, s) && Drained(c, s) && VerdictIsEarned(s)
  }

  lemma {:induction false} EncodeAllAppend(bodies: seq<Body>, b: Body)
    ensures EncodeAll(bodies + [b]) == EncodeAll(bodies) + Encode(b)
  {
    if bodies == [] {
      assert [b][1..] == [];
      assert [] + [b] == [b];
    } else {
      EncodeAllAppend(bodies[1..], b);
      assert (bodies + [b])[1..] == bodies[1..] + [b];
      Associate(Encode(bodies[0]), EncodeAll(bodies[1..]), Encode(b));
    }
  }

  lemma DataKeepsInv(c: Config, s: HostState, chunk: Bytes)
    requires Inv(c, s) && !s.ended
    ensures Inv(c, Step(c, s, Data(chunk)))
  {
    var t := Step(c, s, Data(chunk));
    assert EncodeAll(s.calls) + s.refused + (s.buffer + chunk) == (EncodeAll(s.calls) + s.refused + s.buffer) + chunk;
    if s.discarded {
      ReadIsStable(c, s.received, chunk);
      ReadStopsAtTheFront(c, s.received);
      assert chunk == [] ==> s.received + chunk == s.received;
    }
    if s.fault == BadStream {
      FrontIsStable(c, s.refused + s.buffer, chunk);
      assert s.refused + (s.buffer + chunk) == (s.refused + s.buffer) + chunk;
    }
  }

  lemma MoveToCalls(done: Bytes, frame: Bytes, rest: Bytes)
    ensures done + [] + (frame + rest) == (done + frame) + [] + rest
  {
  }

  lemma Regroup(done: Bytes, refused: Bytes, rest: Bytes)
    ensures done + [] + (refused + rest) == done + refused + rest
  {
  }

  lemma LoopWaitsKeepsInv(c: Config, s: HostState)
    requires Inv(c, s) && s.phase == LoopHead && FrontOf(c, s.buffer) == Incomplete
    ensures Inv(c, LoopStep(c, s))
  {
    var t := s.(phase := Idle);
    assert LoopStep(c, s) == t;
    assert Accounted(c, t) && FaultsAreReal(c, t) && VerdictIsEarned(t);
  }

  lemma LoopRejectsKeepsInv(c: Config, s: HostState)
    requires Inv(c, s) && s.phase == LoopHead && FrontOf(c, s.buffer) == TooLong
    ensures Inv(c, LoopStep(c, s))
  {
    var t := Fail(s, BadStream);
    assert LoopStep(c, s) == t;
    assert s.refused == [];
    assert t.refused + t.buffer == s.buffer;
    assert Accounted(c, t);
  }

  lemma LoopDiscardsKeepsInv(c: Config, s: HostState)
    requires Inv(c, s) && s.phase == LoopHead && FrontOf(c, s.buffer) == ZeroLength
    ensures Inv(c, LoopStep(c, s))
  {
    if !s.discarded {
      assert EncodeAll(s.calls) + [] == EncodeAll(s.calls);
      ReadOfEncoded(c, s.calls, s.buffer);
      assert s.calls + [] == s.calls;
    }
  }

  lemma LoopCallsHandlerKeepsInv(c: Config, s: HostState)
    requires Inv(c, s) && s.phase == LoopHead && FrontOf(c, s.buffer).Whole?
    ensures Inv(c, LoopStep(c, s))
  {
    var t, body := LoopStep(c, s), FrontOf(c, s.buffer).body;
    EncodeAllAppend(s.calls, body);
    MoveToCalls(EncodeAll(s.calls), Encode(body), t.buffer);
  }

  lemma LoopRefusesFrameKeepsInv(c: Config, s: HostState)
    requires Inv(c, s) && s.phase == LoopHead && FrontOf(c, s.buffer) == Unparsable
    ensures Inv(c, LoopStep(c, s))
  {
    var t := LoopStep(c, s);
    assert s.refused == [];
    assert t.refused + t.buffer == s.buffer;
    Regroup(EncodeAll(s.calls), t.refused, t.buffer);
    assert Accounted(c, t);
  }

  lemma StepKeepsInv(c: Config, s: HostState, e: Event)
    requires Inv(c, s)
    ensures Inv(c, Step(c, s, e))
  {
    match e {
      case Data(chunk) => if !s.ended { DataKeepsInv(c, s, chunk); }
      case Loop =>
        if s.phase == LoopHead {
          match FrontOf(c, s.buffer) {
            case Whole(_) => LoopCallsHandlerKeepsInv(c, s);
            case Unparsable => LoopRefusesFrameKeepsInv(c, s);
            case ZeroLength => LoopDiscardsKeepsInv(c, s);
            case Incomplete => LoopWaitsKeepsInv(c, s);
            case TooLong => LoopRejectsKeepsInv(c, s);
          }
        }
      case _ =>
    }
  }

  lemma {:induction false} RunKeepsInv(c: Config, s: HostState, events: seq<Event>)
    requires Inv(c, s)
    ensures Inv(c, Run(c, s, events))
    decreases |events|
  {
    if events != [] {
      StepKeepsInv(c, s, events[0]);
      RunKeepsInv(c, Step(c, s, events[0]), events[1..]);
    }
  }

  lemma EveryRunIsAccounted(c: Config, events: seq<Event>)
    ensures Inv(c, Run(c, FRESH, events))
  {
    RunKeepsInv(c, FRESH, events);
  }

  // ----- what each event means ------------------------------------------------

  /** The bytes that arrive in a run: those of the chunks before the end of the input. */
  function Arrived(events: seq<Event>): Bytes
    decreases |events|
  {
    if events == [] || events[0].End? then []
    else (if events[0].Data? then events[0].chunk else []) + Arrived(events[1..])
  }

  lemma StepReceives(c: Config, s: HostState, e: Event)
    ensures var t := Step(c, s, e);
      && t.received == s.received + (if e.Data? && !s.ended then e.chunk else [])
      && t.ended == (s.ended || e.End?) && t.inputFailed == (s.inputFailed || e.InputError?)
  {
    WithEmpty(s.received);
  }

  lemma {:induction false} RunReceives(c: Config, s: HostState, events: seq<Event>)
    ensures var t := Run(c, s, events);
      && t.received == s.received + (if s.ended then [] else Arrived(events))
      && t.ended == (s.ended || End in events) && t.inputFailed == (s.inputFailed || InputError in events)
    decreases |events|
  {
    WithEmpty(s.received);
    if events != [] {
      var e, t := events[0], Step(c, s, events[0]);
      StepReceives(c, s, e);
      RunReceives(c, t, events[1..]);
      WithEmpty(t.received);
      Associate(s.received, if e.Data? && !s.ended then e.chunk else [], Arrived(events[1..]));
    }
  }

  /** Main result: what the host has received are the chunks that arrived before the input ended, in order. */
  lemma ReceivedIsWhatArrived(c: Config, events: seq<Event>)
    ensures var s := Run(c, FRESH, events);
      s.received == Arrived(events) && s.ended == (End in events) && s.inputFailed == (InputError in events)
  {
    RunReceives(c, FRESH, events);
    WithEmpty(Arrived(events));
  }

  /** The event takes the next frame off the buffer, and what is in front of it. */
  predicate Takes(s: HostState, e: Event) { s.phase == LoopHead && e == Loop }

  /** The frame in front is bad, or what is awaited for the last one fails. */
  predicate Breaks(c: Config, s: HostState, e: Event) {
    || (Takes(s, e) && FrontOf(c, s.buffer) in {TooLong, Unparsable})
    || (s.phase == AwaitingHandler && e == HandlerThrows)
    || (s.phase == AwaitingWrite && e == WriteFails)
  }

  /** The phase behind an event, without bad frames. */
  function NextPhase(s: HostState, e: Event, front: Front): Phase {
    match s.phase
    case Idle => if e == RunJob && s.drains > 0 && s.fault == NoFault then LoopHead else Idle
    case LoopHead => if e != Loop then LoopHead else if front.Whole? then AwaitingHandler else Idle
    case AwaitingHandler =>
      if e == HandlerReturns(true) then AwaitingWrite
      else if e == HandlerReturns(false) then LoopHead
      else if e == HandlerThrows then Idle
      else AwaitingHandler
    case AwaitingWrite =>
      if e == WriteSucceeds then LoopHead else if e == WriteFails then Idle else AwaitingWrite
  }

  predicate FollowsProtocol(s: HostState, e: Event, front: Front, breaks: bool, t: HostState) {
    && t.phase == NextPhase(s, e, front)
    && t.calls == s.calls + (if Takes(s, e) && front.Whole? then [front.body] else [])
    && t.fault == (if !breaks then s.fault else if s.phase == LoopHead then BadStream else Environment)
  }

  /** What a turn of the loop does to everything but the buffer. */
  function Turned(s: HostState, front: Front): HostState {
    match front
    case Incomplete => s.(phase := Idle)
    case ZeroLength => s.(phase := Idle, discarded := true)
    case TooLong => Fail(s, BadStream)
    case Unparsable => Fail(s, BadStream)
    case Whole(body) => s.(calls := s.calls + [body], phase := AwaitingHandler)
  }

  predicate TurnsTo(s: HostState, t: HostState, front: Front) {
    t.(buffer := s.buffer, refused := s.refused) == Turned(s, front)
  }

  lemma LoopStops(c: Config, s: HostState)
    requires s.phase == LoopHead && FrontOf(c, s.buffer) in {Incomplete, ZeroLength, TooLong}
    ensures TurnsTo(s, LoopStep(c, s), FrontOf(c, s.buffer))
  {
  }

  lemma LoopCuts(c: Config, s: HostState)
    requires s.phase == LoopHead && FrontOf(c, s.buffer) !in {Incomplete, ZeroLength, TooLong}
    ensures TurnsTo(s, LoopStep(c, s), FrontOf(c, s.buffer))
  {
  }

  lemma LoopTurns(c: Config, s: HostState)
    requires s.phase == LoopHead
    ensures TurnsTo(s, LoopStep(c, s), FrontOf(c, s.buffer))
  {
    if FrontOf(c, s.buffer) in {Incomplete, ZeroLength, TooLong} { LoopStops(c, s); } else { LoopCuts(c, s); }
  }

  lemma LoopFollowsProtocol(s: HostState, t: HostState, front: Front)
    requires s.phase == LoopHead && TurnsTo(s, t, front)
    ensures FollowsProtocol(s, Loop, front, front in {TooLong, Unparsable}, t)
    ensures t.drains == s.drains && t.endCheck == s.endCheck
    ensures t.verdict == (if front in {TooLong, Unparsable} then Settle(s.verdict, Rejected) else s.verdict)
  {
    WithEmpty(s.calls);
  }

  /** Main result: the handler is called for one frame at a time.  The loop goes on when it has returned and what it
      returned, if anything, is written; a handler or write that fails, like a bad frame, breaks the chain. */
  lemma HandlerProtocol(c: Config, s: HostState, e: Event)
    ensures FollowsProtocol(s, e, FrontOf(c, s.buffer), Breaks(c, s, e), Step(c, s, e))
  {
    WithEmpty(s.calls);
    if Takes(s, e) {
      LoopTurns(c, s);
      LoopFollowsProtocol(s, LoopStep(c, s), FrontOf(c, s.buffer));
    } else {
      OthersFollowProtocol(c, s, e, FrontOf(c, s.buffer));
    }
  }

  lemma OthersFollowProtocol(c: Config, s: HostState, e: Event, front: Front)
    requires !Takes(s, e)
    ensures FollowsProtocol(s, e, front, Breaks(c, s, e), Step(c, s, e))
  {
    WithEmpty(s.calls);
  }

  /** Each chunk schedules one drain, and the chain goes through them one by one. */
  lemma DrainsAreScheduled(c: Config, s: HostState, e: Event)
    ensures Step(c, s, e).drains == s.drains + (if e.Data? && !s.ended then 1 else 0)
                                    - (if e == RunJob && s.phase == Idle && s.drains > 0 then 1 else 0)
  {
    if Takes(s, e) { LoopTurns(c, s); LoopFollowsProtocol(s, LoopStep(c, s), FrontOf(c, s.buffer)); }
  }

  /** The promise is settled once: by a break, by an input error, or by the check behind the last drain. */
  lemma SettledOnce(c: Config, s: HostState, e: Event)
    ensures var t := Step(c, s, e);
      var checked := e == RunJob && s.phase == Idle && s.drains == 0 && s.endCheck;
      && t.endCheck == ((s.endCheck && !checked) || (e == End && !s.ended))
      && t.verdict == (if s.verdict != Pending then s.verdict
                       else if e == InputError || Breaks(c, s, e) then Rejected
                       else if checked then (if s.fault == NoFault && s.buffer == [] then Resolved else Rejected)
                       else Pending)
  {
    if Takes(s, e) { LoopTurns(c, s); LoopFollowsProtocol(s, LoopStep(c, s), FrontOf(c, s.buffer)); }
  }

  // ----- the drain loop refines the sequential reading ------------------------

  /** Nothing is scheduled or running. */
  predicate Quiet(s: HostState) { s.drains == 0 && s.phase == Idle }

  /** What was read and thrown away: a shutdown frame, if nothing came behind it. */
  function ShutdownFrame(s: HostState): Bytes { Ending(s.discarded) }

  lemma ShutDownAccounts(c: Config, s: HostState)
    requires Inv(c, s) && s.discarded && |Read(c, s.received).rest| == 4
    ensures s.received == EncodeAll(s.calls) + ZERO_FRAME && Read(c, s.received).rest == ZERO_FRAME
  {
    var r := Read(c, s.received);
    ReadAccountsForEveryByte(c, s.received);
    ReadStopsAtTheFront(c, s.received);
    ZeroHeader(r.rest);
    assert r.rest[..4] == r.rest;
  }

  lemma UnreadIsTheRest(c: Config, s: HostState)
    requires Inv(c, s) && !s.discarded
    ensures var r := Read(c, s.received);
      var unread := Read(c, s.refused + s.buffer);
      s.received == EncodeAll(s.calls) + (s.refused + s.buffer)
      && r.bodies == s.calls + unread.bodies && r.rest == unread.rest && r.stop == unread.stop
  {
    Associate(EncodeAll(s.calls), s.refused, s.buffer);
    ReadOfEncoded(c, s.calls, s.refused + s.buffer);
  }

  lemma QuietHasReadAll(c: Config, s: HostState)
    requires Inv(c, s) && !s.discarded && Quiet(s) && s.fault != Environment
    ensures var r := Read(c, s.received);
      s.calls == r.bodies && s.refused + s.buffer == r.rest && r.stop != ZeroLength
      && (s.fault == BadStream <==> r.stop in {TooLong, Unparsable})
  {
    UnreadIsTheRest(c, s);
    assert s.refused == [] ==> s.refused + s.buffer == s.buffer;
    assert s.calls + [] == s.calls;
  }

  /** What is accounted for, without and with a shutdown frame. */
  predicate Sequential(c: Config, s: HostState) {
    var r := Read(c, s.received);
    && s.calls <= r.bodies
    && s.received == EncodeAll(s.calls) + ShutdownFrame(s) + s.refused + s.buffer
    && (Quiet(s) && s.fault != Environment ==>
          s.calls == r.bodies && ShutdownFrame(s) + s.refused + s.buffer == r.rest
          && (s.fault == BadStream <==> r.stop in {TooLong, Unparsable}))
  }

  lemma AccountsSequentially(c: Config, s: HostState)
    requires Inv(c, s) && NothingBehindShutdown(c, s.received)
    ensures Sequential(c, s)
  {
    if s.discarded {
      ShutDownAccounts(c, s);
      assert EncodeAll(s.calls) + ZERO_FRAME + [] + [] == EncodeAll(s.calls) + ZERO_FRAME;
      assert ZERO_FRAME + [] + [] == ZERO_FRAME;
    } else {
      UnreadIsTheRest(c, s);
      assert EncodeAll(s.calls) + [] == EncodeAll(s.calls);
      assert [] + s.refused == s.refused;
      if Quiet(s) && s.fault != Environment { QuietHasReadAll(c, s); }
    }
  }

  /** Main result: unless something comes behind a zero-length frame, under any chunking and interleaving the handler
      gets the bodies of the sequential reading in order, each once; all of them once the host is quiet and no handler
      or write failed. */
  lemma HandlerSeesTheSequentialReading(c: Config, events: seq<Event>)
    ensures var s := Run(c, FRESH, events);
            var r := Read(c, s.received);
            NothingBehindShutdown(c, s.received) ==>
              && s.calls <= r.bodies
              && s.received == EncodeAll(s.calls) + ShutdownFrame(s) + s.refused + s.buffer
              && (Quiet(s) && s.fault != Environment ==>
                    s.calls == r.bodies && ShutdownFrame(s) + s.refused + s.buffer == r.rest
                    && (s.fault == BadStream <==> r.stop in {TooLong, Unparsable}))
  {
    EveryRunIsAccounted(c, events);
    if NothingBehindShutdown(c, Run(c, FRESH, events).received) { AccountsSequentially(c, Run(c, FRESH, events)); }
  }

  lemma IncompleteIsUnread(c: Config, s: HostState)
    requires Inv(c, s) && Read(c, s.received).stop == Incomplete
    ensures s.fault != BadStream && s.received == EncodeAll(s.calls) + s.buffer && s.calls <= Read(c, s.received).bodies
    ensures Quiet(s) && s.fault == NoFault ==>
      s.calls == Read(c, s.received).bodies && s.buffer == Read(c, s.received).rest
  {
    UnreadIsTheRest(c, s);
    assert s.refused == [] ==> s.refused + s.buffer == s.buffer;
    if Quiet(s) && s.fault == NoFault { QuietHasReadAll(c, s); }
  }

  /** Main result: for frames the host accepts, every chunking and interleaving delivers exactly the
      frames sent, in order, and so far only frames sent. */
  lemma FramingRoundTrip(c: Config, events: seq<Event>, bodies: seq<Body>)
    requires AllAccepted(c, bodies)
    requires Run(c, FRESH, events).received <= EncodeAll(bodies)
    ensures var s := Run(c, FRESH, events);
            && s.calls <= bodies
            && s.fault != BadStream
            && s.received == EncodeAll(s.calls) + s.buffer
            && (Quiet(s) && s.fault == NoFault && s.received == EncodeAll(bodies) ==>
                  s.calls == bodies && s.buffer == [])
  {
    var s := Run(c, FRESH, events);
    EveryRunIsAccounted(c, events);
    PrefixIsReadInPart(c, bodies, s.received);
    IncompleteIsUnread(c, s);
    if s.received == EncodeAll(bodies) { ReadIsInverse(c, bodies); }
  }

  lemma PrefixIsReadInPart(c: Config, bodies: seq<Body>, received: Bytes)
    requires AllAccepted(c, bodies) && received <= EncodeAll(bodies)
    ensures Read(c, received).bodies <= bodies && Read(c, received).stop == Incomplete
  {
    var more := EncodeAll(bodies)[|received|..];
    assert received + more == EncodeAll(bodies);
    ReadIsInverse(c, bodies);
    ReadIsStable(c, received, more);
    ReadStopsAtTheFront(c, received);
  }

  /** The run is over: the input ended and the chain ran dry. */
  predicate Over(s: HostState) { s.ended && !s.endCheck }

  /** The run is over, and only the stream had a say in how. */
  predicate Finished(s: HostState) { Over(s) && s.fault != Environment && !s.inputFailed }

  lemma FinishedVerdict(c: Config, s: HostState)
    requires Inv(c, s) && Finished(s)
    ensures s.verdict == (if s.fault == NoFault && s.buffer == [] then Resolved else Rejected) && Quiet(s)
  {
  }

  /** What the bytes alone prescribe. */
  function Prescribed(c: Config, bytes: Bytes): (seq<Body>, Verdict) {
    var r := Read(c, bytes);
    (r.bodies, if r.rest == [] || r.stop == ZeroLength then Resolved else Rejected)
  }

  lemma FinishedAsPrescribed(c: Config, events: seq<Event>)
    ensures var s := Run(c, FRESH, events);
      Finished(s) && NothingBehindShutdown(c, s.received) ==> (s.calls, s.verdict) == Prescribed(c, s.received)
  {
    var s := Run(c, FRESH, events);
    EveryRunIsAccounted(c, events);
    if Finished(s) && NothingBehindShutdown(c, s.received) {
      FinishedVerdict(c, s);
      if s.discarded { ShutDownAccounts(c, s); } else { FinishedWithoutShutdown(c, s); }
    }
  }

  lemma FinishedWithoutShutdown(c: Config, s: HostState)
    requires Inv(c, s) && Finished(s) && !s.discarded
    ensures (s.calls, s.verdict) == Prescribed(c, s.received)
  {
    FinishedVerdict(c, s);
    QuietHasReadAll(c, s);
    ReadStopsAtTheFront(c, s.received);
    assert s.refused == [] ==> s.refused + s.buffer == s.buffer;
  }

  /** Main result: unless something comes behind a zero-length frame, and without failing handlers, writes or input,
      `run` resolves exactly for a concatenation of accepted frames, with or without a shutdown frame at its end, and
      rejects every other stream. */
  lemma TerminationVerdict(c: Config, events: seq<Event>)
    ensures var s := Run(c, FRESH, events);
            Finished(s) && NothingBehindShutdown(c, s.received) ==>
              && (s.verdict == Resolved <==> exists bodies: seq<Body>, shutdown ::
                    AllAccepted(c, bodies) && s.received == EncodeAll(bodies) + Ending(shutdown))
              && (s.verdict == Resolved || s.verdict == Rejected)
  {
    FinishedAsPrescribed(c, events);
    FramesAndShutdownIff(c, Run(c, FRESH, events).received);
  }

  /** Main result: whenever the host is quiet it retains less than one frame of the largest size. */
  lemma QuietBufferIsBounded(c: Config, events: seq<Event>)
    ensures var s := Run(c, FRESH, events);
            Quiet(s) && s.fault == NoFault ==> |s.buffer| <= c.maxFrameBytes + 3
  {
    EveryRunIsAccounted(c, events);
  }

  // ----- exactly when the outcome depends on the chunking -------------------

  lemma RunOne(c: Config, s: HostState, e: Event)
    ensures Run(c, s, [e]) == Step(c, s, e)
  {
    assert [e][1..] == [];
    assert Run(c, s, [e]) == Run(c, Step(c, s, e), []);
  }

  lemma RunTwo(c: Config, s: HostState, e: Event, f: Event)
    ensures Run(c, s, [e, f]) == Step(c, Step(c, s, e), f)
  {
    assert [e, f][1..] == [f];
    RunOne(c, Step(c, s, e), f);
  }

  /** A drain whose handler answers at once, `n` times. */
  function Drain(n: nat): seq<Event> {
    if n == 0 then [Loop] else [Loop, HandlerReturns(false)] + Drain(n - 1)
  }

  /** A drain goes through the frames to the zero-length one and throws the rest away. */
  lemma {:induction false} DrainToShutdown(c: Config, s: HostState)
    requires s.phase == LoopHead && s.fault == NoFault && Read(c, s.buffer).stop == ZeroLength
    ensures var r := Read(c, s.buffer);
      Run(c, s, Drain(|r.bodies|))
        == s.(buffer := [], phase := Idle, discarded := true, calls := s.calls + r.bodies)
    decreases |s.buffer|
  {
    var r := Read(c, s.buffer);
    var f := FrontOf(c, s.buffer);
    if f.Whole? {
      var t := s.(buffer := s.buffer[4 + |f.body|..], calls := s.calls + [f.body]);
      assert Drain(|r.bodies|) == [Loop, HandlerReturns(false)] + Drain(|r.bodies| - 1);
      RunTwo(c, s, Loop, HandlerReturns(false));
      HandledAtOnce(c, s);
      DrainToShutdown(c, t);
      RunOfConcat(c, s, [Loop, HandlerReturns(false)], Drain(|r.bodies| - 1));
      Associate(s.calls, [f.body], Read(c, t.buffer).bodies);
    } else {
      RunOne(c, s, Loop);
      assert s.calls + [] == s.calls;
    }
  }

  lemma HandledAtOnce(c: Config, s: HostState)
    requires s.phase == LoopHead && s.fault == NoFault && FrontOf(c, s.buffer).Whole?
    ensures var body := FrontOf(c, s.buffer).body;
      Step(c, Step(c, s, Loop), HandlerReturns(false))
        == s.(buffer := s.buffer[4 + |body|..], calls := s.calls + [body])
  {
  }

  /** The host after it read `bytes` in one chunk and drained them. */
  function AfterOneChunk(c: Config, bytes: Bytes): HostState {
    FRESH.(received := bytes, calls := Read(c, bytes).bodies, discarded := true)
  }

  function OneChunk(c: Config, bytes: Bytes): seq<Event> {
    [Data(bytes), RunJob] + Drain(|Read(c, bytes).bodies|)
  }

  lemma DataThenJob(c: Config, bytes: Bytes)
    ensures Run(c, FRESH, [Data(bytes), RunJob]) == FRESH.(buffer := bytes, received := bytes, phase := LoopHead)
  {
    assert [] + bytes == bytes;
    RunTwo(c, FRESH, Data(bytes), RunJob);
  }

  lemma OneChunkDrains(c: Config, bytes: Bytes)
    requires Read(c, bytes).stop == ZeroLength
    ensures Run(c, FRESH, OneChunk(c, bytes)) == AfterOneChunk(c, bytes)
  {
    var bodies := Read(c, bytes).bodies;
    DataThenJob(c, bytes);
    DrainToShutdown(c, FRESH.(buffer := bytes, received := bytes, phase := LoopHead));
    RunOfConcat(c, FRESH, [Data(bytes), RunJob], Drain(|bodies|));
    assert [] + bodies == bodies;
  }

  lemma EndOf(c: Config, s: HostState)
    requires s.phase == Idle && s.fault == NoFault && s.drains == 0 && !s.ended && s.verdict == Pending
    ensures Run(c, s, [End, RunJob])
      == s.(ended := true, verdict := if s.buffer == [] then Resolved else Rejected, endCheck := false)
  {
    RunTwo(c, s, End, RunJob);
  }

  /** A last byte that comes after the drain is left over. */
  lemma OneByteLater(c: Config, s: HostState, b: Byte)
    requires s.phase == Idle && s.fault == NoFault && s.drains == 0 && !s.ended && s.buffer == []
    ensures Run(c, s, [Data([b]), RunJob] + [Loop]) == s.(buffer := [b], received := s.received + [b])
  {
    assert [] + [b] == [b];
    RunTwo(c, s, Data([b]), RunJob);
    RunOfConcat(c, s, [Data([b]), RunJob], [Loop]);
    RunOne(c, s.(buffer := [b], received := s.received + [b], phase := LoopHead), Loop);
  }

  predicate FinishesOn(c: Config, events: seq<Event>, bytes: Bytes) {
    Finished(Run(c, FRESH, events)) && Run(c, FRESH, events).received == bytes
  }

  /** The whole stream in one chunk is resolved, whatever comes behind the zero-length frame. */
  lemma TogetherResolves(c: Config, bytes: Bytes) returns (events: seq<Event>)
    requires Read(c, bytes).stop == ZeroLength
    ensures FinishesOn(c, events, bytes) && Run(c, FRESH, events).verdict == Resolved
  {
    events := OneChunk(c, bytes) + [End, RunJob];
    OneChunkDrains(c, bytes);
    RunOfConcat(c, FRESH, OneChunk(c, bytes), [End, RunJob]);
    EndOf(c, AfterOneChunk(c, bytes));
  }

  lemma ZeroIsRead(c: Config, bodies: seq<Body>, rest: Bytes)
    requires AllAccepted(c, bodies) && |rest| >= 4 && ReadUInt32LE(rest) == 0
    ensures Read(c, EncodeAll(bodies) + rest).stop == ZeroLength
  {
    assert Read(c, rest).stop == ZeroLength;
    ReadOfEncoded(c, bodies, rest);
  }

  lemma DropLast(a: Bytes, b: Bytes)
    requires b != []
    ensures (a + b[..|b| - 1]) + [b[|b| - 1]] == a + b
  {
  }

  /** The same stream with its last byte in a chunk of its own is rejected, if anything comes behind the frame. */
  lemma ApartRejects(c: Config, bodies: seq<Body>, rest: Bytes) returns (events: seq<Event>)
    requires AllAccepted(c, bodies) && |rest| > 4 && ReadUInt32LE(rest) == 0
    ensures FinishesOn(c, events, EncodeAll(bodies) + rest) && Run(c, FRESH, events).verdict == Rejected
  {
    var front, b := rest[..|rest| - 1], rest[|rest| - 1];
    assert ReadUInt32LE(front) == ReadUInt32LE(rest);
    ZeroIsRead(c, bodies, front);
    DropLast(EncodeAll(bodies), rest);
    events := (OneChunk(c, EncodeAll(bodies) + front) + LateByte(b)) + [End, RunJob];
    LateByteRejects(c, EncodeAll(bodies) + front, b);
  }

  function LateByte(b: Byte): seq<Event> { [Data([b]), RunJob] + [Loop] }

  lemma LateByteIsLeft(c: Config, bytes: Bytes, b: Byte)
    requires Read(c, bytes).stop == ZeroLength
    ensures Run(c, FRESH, OneChunk(c, bytes) + LateByte(b))
      == AfterOneChunk(c, bytes).(buffer := [b], received := bytes + [b])
  {
    OneChunkDrains(c, bytes);
    OneByteLater(c, AfterOneChunk(c, bytes), b);
    RunOfConcat(c, FRESH, OneChunk(c, bytes), LateByte(b));
  }

  lemma LateByteRejects(c: Config, bytes: Bytes, b: Byte)
    requires Read(c, bytes).stop == ZeroLength
    ensures var s := Run(c, FRESH, (OneChunk(c, bytes) + LateByte(b)) + [End, RunJob]);
      Finished(s) && s.received == bytes + [b] && s.verdict == Rejected
  {
    LateByteIsLeft(c, bytes, b);
    EndOf(c, AfterOneChunk(c, bytes).(buffer := [b], received := bytes + [b]));
    RunOfConcat(c, FRESH, OneChunk(c, bytes) + LateByte(b), [End, RunJob]);
  }

  /** Every finished run over the bytes makes the same calls and comes to the same verdict. */
  ghost predicate OutcomeIsDetermined(c: Config, bytes: Bytes) {
    forall e, f :: FinishesOn(c, e, bytes) && FinishesOn(c, f, bytes) ==>
      Run(c, FRESH, e).calls == Run(c, FRESH, f).calls && Run(c, FRESH, e).verdict == Run(c, FRESH, f).verdict
  }

  lemma DeterminedWithoutMore(c: Config, bytes: Bytes)
    requires NothingBehindShutdown(c, bytes)
    ensures OutcomeIsDetermined(c, bytes)
  {
    forall e, f | FinishesOn(c, e, bytes) && FinishesOn(c, f, bytes)
      ensures Run(c, FRESH, e).calls == Run(c, FRESH, f).calls
      ensures Run(c, FRESH, e).verdict == Run(c, FRESH, f).verdict
    {
      FinishedAsPrescribed(c, e);
      FinishedAsPrescribed(c, f);
    }
  }

  lemma MoreBehindShutdown(c: Config, bytes: Bytes)
    requires !NothingBehindShutdown(c, bytes)
    ensures var r := Read(c, bytes);
      && r.stop == ZeroLength && AllAccepted(c, r.bodies) && bytes == EncodeAll(r.bodies) + r.rest
      && |r.rest| > 4 && ReadUInt32LE(r.rest) == 0
  {
    ReadAccountsForEveryByte(c, bytes);
    ReadStopsAtTheFront(c, bytes);
  }

  lemma TwoOutcomes(c: Config, bytes: Bytes) returns (e: seq<Event>, f: seq<Event>)
    requires !NothingBehindShutdown(c, bytes)
    ensures FinishesOn(c, e, bytes) && Run(c, FRESH, e).verdict == Resolved
    ensures FinishesOn(c, f, bytes) && Run(c, FRESH, f).verdict == Rejected
  {
    MoreBehindShutdown(c, bytes);
    e := TogetherResolves(c, bytes);
    f := ApartRejects(c, Read(c, bytes).bodies, Read(c, bytes).rest);
  }

  /** Main result: the outcome depends on the bytes alone, and not on the chunking, if and only if nothing comes
      behind a zero-length frame. */
  lemma OutcomeIsDeterminedIff(c: Config, bytes: Bytes)
    ensures OutcomeIsDetermined(c, bytes) <==> NothingBehindShutdown(c, bytes)
  {
    if NothingBehindShutdown(c, bytes) { DeterminedWithoutMore(c, bytes); } else { var e, f := TwoOutcomes(c, bytes); }
  }

  lemma {:induction false} RunOfConcat(c: Config, s: HostState, a: seq<Event>, b: seq<Event>)
    ensures Run(c, s, a + b) == Run(c, Run(c, s, a), b)
    decreases |a|
  {
    if a == [] {
      assert a + b == b;
    } else {
      assert (a + b)[1..] == a[1..] + b;
      RunOfConcat(c, Step(c, s, a[0]), a[1..], b);
    }
  }

  // ----- the host object ------------------------------------------------------

  class NativeHost {
    const config: Config
    var buffer: Bytes
    var drains: nat
    var endCheck: bool
    var phase: Phase
    var fault: Fault
    var verdict: Verdict
    var ended: bool
    var inputFailed: bool
    ghost var received: Bytes
    ghost var calls: seq<Body>
    ghost var refused: Bytes
    ghost var discarded: bool

    ghost function State(): HostState
      reads this
    {
      HostState(buffer, drains, endCheck, phase, fault, verdict, ended, inputFailed,
                received, calls, refused, discarded)
    }

    constructor (config: Config)
      requires config.maxFrameBytes > 0
      ensures this.config == config && State() == FRESH
    {
      this.config := config;
      buffer, drains, endCheck, phase, fault := [], 0, false, Idle, NoFault;
      verdict, ended, inputFailed := Pending, false, false;
      received, calls, refused, discarded := [], [], [], false;
    }

    /** `input.on("data")`. */
    method OnData(chunk: Bytes)
      requires !ended
      modifies this
      ensures State() == Step(config, old(State()), Data(chunk))
    {
      buffer := buffer + chunk;
      drains := drains + 1;
      received := received + chunk;
    }

    /** `input.once("end")`. */
    method OnEnd()
      requires !ended
      modifies this
      ensures State() == Step(config, old(State()), End)
    {
      ended := true;
      endCheck := true;
    }

    /** `input.once("error")`. */
    method OnError()
      modifies this
      ensures State() == Step(config, old(State()), InputError)
    {
      inputFailed := true;
      SettleReject();
    }

    method SettleReject()
      modifies this`verdict
      ensures verdict == Settle(old(verdict), Rejected)
    {
      if verdict == Pending { verdict := Rejected; }
    }

    /** The next link of the `#drainQueue` chain. */
    method RunNextJob()
      requires phase == Idle
      modifies this
      ensures State() == Step(config, old(State()), RunJob)
    {
      if drains > 0 {
        drains := drains - 1;
        if fault == NoFault { phase := LoopHead; }
      } else if endCheck {
        endCheck := false;
        if fault != NoFault || |buffer| != 0 {
          SettleReject();
        } else if verdict == Pending {
          verdict := Resolved;
        }
      }
    }

    /** `#drainBuffer` from the head of its loop to the next `await` or its end. */
    method DrainTurn() returns (frame: Bytes)
      requires phase == LoopHead
      modifies this
      ensures State() == Step(config, old(State()), Loop)
      ensures phase == AwaitingHandler ==> calls == old(calls) + [frame]
    {
      frame := [];
      if |buffer| < 4 {
        phase := Idle;
        return;
      }
      var messageLength := ReadUInt32LE(buffer);
      if messageLength == 0 {
        buffer := [];
        phase := Idle;
        discarded := true;
        return;
      }
      if messageLength > config.maxFrameBytes {
        Reject(BadStream);
        return;
      }
      var totalNeeded := 4 + messageLength;
      if |buffer| < totalNeeded {
        phase := Idle;
        return;
      }
      frame := buffer[4..totalNeeded];
      ghost var cut := buffer[..totalNeeded];
      buffer := buffer[totalNeeded..];
      if !config.parses(frame) {
        refused := cut;
        Reject(BadStream);
        return;
      }
      calls := calls + [frame];
      phase := AwaitingHandler;
    }

    method Reject(cause: Fault)
      modifies this`phase, this`fault, this`verdict
      ensures phase == Idle && fault == cause && verdict == Settle(old(verdict), Rejected)
    {
      phase := Idle;
      fault := cause;
      SettleReject();
    }

    method HandlerSettles(returned: bool, responds: bool)
      requires phase == AwaitingHandler
      modifies this
      ensures State() == Step(config, old(State()), if returned then HandlerReturns(responds) else HandlerThrows)
    {
      if !returned {
        Reject(Environment);
      } else if responds {
        phase := AwaitingWrite;
      } else {
        phase := LoopHead;
      }
    }

    method WriteSettles(written: bool)
      requires phase == AwaitingWrite
      modifies this
      ensures State() == Step(config, old(State()), if written then WriteSucceeds else WriteFails)
    {
      if written { phase := LoopHead; } else { Reject(Environment); }
    }
  }
}
