/** One stream of the page's bridge dispatcher: the bounded queue between the message listener,
    which fills it, and the async generator, which empties it. */
module StreamDispatcher {
  import opened Text
  import opened Wrappers

  const MAX_BUFFERED_STREAM_ENTRIES: nat := 512

  /** A stream envelope that passed validation. */
  type Value = string

  datatype Cause = Overflow | TimedOut | Cancelled | Malformed | Remote | PostFailed

  datatype Entry = Val(value: Value) | DoneEntry | ErrorEntry(cause: Cause)

  datatype Outcome = Exhausted | Threw(cause: Cause) | Returned

  /** Where the generator stands.  `Holding` lies between the moment an entry leaves the queue, or is
      handed to the waiter, and the moment the generator runs again. */
  datatype Consumer = Unstarted | AtYield | Waiting | Holding(entry: Entry) | Finished(outcome: Outcome)

  /** The fields of a pending stream, and a record of the run: the values received while the stream was
      registered, how many of them were accepted, the terminals accepted, and the entries consumed. */
  datatype Stream = Stream(
    registered: bool, complete: bool, timerArmed: bool, queue: seq<Entry>, consumer: Consumer, cancels: nat,
    received: seq<Value>, kept: nat, terminals: seq<Entry>, taken: seq<Entry>)

  datatype Response = Refused | MissingEnvelopes | Envelopes(values: seq<Value>)

  datatype Event =
    | Chunk(value: Option<Value>)
    | Done(value: Option<Value>)
    | RemoteCancelled
    | RemoteError
    | Buffered(response: Response)
    | Timeout
    | Abort
    | PostFails
    | Next
    | Resume
    | Return

  const OPENED: Stream := Stream(true, false, true, [], Unstarted, 0, [], 0, [], [])

  function Detach(s: Stream): Stream { s.(registered := false, timerArmed := false) }

  function Deliver(s: Stream, e: Entry): Stream {
    if s.consumer == Waiting then s.(consumer := Holding(e)) else s.(queue := s.queue + [e])
  }

  function Enqueue(s: Stream, e: Entry): Stream {
    if s.complete && e.Val? then s
    else if e.Val? && |s.queue| >= MAX_BUFFERED_STREAM_ENTRIES then
      Deliver(s.(complete := true, cancels := s.cancels + 1, terminals := s.terminals + [ErrorEntry(Overflow)]),
              ErrorEntry(Overflow))
    else if e.Val? then Deliver(s.(kept := s.kept + 1), e)
    else Deliver(s.(complete := true, terminals := s.terminals + [e]), e)
  }

  function Receive(s: Stream, v: Value): Stream {
    Enqueue(s.(received := s.received + [v]), Val(v))
  }

  function ReceiveAll(s: Stream, vs: seq<Value>): Stream
    decreases |vs|
  {
    if vs == [] then s else ReceiveAll(Receive(s, vs[0]), vs[1..])
  }

  function Close(s: Stream, e: Entry): Stream { Enqueue(Detach(s), e) }

  /** Timeout and abort mark the stream complete before their error is queued, and send a cancel. */
  function Kill(s: Stream, cause: Cause): Stream {
    var t := Close(s.(complete := true), ErrorEntry(cause));
    t.(cancels := t.cancels + 1)
  }

  /** The generator's `finally`. */
  function Finally(s: Stream): Stream {
    if !s.registered then s
    else if s.complete then Detach(s)
    else Detach(s).(complete := true, cancels := s.cancels + 1)
  }

  function ResumeStep(s: Stream): Stream {
    if !s.consumer.Holding? then s
    else
      var t := s.(taken := s.taken + [s.consumer.entry]);
      match s.consumer.entry
      case Val(_) => t.(consumer := AtYield)
      case DoneEntry => Finally(t.(consumer := Finished(Exhausted)))
      case ErrorEntry(cause) => Finally(t.(consumer := Finished(Threw(cause))))
  }

  /** An event that cannot happen in a state leaves the state alone. */
  function Step(s: Stream, e: Event): Stream {
    match e
    case Chunk(Some(v)) => if !s.registered then s else Receive(s, v)
    case Chunk(None) => if !s.registered || s.complete then s else Close(s, ErrorEntry(Malformed))
    case Done(Some(v)) =>
      if !s.registered then s
      else if s.complete then Receive(s, v)
      else Enqueue(Receive(Detach(s), v), DoneEntry)
    case Done(None) => if !s.registered || s.complete then s else Close(s, ErrorEntry(Malformed))
    case RemoteCancelled => if !s.registered || s.complete then s else Close(s, ErrorEntry(Cancelled))
    case RemoteError => if !s.registered || s.complete then s else Close(s, ErrorEntry(Remote))
    case Buffered(Refused) => if !s.registered then s else Close(s, ErrorEntry(Remote))
    case Buffered(MissingEnvelopes) => if !s.registered then s else Close(s, ErrorEntry(Malformed))
    case Buffered(Envelopes(vs)) => if !s.registered then s else Enqueue(ReceiveAll(Detach(s), vs), DoneEntry)
    case Timeout => if !s.timerArmed then s else Kill(s, TimedOut)
    case Abort => if !s.registered then s else Kill(s, Cancelled)
    case PostFails => if !s.registered then s else Close(s.(complete := true), ErrorEntry(PostFailed))
    case Next =>
      if s.consumer != Unstarted && s.consumer != AtYield then s
      else if |s.queue| > 0 then s.(consumer := Holding(s.queue[0]), queue := s.queue[1..])
      else s.(consumer := Waiting)
    case Resume => ResumeStep(s)
    case Return =>
      if s.consumer == Unstarted then s.(consumer := Finished(Returned))
      else if s.consumer == AtYield then Finally(s.(consumer := Finished(Returned)))
      else s
  }

  function Run(s: Stream, events: seq<Event>): Stream
    decreases |events|
  {
    if events == [] then s else Run(Step(s, events[0]), events[1..])
  }

  // ----- what every step keeps ----------------------------------------------

  function Values(vs: seq<Value>): (es: seq<Entry>)
    ensures |es| == |vs| && forall i :: 0 <= i < |vs| ==> es[i] == Val(vs[i])
  {
    seq(|vs|, i requires 0 <= i < |vs| => Val(vs[i]))
  }

  function Held(s: Stream): seq<Entry> { if s.consumer.Holding? then [s.consumer.entry] else [] }

  /** The entries that left the queue, in order. */
  function Gone(s: Stream): seq<Entry> { s.taken + Held(s) }

  /** Every accepted entry is consumed, held or queued, in order: first values, then terminals. */
  ghost predicate Flow(s: Stream) {
    && s.kept <= |s.received|
    && Gone(s) + s.queue == Values(s.received[..s.kept]) + s.terminals
    && s.kept <= |Gone(s)| + MAX_BUFFERED_STREAM_ENTRIES
    && (forall t :: t in s.terminals ==> !t.Val?)
    && (!s.complete ==> s.terminals == [] && s.kept == |s.received|)
    && (s.consumer == Waiting ==> s.queue == [])
  }

  /** What the generator has done agrees with what it was given. */
  ghost predicate Consumed(s: Stream) {
    && (!s.consumer.Finished? ==> |s.taken| <= s.kept)
    && (s.consumer == Finished(Returned) ==> |s.taken| <= s.kept)
    && (s.consumer.Finished? && s.consumer != Finished(Returned) ==>
          s.terminals != [] && |s.taken| == s.kept + 1
          && (s.consumer.outcome == Exhausted <==> s.terminals[0] == DoneEntry)
          && (s.consumer.outcome.Threw? ==> s.terminals[0] == ErrorEntry(s.consumer.outcome.cause)))
  }

  /** How registration, completion and the terminals hang together. */
  ghost predicate Linked(s: Stream) {
    && (s.timerArmed <==> s.registered)
    && (s.consumer == Waiting ==> s.registered && !s.complete)
    && (!s.registered ==> s.complete)
    && (s.registered && s.complete ==> s.terminals == [ErrorEntry(Overflow)])
    && (s.complete ==> s.terminals != [] || s.consumer == Finished(Returned))
    && |s.terminals| <= 2
    && (|s.terminals| == 2 ==> !s.registered && s.terminals[0] == ErrorEntry(Overflow))
    && (s.terminals != [] && s.terminals[0] == DoneEntry ==> s.kept == |s.received| && !s.registered)
  }

  ghost predicate Inv(s: Stream) { Flow(s) && Consumed(s) && Linked(s) }

  lemma DeliverAppends(s: Stream, e: Entry)
    requires s.consumer == Waiting ==> s.queue == []
    ensures var t := Deliver(s, e);
            Gone(t) + t.queue == (Gone(s) + s.queue) + [e] && (t.consumer == Waiting ==> t.queue == [])
  {
    assert Gone(s) + (s.queue + [e]) == (Gone(s) + s.queue) + [e];
  }

  lemma TerminalKeepsFlow(s: Stream, e: Entry)
    requires Flow(s) && !e.Val?
    ensures Flow(Enqueue(s, e))
    ensures Consumed(s) ==> Consumed(Enqueue(s, e))
  {
    var vs := Values(s.received[..s.kept]);
    var u := s.(complete := true, terminals := s.terminals + [e]);
    DeliverAppends(u, e);
    assert vs + (s.terminals + [e]) == (vs + s.terminals) + [e];
    assert Gone(u) == Gone(s);
  }

  /** A received value is queued, or the stream overflows, or the stream was complete and it is dropped. */
  lemma ReceiveKeepsFlow(s: Stream, v: Value)
    requires Flow(s) && Consumed(s)
    ensures var t := Receive(s, v);
            Flow(t) && Consumed(t) && (s.complete ==> t.complete && t.terminals == s.terminals)
            && (!s.complete && t.complete ==> t.terminals == [ErrorEntry(Overflow)])
  {
    var r := s.(received := s.received + [v]);
    assert r.received[..s.kept] == s.received[..s.kept];
    if !s.complete {
      if |s.queue| >= MAX_BUFFERED_STREAM_ENTRIES { OverflowKeepsFlow(s, r); } else { QueueKeepsFlow(s, r, v); }
    }
  }

  lemma OverflowKeepsFlow(s: Stream, r: Stream)
    requires Flow(s) && Consumed(s) && !s.complete
    requires r == s.(received := r.received) && s.received <= r.received
    ensures var u := r.(complete := true, cancels := s.cancels + 1, terminals := s.terminals + [ErrorEntry(Overflow)]);
      var t := Deliver(u, ErrorEntry(Overflow));
      Flow(t) && Consumed(t) && t.complete && t.terminals == [ErrorEntry(Overflow)]
  {
    var u := r.(complete := true, cancels := s.cancels + 1, terminals := s.terminals + [ErrorEntry(Overflow)]);
    DeliverAppends(u, ErrorEntry(Overflow));
    assert Gone(u) == Gone(s);
    assert Values(u.received[..u.kept]) + ([] + [ErrorEntry(Overflow)])
        == (Values(s.received[..s.kept]) + []) + [ErrorEntry(Overflow)];
  }

  lemma QueueKeepsFlow(s: Stream, r: Stream, v: Value)
    requires Flow(s) && Consumed(s) && !s.complete && |s.queue| < MAX_BUFFERED_STREAM_ENTRIES
    requires r == s.(received := s.received + [v])
    ensures var t := Deliver(r.(kept := s.kept + 1), Val(v));
      Flow(t) && Consumed(t) && !t.complete
  {
    var u := r.(kept := s.kept + 1);
    DeliverAppends(u, Val(v));
    assert Gone(u) == Gone(s);
    assert Values(u.received[..u.kept]) == Values(s.received[..s.kept]) + [Val(v)];
    assert |Gone(s)| + |s.queue| == s.kept;
    assert Values(u.received[..u.kept]) + [] == (Values(s.received[..s.kept]) + []) + [Val(v)];
  }

  lemma {:induction false} ReceiveAllKeepsFlow(s: Stream, vs: seq<Value>)
    requires Flow(s) && Consumed(s)
    ensures var t := ReceiveAll(s, vs);
            Flow(t) && Consumed(t) && (s.complete ==> t.complete && t.terminals == s.terminals)
            && (!s.complete && t.complete ==> t.terminals == [ErrorEntry(Overflow)])
            && t.registered == s.registered && t.timerArmed == s.timerArmed
            && (t.consumer == Waiting ==> s.consumer == Waiting)
            && (t.consumer.Finished? ==> t.consumer == s.consumer)
    decreases |vs|
  {
    if vs != [] {
      ReceiveKeepsFlow(s, vs[0]);
      ReceiveAllKeepsFlow(Receive(s, vs[0]), vs[1..]);
    }
  }

  lemma FinallyKeepsInv(s: Stream)
    requires Flow(s) && Consumed(s) && s.consumer.Finished?
    requires Linked(s)
    requires s.registered && !s.complete ==> s.consumer == Finished(Returned)
    ensures Inv(Finally(s))
  {
  }

  lemma CloseKeepsInv(s: Stream, e: Entry)
    requires Inv(s) && s.registered && !e.Val? && e != DoneEntry
    ensures Inv(Close(s, e)) && Inv(Close(s.(complete := true), e))
  {
    TerminalKeepsFlow(Detach(s), e);
    TerminalKeepsFlow(Detach(s.(complete := true)), e);
  }

  lemma ChunkKeepsInv(s: Stream, v: Value)
    requires Inv(s) && s.registered
    ensures Inv(Receive(s, v))
  {
    ReceiveKeepsFlow(s, v);
  }

  lemma EndKeepsInv(s: Stream, vs: seq<Value>)
    requires Inv(s) && s.registered
    ensures Inv(Enqueue(ReceiveAll(Detach(s), vs), DoneEntry))
  {
    ReceiveAllKeepsFlow(Detach(s), vs);
    TerminalKeepsFlow(ReceiveAll(Detach(s), vs), DoneEntry);
  }

  lemma NextKeepsInv(s: Stream)
    requires Inv(s)
    ensures Inv(Step(s, Next))
  {
    var t := Step(s, Next);
    if (s.consumer == Unstarted || s.consumer == AtYield) && |s.queue| > 0 {
      assert [s.queue[0]] + s.queue[1..] == s.queue;
      assert Gone(t) + t.queue == Gone(s) + s.queue;
    } else if s.consumer == Unstarted || s.consumer == AtYield {
      assert |Gone(s) + s.queue| == s.kept + |s.terminals|;
    }
  }

  lemma ResumeKeepsInv(s: Stream)
    requires Inv(s) && s.consumer.Holding?
    ensures Inv(ResumeStep(s))
  {
    var e := s.consumer.entry;
    var all := Values(s.received[..s.kept]) + s.terminals;
    assert (Gone(s) + s.queue)[|s.taken|] == e;
    assert all[|s.taken|] == e;
    assert e.Val? <==> |s.taken| < s.kept;
    var t := s.(taken := s.taken + [e],
                consumer := if e.Val? then AtYield else Finished(if e == DoneEntry then Exhausted else Threw(e.cause)));
    assert Gone(t) == Gone(s);
    if !e.Val? {
      assert e == s.terminals[0];
      FinallyKeepsInv(t);
    }
  }

  lemma DoneKeepsInv(s: Stream, v: Value)
    requires Inv(s) && s.registered
    ensures Inv(Step(s, Done(Some(v))))
  {
    if s.complete {
      ChunkKeepsInv(s, v);
    } else {
      assert [v][1..] == [];
      assert ReceiveAll(Detach(s), [v]) == ReceiveAll(Receive(Detach(s), v), []);
      EndKeepsInv(s, [v]);
    }
  }

  lemma ResponseKeepsInv(s: Stream, response: Response)
    requires Inv(s) && s.registered
    ensures Inv(Step(s, Buffered(response)))
  {
    match response {
      case Refused => CloseKeepsInv(s, ErrorEntry(Remote));
      case MissingEnvelopes => CloseKeepsInv(s, ErrorEntry(Malformed));
      case Envelopes(vs) => EndKeepsInv(s, vs);
    }
  }

  /** The events that reach a stream only while it is registered. */
  lemma RegisteredKeepsInv(s: Stream, e: Event)
    requires Inv(s) && s.registered && e != Next && e != Resume && e != Return
    ensures Inv(Step(s, e))
  {
    match e {
      case Chunk(Some(v)) => ChunkKeepsInv(s, v);
      case Chunk(None) => CloseKeepsInv(s, ErrorEntry(Malformed));
      case Done(Some(v)) => DoneKeepsInv(s, v);
      case Done(None) => CloseKeepsInv(s, ErrorEntry(Malformed));
      case RemoteCancelled => CloseKeepsInv(s, ErrorEntry(Cancelled));
      case RemoteError => CloseKeepsInv(s, ErrorEntry(Remote));
      case Buffered(response) => ResponseKeepsInv(s, response);
      case Timeout => CloseKeepsInv(s, ErrorEntry(TimedOut));
      case Abort => CloseKeepsInv(s, ErrorEntry(Cancelled));
      case PostFails => CloseKeepsInv(s, ErrorEntry(PostFailed));
    }
  }

  lemma StepKeepsInv(s: Stream, e: Event)
    requires Inv(s)
    ensures Inv(Step(s, e))
  {
    match e {
      case Next => NextKeepsInv(s);
      case Resume => if s.consumer.Holding? { ResumeKeepsInv(s); }
      case Return => if s.consumer == AtYield { FinallyKeepsInv(s.(consumer := Finished(Returned))); }
      case _ => if s.registered { RegisteredKeepsInv(s, e); }
    }
  }

  lemma {:induction false} RunKeepsInv(s: Stream, events: seq<Event>)
    requires Inv(s)
    ensures Inv(Run(s, events))
    decreases |events|
  {
    if events != [] {
      StepKeepsInv(s, events[0]);
      RunKeepsInv(Step(s, events[0]), events[1..]);
    }
  }

  // ----- what each event does, from the event alone --------------------------

  /** The values that an event brings. */
  function Arriving(e: Event): seq<Value> {
    match e
    case Chunk(Some(v)) => [v]
    case Done(Some(v)) => [v]
    case Buffered(Envelopes(vs)) => vs
    case _ => []
  }

  /** The terminal that an event brings behind its values. */
  function Ending(e: Event): seq<Entry> {
    match e
    case Chunk(None) => [ErrorEntry(Malformed)]
    case Done(None) => [ErrorEntry(Malformed)]
    case Done(Some(_)) => [DoneEntry]
    case RemoteCancelled => [ErrorEntry(Cancelled)]
    case RemoteError => [ErrorEntry(Remote)]
    case Buffered(Refused) => [ErrorEntry(Remote)]
    case Buffered(MissingEnvelopes) => [ErrorEntry(Malformed)]
    case Buffered(Envelopes(_)) => [DoneEntry]
    case Timeout => [ErrorEntry(TimedOut)]
    case Abort => [ErrorEntry(Cancelled)]
    case PostFails => [ErrorEntry(PostFailed)]
    case _ => []
  }

  /** The events that end a stream even after an overflow has completed it. */
  predicate EndsAnyway(e: Event) { e.Buffered? || e.Timeout? || e.Abort? || e.PostFails? }

  /** How many values the stream can still take: the waiter's and those that fit into the queue. */
  function Room(s: Stream): nat {
    if |s.queue| >= MAX_BUFFERED_STREAM_ENTRIES then 0
    else MAX_BUFFERED_STREAM_ENTRIES - |s.queue| + (if s.consumer == Waiting then 1 else 0)
  }

  /** As many values as there is room for, and an overflow if that is not all of them. */
  function Fitting(vs: seq<Value>, room: nat): seq<Entry> {
    if |vs| <= room then Values(vs) else Values(vs[..room]) + [ErrorEntry(Overflow)]
  }

  /** What an event adds to the stream. */
  function Fresh(s: Stream, e: Event): seq<Entry> {
    if !s.registered then []
    else if s.complete then (if EndsAnyway(e) then Ending(e) else [])
    else Fitting(Arriving(e), Room(s)) + Ending(e)
  }

  /** The entries go to the waiter, if there is one, and behind the queue. */
  predicate Grows(s: Stream, t: Stream, added: seq<Entry>) {
    && t.taken == s.taken
    && if s.consumer == Waiting && added != [] then t.consumer == Holding(added[0]) && t.queue == s.queue + added[1..]
       else t.consumer == s.consumer && t.queue == s.queue + added
  }

  lemma GrowsTwice(s: Stream, t: Stream, u: Stream, a: seq<Entry>, b: seq<Entry>)
    requires Grows(s, t, a) && Grows(t, u, b)
    ensures Grows(s, u, a + b)
  {
    if a == [] {
      assert a + b == b && s.queue + a == s.queue;
    } else if s.consumer == Waiting {
      assert (a + b)[1..] == a[1..] + b;
      assert (s.queue + a[1..]) + b == s.queue + (a[1..] + b);
    } else {
      assert (s.queue + a) + b == s.queue + (a + b);
      if s.consumer == t.consumer == Waiting { assert false; }
    }
  }

  /** A live stream takes the values: as many as fit are added, and one more completes it. */
  ghost predicate Takes(s: Stream, t: Stream, vs: seq<Value>) {
    && Grows(s, t, Fitting(vs, Room(s)))
    && t.received == s.received + vs && t.registered == s.registered && t.timerArmed == s.timerArmed
    && (t.complete <==> |vs| > Room(s)) && t.cancels == s.cancels + (if |vs| > Room(s) then 1 else 0)
  }

  lemma ReceiveTakes(s: Stream, v: Value)
    requires !s.complete && (s.consumer == Waiting ==> s.queue == [])
    ensures Takes(s, Receive(s, v), [v])
    ensures Room(s) > 0 ==> Room(Receive(s, v)) == Room(s) - 1 && Receive(s, v).consumer != Waiting
  {
    assert Values([v]) == [Val(v)] && [v][..0] == [] && Values([]) + [ErrorEntry(Overflow)] == [ErrorEntry(Overflow)];
    assert [Val(v)][1..] == [] && [ErrorEntry(Overflow)][1..] == [];
  }

  lemma FittingMore(v: Value, rest: seq<Value>, room: nat)
    requires room > 0
    ensures Fitting([v] + rest, room) == Fitting([v], room) + Fitting(rest, room - 1)
  {
    assert ([v] + rest)[1..] == rest;
    FittingSplits([v] + rest, room);
  }

  lemma GrowsMore(s: Stream, t: Stream, u: Stream, v: Value, rest: seq<Value>)
    requires Room(s) > 0 && Room(t) == Room(s) - 1
    requires Grows(s, t, Fitting([v], Room(s))) && Grows(t, u, Fitting(rest, Room(t)))
    ensures Grows(s, u, Fitting([v] + rest, Room(s)))
  {
    FittingMore(v, rest, Room(s));
    GrowsTwice(s, t, u, Fitting([v], Room(s)), Fitting(rest, Room(t)));
  }

  lemma TakesMore(s: Stream, t: Stream, u: Stream, v: Value, rest: seq<Value>)
    requires Room(s) > 0 && Room(t) == Room(s) - 1 && Takes(s, t, [v]) && Takes(t, u, rest)
    ensures Takes(s, u, [v] + rest)
  {
    GrowsMore(s, t, u, v, rest);
    Associate(s.received, [v], rest);
  }

  lemma TakesNoMore(s: Stream, t: Stream, u: Stream, v: Value, rest: seq<Value>)
    requires Room(s) == 0 && Takes(s, t, [v]) && u == t.(received := t.received + rest)
    ensures Takes(s, u, [v] + rest)
  {
    FittingSplits([v] + rest, 0);
    FittingSplits([v], 0);
    Associate(s.received, [v], rest);
  }

  lemma {:induction false} ReceiveAllDrops(s: Stream, vs: seq<Value>)
    requires s.complete
    ensures ReceiveAll(s, vs) == s.(received := s.received + vs)
    decreases |vs|
  {
    if vs != [] {
      ReceiveAllDrops(Receive(s, vs[0]), vs[1..]);
      assert (s.received + [vs[0]]) + vs[1..] == s.received + vs;
    } else {
      assert s.received + vs == s.received;
    }
  }

  lemma FittingSplits(vs: seq<Value>, room: nat)
    requires vs != []
    ensures Fitting(vs, room) ==
      if room == 0 then Fitting([vs[0]], 0) else Fitting([vs[0]], room) + Fitting(vs[1..], room - 1)
  {
    if room == 0 {
      assert vs[..0] == [vs[0]][..0] == [];
    } else if |vs| <= room {
      assert Values(vs) == Values([vs[0]]) + Values(vs[1..]);
    } else {
      assert vs[..room] == [vs[0]] + vs[1..][..room - 1];
      assert Values(vs[..room]) == Values([vs[0]]) + Values(vs[1..][..room - 1]);
    }
  }

  lemma {:induction false} ReceiveAllTakes(s: Stream, vs: seq<Value>)
    requires !s.complete && (s.consumer == Waiting ==> s.queue == [])
    ensures Takes(s, ReceiveAll(s, vs), vs)
    decreases |vs|
  {
    if vs == [] {
      assert Fitting(vs, Room(s)) == [] && s.queue + [] == s.queue && s.received + vs == s.received;
    } else {
      var t := Receive(s, vs[0]);
      ReceiveTakes(s, vs[0]);
      assert vs == [vs[0]] + vs[1..];
      if Room(s) == 0 {
        ReceiveAllDrops(t, vs[1..]);
        TakesNoMore(s, t, ReceiveAll(s, vs), vs[0], vs[1..]);
      } else {
        ReceiveAllTakes(t, vs[1..]);
        TakesMore(s, t, ReceiveAll(s, vs), vs[0], vs[1..]);
      }
    }
  }

  lemma TerminalGrows(s: Stream, e: Entry)
    requires !e.Val? && (s.consumer == Waiting ==> s.queue == [])
    ensures var t := Enqueue(s, e);
      && Grows(s, t, [e]) && t.complete && t.received == s.received && t.registered == s.registered
      && t.timerArmed == s.timerArmed && t.cancels == s.cancels
  {
    assert [e][1..] == [] && s.queue + [] == s.queue;
  }

  predicate HasTerminal(es: seq<Entry>) { exists i :: 0 <= i < |es| && !es[i].Val? }

  lemma TerminalsOfFitting(vs: seq<Value>, room: nat, ending: seq<Entry>)
    requires forall e :: e in ending ==> !e.Val?
    ensures HasTerminal(Fitting(vs, room) + ending) <==> |vs| > room || ending != []
  {
    var es := Fitting(vs, room) + ending;
    if |vs| > room {
      assert !es[room].Val?;
    } else if ending != [] {
      assert es[|vs|] == ending[0];
    }
  }

  /** What an event of the producing side does to a stream. */
  ghost predicate Produces(s: Stream, e: Event, t: Stream) {
    && Grows(s, t, Fresh(s, e))
    && t.received == s.received + (if s.registered then Arriving(e) else [])
    && (t.registered <==> s.registered && (Ending(e) == [] || (s.complete && !EndsAnyway(e))))
    && t.timerArmed == t.registered
    && (t.complete <==> s.complete || HasTerminal(Fresh(s, e)))
    && t.cancels == s.cancels + (if s.registered && !s.complete && |Arriving(e)| > Room(s) then 1 else 0)
                              + (if s.registered && (e.Timeout? || e.Abort?) then 1 else 0)
  }

  lemma NothingIsProduced(s: Stream, e: Event)
    requires s.timerArmed == s.registered
    requires if !s.registered then true else Fresh(s, e) == [] && Arriving(e) == []
    requires s.registered ==> (Ending(e) == [] || (s.complete && !EndsAnyway(e))) && !e.Timeout? && !e.Abort?
    ensures Produces(s, e, s)
  {
    assert s.queue + [] == s.queue && s.received + [] == s.received;
  }

  lemma EndingIsFresh(s: Stream, e: Event)
    requires s.registered && Arriving(e) == [] && (s.complete ==> EndsAnyway(e))
    ensures Fresh(s, e) == Ending(e)
  {
    WithEmpty(Ending(e));
  }

  lemma ClosingProduces(s: Stream, e: Event, d: Stream)
    requires Inv(s) && s.registered && Arriving(e) == [] && |Ending(e)| == 1 && !Ending(e)[0].Val?
    requires s.complete ==> EndsAnyway(e)
    requires d == Detach(s).(complete := d.complete)
    ensures var u := Enqueue(d, Ending(e)[0]);
      Produces(s, e, u.(cancels := u.cancels + (if e.Timeout? || e.Abort? then 1 else 0)))
  {
    var entry := Ending(e)[0];
    assert Ending(e) == [entry];
    EndingIsFresh(s, e);
    TerminalGrows(d, entry);
    assert Grows(s, Enqueue(d, entry), [entry]);
    assert HasTerminal([entry]) by { assert ![entry][0].Val?; }
    WithEmpty(s.received);
  }

  lemma ChunkProduces(s: Stream, v: Value)
    requires Inv(s) && s.registered
    ensures Produces(s, Chunk(Some(v)), Receive(s, v))
  {
    var e := Chunk(Some(v));
    if s.complete {
      assert s.queue + [] == s.queue;
    } else {
      ReceiveTakes(s, v);
      TerminalsOfFitting([v], Room(s), []);
      assert Fitting([v], Room(s)) + [] == Fitting([v], Room(s));
    }
  }

  lemma EndGrows(s: Stream, d: Stream, vs: seq<Value>)
    requires Inv(s) && s.registered && d == Detach(s)
    ensures var u := ReceiveAll(d, vs);
      if s.complete then u == d.(received := s.received + vs)
      else Takes(d, u, vs) && Grows(s, Enqueue(u, DoneEntry), Fitting(vs, Room(s)) + [DoneEntry])
  {
    var u := ReceiveAll(d, vs);
    if s.complete {
      ReceiveAllDrops(d, vs);
    } else {
      ReceiveAllTakes(d, vs);
      ReceiveAllKeepsFlow(d, vs);
      TerminalGrows(u, DoneEntry);
      GrowsTwice(d, u, Enqueue(u, DoneEntry), Fitting(vs, Room(s)), [DoneEntry]);
    }
  }

  lemma EndProduces(s: Stream, e: Event, vs: seq<Value>)
    requires Inv(s) && s.registered && Arriving(e) == vs && Ending(e) == [DoneEntry]
    requires s.complete ==> EndsAnyway(e)
    ensures Produces(s, e, Enqueue(ReceiveAll(Detach(s), vs), DoneEntry))
  {
    EndGrows(s, Detach(s), vs);
    var u := ReceiveAll(Detach(s), vs);
    assert u.consumer == Waiting ==> u.queue == [] by { ReceiveAllKeepsFlow(Detach(s), vs); }
    TerminalGrows(u, DoneEntry);
    TerminalsOfFitting(vs, Room(s), [DoneEntry]);
    assert HasTerminal([DoneEntry]) by { assert ![DoneEntry][0].Val?; }
  }

  lemma DoneProduces(s: Stream, v: Value)
    requires Inv(s) && s.registered
    ensures Produces(s, Done(Some(v)), Step(s, Done(Some(v))))
  {
    if s.complete {
      assert s.queue + [] == s.queue;
    } else {
      assert [v][1..] == [];
      assert ReceiveAll(Detach(s), [v]) == ReceiveAll(Receive(Detach(s), v), []);
      EndProduces(s, Done(Some(v)), [v]);
    }
  }

  /** The law of the producing side: an event adds the values it brings, as far as there is room, and its terminal;
      the first new entry goes to a generator that waits. */
  lemma StepProduces(s: Stream, e: Event)
    requires Inv(s) && e != Next && e != Resume && e != Return
    ensures Produces(s, e, Step(s, e))
  {
    if !s.registered || (s.complete && Arriving(e) == [] && !EndsAnyway(e)) {
      NothingIsProduced(s, e);
    } else {
      match e {
        case Chunk(Some(v)) => ChunkProduces(s, v);
        case Done(Some(v)) => DoneProduces(s, v);
        case Buffered(Envelopes(vs)) => EndProduces(s, e, vs);
        case PostFails => ClosingProduces(s, e, Detach(s.(complete := true)));
        case Timeout => ClosingProduces(s, e, Detach(s.(complete := true)));
        case Abort => ClosingProduces(s, e, Detach(s.(complete := true)));
        case _ => ClosingProduces(s, e, Detach(s));
      }
    }
  }

  /** The law of the consuming side: nothing is added, what was given stays given in order, and the generator takes
      the oldest entry, yields a value, and ends with the first terminal.  Its end takes the stream off the table, with
      a cancel if the stream was still live. */
  ghost predicate Consumes(s: Stream, e: Event, t: Stream) {
    var ends := t.consumer.Finished? && !s.consumer.Finished? && s.consumer != Unstarted;
    && Gone(t) + t.queue == Gone(s) + s.queue && t.received == s.received
    && t.registered == (s.registered && !ends) && t.timerArmed == t.registered
    && t.complete == (s.complete || (ends && s.registered))
    && t.cancels == s.cancels + (if ends && s.registered && !s.complete then 1 else 0)
    && match e
       case Next =>
         t.taken == s.taken
         && t.consumer == (if s.consumer != Unstarted && s.consumer != AtYield then s.consumer
                           else if s.queue == [] then Waiting else Holding(s.queue[0]))
       case Resume =>
         if s.consumer.Holding? then
           t.taken == s.taken + [s.consumer.entry]
           && t.consumer == (match s.consumer.entry
                             case Val(_) => AtYield
                             case DoneEntry => Finished(Exhausted)
                             case ErrorEntry(cause) => Finished(Threw(cause)))
         else t.taken == s.taken && t.consumer == s.consumer
       case _ =>
         t.taken == s.taken
         && t.consumer == (if s.consumer == Unstarted || s.consumer == AtYield then Finished(Returned) else s.consumer)
  }

  lemma NextConsumes(s: Stream)
    requires s.timerArmed == s.registered
    ensures Consumes(s, Next, Step(s, Next))
  {
    if s.queue != [] { assert [s.queue[0]] + s.queue[1..] == s.queue; }
    Associate(s.taken, Held(Step(s, Next)), Step(s, Next).queue);
    WithEmpty(s.taken);
    WithEmpty(s.queue);
  }

  lemma ResumeConsumes(s: Stream)
    requires s.timerArmed == s.registered
    ensures Consumes(s, Resume, Step(s, Resume))
  {
    if s.consumer.Holding? { WithEmpty(s.taken + [s.consumer.entry]); }
  }

  lemma ReturnConsumes(s: Stream)
    requires s.timerArmed == s.registered
    ensures Consumes(s, Return, Step(s, Return))
  {
    WithEmpty(s.taken);
  }

  lemma StepConsumes(s: Stream, e: Event)
    requires Inv(s) && (e == Next || e == Resume || e == Return)
    ensures Consumes(s, e, Step(s, e))
  {
    match e {
      case Next => NextConsumes(s);
      case Resume => ResumeConsumes(s);
      case Return => ReturnConsumes(s);
    }
  }

  lemma {:induction false} RunLast(s: Stream, events: seq<Event>, e: Event)
    ensures Run(s, events + [e]) == Step(Run(s, events), e)
    decreases |events|
  {
    if events == [] {
      assert [] + [e] == [e] && [e][1..] == [];
      assert Run(s, [e]) == Run(Step(s, e), []);
    } else {
      assert (events + [e])[1..] == events[1..] + [e];
      RunLast(Step(s, events[0]), events[1..], e);
    }
  }

  // ----- what arrives, over every run ------------------------------------------

  /** All values that a run's events bring, in order. */
  function Arrivals(events: seq<Event>): seq<Value>
    decreases |events|
  {
    if events == [] then [] else Arriving(events[0]) + Arrivals(events[1..])
  }

  /** How many events a stream hears: those up to the one that takes it off the table. */
  function Heard(s: Stream, events: seq<Event>): (n: nat)
    ensures n <= |events|
    decreases |events|
  {
    if !s.registered || events == [] then 0 else 1 + Heard(Step(s, events[0]), events[1..])
  }

  lemma StepReceives(s: Stream, e: Event)
    requires Inv(s)
    ensures Step(s, e).received == s.received + (if s.registered then Arriving(e) else [])
    ensures Step(s, e).registered ==> s.registered
  {
    if e == Next || e == Resume || e == Return {
      StepConsumes(s, e);
      WithEmpty(s.received);
    } else {
      StepProduces(s, e);
    }
  }

  lemma ArrivalsOfPrefix(events: seq<Event>, n: nat)
    requires n < |events|
    ensures Arrivals(events[..n + 1]) == Arriving(events[0]) + Arrivals(events[1..][..n])
  {
    assert events[..n + 1][1..] == events[1..][..n];
  }

  lemma {:induction false} ReceivedAreArrivals(s: Stream, events: seq<Event>)
    requires Inv(s)
    ensures Run(s, events).received == s.received + Arrivals(events[..Heard(s, events)])
    ensures Run(s, events).registered ==> Heard(s, events) == |events|
    decreases |events|
  {
    WithEmpty(s.received);
    if events != [] {
      var t, rest := Step(s, events[0]), events[1..];
      StepKeepsInv(s, events[0]);
      StepReceives(s, events[0]);
      ReceivedAreArrivals(t, rest);
      if s.registered {
        ArrivalsOfPrefix(events, Heard(t, rest));
        Associate(s.received, Arriving(events[0]), Arrivals(rest[..Heard(t, rest)]));
      } else {
        WithEmpty(t.received);
      }
    }
  }

  lemma RunReceivesArrivals(events: seq<Event>)
    ensures Run(OPENED, events).received == Arrivals(events[..Heard(OPENED, events)])
    ensures Run(OPENED, events).registered ==> Arrivals(events[..Heard(OPENED, events)]) == Arrivals(events)
  {
    ReceivedAreArrivals(OPENED, events);
    WithEmpty(Arrivals(events[..Heard(OPENED, events)]));
    assert events[..|events|] == events;
  }

  // ----- what the consumer sees, over every run ------------------------------

  predicate IsConsuming(e: Event) { e == Next || e == Resume || e == Return }

  /** Main result: in every run, each event of the producing side has what it brings added, in order and as far as there
      is room, and each event of the consuming side takes from the front. */
  lemma EveryEventIsServed(events: seq<Event>, e: Event)
    ensures var s, t := Run(OPENED, events), Run(OPENED, events + [e]);
      if IsConsuming(e) then Consumes(s, e, t) else Produces(s, e, t)
  {
    RunKeepsInv(OPENED, events);
    RunLast(OPENED, events, e);
    if IsConsuming(e) { StepConsumes(Run(OPENED, events), e); } else { StepProduces(Run(OPENED, events), e); }
  }

  /** The consumed entries are the received values in order, then at most one terminal. */
  lemma TakenInOrder(s: Stream)
    requires Inv(s)
    ensures forall i :: 0 <= i < |s.taken| && s.taken[i].Val? ==>
      i < |s.received| && s.taken[i].value == s.received[i]
    ensures forall i :: 0 <= i < |s.taken| && !s.taken[i].Val? ==> i == |s.taken| - 1 && s.consumer.Finished?
    ensures s.consumer == Finished(Exhausted) ==>
      s.taken == Values(s.received) + [DoneEntry] && ErrorEntry(Overflow) !in s.terminals
    ensures s.registered && !s.complete ==> Gone(s) + s.queue == Values(s.received)
  {
    var all := Values(s.received[..s.kept]) + s.terminals;
    forall i | 0 <= i < |s.taken| ensures s.taken[i] == all[i] {
      assert (Gone(s) + s.queue)[i] == s.taken[i];
    }
    if s.kept == |s.received| {
      assert s.received[..s.kept] == s.received;
      WithEmpty(Values(s.received));
    }
  }

  /** Main result: the consumer gets the values that the events bring, up to the one that ends the stream's
      registration, in order and without gaps, then at most one terminal; after `done` none of them is missing and
      nothing overflowed.  While the stream is live, they are all either consumed, held or queued. */
  lemma DeliveryRefinesFifo(events: seq<Event>)
    ensures var s := Run(OPENED, events);
            var arrived := Arrivals(events[..Heard(OPENED, events)]);
            && (forall i :: 0 <= i < |s.taken| && s.taken[i].Val? ==>
                  i < |arrived| && s.taken[i].value == arrived[i])
            && (forall i :: 0 <= i < |s.taken| && !s.taken[i].Val? ==> i == |s.taken| - 1 && s.consumer.Finished?)
            && (s.consumer == Finished(Exhausted) ==>
                  s.taken == Values(arrived) + [DoneEntry] && ErrorEntry(Overflow) !in s.terminals)
            && (s.registered && !s.complete ==> Gone(s) + s.queue == Values(Arrivals(events)))
  {
    RunReceivesArrivals(events);
    assert Inv(Run(OPENED, events)) by { RunKeepsInv(OPENED, events); }
    TakenInOrder(Run(OPENED, events));
  }

  /** Main result: no wake-up is lost.  A waiting generator has an empty queue and a live stream whose
      timer will end the wait; and one that asks after the stream completed does not have to wait. */
  lemma NoLostWakeUp(events: seq<Event>)
    ensures var s := Run(OPENED, events);
            && (s.consumer == Waiting ==> s.queue == [] && s.registered && !s.complete && s.timerArmed)
            && (s.complete && (s.consumer == Unstarted || s.consumer == AtYield) ==> s.queue != [])
  {
    var s := Run(OPENED, events);
    RunKeepsInv(OPENED, events);
    assert |Gone(s) + s.queue| == s.kept + |s.terminals|;
  }

  /** Main result: the first value that an event brings while the generator waits, or its terminal if it brings no
      value, is what the generator then holds. */
  lemma WaiterIsServed(events: seq<Event>, e: Event)
    requires Run(OPENED, events).consumer == Waiting
    ensures Run(OPENED, events + [e]).consumer ==
      if Arriving(e) != [] then Holding(Val(Arriving(e)[0]))
      else if Ending(e) != [] then Holding(Ending(e)[0])
      else Waiting
  {
    var s := Run(OPENED, events);
    NoLostWakeUp(events);
    EveryEventIsServed(events, e);
    assert Room(s) > 0;
    var added := Fitting(Arriving(e), Room(s)) + Ending(e);
    assert Arriving(e) != [] ==> added[0] == Val(Arriving(e)[0]);
    assert Arriving(e) == [] ==> added == Ending(e);
  }

  /** A live stream has sent no cancel, an overflowed one that is still registered has sent one, and none is sent for a
      stream that was done. */
  ghost predicate CancelsFit(s: Stream) {
    && s.cancels <= 2
    && (s.registered ==> s.cancels == (if s.complete then 1 else 0))
    && (s.terminals != [] && s.terminals[0] == DoneEntry ==> s.cancels == 0)
  }

  lemma EnvelopesKeepCancels(s: Stream, vs: seq<Value>)
    requires Inv(s) && CancelsFit(s) && s.registered
    ensures CancelsFit(Enqueue(ReceiveAll(Detach(s), vs), DoneEntry))
  {
    var d := Detach(s);
    ReceiveAllKeepsFlow(d, vs);
    if s.complete { ReceiveAllDrops(d, vs); } else { ReceiveAllTakes(d, vs); }
  }

  lemma StepKeepsCancels(s: Stream, e: Event)
    requires Inv(s) && CancelsFit(s)
    ensures CancelsFit(Step(s, e))
  {
    match e {
      case Buffered(Envelopes(vs)) => if s.registered { EnvelopesKeepCancels(s, vs); }
      case Done(Some(v)) =>
        if s.registered && !s.complete {
          assert [v][1..] == [];
          assert ReceiveAll(Detach(s), [v]) == ReceiveAll(Receive(Detach(s), v), []);
          EnvelopesKeepCancels(s, [v]);
        }
      case _ =>
    }
  }

  lemma {:induction false} RunKeepsCancels(s: Stream, events: seq<Event>)
    requires Inv(s) && CancelsFit(s)
    ensures CancelsFit(Run(s, events))
    decreases |events|
  {
    if events != [] {
      StepKeepsInv(s, events[0]);
      StepKeepsCancels(s, events[0]);
      RunKeepsCancels(Step(s, events[0]), events[1..]);
    }
  }

  /** Main result: in every run at most two cancels are sent, one of them for an overflow; none while the stream is
      live, and none for a stream that the consumer sees done. */
  lemma CancelledAtMostTwice(events: seq<Event>)
    ensures var s := Run(OPENED, events);
      && s.cancels <= 2
      && (s.registered && !s.complete ==> s.cancels == 0)
      && (s.registered && s.complete ==> s.cancels == 1 && s.terminals == [ErrorEntry(Overflow)])
      && (s.consumer == Finished(Exhausted) ==> s.cancels == 0)
  {
    RunKeepsInv(OPENED, events);
    RunKeepsCancels(OPENED, events);
  }

  /** Main result: at most 512 values are queued, and at most two terminals behind them. */
  lemma QueueIsBounded(events: seq<Event>)
    ensures var s := Run(OPENED, events);
            && |s.queue| <= 514
            && (forall i :: 512 <= i < |s.queue| ==> !s.queue[i].Val?)
  {
    var s := Run(OPENED, events);
    RunKeepsInv(OPENED, events);
    var all := Values(s.received[..s.kept]) + s.terminals;
    assert |Gone(s) + s.queue| == s.kept + |s.terminals|;
    forall i | MAX_BUFFERED_STREAM_ENTRIES <= i < |s.queue| ensures !s.queue[i].Val? {
      assert all[|Gone(s)| + i] == (Gone(s) + s.queue)[|Gone(s)| + i] == s.queue[i];
    }
  }

  lemma {:induction false} UnreadChunksQueueUp(n: nat, v: Value) returns (events: seq<Event>)
    requires n <= MAX_BUFFERED_STREAM_ENTRIES
    ensures var s := Run(OPENED, events);
            s.registered && !s.complete && s.consumer == Unstarted && |s.queue| == n
  {
    if n == 0 {
      events := [];
    } else {
      var before := UnreadChunksQueueUp(n - 1, v);
      events := before + [Chunk(Some(v))];
      RunLast(OPENED, before, Chunk(Some(v)));
    }
  }

  /** The bound is tight: 512 unread chunks, one that overflows, then a buffered response. */
  lemma BoundIsReached() returns (events: seq<Event>)
    ensures |Run(OPENED, events).queue| == 514
  {
    var full := UnreadChunksQueueUp(MAX_BUFFERED_STREAM_ENTRIES, "delta");
    var overflow := Chunk(Some("delta"));
    var answer := Buffered(Refused);
    RunLast(OPENED, full, overflow);
    RunLast(OPENED, full + [overflow], answer);
    events := full + [overflow] + [answer];
  }

  // ----- the dispatcher's object ----------------------------------------------

  class PendingStream {
    var registered: bool
    var isComplete: bool
    var timerArmed: bool
    var queue: seq<Entry>
    var consumer: Consumer
    var cancels: nat
    ghost var received: seq<Value>
    ghost var kept: nat
    ghost var terminals: seq<Entry>
    ghost var taken: seq<Entry>

    ghost function State(): Stream
      reads this
    {
      Stream(registered, isComplete, timerArmed, queue, consumer, cancels, received, kept, terminals, taken)
    }

    /** The part of `stream` that sets the pending stream up. */
    constructor ()
      ensures State() == OPENED
    {
      registered, isComplete, timerArmed, queue, consumer, cancels := true, false, true, [], Unstarted, 0;
      received, kept, terminals, taken := [], 0, [], [];
    }

    method DetachPendingStream() returns (found: bool)
      modifies this`registered, this`timerArmed
      ensures found == old(registered)
      ensures State() == if found then Detach(old(State())) else old(State())
    {
      found := registered;
      if found { registered, timerArmed := false, false; }
    }

    method WakeOrQueue(entry: Entry)
      modifies this`queue, this`consumer
      ensures State() == Deliver(old(State()), entry)
    {
      if consumer == Waiting { consumer := Holding(entry); } else { queue := queue + [entry]; }
    }

    method EnqueueStreamEntry(entry: Entry)
      modifies this
      ensures State() == Enqueue(old(State()), entry)
    {
      if isComplete && entry.Val? {
        return;
      }
      if entry.Val? && |queue| >= MAX_BUFFERED_STREAM_ENTRIES {
        isComplete := true;
        cancels := cancels + 1;
        terminals := terminals + [ErrorEntry(Overflow)];
        WakeOrQueue(ErrorEntry(Overflow));
        return;
      }
      if entry.Val? {
        kept := kept + 1;
      } else {
        isComplete := true;
        terminals := terminals + [entry];
      }
      WakeOrQueue(entry);
    }

    method ConsumeBufferedStreamResponse(response: Response)
      modifies this
      ensures State() == Step(old(State()), Buffered(response))
    {
      var stream := DetachPendingStream();
      if !stream {
        return;
      }
      match response {
        case Refused => EnqueueStreamEntry(ErrorEntry(Remote));
        case MissingEnvelopes => EnqueueStreamEntry(ErrorEntry(Malformed));
        case Envelopes(values) =>
          ghost var detached := State();
          for i := 0 to |values|
            invariant ReceiveAll(detached, values) == ReceiveAll(State(), values[i..])
          {
            received := received + [values[i]];
            EnqueueStreamEntry(Val(values[i]));
            assert values[i..][1..] == values[i + 1..];
          }
          EnqueueStreamEntry(DoneEntry);
      }
    }

    /** `consumeLiveStreamEvent` for a chunk; a value that arrives after completion is dropped. */
    method ConsumeChunk(value: Option<Value>)
      modifies this
      ensures State() == Step(old(State()), Chunk(value))
    {
      if registered && value.Some? { received := received + [value.value]; }
      if !registered || isComplete {
        return;
      }
      match value {
        case Some(v) => EnqueueStreamEntry(Val(v));
        case None =>
          var _ := DetachPendingStream();
          EnqueueStreamEntry(ErrorEntry(Malformed));
      }
    }

    method ConsumeDone(value: Option<Value>)
      modifies this
      ensures State() == Step(old(State()), Done(value))
    {
      if registered && value.Some? { received := received + [value.value]; }
      if !registered || isComplete {
        return;
      }
      var _ := DetachPendingStream();
      match value {
        case Some(v) =>
          EnqueueStreamEntry(Val(v));
          EnqueueStreamEntry(DoneEntry);
        case None => EnqueueStreamEntry(ErrorEntry(Malformed));
      }
    }

    method ConsumeFailure(cancelled: bool)
      modifies this
      ensures State() == Step(old(State()), if cancelled then RemoteCancelled else RemoteError)
    {
      if !registered || isComplete {
        return;
      }
      var _ := DetachPendingStream();
      EnqueueStreamEntry(ErrorEntry(if cancelled then Cancelled else Remote));
    }

    /** The timeout callback, or the abort handler. */
    method OnTimeoutOrAbort(timeout: bool)
      requires timerArmed == registered
      modifies this
      ensures State() == Step(old(State()), if timeout then Timeout else Abort)
    {
      var terminal := DetachPendingStream();
      if !terminal {
        return;
      }
      isComplete := true;
      EnqueueStreamEntry(ErrorEntry(if timeout then TimedOut else Cancelled));
      cancels := cancels + 1;
    }

    method NextEntry()
      requires consumer == Unstarted || consumer == AtYield
      modifies this
      ensures State() == Step(old(State()), Next)
    {
      if |queue| > 0 {
        consumer, queue := Holding(queue[0]), queue[1..];
      } else {
        consumer := Waiting;
      }
    }

    /** The generator runs on with the entry it holds, to its next `yield` or its end. */
    method ResumeGenerator()
      requires consumer.Holding?
      modifies this
      ensures State() == Step(old(State()), Resume)
    {
      var entry := consumer.entry;
      taken := taken + [entry];
      match entry {
        case Val(_) => consumer := AtYield;
        case DoneEntry => consumer := Finished(Exhausted); CleanUp();
        case ErrorEntry(cause) => consumer := Finished(Threw(cause)); CleanUp();
      }
    }

    method CleanUp()
      modifies this
      ensures State() == Finally(old(State()))
    {
      var active := DetachPendingStream();
      if active && !isComplete {
        isComplete := true;
        cancels := cancels + 1;
      }
    }

    /** The consumer's `return()`: before the first `next()` it skips the generator's `finally`. */
    method ReturnEarly()
      requires consumer == Unstarted || consumer == AtYield
      modifies this
      ensures State() == Step(old(State()), Return)
    {
      var started := consumer != Unstarted;
      consumer := Finished(Returned);
      if started { CleanUp(); }
    }
  }
}
