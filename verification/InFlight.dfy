/** The background service's table of operations in flight, its index by grant, and revocation. */
module InFlight {
  import opened Text
  import opened Wrappers

  datatype Reason = User | Expired | SessionEnded | Superseded

  datatype Outcome = Returned | RevokedError | Failed

  /** Where an operation is between the awaits of `forwardRequest`, `forwardStream` and `guardedStream`. */
  datatype Phase =
    | InTransport
    | Fresh
    | Reading
    | AtYield
    | Closing(after: Outcome)
    | Done(outcome: Outcome)
    | Abandoned

  /** A call of `forwardRequest` or `forwardStream` whose grant was found, on its way to being registered. */
  datatype Call = Call(requestId: string, grantId: string, oneTime: bool, stream: bool, closes: bool, begun: bool)

  /** `closes` tells whether the source iterator has a `return` method to await. */
  datatype Operation = Operation(
    call: nat, requestId: string, grantId: string, oneTime: bool, stream: bool, closes: bool,
    revoked: Option<Reason>, phase: Phase)

  /** At which request's health event a listener throws, which ends the marking loop. */
  type Listeners = string -> bool

  /** What happened, in order; a call and an operation are their places in `calls` and `ops`. */
  datatype Entry =
    | Authorized(call: nat)
    | Registered(op: nat)
    | GrantRevoked(grantId: string, reason: Reason, fails: Listeners)
    | Handed(op: nat, value: string)
    | Finalized(op: nat)

  /** A grant's requests are a set that is listed in the order of insertion. */
  datatype State = State(
    calls: seq<Call>, ops: seq<Operation>, inFlight: map<string, nat>, byGrant: map<string, seq<string>>,
    log: seq<Entry>)

  const START: State := State([], [], map[], map[], [])

  // ----- the two tables -----------------------------------------------------

  function Listed(byGrant: map<string, seq<string>>, grantId: string): seq<string> {
    if grantId in byGrant then byGrant[grantId] else []
  }

  function Added(byGrant: map<string, seq<string>>, grantId: string, requestId: string): map<string, seq<string>> {
    var ids := Listed(byGrant, grantId);
    byGrant[grantId := if requestId in ids then ids else ids + [requestId]]
  }

  function Without(ids: seq<string>, id: string): (r: seq<string>)
    ensures forall x :: x in r <==> x in ids && x != id
  {
    if ids == [] then [] else (if ids[0] == id then [] else [ids[0]]) + Without(ids[1..], id)
  }

  function Removed(byGrant: map<string, seq<string>>, grantId: string, requestId: string): map<string, seq<string>> {
    if grantId !in byGrant then byGrant
    else if Without(byGrant[grantId], requestId) == [] then byGrant - {grantId}
    else byGrant[grantId := Without(byGrant[grantId], requestId)]
  }

  predicate IsListed(byGrant: map<string, seq<string>>, grantId: string, requestId: string) {
    requestId in Listed(byGrant, grantId)
  }

  function Register(s: State, op: Operation): State {
    State(s.calls, s.ops + [op], s.inFlight[op.requestId := |s.ops|], Added(s.byGrant, op.grantId, op.requestId),
          s.log + [Registered(|s.ops|)])
  }

  function Finalize(s: State, requestId: string): State {
    if requestId !in s.inFlight || s.inFlight[requestId] >= |s.ops| then s
    else
      var k := s.inFlight[requestId];
      State(s.calls, s.ops, s.inFlight - {requestId}, Removed(s.byGrant, s.ops[k].grantId, requestId),
            s.log + [Finalized(k)])
  }

  /** The requests that the marking loop gets to: up to the first in flight at whose health event a listener throws. */
  function Attempted(ids: seq<string>, inFlight: set<string>, fails: Listeners): seq<string> {
    if ids == [] then []
    else [ids[0]] + if ids[0] in inFlight && fails(ids[0]) then [] else Attempted(ids[1..], inFlight, fails)
  }

  /** The marking loop reaches an operation through the index and then the table. */
  predicate Reached(s: State, grantId: string, fails: Listeners, k: nat)
    requires k < |s.ops|
  {
    var id := s.ops[k].requestId;
    id in Attempted(Listed(s.byGrant, grantId), s.inFlight.Keys, fails) && id in s.inFlight && s.inFlight[id] == k
  }

  function Marked(s: State, grantId: string, reason: Reason, fails: Listeners): State {
    s.(ops := seq(|s.ops|, k requires 0 <= k < |s.ops| =>
                   if Reached(s, grantId, fails, k) then s.ops[k].(revoked := Some(reason)) else s.ops[k]),
       log := s.log + [GrantRevoked(grantId, reason, fails)])
  }

  // ----- the segments between awaits ----------------------------------------

  datatype Consumption = Consumed | NotConsumable | FoundExpired(fails: Listeners)

  datatype Settled = Item(value: string) | Ended | Rejected

  datatype Event =
    | Authorize(requestId: string, grantId: string, oneTime: bool, stream: bool, closes: bool)
    | Begin(call: nat)
    | Revoke(grantId: string, reason: Reason, fails: Listeners)
    | TransportSettles(op: nat, settled: Settled, consumption: Consumption, iterates: bool)
    | Pull(op: nat)
    | Close(op: nat)
    | SourceSettles(op: nat, settled: Settled)
    | ReturnSettles(op: nat, ok: bool)

  function SetPhase(s: State, k: nat, phase: Phase): State
    requires k < |s.ops|
  {
    s.(ops := s.ops[k := s.ops[k].(phase := phase)])
  }

  function Finish(s: State, k: nat, outcome: Outcome): State
    requires k < |s.ops|
  {
    SetPhase(Finalize(s, s.ops[k].requestId), k, Done(outcome))
  }

  function Hand(s: State, k: nat, value: string, phase: Phase): State
    requires k < |s.ops|
  {
    SetPhase(s, k, phase).(log := s.log + [Handed(k, value)])
  }

  /** What a caught error becomes. */
  function Caught(s: State, k: nat): Outcome
    requires k < |s.ops|
  {
    if s.ops[k].revoked.Some? then RevokedError else Failed
  }

  /** The `finally` block of the guarded stream: close the source if it can be closed, then finalise. */
  function CloseSource(s: State, k: nat, outcome: Outcome): State
    requires k < |s.ops|
  {
    if s.ops[k].closes then SetPhase(s, k, Closing(outcome)) else Finish(s, k, outcome)
  }

  /** `iterates` tells whether an iterator can be got from a stream; if not, the call fails outside every `try`. */
  function Granted(s: State, k: nat, value: string, iterates: bool): State
    requires k < |s.ops|
  {
    if s.ops[k].stream then SetPhase(s, k, if iterates then Fresh else Abandoned)
    else Finish(Hand(s, k, value, InTransport), k, Returned)
  }

  /** A one-time grant that turns out expired is revoked on the spot, which marks its own operation. */
  function Consume(s: State, k: nat, value: string, consumption: Consumption, iterates: bool): State
    requires k < |s.ops|
  {
    match consumption
    case Consumed => Granted(s, k, value, iterates)
    case NotConsumable => Finish(s, k, Failed)
    case FoundExpired(fails) =>
      var t := Marked(s, s.ops[k].grantId, Expired, fails);
      Finish(t, k, Caught(t, k))
  }

  function StepTransport(s: State, k: nat, settled: Settled, consumption: Consumption, iterates: bool): State
    requires k < |s.ops| && s.ops[k].phase == InTransport
  {
    if !settled.Item? || s.ops[k].revoked.Some? then Finish(s, k, Caught(s, k))
    else if s.ops[k].oneTime then Consume(s, k, settled.value, consumption, iterates)
    else Granted(s, k, settled.value, iterates)
  }

  function StepPull(s: State, k: nat): State
    requires k < |s.ops|
  {
    if s.ops[k].revoked.Some? then CloseSource(s, k, RevokedError) else SetPhase(s, k, Reading)
  }

  function StepSource(s: State, k: nat, settled: Settled): State
    requires k < |s.ops|
  {
    if settled.Ended? then CloseSource(s, k, Returned)
    else if settled.Rejected? || s.ops[k].revoked.Some? then CloseSource(s, k, Caught(s, k))
    else Hand(s, k, settled.value, AtYield)
  }

  /** A generator that never ran is closed without running its `finally` block. */
  function StepClose(s: State, k: nat): State
    requires k < |s.ops|
  {
    if s.ops[k].phase == Fresh then SetPhase(s, k, Abandoned) else CloseSource(s, k, Returned)
  }

  /** When closing the source fails, the operation is not finalised. */
  function StepReturn(s: State, k: nat, ok: bool): State
    requires k < |s.ops| && s.ops[k].phase.Closing?
  {
    if ok then Finish(s, k, s.ops[k].phase.after) else SetPhase(s, k, Abandoned)
  }

  function OperationOf(s: State, c: nat): Operation
    requires c < |s.calls|
  {
    var call := s.calls[c];
    Operation(c, call.requestId, call.grantId, call.oneTime, call.stream, call.closes, None, InTransport)
  }

  predicate Begins(s: State, c: nat) { c < |s.calls| && !s.calls[c].begun }

  function Step(s: State, e: Event): State {
    match e
    case Authorize(id, grant, oneTime, stream, closes) =>
      s.(calls := s.calls + [Call(id, grant, oneTime, stream, closes, false)], log := s.log + [Authorized(|s.calls|)])
    case Begin(c) =>
      if Begins(s, c) then
        Register(s.(calls := s.calls[c := s.calls[c].(begun := true)]), OperationOf(s, c))
      else s
    case Revoke(grant, reason, fails) => Marked(s, grant, reason, fails)
    case TransportSettles(k, settled, consumption, iterates) =>
      if k < |s.ops| && s.ops[k].phase == InTransport then StepTransport(s, k, settled, consumption, iterates) else s
    case Pull(k) =>
      if k < |s.ops| && s.ops[k].phase in {Fresh, AtYield} then StepPull(s, k) else s
    case Close(k) =>
      if k < |s.ops| && s.ops[k].phase in {Fresh, AtYield} then StepClose(s, k) else s
    case SourceSettles(k, settled) =>
      if k < |s.ops| && s.ops[k].phase == Reading then StepSource(s, k, settled) else s
    case ReturnSettles(k, ok) =>
      if k < |s.ops| && s.ops[k].phase.Closing? then StepReturn(s, k, ok) else s
  }

  function Run(s: State, events: seq<Event>): State
    decreases |events|
  {
    if events == [] then s else Run(Step(s, events[0]), events[1..])
  }

  predicate BeginsFresh(s: State, e: Event) {
    e.Begin? && Begins(s, e.call) ==> s.calls[e.call].requestId !in s.inFlight
  }

  /** No operation begins under an id that is in flight. */
  predicate DistinctIds(s: State, events: seq<Event>)
    decreases |events|
  {
    events == [] || (BeginsFresh(s, events[0]) && DistinctIds(Step(s, events[0]), events[1..]))
  }

  // ----- what every step keeps ----------------------------------------------

  predicate InTable(s: State, k: nat)
    requires k < |s.ops|
  {
    s.ops[k].requestId in s.inFlight && s.inFlight[s.ops[k].requestId] == k
  }

  /** The table leads to operations registered under the same id. */
  ghost predicate TableFits(s: State) {
    forall id :: id in s.inFlight ==> s.inFlight[id] < |s.ops| && s.ops[s.inFlight[id]].requestId == id
  }

  /** The places of listed requests go up. */
  predicate Ascending(ids: seq<string>, places: map<string, nat>) {
    forall i, j :: 0 <= i < j < |ids| && ids[i] in places && ids[j] in places ==> places[ids[i]] < places[ids[j]]
  }

  /** Every grant lists its requests in the order of registration. */
  ghost predicate Ordered(s: State) { forall g :: g in s.byGrant ==> Ascending(s.byGrant[g], s.inFlight) }

  /** The index is the inverse image of the table, and lists no grant without a request. */
  ghost predicate Indexed(s: State)
    requires TableFits(s)
  {
    && (forall g, id :: IsListed(s.byGrant, g, id) <==> id in s.inFlight && s.ops[s.inFlight[id]].grantId == g)
    && (forall g :: g in s.byGrant ==> s.byGrant[g] != [])
  }

  /** Registered and not finalised, going by the log alone. */
  ghost predicate Live(log: seq<Entry>, k: nat) { Registered(k) in log && Finalized(k) !in log }

  /** At the health event of an operation in flight under the grant, registered before operation `k`, a listener
      throws. */
  ghost predicate EarlierFails(log: seq<Entry>, ops: seq<Operation>, k: nat, fails: Listeners)
    requires k < |ops|
  {
    exists j :: 0 <= j < k && ops[j].grantId == ops[k].grantId && Live(log, j) && fails(ops[j].requestId)
  }

  /** The entry behind `log` revokes the operation's grant, and no listener throws before the operation's turn. */
  ghost predicate Revokes(e: Entry, log: seq<Entry>, ops: seq<Operation>, k: nat)
    requires k < |ops|
  {
    e.GrantRevoked? && e.grantId == ops[k].grantId && !EarlierFails(log, ops, k, e.fails)
  }

  /** The grant was revoked while the operation was in flight, and no listener threw before its turn; going by the log
      alone. */
  ghost predicate RevokedInFlight(log: seq<Entry>, ops: seq<Operation>, k: nat)
    requires k < |ops|
  {
    exists i :: 0 <= i < |log| && Revokes(log[i], log[..i], ops, k) && Live(log[..i], k)
  }

  predicate NamesOperation(e: Entry) { e.Registered? || e.Handed? || e.Finalized? }

  ghost predicate LogFits(s: State) {
    && (forall e :: e in s.log && NamesOperation(e) ==> e.op < |s.ops|)
    && (forall k :: 0 <= k < |s.ops| ==> (Live(s.log, k) <==> InTable(s, k)))
  }

  ghost predicate MarksFit(s: State) {
    forall k :: 0 <= k < |s.ops| ==> (s.ops[k].revoked.Some? <==> RevokedInFlight(s.log, s.ops, k))
  }

  /** Whenever something was handed out, its operation was live and not revoked. */
  ghost predicate HandedSafely(s: State) {
    forall j :: 0 <= j < |s.log| && s.log[j].Handed? && s.log[j].op < |s.ops| ==>
      Live(s.log[..j], s.log[j].op) && !RevokedInFlight(s.log[..j], s.ops, s.log[j].op)
  }

  ghost predicate PhasesFit(s: State) {
    forall k :: 0 <= k < |s.ops| ==> (s.ops[k].phase.Done? <==> !InTable(s, k))
  }

  ghost predicate Core(s: State) {
    TableFits(s) && Indexed(s) && Ordered(s) && LogFits(s) && MarksFit(s) && HandedSafely(s)
  }

  ghost predicate Inv(s: State) { Core(s) && PhasesFit(s) }

  lemma LiveAppend(log: seq<Entry>, e: Entry, k: nat)
    ensures Live(log + [e], k) <==>
      (Registered(k) in log || e == Registered(k)) && Finalized(k) !in log && e != Finalized(k)
  {
  }

  /** Two records of one operation: only marks and phases change. */
  predicate SameOperation(a: Operation, b: Operation) {
    a == b.(revoked := a.revoked, phase := a.phase)
  }

  lemma RevokedAppend(log: seq<Entry>, e: Entry, ops: seq<Operation>, k: nat)
    requires k < |ops|
    ensures RevokedInFlight(log + [e], ops, k) <==>
      RevokedInFlight(log, ops, k) || (Revokes(e, log, ops, k) && Live(log, k))
  {
    var all := log + [e];
    assert all[..|log|] == log;
    assert forall i :: 0 <= i < |log| ==> all[i] == log[i] && all[..i] == log[..i];
    if RevokedInFlight(log, ops, k) {
      var i :| 0 <= i < |log| && Revokes(log[i], log[..i], ops, k) && Live(log[..i], k);
      assert Revokes(all[i], all[..i], ops, k) && Live(all[..i], k);
    }
    if Revokes(e, log, ops, k) && Live(log, k) {
      assert Revokes(all[|log|], all[..|log|], ops, k) && Live(all[..|log|], k);
    }
    if RevokedInFlight(all, ops, k) {
      var i :| 0 <= i < |all| && Revokes(all[i], all[..i], ops, k) && Live(all[..i], k);
      if i < |log| { assert Revokes(log[i], log[..i], ops, k) && Live(log[..i], k); }
    }
  }

  /** Later records of the same operations, and perhaps of more. */
  ghost predicate SameOperations(a: seq<Operation>, b: seq<Operation>) {
    |a| <= |b| && forall k :: 0 <= k < |a| ==> SameOperation(b[k], a[k])
  }

  lemma RevokedSame(log: seq<Entry>, a: seq<Operation>, b: seq<Operation>, k: nat)
    requires k < |a| && SameOperations(a, b)
    ensures RevokedInFlight(log, a, k) <==> RevokedInFlight(log, b, k)
  {
    forall i | 0 <= i < |log| ensures Revokes(log[i], log[..i], a, k) <==> Revokes(log[i], log[..i], b, k) {
      RevokesSame(log[i], log[..i], a, b, k);
    }
  }

  lemma RevokesSame(e: Entry, log: seq<Entry>, a: seq<Operation>, b: seq<Operation>, k: nat)
    requires k < |a| && SameOperations(a, b)
    ensures Revokes(e, log, a, k) <==> Revokes(e, log, b, k)
  {
    assert forall j :: 0 <= j <= k ==> SameOperation(b[j], a[j]);
  }

  lemma HandedSame(s: State, t: State)
    requires HandedSafely(s) && t.log == s.log && |t.ops| == |s.ops| && SameOperations(s.ops, t.ops)
    ensures HandedSafely(t)
  {
    forall j | 0 <= j < |t.log| && t.log[j].Handed? && t.log[j].op < |t.ops|
      ensures !RevokedInFlight(t.log[..j], t.ops, t.log[j].op)
    {
      RevokedSame(t.log[..j], s.ops, t.ops, t.log[j].op);
    }
  }

  lemma HandedAppend(s: State, t: State, e: Entry)
    requires HandedSafely(s) && t.log == s.log + [e] && LogFits(s) && SameOperations(s.ops, t.ops)
    requires e.Handed? ==>
      e.op < |s.ops| && Live(s.log, e.op) && !RevokedInFlight(s.log, s.ops, e.op)
    ensures HandedSafely(t)
  {
    assert forall j :: 0 <= j < |s.log| ==> t.log[..j] == s.log[..j];
    assert t.log[..|s.log|] == s.log;
    forall j | 0 <= j < |t.log| && t.log[j].Handed? && t.log[j].op < |t.ops|
      ensures Live(t.log[..j], t.log[j].op)
      ensures !RevokedInFlight(t.log[..j], t.ops, t.log[j].op)
    {
      if j < |s.log| { assert t.log[j] == s.log[j] && s.log[j] in s.log; }
      RevokedSame(t.log[..j], s.ops, t.ops, t.log[j].op);
    }
  }

  lemma RegisterKeepsTables(s: State, op: Operation)
    requires TableFits(s) && Indexed(s) && Ordered(s) && op.requestId !in s.inFlight
    ensures TableFits(Register(s, op)) && Indexed(Register(s, op)) && Ordered(Register(s, op))
  {
    var t := Register(s, op);
    assert TableFits(t);
    forall g, id ensures IsListed(t.byGrant, g, id) <==> id in t.inFlight && t.ops[t.inFlight[id]].grantId == g {
      assert IsListed(t.byGrant, g, id) <==> IsListed(s.byGrant, g, id) || (g == op.grantId && id == op.requestId);
    }
    forall g | g in t.byGrant ensures Ascending(t.byGrant[g], t.inFlight) {
      assert !IsListed(s.byGrant, g, op.requestId);
      RegisterKeepsAscending(Listed(s.byGrant, g), s.inFlight, op.requestId, |s.ops|);
    }
  }

  lemma RegisterKeepsAscending(ids: seq<string>, places: map<string, nat>, id: string, n: nat)
    requires Ascending(ids, places) && id !in ids && forall x :: x in places ==> places[x] < n
    ensures Ascending(ids, places[id := n]) && Ascending(ids + [id], places[id := n])
  {
    forall i | 0 <= i < |ids| ensures ids[i] != id { assert ids[i] in ids; }
  }

  lemma RegisterKeeps(s: State, op: Operation)
    requires Inv(s) && op.requestId !in s.inFlight && op.revoked == None && op.phase == InTransport
    ensures Inv(Register(s, op))
  {
    var t := Register(s, op);
    var e := Registered(|s.ops|);
    RegisterKeepsTables(s, op);
    HandedAppend(s, t, e);
    forall k | 0 <= k < |t.ops|
      ensures Live(t.log, k) <==> InTable(t, k)
      ensures t.ops[k].revoked.Some? <==> RevokedInFlight(t.log, t.ops, k)
      ensures t.ops[k].phase.Done? <==> !InTable(t, k)
    {
      RegisterKeepsEach(s, op, k);
    }
  }

  lemma RegisterKeepsEach(s: State, op: Operation, k: nat)
    requires Inv(s) && op.requestId !in s.inFlight && op.revoked == None && op.phase == InTransport && k <= |s.ops|
    ensures var t := Register(s, op);
      && (Live(t.log, k) <==> InTable(t, k))
      && (t.ops[k].revoked.Some? <==> RevokedInFlight(t.log, t.ops, k))
      && (t.ops[k].phase.Done? <==> !InTable(t, k))
  {
    if k == |s.ops| { RegisterKeepsNew(s, op); } else { RegisterKeepsOld(s, op, k); }
  }

  lemma RegisterKeepsNew(s: State, op: Operation)
    requires LogFits(s) && op.revoked == None
    ensures var t, k := Register(s, op), |s.ops|;
      Live(t.log, k) && InTable(t, k) && !RevokedInFlight(t.log, t.ops, k)
  {
    var t, k := Register(s, op), |s.ops|;
    forall x | x in s.log ensures x != Registered(k) && x != Finalized(k) { assert NamesOperation(x) ==> x.op < k; }
    LiveAppend(s.log, Registered(k), k);
    RevokedAppend(s.log, Registered(k), t.ops, k);
    NeverRevokedBefore(s.log, t.ops, k);
  }

  lemma RegisterKeepsOld(s: State, op: Operation, k: nat)
    requires LogFits(s) && MarksFit(s) && PhasesFit(s) && op.requestId !in s.inFlight && k < |s.ops|
    ensures var t := Register(s, op);
      && t.ops[k] == s.ops[k]
      && (Live(t.log, k) <==> InTable(t, k))
      && (t.ops[k].revoked.Some? <==> RevokedInFlight(t.log, t.ops, k))
      && (t.ops[k].phase.Done? <==> !InTable(t, k))
  {
    var t := Register(s, op);
    LiveAppend(s.log, Registered(|s.ops|), k);
    RevokedAppend(s.log, Registered(|s.ops|), t.ops, k);
    RevokedSame(s.log, s.ops, t.ops, k);
  }

  lemma NeverRevokedBefore(log: seq<Entry>, ops: seq<Operation>, k: nat)
    requires k < |ops| && Registered(k) !in log
    ensures !RevokedInFlight(log, ops, k)
  {
    forall i | 0 <= i < |log| ensures !Live(log[..i], k) {
      assert forall e :: e in log[..i] ==> e in log;
    }
  }

  lemma {:induction false} WithoutKeepsAscending(ids: seq<string>, places: map<string, nat>, id: string)
    requires Ascending(ids, places)
    ensures Ascending(Without(ids, id), places - {id})
  {
    if ids != [] {
      var rest, places' := Without(ids[1..], id), places - {id};
      WithoutKeepsAscending(ids[1..], places, id);
      forall j | 0 <= j < |rest| && ids[0] in places' && rest[j] in places' ensures places'[ids[0]] < places'[rest[j]] {
        assert rest[j] in rest;
        var q :| 0 <= q < |ids[1..]| && ids[1..][q] == rest[j];
        assert ids[q + 1] == rest[j];
      }
    }
  }

  lemma FewerPlacesAscend(ids: seq<string>, places: map<string, nat>, id: string)
    requires Ascending(ids, places)
    ensures Ascending(ids, places - {id})
  {
  }

  lemma FinalizeKeepsOrder(s: State, id: string)
    requires TableFits(s) && Ordered(s) && id in s.inFlight
    ensures Ordered(Finalize(s, id))
  {
    var t := Finalize(s, id);
    var grant := s.ops[s.inFlight[id]].grantId;
    forall g | g in t.byGrant ensures Ascending(t.byGrant[g], t.inFlight) {
      if g == grant {
        WithoutKeepsAscending(s.byGrant[g], s.inFlight, id);
      } else {
        FewerPlacesAscend(s.byGrant[g], s.inFlight, id);
      }
    }
  }

  lemma FinalizeKeepsTables(s: State, id: string)
    requires TableFits(s) && Indexed(s) && id in s.inFlight
    ensures TableFits(Finalize(s, id)) && Indexed(Finalize(s, id))
  {
    var t := Finalize(s, id);
    var grant := s.ops[s.inFlight[id]].grantId;
    assert TableFits(t);
    assert IsListed(s.byGrant, grant, id);
    forall g, x ensures IsListed(t.byGrant, g, x) <==> IsListed(s.byGrant, g, x) && !(g == grant && x == id) {
      assert x in Without(s.byGrant[grant], id) <==> x in s.byGrant[grant] && x != id;
    }
    forall g, x ensures IsListed(t.byGrant, g, x) <==> x in t.inFlight && t.ops[t.inFlight[x]].grantId == g {
      assert IsListed(s.byGrant, g, x) <==> x in s.inFlight && s.ops[s.inFlight[x]].grantId == g;
    }
  }

  lemma FinalizeKeeps(s: State, k: nat)
    requires Core(s) && k < |s.ops| && InTable(s, k)
    ensures var t := Finalize(s, s.ops[k].requestId);
      Core(t) && t.ops == s.ops && forall j :: 0 <= j < |s.ops| ==> (InTable(t, j) <==> InTable(s, j) && j != k)
  {
    var id := s.ops[k].requestId;
    var t := Finalize(s, id);
    var e := Finalized(k);
    FinalizeKeepsTables(s, id);
    FinalizeKeepsOrder(s, id);
    HandedAppend(s, t, e);
    forall j | 0 <= j < |t.ops|
      ensures InTable(t, j) <==> InTable(s, j) && j != k
      ensures Live(t.log, j) <==> InTable(t, j)
      ensures t.ops[j].revoked.Some? <==> RevokedInFlight(t.log, t.ops, j)
    {
      FinalizeKeepsEach(s, k, j);
    }
  }

  lemma FinalizeKeepsEach(s: State, k: nat, j: nat)
    requires TableFits(s) && LogFits(s) && MarksFit(s) && k < |s.ops| && InTable(s, k) && j < |s.ops|
    ensures var t := Finalize(s, s.ops[k].requestId);
      && (InTable(t, j) <==> InTable(s, j) && j != k)
      && (Live(t.log, j) <==> InTable(t, j))
      && (t.ops[j].revoked.Some? <==> RevokedInFlight(t.log, t.ops, j))
  {
    LiveAppend(s.log, Finalized(k), j);
    RevokedAppend(s.log, Finalized(k), s.ops, j);
  }

  lemma MarkKeepsTables(s: State, grantId: string, reason: Reason, fails: Listeners)
    requires TableFits(s) && Indexed(s) && Ordered(s)
    ensures var t := Marked(s, grantId, reason, fails);
      && TableFits(t) && Indexed(t) && Ordered(t)
      && forall k :: 0 <= k < |s.ops| ==> (InTable(t, k) <==> InTable(s, k))
  {
  }

  /** The loop gets to a request exactly when none before it, in flight, has a listener throw. */
  lemma {:induction false} AttemptedAt(ids: seq<string>, inFlight: set<string>, fails: Listeners, p: nat)
    requires p < |ids| && forall i, j :: 0 <= i < j < |ids| ==> ids[i] != ids[j]
    ensures ids[p] in Attempted(ids, inFlight, fails) <==>
      forall q :: 0 <= q < p ==> !(ids[q] in inFlight && fails(ids[q]))
  {
    if p > 0 {
      var rest := ids[1..];
      assert ids[p] == rest[p - 1];
      AttemptedAt(rest, inFlight, fails, p - 1);
      assert forall q :: 0 <= q < |rest| ==> rest[q] == ids[q + 1];
      if ids[p] in Attempted(ids, inFlight, fails) {
        forall q | 0 <= q < p ensures !(ids[q] in inFlight && fails(ids[q])) {
          if q > 0 { assert rest[q - 1] == ids[q]; }
        }
      }
    }
  }

  lemma AttemptedAreListed(ids: seq<string>, inFlight: set<string>, fails: Listeners, x: string)
    requires x in Attempted(ids, inFlight, fails)
    ensures x in ids
  {
  }

  lemma Places(s: State, g: string, i: nat)
    requires TableFits(s) && Indexed(s) && i < |Listed(s.byGrant, g)|
    ensures var id := Listed(s.byGrant, g)[i];
      id in s.inFlight && s.inFlight[id] < |s.ops|
      && s.ops[s.inFlight[id]].requestId == id && s.ops[s.inFlight[id]].grantId == g
  {
    assert IsListed(s.byGrant, g, Listed(s.byGrant, g)[i]);
  }

  lemma NoneListedTwice(s: State, g: string)
    requires TableFits(s) && Indexed(s) && Ordered(s)
    ensures var ids := Listed(s.byGrant, g); forall i, j :: 0 <= i < j < |ids| ==> ids[i] != ids[j]
  {
    forall i, j | 0 <= i < j < |Listed(s.byGrant, g)| ensures Listed(s.byGrant, g)[i] != Listed(s.byGrant, g)[j] {
      Places(s, g, i);
      Places(s, g, j);
    }
  }

  /** What stands before a request in its grant's list was registered before it, and conversely. */
  lemma EarlierIsBefore(s: State, k: nat, p: nat, fails: Listeners)
    requires TableFits(s) && Indexed(s) && Ordered(s) && LogFits(s) && k < |s.ops| && InTable(s, k)
    requires var ids := Listed(s.byGrant, s.ops[k].grantId); p < |ids| && ids[p] == s.ops[k].requestId
    ensures var ids := Listed(s.byGrant, s.ops[k].grantId);
      EarlierFails(s.log, s.ops, k, fails) <==> exists q :: 0 <= q < p && ids[q] in s.inFlight && fails(ids[q])
  {
    var g := s.ops[k].grantId;
    var ids := Listed(s.byGrant, g);
    if EarlierFails(s.log, s.ops, k, fails) {
      var j :| 0 <= j < k && s.ops[j].grantId == g && Live(s.log, j) && fails(s.ops[j].requestId);
      assert InTable(s, j) && IsListed(s.byGrant, g, s.ops[j].requestId);
      var q :| 0 <= q < |ids| && ids[q] == s.ops[j].requestId;
      assert q < p;
    }
    if q :| 0 <= q < p && ids[q] in s.inFlight && fails(ids[q]) {
      Places(s, g, q);
      var j := s.inFlight[ids[q]];
      assert j < k && InTable(s, j) && Live(s.log, j);
    }
  }

  /** In a table that fits, the loop reaches an operation exactly when the revocation counts for it. */
  lemma MarkReaches(s: State, grantId: string, reason: Reason, fails: Listeners, k: nat)
    requires TableFits(s) && Indexed(s) && Ordered(s) && LogFits(s) && k < |s.ops|
    ensures Reached(s, grantId, fails, k) <==>
      InTable(s, k) && Revokes(GrantRevoked(grantId, reason, fails), s.log, s.ops, k)
  {
    var ids, id := Listed(s.byGrant, grantId), s.ops[k].requestId;
    if InTable(s, k) && s.ops[k].grantId == grantId {
      assert IsListed(s.byGrant, grantId, id);
      var p :| 0 <= p < |ids| && ids[p] == id;
      NoneListedTwice(s, grantId);
      AttemptedAt(ids, s.inFlight.Keys, fails, p);
      EarlierIsBefore(s, k, p, fails);
    } else if Reached(s, grantId, fails, k) {
      AttemptedAreListed(ids, s.inFlight.Keys, fails, id);
      assert IsListed(s.byGrant, grantId, id);
    }
  }

  lemma MarkKeepsMarks(s: State, grantId: string, reason: Reason, fails: Listeners, k: nat)
    requires Core(s) && k < |s.ops|
    ensures var t := Marked(s, grantId, reason, fails);
      && (Live(t.log, k) <==> Live(s.log, k))
      && (t.ops[k].revoked.Some? <==> RevokedInFlight(t.log, t.ops, k))
  {
    var t := Marked(s, grantId, reason, fails);
    var e := GrantRevoked(grantId, reason, fails);
    LiveAppend(s.log, e, k);
    RevokedAppend(s.log, e, t.ops, k);
    RevokedSame(s.log, s.ops, t.ops, k);
    RevokesSame(e, s.log, s.ops, t.ops, k);
    MarkReaches(s, grantId, reason, fails, k);
  }

  lemma MarkKeeps(s: State, grantId: string, reason: Reason, fails: Listeners)
    requires Core(s)
    ensures var t := Marked(s, grantId, reason, fails);
      Core(t) && (PhasesFit(s) ==> PhasesFit(t))
      && forall k :: 0 <= k < |s.ops| ==> (InTable(t, k) <==> InTable(s, k))
  {
    var t := Marked(s, grantId, reason, fails);
    MarkKeepsTables(s, grantId, reason, fails);
    forall k | 0 <= k < |t.ops|
      ensures Live(t.log, k) <==> Live(s.log, k)
      ensures t.ops[k].revoked.Some? <==> RevokedInFlight(t.log, t.ops, k)
    {
      MarkKeepsMarks(s, grantId, reason, fails, k);
    }
    HandedAppend(s, t, GrantRevoked(grantId, reason, fails));
  }

  lemma SetPhaseKeeps(s: State, k: nat, phase: Phase)
    requires Core(s) && k < |s.ops|
    ensures var t := SetPhase(s, k, phase);
      Core(t) && t.log == s.log && forall j :: 0 <= j < |s.ops| ==> (InTable(t, j) <==> InTable(s, j))
  {
    var t := SetPhase(s, k, phase);
    assert TableFits(t);
    assert Indexed(t);
    forall j | 0 <= j < |t.ops|
      ensures InTable(t, j) <==> InTable(s, j)
      ensures Live(t.log, j) <==> InTable(t, j)
      ensures t.ops[j].revoked.Some? <==> RevokedInFlight(t.log, t.ops, j)
    {
      assert t.ops[j].revoked == s.ops[j].revoked;
      RevokedSame(s.log, s.ops, t.ops, j);
    }
    HandedSame(s, t);
  }

  lemma MoveKeeps(s: State, k: nat, phase: Phase)
    requires Inv(s) && k < |s.ops| && InTable(s, k) && !phase.Done?
    ensures Inv(SetPhase(s, k, phase)) && InTable(SetPhase(s, k, phase), k)
  {
    SetPhaseKeeps(s, k, phase);
  }

  lemma FinishKeeps(s: State, k: nat, outcome: Outcome)
    requires Inv(s) && k < |s.ops| && InTable(s, k)
    ensures Inv(Finish(s, k, outcome))
  {
    FinalizeKeeps(s, k);
    SetPhaseKeeps(Finalize(s, s.ops[k].requestId), k, Done(outcome));
  }

  lemma HandKeeps(s: State, k: nat, value: string, phase: Phase)
    requires Inv(s) && k < |s.ops| && InTable(s, k) && s.ops[k].revoked == None && !phase.Done?
    ensures Inv(Hand(s, k, value, phase)) && InTable(Hand(s, k, value, phase), k)
  {
    MoveKeeps(s, k, phase);
    var m := SetPhase(s, k, phase);
    var t := Hand(s, k, value, phase);
    var e := Handed(k, value);
    RevokedSame(s.log, s.ops, m.ops, k);
    HandedAppend(m, t, e);
    assert TableFits(t);
    assert Indexed(t);
    forall j | 0 <= j < |t.ops|
      ensures Live(t.log, j) <==> InTable(t, j)
      ensures t.ops[j].revoked.Some? <==> RevokedInFlight(t.log, t.ops, j)
    {
      assert InTable(t, j) <==> InTable(m, j);
      LiveAppend(m.log, e, j);
      RevokedAppend(m.log, e, t.ops, j);
    }
  }

  lemma CloseKeeps(s: State, k: nat, outcome: Outcome)
    requires Inv(s) && k < |s.ops| && InTable(s, k)
    ensures Inv(CloseSource(s, k, outcome))
  {
    if s.ops[k].closes { MoveKeeps(s, k, Closing(outcome)); } else { FinishKeeps(s, k, outcome); }
  }

  lemma TransportKeeps(s: State, k: nat, settled: Settled, consumption: Consumption, iterates: bool)
    requires Inv(s) && k < |s.ops| && InTable(s, k) && s.ops[k].phase == InTransport
    ensures Inv(StepTransport(s, k, settled, consumption, iterates))
  {
    if settled.Item? && s.ops[k].revoked == None && !(s.ops[k].oneTime && !consumption.Consumed?) {
      if s.ops[k].stream {
        MoveKeeps(s, k, if iterates then Fresh else Abandoned);
      } else {
        HandKeeps(s, k, settled.value, InTransport);
        FinishKeeps(Hand(s, k, settled.value, InTransport), k, Returned);
      }
    } else if settled.Item? && s.ops[k].revoked == None && consumption.FoundExpired? {
      MarkKeeps(s, s.ops[k].grantId, Expired, consumption.fails);
      var t := Marked(s, s.ops[k].grantId, Expired, consumption.fails);
      FinishKeeps(t, k, Caught(t, k));
    } else {
      FinishKeeps(s, k, Caught(s, k));
    }
  }

  lemma CallsKeep(s: State, calls: seq<Call>)
    requires Inv(s)
    ensures Inv(s.(calls := calls))
  {
  }

  lemma AuthorizeKeeps(s: State, e: Event)
    requires Inv(s) && e.Authorize?
    ensures Inv(Step(s, e))
  {
    var t := Step(s, e);
    var x := Authorized(|s.calls|);
    HandedAppend(s, t, x);
    forall k | 0 <= k < |t.ops|
      ensures Live(t.log, k) <==> InTable(t, k)
      ensures t.ops[k].revoked.Some? <==> RevokedInFlight(t.log, t.ops, k)
    {
      assert InTable(t, k) <==> InTable(s, k);
      LiveAppend(s.log, x, k);
      RevokedAppend(s.log, x, t.ops, k);
    }
  }

  lemma StepKeepsInv(s: State, e: Event)
    requires Inv(s) && BeginsFresh(s, e)
    ensures Inv(Step(s, e))
  {
    match e {
      case Authorize(_, _, _, _, _) => AuthorizeKeeps(s, e);
      case Begin(c) =>
        if Begins(s, c) {
          var t := s.(calls := s.calls[c := s.calls[c].(begun := true)]);
          CallsKeep(s, t.calls);
          RegisterKeeps(t, OperationOf(s, c));
        }
      case Revoke(grant, reason, fails) => MarkKeeps(s, grant, reason, fails);
      case TransportSettles(k, settled, consumption, iterates) =>
        if k < |s.ops| && s.ops[k].phase == InTransport { TransportKeeps(s, k, settled, consumption, iterates); }
      case Pull(k) =>
        if k < |s.ops| && s.ops[k].phase in {Fresh, AtYield} {
          if s.ops[k].revoked.Some? { CloseKeeps(s, k, RevokedError); } else { MoveKeeps(s, k, Reading); }
        }
      case Close(k) =>
        if k < |s.ops| && s.ops[k].phase in {Fresh, AtYield} {
          if s.ops[k].phase == Fresh { MoveKeeps(s, k, Abandoned); } else { CloseKeeps(s, k, Returned); }
        }
      case SourceSettles(k, settled) => if k < |s.ops| && s.ops[k].phase == Reading { SourceKeeps(s, k, settled); }
      case ReturnSettles(k, ok) =>
        if k < |s.ops| && s.ops[k].phase.Closing? {
          if ok { FinishKeeps(s, k, s.ops[k].phase.after); } else { MoveKeeps(s, k, Abandoned); }
        }
    }
  }

  lemma SourceKeeps(s: State, k: nat, settled: Settled)
    requires Inv(s) && k < |s.ops| && s.ops[k].phase == Reading
    ensures Inv(StepSource(s, k, settled))
  {
    if settled.Item? && s.ops[k].revoked == None {
      HandKeeps(s, k, settled.value, AtYield);
    } else {
      CloseKeeps(s, k, if settled.Ended? then Returned else Caught(s, k));
    }
  }

  lemma {:induction false} RunKeepsInv(s: State, events: seq<Event>)
    requires Inv(s) && DistinctIds(s, events)
    ensures Inv(Run(s, events))
    decreases |events|
  {
    if events != [] {
      StepKeepsInv(s, events[0]);
      RunKeepsInv(Step(s, events[0]), events[1..]);
    }
  }

  /** Main result: while ids in flight are distinct, the index is exactly the inverse image of the table, each grant's
      requests in the order of registration; and an operation is marked revoked if and only if its grant was revoked
      while it was in flight and no listener threw for an earlier operation of the grant then in flight. */
  lemma MarkedIffRevokedInFlight(events: seq<Event>)
    requires DistinctIds(START, events)
    ensures var s := Run(START, events);
      && TableFits(s) && Indexed(s) && Ordered(s)
      && forall k :: 0 <= k < |s.ops| ==> (s.ops[k].revoked.Some? <==> RevokedInFlight(s.log, s.ops, k))
  {
    RunKeepsInv(START, events);
  }

  /** Main result: nothing is handed out for an operation after a revocation of its grant reached it in flight. */
  lemma NothingIsHandedOutAfterRevocation(events: seq<Event>, i: nat, j: nat, k: nat)
    requires DistinctIds(START, events)
    requires var s := Run(START, events);
      && i < j < |s.log| && k < |s.ops| && Revokes(s.log[i], s.log[..i], s.ops, k) && Live(s.log[..i], k)
    ensures var s := Run(START, events); !(s.log[j].Handed? && s.log[j].op == k)
  {
    var s := Run(START, events);
    RunKeepsInv(START, events);
    assert s.log[..j][i] == s.log[i] && s.log[..j][..i] == s.log[..i];
    assert RevokedInFlight(s.log[..j], s.ops, k);
  }

  // ----- what becomes of an arrival -----------------------------------------

  /** A revocation reached the operation after its registration. */
  ghost predicate RevokedSinceRegistered(log: seq<Entry>, ops: seq<Operation>, k: nat)
    requires k < |ops|
  {
    exists i, j :: 0 <= i < j < |log| && log[i] == Registered(k) && Revokes(log[j], log[..j], ops, k)
  }

  lemma LiveSinceRegistered(log: seq<Entry>, ops: seq<Operation>, k: nat)
    requires k < |ops| && Live(log, k)
    ensures RevokedInFlight(log, ops, k) <==> RevokedSinceRegistered(log, ops, k)
  {
    if RevokedInFlight(log, ops, k) {
      var j :| 0 <= j < |log| && Revokes(log[j], log[..j], ops, k) && Live(log[..j], k);
      var i :| 0 <= i < j && log[..j][i] == Registered(k);
      assert log[i] == Registered(k);
    }
    if RevokedSinceRegistered(log, ops, k) {
      var i, j :| 0 <= i < j < |log| && log[i] == Registered(k) && Revokes(log[j], log[..j], ops, k);
      assert log[..j][i] == Registered(k);
      assert forall e :: e in log[..j] ==> e in log;
      assert Live(log[..j], k);
    }
  }

  /** Main result: after any run, an item that arrives for a stream is handed out if and only if no revocation reached
      it since its registration; if one did, the stream ends with the revocation error instead. */
  lemma ItemIsHandedIffNotRevoked(events: seq<Event>, k: nat, value: string)
    requires DistinctIds(START, events)
    requires k < |Run(START, events).ops| && Run(START, events).ops[k].phase == Reading
    ensures var s := Run(START, events);
      var t := Step(s, SourceSettles(k, Item(value)));
      if RevokedSinceRegistered(s.log, s.ops, k)
      then Handed(k, value) !in News(s, t) && t.ops[k].phase in {Closing(RevokedError), Done(RevokedError)}
      else t.log == s.log + [Handed(k, value)] && t.ops[k].phase == AtYield
  {
    RunKeepsInv(START, events);
    var s := Run(START, events);
    assert InTable(s, k);
    LiveSinceRegistered(s.log, s.ops, k);
    ItemStep(s, k, value);
  }

  lemma ItemStep(s: State, k: nat, value: string)
    requires TableFits(s) && k < |s.ops| && s.ops[k].phase == Reading
    ensures var t := Step(s, SourceSettles(k, Item(value)));
      if s.ops[k].revoked.Some?
      then Handed(k, value) !in News(s, t) && t.ops[k].phase in {Closing(RevokedError), Done(RevokedError)}
      else t.log == s.log + [Handed(k, value)] && t.ops[k].phase == AtYield
  {
    assert s.log[|s.log|..] == [];
  }

  /** What a step adds to the log. */
  function News(s: State, t: State): seq<Entry> { if |s.log| <= |t.log| then t.log[|s.log|..] else [] }

  /** From `s` to `t` the operation was done: its value was handed out exactly if `handed`, and it ended with the
      revocation error if `revoked`. */
  ghost predicate Answered(s: State, t: State, k: nat, value: string, handed: bool, revoked: bool) {
    && k < |t.ops| && t.ops[k].phase.Done?
    && (Handed(k, value) in News(s, t) <==> handed)
    && (t.ops[k].phase == Done(Returned) <==> handed)
    && (revoked ==> t.ops[k].phase == Done(RevokedError))
  }

  /** Main result: after any run, a response that arrives for a request is handed out if and only if no revocation
      reached it since its registration and its grant, if it is for one time, is consumed. */
  lemma ResponseIsHandedIffNotRevoked(
      events: seq<Event>, k: nat, value: string, consumption: Consumption, iterates: bool)
    requires DistinctIds(START, events) && k < |Run(START, events).ops|
    requires var op := Run(START, events).ops[k]; op.phase == InTransport && !op.stream
    ensures var s := Run(START, events);
      var t := Step(s, TransportSettles(k, Item(value), consumption, iterates));
      var revoked := RevokedSinceRegistered(s.log, s.ops, k);
      Answered(s, t, k, value, !revoked && (s.ops[k].oneTime ==> consumption == Consumed), revoked)
  {
    RunKeepsInv(START, events);
    var s := Run(START, events);
    assert InTable(s, k);
    LiveSinceRegistered(s.log, s.ops, k);
    ResponseStep(s, k, value, consumption, iterates);
  }

  lemma ResponseStep(s: State, k: nat, value: string, consumption: Consumption, iterates: bool)
    requires TableFits(s) && k < |s.ops| && InTable(s, k) && s.ops[k].phase == InTransport && !s.ops[k].stream
    ensures var t := Step(s, TransportSettles(k, Item(value), consumption, iterates));
      var revoked := s.ops[k].revoked.Some?;
      Answered(s, t, k, value, !revoked && (s.ops[k].oneTime ==> consumption == Consumed), revoked)
  {
    var op, t := s.ops[k], Step(s, TransportSettles(k, Item(value), consumption, iterates));
    if op.revoked == None && (op.oneTime ==> consumption == Consumed) {
      assert News(s, t) == [Handed(k, value), Finalized(k)];
    } else if op.revoked == None && consumption.FoundExpired? {
      assert News(s, t) == [GrantRevoked(op.grantId, Expired, consumption.fails), Finalized(k)];
    } else {
      assert News(s, t) == [Finalized(k)];
    }
  }

  // ----- revocations that come too early or do not come through -------------

  lemma {:induction false} RunLast(s: State, events: seq<Event>, e: Event)
    ensures Run(s, events + [e]) == Step(Run(s, events), e)
    ensures DistinctIds(s, events + [e]) <==> DistinctIds(s, events) && BeginsFresh(Run(s, events), e)
    decreases |events|
  {
    if events == [] {
      assert [] + [e] == [e] && [e][1..] == [];
      assert Run(s, [e]) == Run(Step(s, e), []);
    } else {
      assert (events + [e])[1..] == events[1..] + [e];
      RunLast(Step(s, events[0]), events[1..], e);
    }
  }

  const CALM: Listeners := (id: string) => false

  /** A listener throws at the health event of request `a`. */
  const LOUD: Listeners := (id: string) => id == "a"

  /** A request is authorised, its grant is revoked, and only then it is registered. */
  const EARLY_REVOCATION: seq<Event> :=
    [] + [Authorize("a", "g", false, false, false)] + [Revoke("g", User, CALM)] + [Begin(0)]

  const TWO_IN_FLIGHT: seq<Event> :=
    [] + [Authorize("a", "g", false, false, false)] + [Begin(0)]
    + [Authorize("b", "g", false, false, false)] + [Begin(1)]

  /** The grant of two requests in flight is revoked, and a listener throws at the first. */
  const MISSED_REVOCATION: seq<Event> := TWO_IN_FLIGHT + [Revoke("g", User, LOUD)]

  const FIRST: Operation := Operation(0, "a", "g", false, false, false, None, InTransport)

  const SECOND: Operation := Operation(1, "b", "g", false, false, false, None, InTransport)

  lemma EarlyRevocationRuns()
    ensures var s := Run(START, EARLY_REVOCATION);
      && DistinctIds(START, EARLY_REVOCATION)
      && s.ops == [FIRST] && s.inFlight == map["a" := 0]
      && s.log == [Authorized(0), GrantRevoked("g", User, CALM), Registered(0)]
  {
    var a, b := Authorize("a", "g", false, false, false), Revoke("g", User, CALM);
    RunLast(START, [], a);
    RunLast(START, [] + [a], b);
    RunLast(START, [] + [a] + [b], Begin(0));
    var before := Run(START, [] + [a] + [b]);
    assert before.calls == [Call("a", "g", false, false, false, false)] && before.ops == [];
  }

  lemma FirstRuns()
    ensures var events := [] + [Authorize("a", "g", false, false, false)] + [Begin(0)];
      var s := Run(START, events);
      && DistinctIds(START, events)
      && s == State([Call("a", "g", false, false, false, true)], [FIRST], map["a" := 0], map["g" := ["a"]],
                    [Authorized(0), Registered(0)])
  {
    var a := Authorize("a", "g", false, false, false);
    RunLast(START, [], a);
    RunLast(START, [] + [a], Begin(0));
    assert Run(START, [] + [a]).calls == [Call("a", "g", false, false, false, false)];
    assert [] + ["a"] == ["a"];
  }

  lemma TwoRun()
    ensures var s := Run(START, TWO_IN_FLIGHT);
      && DistinctIds(START, TWO_IN_FLIGHT)
      && s.ops == [FIRST, SECOND] && s.inFlight == map["a" := 0, "b" := 1] && s.byGrant == map["g" := ["a", "b"]]
      && s.log == [Authorized(0), Registered(0), Authorized(1), Registered(1)]
  {
    var events := [] + [Authorize("a", "g", false, false, false)] + [Begin(0)];
    var b := Authorize("b", "g", false, false, false);
    FirstRuns();
    RunLast(START, events, b);
    RunLast(START, events + [b], Begin(1));
    var before := Run(START, events + [b]);
    assert before.calls[1] == Call("b", "g", false, false, false, false);
    assert Begins(before, 1) && OperationOf(before, 1) == SECOND;
    assert ["a"] + ["b"] == ["a", "b"];
  }

  lemma MissedRevocationRuns()
    ensures var s := Run(START, MISSED_REVOCATION);
      && DistinctIds(START, MISSED_REVOCATION)
      && s.ops == [FIRST.(revoked := Some(User)), SECOND] && s.inFlight == map["a" := 0, "b" := 1]
      && s.log == [Authorized(0), Registered(0), Authorized(1), Registered(1), GrantRevoked("g", User, LOUD)]
  {
    TwoRun();
    RunLast(START, TWO_IN_FLIGHT, Revoke("g", User, LOUD));
    var before := Run(START, TWO_IN_FLIGHT);
    assert Attempted(["a", "b"], before.inFlight.Keys, LOUD) == ["a"];
    assert Reached(before, "g", LOUD, 0) && !Reached(before, "g", LOUD, 1);
  }

  /** The response is handed out although the grant was revoked after the permission check. */
  lemma EarlyRevocationIsNotSeen(value: string)
    ensures var s := Run(START, EARLY_REVOCATION);
      && DistinctIds(START, EARLY_REVOCATION)
      && s.ops == [FIRST]
      && s.log == [Authorized(0), GrantRevoked("g", User, CALM), Registered(0)]
      && Handed(0, value) in Step(s, TransportSettles(0, Item(value), Consumed, true)).log
  {
    EarlyRevocationRuns();
  }

  /** The second response is handed out although the grant was revoked in flight, because a listener threw at the
      first request. */
  lemma MissedRevocationIsNotSeen(value: string)
    ensures var s := Run(START, MISSED_REVOCATION);
      && DistinctIds(START, MISSED_REVOCATION)
      && s.ops == [FIRST.(revoked := Some(User)), SECOND]
      && s.log == [Authorized(0), Registered(0), Authorized(1), Registered(1), GrantRevoked("g", User, LOUD)]
      && Handed(1, value) in Step(s, TransportSettles(1, Item(value), Consumed, true)).log
  {
    MissedRevocationRuns();
  }

  /** Every operation was authorised before it was registered. */
  ghost predicate AuthorizedFirst(s: State) {
    && (forall c :: 0 <= c < |s.calls| ==> Authorized(c) in s.log)
    && (forall e :: e in s.log && e.Registered? ==> e.op < |s.ops|)
    && (forall i :: 0 <= i < |s.log| && s.log[i].Registered? && s.log[i].op < |s.ops| ==>
          Authorized(s.ops[s.log[i].op].call) in s.log[..i])
  }

  lemma AuthorizedExtends(s: State, t: State, suffix: seq<Entry>)
    requires AuthorizedFirst(s) && t.log == s.log + suffix
    requires |s.ops| <= |t.ops| && forall k :: 0 <= k < |s.ops| ==> t.ops[k].call == s.ops[k].call
    requires forall c :: 0 <= c < |t.calls| ==> c < |s.calls| || Authorized(c) in suffix
    requires forall e :: e in suffix && e.Registered? ==> e.op < |t.ops| && Authorized(t.ops[e.op].call) in s.log
    ensures AuthorizedFirst(t)
  {
    forall i | 0 <= i < |t.log| && t.log[i].Registered? && t.log[i].op < |t.ops|
      ensures Authorized(t.ops[t.log[i].op].call) in t.log[..i]
    {
      if i < |s.log| {
        assert t.log[i] == s.log[i] && s.log[i] in s.log && t.log[..i] == s.log[..i];
      } else {
        assert t.log[i] == suffix[i - |s.log|];
        assert t.log[..i][..|s.log|] == s.log;
        assert forall e :: e in s.log ==> e in t.log[..i];
      }
    }
  }

  lemma BeginIsAuthorized(s: State, c: nat)
    requires AuthorizedFirst(s) && Begins(s, c)
    ensures AuthorizedFirst(Step(s, Begin(c)))
  {
    AuthorizedExtends(s, Step(s, Begin(c)), [Registered(|s.ops|)]);
  }

  /** A step of operation `k`: it logs no registration, and only that operation's phase may change. */
  ghost predicate Touches(s: State, t: State, k: nat) {
    && |t.ops| == |s.ops| && t.calls == s.calls
    && (forall j :: 0 <= j < |s.ops| ==> t.ops[j].call == s.ops[j].call)
    && (forall j :: 0 <= j < |s.ops| && j != k ==> t.ops[j].phase == s.ops[j].phase)
    && |s.log| <= |t.log| && t.log[..|s.log|] == s.log
    && (forall x :: x in t.log[|s.log|..] ==> !x.Registered?)
  }

  lemma TouchesThenTouches(s: State, t: State, u: State, k: nat)
    requires Touches(s, t, k) && Touches(t, u, k)
    ensures Touches(s, u, k)
  {
    assert u.log[..|s.log|] == u.log[..|t.log|][..|s.log|];
    assert u.log[|s.log|..] == t.log[|s.log|..] + u.log[|t.log|..];
  }

  lemma FinishTouches(s: State, k: nat, outcome: Outcome)
    requires k < |s.ops|
    ensures Touches(s, Finish(s, k, outcome), k) && Finish(s, k, outcome).ops[k].phase == Done(outcome)
  {
    assert s.log[|s.log|..] == [];
  }

  lemma MoveTouches(s: State, k: nat, phase: Phase)
    requires k < |s.ops|
    ensures Touches(s, SetPhase(s, k, phase), k) && SetPhase(s, k, phase).ops[k].phase == phase
  {
    assert s.log[|s.log|..] == [];
  }

  lemma HandTouches(s: State, k: nat, value: string, phase: Phase)
    requires k < |s.ops|
    ensures Touches(s, Hand(s, k, value, phase), k) && Hand(s, k, value, phase).ops[k].phase == phase
  {
    assert (s.log + [Handed(k, value)])[|s.log|..] == [Handed(k, value)];
  }

  lemma MarkTouches(s: State, grantId: string, reason: Reason, fails: Listeners, k: nat)
    ensures var t := Marked(s, grantId, reason, fails);
      Touches(s, t, k) && forall j :: 0 <= j < |s.ops| ==> t.ops[j].phase == s.ops[j].phase
  {
    var e := GrantRevoked(grantId, reason, fails);
    assert (s.log + [e])[|s.log|..] == [e];
  }

  lemma CloseTouches(s: State, k: nat, outcome: Outcome)
    requires k < |s.ops|
    ensures var t := CloseSource(s, k, outcome);
      Touches(s, t, k) && t.ops[k].phase == if s.ops[k].closes then Closing(outcome) else Done(outcome)
  {
    if s.ops[k].closes { MoveTouches(s, k, Closing(outcome)); } else { FinishTouches(s, k, outcome); }
  }

  /** The transport's stream comes through, but no iterator can be got from it. */
  predicate LosesIterator(op: Operation, settled: Settled, consumption: Consumption, iterates: bool) {
    op.stream && settled.Item? && op.revoked == None && (op.oneTime ==> consumption.Consumed?) && !iterates
  }

  lemma TransportTouches(s: State, k: nat, settled: Settled, consumption: Consumption, iterates: bool)
    requires k < |s.ops| && s.ops[k].phase == InTransport
    ensures var t := StepTransport(s, k, settled, consumption, iterates);
      && Touches(s, t, k)
      && (t.ops[k].phase == Abandoned <==> LosesIterator(s.ops[k], settled, consumption, iterates))
      && t.ops[k].phase in {Fresh, Abandoned, Done(Returned), Done(RevokedError), Done(Failed)}
      && (settled == Rejected ==> t.ops[k].phase.Done?)
  {
    if settled.Item? && s.ops[k].revoked == None && (s.ops[k].oneTime ==> consumption == Consumed) {
      if s.ops[k].stream {
        MoveTouches(s, k, if iterates then Fresh else Abandoned);
      } else {
        var t := Hand(s, k, settled.value, InTransport);
        HandTouches(s, k, settled.value, InTransport);
        FinishTouches(t, k, Returned);
        TouchesThenTouches(s, t, Finish(t, k, Returned), k);
      }
    } else if settled.Item? && s.ops[k].revoked == None && consumption.FoundExpired? {
      var t := Marked(s, s.ops[k].grantId, Expired, consumption.fails);
      MarkTouches(s, s.ops[k].grantId, Expired, consumption.fails, k);
      FinishTouches(t, k, Caught(t, k));
      TouchesThenTouches(s, t, Finish(t, k, Caught(t, k)), k);
    } else {
      FinishTouches(s, k, Caught(s, k));
    }
  }

  lemma PullTouches(s: State, k: nat)
    requires k < |s.ops|
    ensures var t := StepPull(s, k);
      Touches(s, t, k) && (t.ops[k].phase == Reading || t.ops[k].phase.Closing? || t.ops[k].phase.Done?)
  {
    if s.ops[k].revoked.Some? { CloseTouches(s, k, RevokedError); } else { MoveTouches(s, k, Reading); }
  }

  lemma SourceTouches(s: State, k: nat, settled: Settled)
    requires k < |s.ops|
    ensures var t := StepSource(s, k, settled);
      Touches(s, t, k) && (t.ops[k].phase == AtYield || t.ops[k].phase.Closing? || t.ops[k].phase.Done?)
      && (settled == Ended ==> t.ops[k].phase != AtYield)
  {
    if settled.Item? && s.ops[k].revoked == None {
      HandTouches(s, k, settled.value, AtYield);
    } else {
      CloseTouches(s, k, if settled.Ended? then Returned else Caught(s, k));
    }
  }

  lemma ReturnTouches(s: State, k: nat, ok: bool)
    requires k < |s.ops| && s.ops[k].phase.Closing?
    ensures var t := StepReturn(s, k, ok);
      Touches(s, t, k) && if ok then t.ops[k].phase.Done? else t.ops[k].phase == Abandoned
  {
    if ok { FinishTouches(s, k, s.ops[k].phase.after); } else { MoveTouches(s, k, Abandoned); }
  }

  lemma StreamCloseTouches(s: State, k: nat)
    requires k < |s.ops|
    ensures var t := StepClose(s, k);
      Touches(s, t, k)
      && if s.ops[k].phase == Fresh then t.ops[k].phase == Abandoned
         else t.ops[k].phase.Closing? || t.ops[k].phase.Done?
  {
    if s.ops[k].phase == Fresh { MoveTouches(s, k, Abandoned); } else { CloseTouches(s, k, Returned); }
  }

  /** The phases an event can find its operation in, and leave it in. */
  ghost predicate Moves(e: Event, k: nat, op: Operation, after: Phase) {
    match e
    case TransportSettles(j, settled, consumption, iterates) =>
      j == k && op.phase == InTransport && (after in {Fresh, Abandoned} || after.Done?)
      && (after == Abandoned <==> LosesIterator(op, settled, consumption, iterates))
      && (settled == Rejected ==> after.Done?)
    case Pull(j) => j == k && op.phase in {Fresh, AtYield} && (after == Reading || after.Closing? || after.Done?)
    case Close(j) =>
      j == k && op.phase in {Fresh, AtYield}
      && if op.phase == Fresh then after == Abandoned else after.Closing? || after.Done?
    case SourceSettles(j, settled) =>
      j == k && op.phase == Reading && (after == AtYield || after.Closing? || after.Done?)
      && (settled == Ended ==> after != AtYield)
    case ReturnSettles(j, ok) => j == k && op.phase.Closing? && if ok then after.Done? else after == Abandoned
    case _ => false
  }

  lemma SelfTouches(s: State, k: nat)
    ensures Touches(s, s, k)
  {
    assert s.log[|s.log|..] == [];
  }

  /** The operation an event is about; a revocation changes no phase, so any will do. */
  function Subject(e: Event, k: nat): nat {
    match e
    case TransportSettles(j, _, _, _) => j
    case Pull(j) => j
    case Close(j) => j
    case SourceSettles(j, _) => j
    case ReturnSettles(j, _) => j
    case _ => k
  }

  /** A step that is neither an authorisation nor a registration is one of a single operation. */
  lemma StepTouches(s: State, e: Event, k: nat)
    requires !e.Authorize? && !e.Begin?
    ensures Touches(s, Step(s, e), Subject(e, k))
    ensures k < |s.ops| ==> var t := Step(s, e);
      k < |t.ops| && (t.ops[k].phase == s.ops[k].phase || Moves(e, k, s.ops[k], t.ops[k].phase))
  {
    SelfTouches(s, Subject(e, k));
    match e {
      case TransportSettles(j, settled, consumption, iterates) =>
        if j < |s.ops| && s.ops[j].phase == InTransport { TransportTouches(s, j, settled, consumption, iterates); }
      case Pull(j) => if j < |s.ops| && s.ops[j].phase in {Fresh, AtYield} { PullTouches(s, j); }
      case Close(j) => if j < |s.ops| && s.ops[j].phase in {Fresh, AtYield} { StreamCloseTouches(s, j); }
      case SourceSettles(j, settled) => if j < |s.ops| && s.ops[j].phase == Reading { SourceTouches(s, j, settled); }
      case ReturnSettles(j, ok) => if j < |s.ops| && s.ops[j].phase.Closing? { ReturnTouches(s, j, ok); }
      case Revoke(grant, reason, fails) => MarkTouches(s, grant, reason, fails, k);
    }
  }

  lemma AuthorizeIsLogged(s: State, e: Event)
    requires AuthorizedFirst(s) && e.Authorize?
    ensures AuthorizedFirst(Step(s, e))
  {
    AuthorizedExtends(s, Step(s, e), [Authorized(|s.calls|)]);
  }

  lemma StepKeepsAuthorized(s: State, e: Event)
    requires AuthorizedFirst(s)
    ensures AuthorizedFirst(Step(s, e))
  {
    if e.Begin? {
      if Begins(s, e.call) { BeginIsAuthorized(s, e.call); }
    } else if e.Authorize? {
      AuthorizeIsLogged(s, e);
    } else {
      OtherKeepsAuthorized(s, e);
    }
  }

  lemma OtherKeepsAuthorized(s: State, e: Event)
    requires AuthorizedFirst(s) && !e.Authorize? && !e.Begin?
    ensures AuthorizedFirst(Step(s, e))
  {
    StepTouches(s, e, 0);
    TouchedIsAuthorized(s, Step(s, e), Subject(e, 0));
  }

  lemma TouchedIsAuthorized(s: State, t: State, k: nat)
    requires AuthorizedFirst(s) && Touches(s, t, k)
    ensures AuthorizedFirst(t)
  {
    assert t.log == s.log + t.log[|s.log|..];
    AuthorizedExtends(s, t, t.log[|s.log|..]);
  }

  lemma {:induction false} RunKeepsAuthorized(s: State, events: seq<Event>)
    requires AuthorizedFirst(s)
    ensures AuthorizedFirst(Run(s, events))
    decreases |events|
  {
    if events != [] {
      StepKeepsAuthorized(s, events[0]);
      RunKeepsAuthorized(Step(s, events[0]), events[1..]);
    }
  }

  /** Main result: in every run each operation was authorised before it was registered; so of the revocations after
      its authorisation, exactly those before its registration are not seen. */
  lemma OperationsAreAuthorizedFirst(events: seq<Event>, i: nat)
    requires var s := Run(START, events); i < |s.log| && s.log[i].Registered?
    ensures var s := Run(START, events);
      s.log[i].op < |s.ops| && exists h :: 0 <= h < i && s.log[h] == Authorized(s.ops[s.log[i].op].call)
  {
    RunKeepsAuthorized(START, events);
    var s := Run(START, events);
    assert s.log[i] in s.log;
    var h :| 0 <= h < i && s.log[..i][h] == Authorized(s.ops[s.log[i].op].call);
    assert s.log[h] == Authorized(s.ops[s.log[i].op].call);
  }

  // ----- what each event means ------------------------------------------------

  /** Where a stream goes whose source is to be closed. */
  function Closed(op: Operation, after: Outcome): Phase { if op.closes then Closing(after) else Done(after) }

  /** Where an operation stands after an event about it; `marked` tells whether it is revoked then. */
  function After(op: Operation, e: Event, marked: bool): Phase {
    match e
    case TransportSettles(_, settled, consumption, iterates) =>
      if op.phase != InTransport then op.phase
      else if op.revoked.Some? then Done(RevokedError)
      else if !settled.Item? || (op.oneTime && consumption == NotConsumable) then Done(Failed)
      else if op.oneTime && consumption.FoundExpired? then Done(if marked then RevokedError else Failed)
      else if !op.stream then Done(Returned)
      else if iterates then Fresh
      else Abandoned
    case Pull(_) =>
      if op.phase !in {Fresh, AtYield} then op.phase
      else if op.revoked.Some? then Closed(op, RevokedError)
      else Reading
    case Close(_) =>
      if op.phase == Fresh then Abandoned else if op.phase == AtYield then Closed(op, Returned) else op.phase
    case SourceSettles(_, settled) =>
      if op.phase != Reading then op.phase
      else if settled == Ended then Closed(op, Returned)
      else if op.revoked.Some? then Closed(op, RevokedError)
      else if settled == Rejected then Closed(op, Failed)
      else AtYield
    case ReturnSettles(_, ok) =>
      if !op.phase.Closing? then op.phase else if ok then Done(op.phase.after) else Abandoned
    case _ => op.phase
  }

  /** What an event about an operation hands out for it. */
  function HandedBy(op: Operation, e: Event): seq<string> {
    match e
    case TransportSettles(_, Item(value), consumption, _) =>
      if op.phase == InTransport && op.revoked == None && !op.stream && (op.oneTime ==> consumption == Consumed)
      then [value] else []
    case SourceSettles(_, Item(value)) => if op.phase == Reading && op.revoked == None then [value] else []
    case _ => []
  }

  /** The expiry of a one-time grant that is found when its only use is due. */
  predicate FindsExpired(op: Operation, e: Event) {
    e.TransportSettles? && op.phase == InTransport && op.revoked == None && e.settled.Item? && op.oneTime
    && e.consumption.FoundExpired?
  }

  /** What an event about operation `k` is logged as. */
  function Logged(k: nat, op: Operation, e: Event, after: Phase): seq<Entry> {
    (if FindsExpired(op, e) then [GrantRevoked(op.grantId, Expired, e.consumption.fails)] else [])
    + ((if HandedBy(op, e) != [] then [Handed(k, HandedBy(op, e)[0])] else [])
       + (if after.Done? && !op.phase.Done? then [Finalized(k)] else []))
  }

  predicate IsAbout(e: Event, k: nat) {
    match e
    case TransportSettles(j, _, _, _) => j == k
    case Pull(j) => j == k
    case Close(j) => j == k
    case SourceSettles(j, _) => j == k
    case ReturnSettles(j, _) => j == k
    case _ => false
  }

  /** An event about an operation moves it, and logs what it hands out and that it is finalised. */
  ghost predicate Serves(s: State, e: Event, k: nat, t: State)
    requires k < |s.ops|
  {
    && t.calls == s.calls && |t.ops| == |s.ops|
    && t.ops[k].phase == After(s.ops[k], e, t.ops[k].revoked.Some?)
    && t.log == s.log + Logged(k, s.ops[k], e, t.ops[k].phase)
    && (forall j :: 0 <= j < |s.ops| ==> SameOperation(t.ops[j], s.ops[j]))
    && (forall j :: 0 <= j < |s.ops| && j != k ==> t.ops[j].phase == s.ops[j].phase)
    && (forall j :: 0 <= j < |s.ops| ==>
          t.ops[j].revoked == if FindsExpired(s.ops[k], e) && ExpiryReaches(s, s.ops[k], e, j) then Some(Expired)
                              else s.ops[j].revoked)
  }

  ghost predicate ExpiryReaches(s: State, op: Operation, e: Event, j: nat)
    requires j < |s.ops| && FindsExpired(op, e)
  {
    Live(s.log, j) && Revokes(GrantRevoked(op.grantId, Expired, e.consumption.fails), s.log, s.ops, j)
  }

  lemma StaysServes(s: State, e: Event, k: nat)
    requires k < |s.ops| && After(s.ops[k], e, s.ops[k].revoked.Some?) == s.ops[k].phase
    requires HandedBy(s.ops[k], e) == [] && !FindsExpired(s.ops[k], e)
    ensures Serves(s, e, k, s)
  {
    assert s.log + ([] + ([] + [])) == s.log;
  }

  lemma MoveServes(s: State, e: Event, k: nat, phase: Phase)
    requires k < |s.ops| && !phase.Done? && After(s.ops[k], e, s.ops[k].revoked.Some?) == phase
    requires HandedBy(s.ops[k], e) == [] && !FindsExpired(s.ops[k], e)
    ensures Serves(s, e, k, SetPhase(s, k, phase))
  {
    assert s.log + ([] + ([] + [])) == s.log;
  }

  lemma FinishServes(s: State, e: Event, k: nat, outcome: Outcome)
    requires TableFits(s) && k < |s.ops| && InTable(s, k) && !s.ops[k].phase.Done?
    requires After(s.ops[k], e, s.ops[k].revoked.Some?) == Done(outcome)
    requires HandedBy(s.ops[k], e) == [] && !FindsExpired(s.ops[k], e)
    ensures Serves(s, e, k, Finish(s, k, outcome))
  {
    assert [] + ([] + [Finalized(k)]) == [Finalized(k)];
  }

  lemma CloseServes(s: State, e: Event, k: nat, outcome: Outcome)
    requires TableFits(s) && k < |s.ops| && InTable(s, k) && !s.ops[k].phase.Done?
    requires After(s.ops[k], e, s.ops[k].revoked.Some?) == Closed(s.ops[k], outcome)
    requires HandedBy(s.ops[k], e) == [] && !FindsExpired(s.ops[k], e)
    ensures Serves(s, e, k, CloseSource(s, k, outcome))
  {
    if s.ops[k].closes { MoveServes(s, e, k, Closing(outcome)); } else { FinishServes(s, e, k, outcome); }
  }

  lemma TransportServes(s: State, e: Event, k: nat)
    requires Core(s) && k < |s.ops| && InTable(s, k) && e.TransportSettles? && s.ops[k].phase == InTransport
    ensures Serves(s, e, k, StepTransport(s, k, e.settled, e.consumption, e.iterates))
  {
    var op := s.ops[k];
    if FindsExpired(op, e) {
      ExpiryServes(s, e, k);
    } else if HandedBy(op, e) != [] {
      assert [] + ([Handed(k, e.settled.value)] + [Finalized(k)]) == [Handed(k, e.settled.value)] + [Finalized(k)];
      Associate(s.log, [Handed(k, e.settled.value)], [Finalized(k)]);
    } else if After(op, e, op.revoked.Some?).Done? {
      FinishServes(s, e, k, Caught(s, k));
    } else {
      MoveServes(s, e, k, if e.iterates then Fresh else Abandoned);
    }
  }

  /** The state after the revocation that an expiry is found by. */
  ghost predicate MarksExpired(s: State, e: Event, k: nat, t: State)
    requires k < |s.ops| && FindsExpired(s.ops[k], e)
  {
    && t.calls == s.calls && |t.ops| == |s.ops| && t.inFlight == s.inFlight
    && t.log == s.log + [GrantRevoked(s.ops[k].grantId, Expired, e.consumption.fails)]
    && forall j :: 0 <= j < |s.ops| ==>
         t.ops[j] == s.ops[j].(revoked := if ExpiryReaches(s, s.ops[k], e, j) then Some(Expired) else s.ops[j].revoked)
  }

  lemma ExpiryMarks(s: State, e: Event, k: nat)
    requires Core(s) && k < |s.ops| && FindsExpired(s.ops[k], e)
    ensures MarksExpired(s, e, k, Marked(s, s.ops[k].grantId, Expired, e.consumption.fails))
  {
    forall j | 0 <= j < |s.ops|
      ensures Reached(s, s.ops[k].grantId, e.consumption.fails, j) <==> ExpiryReaches(s, s.ops[k], e, j)
    {
      MarkReaches(s, s.ops[k].grantId, Expired, e.consumption.fails, j);
    }
  }

  lemma MarkedServes(s: State, e: Event, k: nat, t: State)
    requires k < |s.ops| && InTable(s, k) && FindsExpired(s.ops[k], e) && MarksExpired(s, e, k, t)
    ensures Serves(s, e, k, Finish(t, k, Caught(t, k)))
  {
    var revoked := GrantRevoked(s.ops[k].grantId, Expired, e.consumption.fails);
    assert [revoked] + ([] + [Finalized(k)]) == [revoked] + [Finalized(k)];
    Associate(s.log, [revoked], [Finalized(k)]);
  }

  lemma ExpiryServes(s: State, e: Event, k: nat)
    requires Core(s) && k < |s.ops| && InTable(s, k) && FindsExpired(s.ops[k], e)
    ensures Serves(s, e, k, StepTransport(s, k, e.settled, e.consumption, e.iterates))
  {
    ExpiryMarks(s, e, k);
    MarkedServes(s, e, k, Marked(s, s.ops[k].grantId, Expired, e.consumption.fails));
  }

  lemma SourceServes(s: State, e: Event, k: nat)
    requires TableFits(s) && k < |s.ops| && InTable(s, k) && e.SourceSettles? && s.ops[k].phase == Reading
    ensures Serves(s, e, k, StepSource(s, k, e.settled))
  {
    if HandedBy(s.ops[k], e) != [] {
      assert [] + ([Handed(k, e.settled.value)] + []) == [Handed(k, e.settled.value)];
    } else {
      CloseServes(s, e, k, if e.settled.Ended? then Returned else Caught(s, k));
    }
  }

  lemma EventServes(s: State, e: Event, k: nat)
    requires Inv(s) && k < |s.ops| && IsAbout(e, k)
    ensures Serves(s, e, k, Step(s, e))
  {
    var op := s.ops[k];
    match e {
      case TransportSettles(_, _, _, _) =>
        if op.phase == InTransport { TransportServes(s, e, k); } else { StaysServes(s, e, k); }
      case Pull(_) =>
        if op.phase !in {Fresh, AtYield} { StaysServes(s, e, k); }
        else if op.revoked.Some? { CloseServes(s, e, k, RevokedError); }
        else { MoveServes(s, e, k, Reading); }
      case Close(_) =>
        if op.phase == Fresh { MoveServes(s, e, k, Abandoned); }
        else if op.phase == AtYield { CloseServes(s, e, k, Returned); }
        else { StaysServes(s, e, k); }
      case SourceSettles(_, _) =>
        if op.phase == Reading { SourceServes(s, e, k); } else { StaysServes(s, e, k); }
      case ReturnSettles(_, ok) =>
        if !op.phase.Closing? { StaysServes(s, e, k); }
        else if ok { FinishServes(s, e, k, op.phase.after); }
        else { MoveServes(s, e, k, Abandoned); }
    }
  }

  /** Main result: after any run, an event about an operation hands out what arrives unless the operation is revoked,
      moves it on, and logs what was handed out and that it was finalised. */
  lemma OperationsAreServed(events: seq<Event>, e: Event, k: nat)
    requires DistinctIds(START, events) && k < |Run(START, events).ops| && IsAbout(e, k)
    ensures Serves(Run(START, events), e, k, Step(Run(START, events), e))
  {
    RunKeepsInv(START, events);
    EventServes(Run(START, events), e, k);
  }

  /** Main result: an authorised call begins once, as an operation of its own fields; a revocation is logged, and marks
      those it reaches with its reason. */
  lemma CallsAndRevocations(s: State, e: Event)
    requires Inv(s)
    ensures var t := Step(s, e);
      match e
      case Authorize(id, grant, oneTime, stream, closes) =>
        t.calls == s.calls + [Call(id, grant, oneTime, stream, closes, false)] && t.ops == s.ops
        && t.log == s.log + [Authorized(|s.calls|)]
      case Begin(c) =>
        if c < |s.calls| && !s.calls[c].begun then
          var call := s.calls[c];
          && t.calls == s.calls[c := call.(begun := true)]
          && t.ops == s.ops + [Operation(c, call.requestId, call.grantId, call.oneTime, call.stream, call.closes,
                                         None, InTransport)]
          && t.log == s.log + [Registered(|s.ops|)]
        else t == s
      case Revoke(grant, reason, fails) =>
        && t.calls == s.calls && |t.ops| == |s.ops| && t.log == s.log + [GrantRevoked(grant, reason, fails)]
        && forall k :: 0 <= k < |s.ops| ==>
             t.ops[k] == if Live(s.log, k) && Revokes(GrantRevoked(grant, reason, fails), s.log, s.ops, k)
                         then s.ops[k].(revoked := Some(reason)) else s.ops[k]
      case _ => true
  {
    if e.Revoke? {
      forall k | 0 <= k < |s.ops| ensures Reached(s, e.grantId, e.fails, k) <==>
        Live(s.log, k) && Revokes(GrantRevoked(e.grantId, e.reason, e.fails), s.log, s.ops, k)
      {
        MarkReaches(s, e.grantId, e.reason, e.fails, k);
      }
    }
  }

  // ----- why an operation is marked -----------------------------------------

  /** The reason of the last revocation that reached the operation in flight, going by the log alone. */
  ghost function LastReason(log: seq<Entry>, ops: seq<Operation>, k: nat): Option<Reason>
    requires k < |ops|
    decreases |log|
  {
    if log == [] then None
    else
      var e, before := log[|log| - 1], log[..|log| - 1];
      if Revokes(e, before, ops, k) && Live(before, k) then Some(e.reason) else LastReason(before, ops, k)
  }

  lemma ReasonAppend(log: seq<Entry>, e: Entry, ops: seq<Operation>, k: nat)
    requires k < |ops|
    ensures LastReason(log + [e], ops, k) ==
      if Revokes(e, log, ops, k) && Live(log, k) then Some(e.reason) else LastReason(log, ops, k)
  {
    assert (log + [e])[..|log|] == log;
  }

  lemma {:induction false} ReasonAppendAll(log: seq<Entry>, more: seq<Entry>, ops: seq<Operation>, k: nat)
    requires k < |ops| && forall x :: x in more ==> !x.GrantRevoked?
    ensures LastReason(log + more, ops, k) == LastReason(log, ops, k)
    decreases |more|
  {
    if more == [] {
      WithEmpty(log);
    } else {
      var front, last := more[..|more| - 1], more[|more| - 1];
      ReasonAppendAll(log, front, ops, k);
      assert log + more == (log + front) + [last];
      ReasonAppend(log + front, last, ops, k);
    }
  }

  lemma {:induction false} ReasonSame(log: seq<Entry>, a: seq<Operation>, b: seq<Operation>, k: nat)
    requires k < |a| && SameOperations(a, b)
    ensures LastReason(log, a, k) == LastReason(log, b, k)
    decreases |log|
  {
    if log != [] {
      RevokesSame(log[|log| - 1], log[..|log| - 1], a, b, k);
      ReasonSame(log[..|log| - 1], a, b, k);
    }
  }

  lemma {:induction false} NoReasonBefore(log: seq<Entry>, ops: seq<Operation>, k: nat)
    requires k < |ops| && Registered(k) !in log
    ensures LastReason(log, ops, k) == None
    decreases |log|
  {
    if log != [] {
      assert forall x :: x in log[..|log| - 1] ==> x in log;
      NoReasonBefore(log[..|log| - 1], ops, k);
    }
  }

  ghost predicate ReasonsFit(s: State) {
    forall k :: 0 <= k < |s.ops| ==> s.ops[k].revoked == LastReason(s.log, s.ops, k)
  }

  lemma ServedReason(s: State, e: Event, k: nat, t: State, j: nat)
    requires k < |s.ops| && Serves(s, e, k, t) && ReasonsFit(s) && j < |s.ops|
    ensures t.ops[j].revoked == LastReason(t.log, t.ops, j)
  {
    var op := s.ops[k];
    var rest := (if HandedBy(op, e) != [] then [Handed(k, HandedBy(op, e)[0])] else [])
                + (if t.ops[k].phase.Done? && !op.phase.Done? then [Finalized(k)] else []);
    ReasonSame(t.log, s.ops, t.ops, j);
    if FindsExpired(op, e) {
      var revoked := GrantRevoked(op.grantId, Expired, e.consumption.fails);
      Associate(s.log, [revoked], rest);
      ReasonAppendAll(s.log + [revoked], rest, s.ops, j);
      ReasonAppend(s.log, revoked, s.ops, j);
    } else {
      WithEmpty(rest);
      ReasonAppendAll(s.log, rest, s.ops, j);
    }
  }

  lemma StepKeepsReasons(s: State, e: Event)
    requires Inv(s) && ReasonsFit(s)
    ensures ReasonsFit(Step(s, e))
  {
    var t := Step(s, e);
    CallsAndRevocations(s, e);
    forall j | 0 <= j < |t.ops| ensures t.ops[j].revoked == LastReason(t.log, t.ops, j) {
      if e.Authorize? || e.Begin? || e.Revoke? {
        CallsKeepReason(s, e, j);
      } else {
        var k := Subject(e, 0);
        if k < |s.ops| {
          EventServes(s, e, k);
          ServedReason(s, e, k, t, j);
        }
      }
    }
  }

  lemma LoggedReason(s: State, t: State, x: Entry, j: nat)
    requires ReasonsFit(s) && j < |s.ops| && SameOperations(s.ops, t.ops) && t.log == s.log + [x]
    requires t.ops[j].revoked == if Revokes(x, s.log, s.ops, j) && Live(s.log, j) then Some(x.reason)
                                 else s.ops[j].revoked
    ensures t.ops[j].revoked == LastReason(t.log, t.ops, j)
  {
    ReasonAppend(s.log, x, t.ops, j);
    ReasonSame(s.log, s.ops, t.ops, j);
    RevokesSame(x, s.log, s.ops, t.ops, j);
  }

  lemma NewHasNoReason(s: State, t: State, j: nat)
    requires LogFits(s) && j == |s.ops| < |t.ops| && t.log == s.log + [Registered(j)]
    ensures LastReason(t.log, t.ops, j) == None
  {
    ReasonAppend(s.log, Registered(j), t.ops, j);
    forall y | y in s.log ensures y != Registered(j) { assert NamesOperation(y) ==> y.op < |s.ops|; }
    NoReasonBefore(s.log, t.ops, j);
  }

  lemma CallsKeepReason(s: State, e: Event, j: nat)
    requires Inv(s) && ReasonsFit(s) && (e.Authorize? || e.Begin? || e.Revoke?) && j < |Step(s, e).ops|
    ensures Step(s, e).ops[j].revoked == LastReason(Step(s, e).log, Step(s, e).ops, j)
  {
    var t := Step(s, e);
    CallsAndRevocations(s, e);
    if j == |s.ops| {
      NewHasNoReason(s, t, j);
    } else if t.log != s.log {
      LoggedReason(s, t, t.log[|s.log|], j);
    }
  }

  lemma {:induction false} RunKeepsReasons(s: State, events: seq<Event>)
    requires Inv(s) && ReasonsFit(s) && DistinctIds(s, events)
    ensures ReasonsFit(Run(s, events))
    decreases |events|
  {
    if events != [] {
      StepKeepsInv(s, events[0]);
      StepKeepsReasons(s, events[0]);
      RunKeepsReasons(Step(s, events[0]), events[1..]);
    }
  }

  /** Main result: an operation's mark is the reason of the last revocation of its grant that reached it in flight. */
  lemma MarkIsTheLastReason(events: seq<Event>, k: nat)
    requires DistinctIds(START, events) && k < |Run(START, events).ops|
    ensures var s := Run(START, events); s.ops[k].revoked == LastReason(s.log, s.ops, k)
  {
    RunKeepsReasons(START, events);
  }

  // ----- every request is listed once ---------------------------------------

  predicate NoneTwice(ids: seq<string>) { forall i, j :: 0 <= i < j < |ids| ==> ids[i] != ids[j] }

  ghost predicate ListedOnce(byGrant: map<string, seq<string>>) {
    forall g :: g in byGrant ==> NoneTwice(byGrant[g]) && byGrant[g] != []
  }

  lemma {:induction false} WithoutKeepsOnce(ids: seq<string>, id: string)
    requires NoneTwice(ids)
    ensures NoneTwice(Without(ids, id))
  {
    if ids != [] {
      var rest := Without(ids[1..], id);
      WithoutKeepsOnce(ids[1..], id);
      forall j | 0 <= j < |rest| ensures rest[j] != ids[0] {
        assert rest[j] in rest;
        var i :| 0 <= i < |ids[1..]| && ids[1..][i] == rest[j];
        assert ids[i + 1] == rest[j];
      }
    }
  }

  lemma AddedListsOnce(byGrant: map<string, seq<string>>, g: string, id: string)
    requires ListedOnce(byGrant)
    ensures ListedOnce(Added(byGrant, g, id))
  {
  }

  lemma RemovedListsOnce(byGrant: map<string, seq<string>>, g: string, id: string)
    requires ListedOnce(byGrant)
    ensures ListedOnce(Removed(byGrant, g, id))
  {
    if g in byGrant { WithoutKeepsOnce(byGrant[g], id); }
  }

  lemma FinalizeListsOnce(s: State, id: string)
    requires ListedOnce(s.byGrant)
    ensures ListedOnce(Finalize(s, id).byGrant)
  {
    if id in s.inFlight && s.inFlight[id] < |s.ops| { RemovedListsOnce(s.byGrant, s.ops[s.inFlight[id]].grantId, id); }
  }

  lemma FinishListsOnce(s: State, k: nat, outcome: Outcome)
    requires k < |s.ops| && ListedOnce(s.byGrant)
    ensures ListedOnce(Finish(s, k, outcome).byGrant) && ListedOnce(CloseSource(s, k, outcome).byGrant)
  {
    FinalizeListsOnce(s, s.ops[k].requestId);
  }

  lemma TransportListsOnce(s: State, k: nat, settled: Settled, consumption: Consumption, iterates: bool)
    requires k < |s.ops| && s.ops[k].phase == InTransport && ListedOnce(s.byGrant)
    ensures ListedOnce(StepTransport(s, k, settled, consumption, iterates).byGrant)
  {
    if !settled.Item? || s.ops[k].revoked.Some? {
      FinishListsOnce(s, k, Caught(s, k));
    } else if s.ops[k].oneTime && consumption.FoundExpired? {
      var t := Marked(s, s.ops[k].grantId, Expired, consumption.fails);
      FinishListsOnce(t, k, Caught(t, k));
    } else if s.ops[k].oneTime && consumption.NotConsumable? {
      FinishListsOnce(s, k, Failed);
    } else {
      FinishListsOnce(Hand(s, k, settled.value, InTransport), k, Returned);
    }
  }

  lemma StepListsOnce(s: State, e: Event)
    requires ListedOnce(s.byGrant)
    ensures ListedOnce(Step(s, e).byGrant)
  {
    match e {
      case Begin(c) =>
        if Begins(s, c) { AddedListsOnce(s.byGrant, s.calls[c].grantId, s.calls[c].requestId); }
      case TransportSettles(k, settled, consumption, iterates) =>
        if k < |s.ops| && s.ops[k].phase == InTransport {
          TransportListsOnce(s, k, settled, consumption, iterates);
        }
      case Pull(k) => if k < |s.ops| { FinishListsOnce(s, k, RevokedError); }
      case Close(k) => if k < |s.ops| { FinishListsOnce(s, k, Returned); }
      case SourceSettles(k, settled) =>
        if k < |s.ops| { FinishListsOnce(s, k, if settled.Ended? then Returned else Caught(s, k)); }
      case ReturnSettles(k, _) =>
        if k < |s.ops| && s.ops[k].phase.Closing? { FinishListsOnce(s, k, s.ops[k].phase.after); }
      case _ =>
    }
  }

  /** In every run, whatever ids are used again, each grant lists each of its requests once. */
  lemma {:induction false} RunListsOnce(s: State, events: seq<Event>)
    requires ListedOnce(s.byGrant)
    ensures ListedOnce(Run(s, events).byGrant)
    decreases |events|
  {
    if events != [] {
      StepListsOnce(s, events[0]);
      RunListsOnce(Step(s, events[0]), events[1..]);
    }
  }

  // ----- operations that stay for ever --------------------------------------

  /** The operation is in the table after every continuation. */
  ghost predicate StaysForEver(s: State, k: nat) {
    forall events :: DistinctIds(s, events) ==> k < |Run(s, events).ops| && InTable(Run(s, events), k)
  }

  lemma StepMoves(s: State, e: Event, k: nat)
    requires k < |s.ops|
    ensures var t := Step(s, e);
      k < |t.ops| && (t.ops[k].phase == s.ops[k].phase || Moves(e, k, s.ops[k], t.ops[k].phase))
  {
    if !e.Authorize? && !e.Begin? { StepTouches(s, e, k); }
  }

  /** The ways to abandon an operation: no iterator can be got from its stream, its stream is closed before the first
      pull, or its source fails to close. */
  ghost predicate Abandons(e: Event, k: nat, op: Operation) {
    match e
    case TransportSettles(j, settled, consumption, iterates) =>
      j == k && op.phase == InTransport && LosesIterator(op, settled, consumption, iterates)
    case Close(j) => j == k && op.phase == Fresh
    case ReturnSettles(j, ok) => j == k && op.phase.Closing? && !ok
    case _ => false
  }

  /** Main result: an operation becomes abandoned in exactly three ways, and an abandoned one stays so. */
  lemma AbandonedExactly(s: State, e: Event, k: nat)
    requires k < |s.ops|
    ensures k < |Step(s, e).ops|
    ensures Step(s, e).ops[k].phase == Abandoned <==> s.ops[k].phase == Abandoned || Abandons(e, k, s.ops[k])
  {
    StepMoves(s, e, k);
    if Abandons(e, k, s.ops[k]) { AbandoningAbandons(s, e, k); }
  }

  lemma AbandoningAbandons(s: State, e: Event, k: nat)
    requires k < |s.ops| && Abandons(e, k, s.ops[k])
    ensures k < |Step(s, e).ops| && Step(s, e).ops[k].phase == Abandoned
  {
    match e {
      case TransportSettles(_, settled, consumption, iterates) =>
        TransportTouches(s, k, settled, consumption, iterates);
      case Close(_) => StreamCloseTouches(s, k);
      case ReturnSettles(_, ok) => ReturnTouches(s, k, ok);
    }
  }

  lemma {:induction false} AbandonedStaysInTable(s: State, events: seq<Event>, k: nat)
    requires Inv(s) && DistinctIds(s, events) && k < |s.ops| && s.ops[k].phase == Abandoned
    ensures k < |Run(s, events).ops| && InTable(Run(s, events), k)
    decreases |events|
  {
    if events != [] {
      StepKeepsInv(s, events[0]);
      AbandonedExactly(s, events[0], k);
      AbandonedStaysInTable(Step(s, events[0]), events[1..], k);
    }
  }

  /** What can still happen to an operation that is not abandoned: its transport fails, or its stream is pulled, ends
      and closes. */
  function Ending(k: nat): seq<Event> {
    [] + [TransportSettles(k, Rejected, Consumed, true)] + [Pull(k)] + [SourceSettles(k, Ended)]
    + [ReturnSettles(k, true)]
  }

  lemma EndingIsFresh(s: State, k: nat)
    ensures DistinctIds(s, Ending(k))
    ensures Run(s, Ending(k)) == Step(Step(Step(Step(s, TransportSettles(k, Rejected, Consumed, true)), Pull(k)),
                                           SourceSettles(k, Ended)), ReturnSettles(k, true))
  {
    var a, b, c := TransportSettles(k, Rejected, Consumed, true), Pull(k), SourceSettles(k, Ended);
    RunLast(s, [], a);
    RunLast(s, [] + [a], b);
    RunLast(s, [] + [a] + [b], c);
    RunLast(s, [] + [a] + [b] + [c], ReturnSettles(k, true));
  }

  lemma PhaseAfter(s: State, k: nat)
    requires k < |s.ops| && s.ops[k].phase != Abandoned
    ensures var t := Step(s, TransportSettles(k, Rejected, Consumed, true));
      k < |t.ops| && t.ops[k].phase != Abandoned && t.ops[k].phase != InTransport
    ensures s.ops[k].phase != InTransport ==> var t := Step(s, Pull(k));
      k < |t.ops| && t.ops[k].phase != Abandoned && t.ops[k].phase !in {InTransport, Fresh, AtYield}
    ensures s.ops[k].phase !in {InTransport, Fresh, AtYield} ==> var t := Step(s, SourceSettles(k, Ended));
      k < |t.ops| && t.ops[k].phase != Abandoned && t.ops[k].phase !in {InTransport, Fresh, AtYield, Reading}
    ensures s.ops[k].phase !in {InTransport, Fresh, AtYield, Reading} ==> var t := Step(s, ReturnSettles(k, true));
      k < |t.ops| && t.ops[k].phase.Done?
  {
  }

  lemma EndingEnds(s: State, k: nat)
    requires k < |s.ops| && s.ops[k].phase != Abandoned
    ensures k < |Run(s, Ending(k)).ops| && Run(s, Ending(k)).ops[k].phase.Done?
  {
    var a := Step(s, TransportSettles(k, Rejected, Consumed, true));
    PhaseAfter(s, k);
    var b := Step(a, Pull(k));
    PhaseAfter(a, k);
    var c := Step(b, SourceSettles(k, Ended));
    PhaseAfter(b, k);
    PhaseAfter(c, k);
    EndingIsFresh(s, k);
  }

  /** Main result: after any run an operation is in the table for ever if and only if it is abandoned. */
  lemma StaysForEverIffAbandoned(events: seq<Event>, k: nat)
    requires DistinctIds(START, events) && k < |Run(START, events).ops|
    ensures var s := Run(START, events); StaysForEver(s, k) <==> s.ops[k].phase == Abandoned
  {
    var s := Run(START, events);
    RunKeepsInv(START, events);
    if s.ops[k].phase == Abandoned {
      forall more | DistinctIds(s, more) ensures k < |Run(s, more).ops| && InTable(Run(s, more), k) {
        AbandonedStaysInTable(s, more, k);
      }
    } else {
      EndingIsFresh(s, k);
      EndingEnds(s, k);
      RunKeepsInv(s, Ending(k));
    }
  }

  // ----- why ids must be distinct -------------------------------------------

  /** Registering keeps the index exactly when the id is not in flight under another grant. */
  lemma RegisterKeepsIndexIff(s: State, op: Operation)
    requires TableFits(s) && Indexed(s)
    ensures TableFits(Register(s, op))
    ensures Indexed(Register(s, op)) <==>
      (op.requestId in s.inFlight ==> s.ops[s.inFlight[op.requestId]].grantId == op.grantId)
  {
    var t := Register(s, op);
    forall g, id
      ensures IsListed(t.byGrant, g, id) <==> IsListed(s.byGrant, g, id) || (g == op.grantId && id == op.requestId)
    {
    }
    if op.requestId in s.inFlight && s.ops[s.inFlight[op.requestId]].grantId != op.grantId {
      assert IsListed(t.byGrant, s.ops[s.inFlight[op.requestId]].grantId, op.requestId);
    } else {
      forall g, id ensures IsListed(t.byGrant, g, id) <==> id in t.inFlight && t.ops[t.inFlight[id]].grantId == g {
        assert IsListed(s.byGrant, g, id) <==> id in s.inFlight && s.ops[s.inFlight[id]].grantId == g;
      }
    }
  }

  // ----- the tables as objects ----------------------------------------------

  /** What the service keeps of an operation, with what the model knows of it besides. */
  class InFlightOperation {
    const requestId: string
    const grantId: string
    var revoked: bool
    var revokeReason: Option<Reason>
    ghost const origin: Operation

    ghost function Value(): Operation
      reads this
    {
      origin.(requestId := requestId, grantId := grantId, revoked := if revoked then revokeReason else None)
    }

    constructor (requestId: string, grantId: string, ghost origin: Operation)
      requires origin.requestId == requestId && origin.grantId == grantId && origin.revoked == None
      ensures Value() == origin && this.requestId == requestId && this.grantId == grantId
    {
      this.requestId, this.grantId, revoked, revokeReason := requestId, grantId, false, None;
      this.origin := origin;
    }

    method Mark(reason: Reason)
      modifies this
      ensures Value() == old(Value()).(revoked := Some(reason))
    {
      revoked := true;
      revokeReason := Some(reason);
    }
  }

  /** The marking loop has gone through `n` requests, and the last had a listener throw or none had. */
  predicate Through(ids: seq<string>, inFlight: set<string>, fails: Listeners, n: nat, threw: bool) {
    && n <= |ids|
    && (threw ==> n > 0 && ids[n - 1] in inFlight && fails(ids[n - 1]))
    && (forall q :: 0 <= q < (if threw then n - 1 else n) ==> !(ids[q] in inFlight && fails(ids[q])))
  }

  lemma {:induction false} AttemptedThrough(
      ids: seq<string>, inFlight: set<string>, fails: Listeners, n: nat, threw: bool)
    requires Through(ids, inFlight, fails, n, threw) && (n == |ids| || threw)
    ensures Attempted(ids, inFlight, fails) == ids[..n]
    ensures threw <==> exists id :: id in ids && id in inFlight && fails(id)
  {
    if ids != [] && !(ids[0] in inFlight && fails(ids[0])) {
      var rest := ids[1..];
      assert forall q :: 0 <= q < |rest| ==> rest[q] == ids[q + 1];
      AttemptedThrough(rest, inFlight, fails, n - 1, threw);
      assert ids == [ids[0]] + rest && ids[..n] == [ids[0]] + rest[..n - 1];
    }
  }

  class InFlightTable {
    var inFlight: map<string, InFlightOperation>
    var byGrant: map<string, seq<string>>
    ghost var operations: seq<InFlightOperation>
    ghost var places: map<string, nat>
    ghost var calls: seq<Call>
    ghost var log: seq<Entry>

    /** The table leads to the operation it lists, and every operation has a place of its own. */
    ghost predicate Valid()
      reads this
    {
      && (forall i, j :: 0 <= i < j < |operations| ==> operations[i] != operations[j])
      && inFlight.Keys == places.Keys
      && (forall id :: id in inFlight ==>
            places[id] < |operations| && operations[places[id]] == inFlight[id] && inFlight[id].requestId == id)
    }

    ghost function Current(): State
      reads this, operations
    {
      State(calls, seq(|operations|, i requires 0 <= i < |operations| reads this, operations => operations[i].Value()),
            places, byGrant, log)
    }

    constructor ()
      ensures Valid() && Current() == START
    {
      inFlight, byGrant, operations, places, calls, log := map[], map[], [], map[], [], [];
    }

    method RegisterInFlight(requestId: string, grantId: string, ghost origin: Operation)
      returns (operation: InFlightOperation)
      requires Valid()
      requires origin.requestId == requestId && origin.grantId == grantId && origin.revoked == None
      modifies this
      ensures Valid() && fresh(operation)
      ensures inFlight == old(inFlight)[requestId := operation]
      ensures Current() == Register(old(Current()), origin)
    {
      ghost var before := Current();
      operation := new InFlightOperation(requestId, grantId, origin);
      inFlight := inFlight[requestId := operation];
      AddToIndex(requestId, grantId);
      places := places[requestId := |operations|];
      log := log + [Registered(|operations|)];
      operations := operations + [operation];
      assert Current().ops == before.ops + [origin];
    }

    /** The grant's set, a new one if it has none, gets the id. */
    method AddToIndex(requestId: string, grantId: string)
      modifies this`byGrant
      ensures byGrant == Added(old(byGrant), grantId, requestId)
    {
      var requestIds := if grantId in byGrant then byGrant[grantId] else [];
      if requestId !in requestIds { requestIds := requestIds + [requestId]; }
      byGrant := byGrant[grantId := requestIds];
    }

    method FinalizeInFlight(requestId: string)
      requires Valid()
      modifies this
      ensures Valid() && operations == old(operations)
      ensures Current() == Finalize(old(Current()), requestId)
    {
      ghost var before := Current();
      if requestId !in inFlight { return; }
      var operation := inFlight[requestId];
      assert before.ops[places[requestId]] == operation.Value();
      log := log + [Finalized(places[requestId])];
      inFlight, places := inFlight - {requestId}, places - {requestId};
      if operation.grantId in byGrant {
        var grantRequests := Without(byGrant[operation.grantId], requestId);
        if grantRequests == [] {
          byGrant := byGrant - {operation.grantId};
        } else {
          byGrant := byGrant[operation.grantId := grantRequests];
        }
      }
      assert Current().ops == before.ops;
    }

    function RequestsOf(grantId: string): seq<string>
      reads this
    {
      Listed(byGrant, grantId)
    }

    /** The operation is in flight, and its request among the given. */
    predicate Due(operation: InFlightOperation, requestIds: seq<string>)
      reads this
    {
      var id := operation.requestId;
      id in requestIds && id in inFlight && inFlight[id] == operation
    }

    /** One turn of the marking loop. */
    method MarkRequest(requestId: string, reason: Reason)
      requires Valid()
      modifies operations
      ensures forall o :: o in operations ==>
        o.Value() == if Due(o, [requestId]) then old(o.Value()).(revoked := Some(reason)) else old(o.Value())
    {
      if requestId !in inFlight { return; }
      var operation := inFlight[requestId];
      assert operation == operations[places[requestId]];
      operation.Mark(reason);
    }

    /** The marking loop; `fails` tells at which request's health event a listener throws, which ends the loop. */
    method MarkLoop(grantId: string, reason: Reason, fails: Listeners) returns (threw: bool)
      requires Valid()
      modifies operations
      ensures forall o :: o in operations ==>
        o.Value() == if Due(o, Attempted(RequestsOf(grantId), inFlight.Keys, fails))
                     then old(o.Value()).(revoked := Some(reason)) else old(o.Value())
      ensures threw <==> exists id :: id in RequestsOf(grantId) && id in inFlight && fails(id)
    {
      var requestIds := RequestsOf(grantId);
      var i := 0;
      threw := false;
      while i < |requestIds| && !threw
        invariant 0 <= i <= |requestIds|
        invariant forall o :: o in operations ==>
          o.Value() == if Due(o, requestIds[..i]) then old(o.Value()).(revoked := Some(reason)) else old(o.Value())
        invariant Through(requestIds, inFlight.Keys, fails, i, threw)
      {
        var requestId := requestIds[i];
        assert requestIds[..i + 1] == requestIds[..i] + [requestId];
        MarkRequest(requestId, reason);
        threw := requestId in inFlight && fails(requestId);
        i := i + 1;
      }
      AttemptedThrough(requestIds, inFlight.Keys, fails, i, threw);
    }

    lemma DueIffReached(grantId: string, fails: Listeners, i: nat)
      requires Valid() && i < |operations|
      ensures Due(operations[i], Attempted(RequestsOf(grantId), inFlight.Keys, fails))
        <==> Reached(Current(), grantId, fails, i)
    {
    }

    /** `#markGrantRevoked`; the result tells whether it threw. */
    method MarkGrantRevoked(grantId: string, reason: Reason, fails: Listeners) returns (threw: bool)
      requires Valid()
      modifies this`log, operations
      ensures Valid() && operations == old(operations)
      ensures Current() == Marked(old(Current()), grantId, reason, fails)
      ensures threw <==> exists id :: id in RequestsOf(grantId) && id in inFlight && fails(id)
    {
      threw := MarkEach(grantId, reason, fails);
      log := log + [GrantRevoked(grantId, reason, fails)];
      assert Current().ops == Marked(old(Current()), grantId, reason, fails).ops;
    }

    method MarkEach(grantId: string, reason: Reason, fails: Listeners) returns (threw: bool)
      requires Valid()
      modifies operations
      ensures Current() == old(Current()).(ops := Marked(old(Current()), grantId, reason, fails).ops)
      ensures threw <==> exists id :: id in RequestsOf(grantId) && id in inFlight && fails(id)
    {
      ghost var after := Marked(Current(), grantId, reason, fails);
      forall i | 0 <= i < |operations|
        ensures Due(operations[i], Attempted(RequestsOf(grantId), inFlight.Keys, fails))
          <==> Reached(Current(), grantId, fails, i)
      {
        DueIffReached(grantId, fails, i);
      }
      threw := MarkLoop(grantId, reason, fails);
      forall i | 0 <= i < |operations| ensures operations[i].Value() == after.ops[i] {
        assert operations[i] in operations;
      }
      assert Current().ops == after.ops;
    }
  }
}
