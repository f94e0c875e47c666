/** The adapter supervisor: health checks, bounded restarts, calls, and shutdown. */
module AdapterHost {
  import opened Wrappers

  datatype AdapterState = Pending | Starting | Running | Degraded | Stopped | FailedState

  /** One registration. `failures` counts its failing periodic checks; the host itself keeps no such count. */
  datatype Record = Record(providerId: string, state: AdapterState, restartCount: nat, timer: bool, failures: nat)

  /** How a health check, a call or a shutdown ends; a timeout is a rejection. */
  datatype Outcome = Healthy | Unhealthy | Rejected

  datatype Kind = Activation | Probe | Restart | Call | Stopping

  /** Something awaited on behalf of a registration. */
  datatype Task = Task(kind: Kind, rec: nat, open: bool)

  datatype Config = Config(maxRestarts: int, checks: bool)

  /** A registration is its place in `records`; `adapters` leads to the current one of each provider. */
  datatype State = State(
    started: bool, shutdown: bool, records: seq<Record>, adapters: map<string, nat>, tasks: seq<Task>)

  datatype Event =
    | Start
    | Register(providerId: string)
    | Deregister(providerId: string)
    | CallAdapter(providerId: string)
    | Tick(providerId: string)
    | Settle(task: nat, outcome: Outcome)
    | Shutdown
    | ShutdownSettles

  const INITIAL: State := State(false, false, [], map[], [])

  predicate Down(r: Record) { r.state == Stopped || r.state == FailedState }

  // ----- what happens to one registration -----------------------------------

  function Restarted(r: Record, c: Config): Record {
    if r.restartCount >= c.maxRestarts then r.(state := FailedState, timer := false)
    else r.(restartCount := r.restartCount + 1, state := Starting)
  }

  function ProbeSettled(r: Record, outcome: Outcome, c: Config): Record {
    if outcome == Healthy then (if r.state == Degraded then r.(state := Running) else r)
    else Restarted(r.(state := Degraded, failures := r.failures + 1), c)
  }

  function ActivationSettled(r: Record, outcome: Outcome, c: Config): Record {
    match outcome
    case Healthy => r.(state := Running, timer := r.timer || c.checks)
    case Unhealthy => r.(state := Degraded, timer := r.timer || c.checks)
    case Rejected => r.(state := FailedState)
  }

  function RestartSettled(r: Record, outcome: Outcome): Record {
    match outcome
    case Healthy => r.(state := Running)
    case Unhealthy => r.(state := Degraded)
    case Rejected => r.(state := FailedState)
  }

  function CallSettled(r: Record, outcome: Outcome): Record {
    if outcome == Rejected then r.(state := Degraded) else r
  }

  function Settled(r: Record, kind: Kind, outcome: Outcome, c: Config): Record {
    match kind
    case Activation => ActivationSettled(r, outcome, c)
    case Probe => ProbeSettled(r, outcome, c)
    case Restart => RestartSettled(r, outcome)
    case Call => CallSettled(r, outcome)
    case Stopping => r
  }

  /** A failing check with budget left goes on to await a restart. */
  predicate Restarts(r: Record, kind: Kind, outcome: Outcome, c: Config) {
    kind == Probe && outcome != Healthy && r.restartCount < c.maxRestarts
  }

  function Stop(r: Record): Record { r.(state := Stopped, timer := false) }

  // ----- the host -----------------------------------------------------------

  predicate Accepting(s: State) { s.started && !s.shutdown }

  function Current(s: State, id: string): Option<nat> {
    if id in s.adapters && s.adapters[id] < |s.records| then Some(s.adapters[id]) else None
  }

  function Await(s: State, kind: Kind, rec: nat): State {
    s.(tasks := s.tasks + [Task(kind, rec, true)])
  }

  function StepStart(s: State): State { if s.shutdown then s else s.(started := true) }

  function StepRegister(s: State, id: string): State {
    if !Accepting(s) then s
    else if Current(s, id).Some? && !Down(s.records[Current(s, id).value]) then s
    else Entered(s, id)
  }

  function Entered(s: State, id: string): State {
    var added := s.(records := s.records + [Record(id, Starting, 0, false, 0)],
                    adapters := s.adapters[id := |s.records|]);
    Await(added, Activation, |s.records|)
  }

  function StepDeregister(s: State, id: string): State {
    if !Accepting(s) || Current(s, id).None? then s
    else
      var k := Current(s, id).value;
      Await(s.(records := s.records[k := Stop(s.records[k])]), Stopping, k)
  }

  function StepCall(s: State, id: string): State {
    if !Accepting(s) || Current(s, id).None? then s
    else if s.records[Current(s, id).value].state !in {Running, Degraded} then s
    else Await(s, Call, Current(s, id).value)
  }

  function StepTick(s: State, id: string): State {
    if s.shutdown || Current(s, id).None? || Down(s.records[Current(s, id).value]) then s
    else Await(s, Probe, Current(s, id).value)
  }

  function StepSettle(s: State, i: nat, outcome: Outcome, c: Config): State {
    if i >= |s.tasks| || !s.tasks[i].open || s.tasks[i].rec >= |s.records| then s
    else
      var t := s.tasks[i];
      var r := s.records[t.rec];
      s.(records := s.records[t.rec := Settled(r, t.kind, outcome, c)],
         adapters := if t.kind == Stopping then s.adapters - {r.providerId} else s.adapters,
         tasks := s.tasks[i := t.(open := false)]
                  + if Restarts(r, t.kind, outcome, c) then [Task(Restart, t.rec, true)] else [])
  }

  function StepShutdown(s: State): State {
    if s.shutdown then s
    else s.(shutdown := true, started := false, records := StopListed(s.records, s.adapters))
  }

  function StopListed(records: seq<Record>, adapters: map<string, nat>): seq<Record> {
    seq(|records|, k requires 0 <= k < |records| =>
      if Leads(adapters, records[k].providerId, k) then Stop(records[k]) else records[k])
  }

  predicate Leads(adapters: map<string, nat>, id: string, k: nat) { id in adapters && adapters[id] == k }

  function StepShutdownSettles(s: State): State { if s.shutdown then s.(adapters := map[]) else s }

  function Step(s: State, e: Event, c: Config): State {
    match e
    case Start => StepStart(s)
    case Register(id) => StepRegister(s, id)
    case Deregister(id) => StepDeregister(s, id)
    case CallAdapter(id) => StepCall(s, id)
    case Tick(id) => StepTick(s, id)
    case Settle(i, outcome) => StepSettle(s, i, outcome, c)
    case Shutdown => StepShutdown(s)
    case ShutdownSettles => StepShutdownSettles(s)
  }

  function Run(s: State, events: seq<Event>, c: Config): State
    decreases |events|
  {
    if events == [] then s else Run(Step(s, events[0], c), events[1..], c)
  }

  // ----- the restart budget, under any overlap ------------------------------

  function Budget(c: Config): nat { if c.maxRestarts > 0 then c.maxRestarts else 0 }

  function RestartsOf(tasks: seq<Task>, k: nat): nat
    decreases |tasks|
  {
    if tasks == [] then 0
    else RestartsOf(tasks[..|tasks| - 1], k)
         + if tasks[|tasks| - 1].kind == Restart && tasks[|tasks| - 1].rec == k then 1 else 0
  }

  ghost predicate Counted(s: State, c: Config) {
    && (forall i :: 0 <= i < |s.tasks| ==> s.tasks[i].rec < |s.records|)
    && (forall k :: 0 <= k < |s.records| ==>
          s.records[k].restartCount == RestartsOf(s.tasks, k) && s.records[k].restartCount <= Budget(c))
  }

  lemma RestartsOfAppend(tasks: seq<Task>, t: Task, k: nat)
    ensures RestartsOf(tasks + [t], k) == RestartsOf(tasks, k) + if t.kind == Restart && t.rec == k then 1 else 0
  {
    assert (tasks + [t])[..|tasks|] == tasks;
  }

  lemma {:induction false} RestartsOfClosed(tasks: seq<Task>, i: nat, k: nat)
    requires i < |tasks|
    ensures RestartsOf(tasks[i := tasks[i].(open := false)], k) == RestartsOf(tasks, k)
    decreases |tasks|
  {
    var n := |tasks| - 1;
    var closed := tasks[i := tasks[i].(open := false)];
    if i < n {
      RestartsOfClosed(tasks[..n], i, k);
      assert closed[..n] == tasks[..n][i := tasks[i].(open := false)];
    } else {
      assert closed[..n] == tasks[..n];
    }
  }

  lemma {:induction false} NoRestartsBeyond(tasks: seq<Task>, k: nat)
    requires forall i :: 0 <= i < |tasks| ==> tasks[i].rec != k
    ensures RestartsOf(tasks, k) == 0
    decreases |tasks|
  {
    if tasks != [] { NoRestartsBeyond(tasks[..|tasks| - 1], k); }
  }

  lemma AwaitKeepsCounted(s: State, kind: Kind, rec: nat, c: Config)
    requires Counted(s, c) && rec < |s.records| && kind != Restart
    ensures Counted(Await(s, kind, rec), c)
  {
    forall k | 0 <= k < |s.records| ensures RestartsOf(Await(s, kind, rec).tasks, k) == RestartsOf(s.tasks, k) {
      RestartsOfAppend(s.tasks, Task(kind, rec, true), k);
    }
  }

  lemma SettledTasks(tasks: seq<Task>, i: nat, again: bool, k: nat)
    requires i < |tasks|
    ensures RestartsOf(tasks[i := tasks[i].(open := false)]
                       + if again then [Task(Restart, tasks[i].rec, true)] else [], k)
      == RestartsOf(tasks, k) + if again && tasks[i].rec == k then 1 else 0
  {
    var closed := tasks[i := tasks[i].(open := false)];
    RestartsOfClosed(tasks, i, k);
    RestartsOfAppend(closed, Task(Restart, tasks[i].rec, true), k);
    assert closed + [] == closed;
  }

  lemma SettledCount(r: Record, kind: Kind, outcome: Outcome, c: Config)
    ensures Settled(r, kind, outcome, c).restartCount
      == r.restartCount + if Restarts(r, kind, outcome, c) then 1 else 0
    ensures r.restartCount <= Budget(c) ==> Settled(r, kind, outcome, c).restartCount <= Budget(c)
  {
  }

  lemma SettleKeepsCounted(s: State, i: nat, outcome: Outcome, c: Config)
    requires Counted(s, c)
    ensures Counted(StepSettle(s, i, outcome, c), c)
  {
    var n := StepSettle(s, i, outcome, c);
    if i < |s.tasks| && s.tasks[i].open {
      var t := s.tasks[i];
      var again := Restarts(s.records[t.rec], t.kind, outcome, c);
      SettledCount(s.records[t.rec], t.kind, outcome, c);
      forall k | 0 <= k < |s.records|
        ensures n.records[k].restartCount == RestartsOf(n.tasks, k) && n.records[k].restartCount <= Budget(c)
      {
        SettledTasks(s.tasks, i, again, k);
      }
    }
  }

  lemma StepKeepsCounted(s: State, e: Event, c: Config)
    requires Counted(s, c)
    ensures Counted(Step(s, e, c), c)
  {
    match e {
      case Settle(i, outcome) => SettleKeepsCounted(s, i, outcome, c);
      case Register(id) =>
        NoRestartsBeyond(s.tasks, |s.records|);
        var added := s.(records := s.records + [Record(id, Starting, 0, false, 0)],
                        adapters := s.adapters[id := |s.records|]);
        assert Counted(added, c);
        AwaitKeepsCounted(added, Activation, |s.records|, c);
      case Deregister(id) =>
        if Current(s, id).Some? {
          var k := Current(s, id).value;
          AwaitKeepsCounted(s.(records := s.records[k := Stop(s.records[k])]), Stopping, k, c);
        }
      case CallAdapter(id) => if Current(s, id).Some? { AwaitKeepsCounted(s, Call, Current(s, id).value, c); }
      case Tick(id) => if Current(s, id).Some? { AwaitKeepsCounted(s, Probe, Current(s, id).value, c); }
      case _ =>
    }
  }

  lemma StepGrows(s: State, e: Event, c: Config)
    ensures var t := Step(s, e, c);
      |s.records| <= |t.records|
      && forall k :: 0 <= k < |s.records| ==>
           t.records[k].providerId == s.records[k].providerId && s.records[k].restartCount <= t.records[k].restartCount
  {
  }

  /** Main result: whatever overlaps, a registration's restart count never goes down, never exceeds the limit,
      and equals the number of restarts that were begun for it. */
  lemma {:induction false} RestartBudget(s: State, events: seq<Event>, c: Config)
    requires Counted(s, c)
    ensures var t := Run(s, events, c);
      && Counted(t, c)
      && |s.records| <= |t.records|
      && forall k :: 0 <= k < |s.records| ==> s.records[k].restartCount <= t.records[k].restartCount
    decreases |events|
  {
    if events != [] {
      StepKeepsCounted(s, events[0], c);
      StepGrows(s, events[0], c);
      RestartBudget(Step(s, events[0], c), events[1..], c);
    }
  }

  // ----- when a registration that is down stays down ------------------------

  predicate Work(t: Task, k: nat) { t.open && t.rec == k && t.kind != Stopping }

  /** Nothing that is still awaited can bring the registration back. */
  ghost predicate Quiet(s: State, k: nat, c: Config)
    requires k < |s.records|
  {
    forall i :: 0 <= i < |s.tasks| && Work(s.tasks[i], k) ==>
      s.tasks[i].kind == Probe && s.records[k].restartCount >= c.maxRestarts
  }

  lemma StepKeepsDown(s: State, e: Event, c: Config, k: nat)
    requires Counted(s, c) && k < |s.records| && Down(s.records[k]) && Quiet(s, k, c)
    ensures var t := Step(s, e, c);
      k < |t.records| && Down(t.records[k]) && Quiet(t, k, c)
      && (t.records[k].state != s.records[k].state ==> e.Deregister? || e.Shutdown? || e.Settle?)
      && (s.records[k].state == FailedState && t.records[k].state == Stopped ==> e.Deregister? || e.Shutdown?)
  {
    var t := Step(s, e, c);
    if e.Settle? {
      var i := e.task;
      if i < |s.tasks| && s.tasks[i].open {
        assert s.tasks[i].rec == k && s.tasks[i].kind != Stopping ==> Work(s.tasks[i], k);
        forall j | 0 <= j < |t.tasks| && Work(t.tasks[j], k)
          ensures t.tasks[j].kind == Probe && t.records[k].restartCount >= c.maxRestarts
        {
          assert j < |s.tasks| ==> t.tasks[j] == s.tasks[j] || j == i;
          assert j < |s.tasks| ==> Work(s.tasks[j], k);
        }
      }
    } else {
      forall j | 0 <= j < |t.tasks| && Work(t.tasks[j], k)
        ensures t.tasks[j].kind == Probe && t.records[k].restartCount >= c.maxRestarts
      {
        assert j < |s.tasks| ==> t.tasks[j] == s.tasks[j];
      }
    }
  }

  lemma {:induction false} QuietStaysDown(s: State, events: seq<Event>, c: Config, k: nat)
    requires Counted(s, c) && k < |s.records| && Down(s.records[k]) && Quiet(s, k, c)
    ensures k < |Run(s, events, c).records| && Down(Run(s, events, c).records[k])
    decreases |events|
  {
    if events != [] {
      StepKeepsCounted(s, events[0], c);
      StepKeepsDown(s, events[0], c, k);
      QuietStaysDown(Step(s, events[0], c), events[1..], c, k);
    }
  }

  ghost predicate DownForGood(s: State, c: Config, k: nat) {
    forall events :: k < |Run(s, events, c).records| && Down(Run(s, events, c).records[k])
  }

  /** A late answer that brings a registration back: the one its kind of work needs. */
  function Reviving(kind: Kind): Outcome {
    if kind == Call || kind == Probe then Rejected else Healthy
  }

  lemma RevivedBy(s: State, c: Config, k: nat, i: nat)
    requires Counted(s, c) && k < |s.records| && i < |s.tasks| && Work(s.tasks[i], k)
    requires s.tasks[i].kind == Probe ==> s.records[k].restartCount < c.maxRestarts
    ensures k < |Run(s, [Settle(i, Reviving(s.tasks[i].kind))], c).records|
    ensures !Down(Run(s, [Settle(i, Reviving(s.tasks[i].kind))], c).records[k])
  {
    var e := Settle(i, Reviving(s.tasks[i].kind));
    assert [e][1..] == [];
    assert Run(s, [e], c) == Run(Step(s, e, c), [], c) == Step(s, e, c);
  }

  /** Main result: a failed or stopped registration stays so in every continuation if and only if no call, restart
      or activation is still awaited for it, nor a check while it has restarts left. */
  lemma DownForGoodIffQuiet(s: State, c: Config, k: nat)
    requires Counted(s, c) && k < |s.records| && Down(s.records[k])
    ensures DownForGood(s, c, k) <==> Quiet(s, k, c)
  {
    if Quiet(s, k, c) {
      forall events ensures k < |Run(s, events, c).records| && Down(Run(s, events, c).records[k]) {
        QuietStaysDown(s, events, c, k);
      }
    } else {
      var i :| 0 <= i < |s.tasks| && Work(s.tasks[i], k)
        && !(s.tasks[i].kind == Probe && s.records[k].restartCount >= c.maxRestarts);
      RevivedBy(s, c, k, i);
    }
  }

  // ----- when a registration that failed stays failed -----------------------

  /** Every provider leads to a registration of its own. */
  ghost predicate Named(s: State) {
    forall id :: id in s.adapters ==> s.adapters[id] < |s.records| && s.records[s.adapters[id]].providerId == id
  }

  lemma SettleKeepsNamed(s: State, i: nat, outcome: Outcome, c: Config)
    requires Named(s)
    ensures Named(StepSettle(s, i, outcome, c))
  {
    var t := StepSettle(s, i, outcome, c);
    forall id | id in t.adapters
      ensures t.adapters[id] < |t.records| && t.records[t.adapters[id]].providerId == id
    {
      assert id in s.adapters && t.adapters[id] == s.adapters[id];
    }
  }

  lemma StepKeepsNamed(s: State, e: Event, c: Config)
    requires Named(s)
    ensures Named(Step(s, e, c))
  {
    if e.Settle? { SettleKeepsNamed(s, e.task, e.outcome, c); }
  }

  /** Neither a shutdown nor a deregistration of the provider. */
  predicate NoStop(e: Event, providerId: string) { e != Shutdown && e != Deregister(providerId) }

  predicate NoStops(events: seq<Event>, providerId: string) {
    forall i :: 0 <= i < |events| ==> NoStop(events[i], providerId)
  }

  lemma StepKeepsFailed(s: State, e: Event, c: Config, k: nat)
    requires Counted(s, c) && Named(s) && k < |s.records| && s.records[k].state == FailedState && Quiet(s, k, c)
    requires NoStop(e, s.records[k].providerId)
    ensures var t := Step(s, e, c);
      && k < |t.records| && t.records[k].state == FailedState
      && t.records[k].providerId == s.records[k].providerId
  {
    StepGrows(s, e, c);
    if e.Settle? && e.task < |s.tasks| && s.tasks[e.task].open && s.tasks[e.task].rec == k {
      assert s.tasks[e.task].kind != Stopping ==> Work(s.tasks[e.task], k);
    }
  }

  lemma {:induction false} QuietStaysFailed(s: State, events: seq<Event>, c: Config, k: nat)
    requires Counted(s, c) && Named(s) && k < |s.records| && s.records[k].state == FailedState && Quiet(s, k, c)
    requires NoStops(events, s.records[k].providerId)
    ensures k < |Run(s, events, c).records| && Run(s, events, c).records[k].state == FailedState
    decreases |events|
  {
    if events != [] {
      var t := Step(s, events[0], c);
      StepKeepsCounted(s, events[0], c);
      StepKeepsNamed(s, events[0], c);
      StepKeepsDown(s, events[0], c, k);
      StepKeepsFailed(s, events[0], c, k);
      assert forall i :: 0 <= i < |events[1..]| ==> events[1..][i] == events[i + 1];
      QuietStaysFailed(t, events[1..], c, k);
    }
  }

  ghost predicate FailedUntilStopped(s: State, c: Config, k: nat)
    requires k < |s.records|
  {
    forall events :: NoStops(events, s.records[k].providerId) ==>
      k < |Run(s, events, c).records| && Run(s, events, c).records[k].state == FailedState
  }

  /** Main result: a failed registration stays failed until its provider is deregistered or the host shut down, if and
      only if no call, restart or activation is still awaited for it, nor a check while it has restarts left. */
  lemma FailedUntilStoppedIffQuiet(s: State, c: Config, k: nat)
    requires Counted(s, c) && Named(s) && k < |s.records| && s.records[k].state == FailedState
    ensures FailedUntilStopped(s, c, k) <==> Quiet(s, k, c)
  {
    if Quiet(s, k, c) {
      forall events | NoStops(events, s.records[k].providerId)
        ensures k < |Run(s, events, c).records| && Run(s, events, c).records[k].state == FailedState
      {
        QuietStaysFailed(s, events, c, k);
      }
    } else {
      var i :| 0 <= i < |s.tasks| && Work(s.tasks[i], k)
        && !(s.tasks[i].kind == Probe && s.records[k].restartCount >= c.maxRestarts);
      RevivedBy(s, c, k, i);
      assert NoStops([Settle(i, Reviving(s.tasks[i].kind))], s.records[k].providerId);
    }
  }

  lemma {:induction false} RunKeepsNamed(s: State, events: seq<Event>, c: Config)
    requires Named(s)
    ensures Named(Run(s, events, c))
    decreases |events|
  {
    if events != [] {
      StepKeepsNamed(s, events[0], c);
      RunKeepsNamed(Step(s, events[0], c), events[1..], c);
    }
  }

  // ----- what each event means ------------------------------------------------

  /** How a registration stands after something awaited for it has ended. */
  lemma SettlingMeans(r: Record, kind: Kind, outcome: Outcome, c: Config)
    ensures var t := Settled(r, kind, outcome, c);
      var failed := kind == Probe && outcome != Healthy;
      var spent := r.restartCount >= c.maxRestarts;
      && t.providerId == r.providerId
      && (kind in {Activation, Restart} ==>
            (t.state == Running <==> outcome == Healthy) && (t.state == Degraded <==> outcome == Unhealthy)
            && (t.state == FailedState <==> outcome == Rejected))
      && (failed ==> t.state == (if spent then FailedState else Starting))
      && (kind == Probe && outcome == Healthy ==> t.state == (if r.state == Degraded then Running else r.state))
      && (kind == Call ==> t.state == (if outcome == Rejected then Degraded else r.state))
      && (kind == Stopping ==> t.state == r.state)
      && t.restartCount == r.restartCount + (if failed && !spent then 1 else 0)
      && t.failures == r.failures + (if failed then 1 else 0)
      && t.timer == ((r.timer && !(failed && spent)) || (kind == Activation && outcome != Rejected && c.checks))
  {
  }

  predicate Free(s: State, id: string) {
    forall k :: 0 <= k < |s.records| && Leads(s.adapters, id, k) ==> s.records[k].state in {Stopped, FailedState}
  }

  /** Whether the event begins something to be awaited for the registration. */
  predicate Begins(s: State, e: Event, c: Config, kind: Kind, k: nat)
    requires k < |s.records|
  {
    match e
    case Deregister(id) => kind == Stopping && s.started && !s.shutdown && Leads(s.adapters, id, k)
    case CallAdapter(id) =>
      kind == Call && s.started && !s.shutdown && Leads(s.adapters, id, k) && s.records[k].state in {Running, Degraded}
    case Tick(id) =>
      kind == Probe && !s.shutdown && Leads(s.adapters, id, k) && s.records[k].state !in {Stopped, FailedState}
    case Settle(i, outcome) =>
      kind == Restart && i < |s.tasks| && s.tasks[i] == Task(Probe, k, true) && outcome != Healthy
      && s.records[k].restartCount < c.maxRestarts
    case _ => false
  }

  predicate Stops(s: State, e: Event, k: nat)
    requires k < |s.records|
  {
    match e
    case Deregister(id) => s.started && !s.shutdown && Leads(s.adapters, id, k)
    case Shutdown => !s.shutdown && exists id :: id in s.adapters && s.adapters[id] == k
    case _ => false
  }

  predicate Enters(s: State, e: Event) {
    e.Register? && s.started && !s.shutdown && Free(s, e.providerId)
  }

  ghost predicate Shaped(s: State) {
    Named(s) && forall i :: 0 <= i < |s.tasks| ==> s.tasks[i].rec < |s.records|
  }

  lemma ReachableIsShaped(events: seq<Event>, c: Config)
    ensures Shaped(Run(INITIAL, events, c))
  {
    RunKeepsNamed(INITIAL, events, c);
    RestartBudget(INITIAL, events, c);
  }

  /** Main result: an event changes a registration only by settling something awaited for it, or by stopping it. */
  lemma RecordsChange(s: State, e: Event, c: Config, k: nat)
    requires Shaped(s) && k < |s.records|
    ensures var t := Step(s, e, c);
      k < |t.records|
      && if e.Settle? && e.task < |s.tasks| && s.tasks[e.task].open && s.tasks[e.task].rec == k
         then t.records[k] == Settled(s.records[k], s.tasks[e.task].kind, e.outcome, c)
         else if Stops(s, e, k) then t.records[k] == s.records[k].(state := Stopped, timer := false)
         else t.records[k] == s.records[k]
  {
    if e.Shutdown? { assert forall id :: id in s.adapters && s.adapters[id] == k ==> id == s.records[k].providerId; }
  }

  /** Main result: a registration is entered, starting and without restarts, for a provider that leads to none or to one
      that is down, while the host runs; and a provider leads to what was entered for it last, until that is stopped. */
  lemma RecordsEnter(s: State, e: Event, c: Config)
    requires Shaped(s)
    ensures var t := Step(s, e, c);
      && |t.records| == |s.records| + (if Enters(s, e) then 1 else 0)
      && (Enters(s, e) ==>
            t.records[|s.records|] == Record(e.providerId, Starting, 0, false, 0)
            && t.tasks == s.tasks + [Task(Activation, |s.records|, true)])
      && forall id ::
           if Enters(s, e) && e.providerId == id then Leads(t.adapters, id, |s.records|)
           else if id in s.adapters && !Leaves(s, e, id) then Leads(t.adapters, id, s.adapters[id])
           else id !in t.adapters
  {
    if e.Register? { assert Current(s, e.providerId).Some? <==> e.providerId in s.adapters; }
  }

  predicate Leaves(s: State, e: Event, id: string) {
    || (e.ShutdownSettles? && s.shutdown)
    || (e.Settle? && e.task < |s.tasks| && s.tasks[e.task].open && s.tasks[e.task].kind == Stopping
        && s.tasks[e.task].rec < |s.records| && s.records[s.tasks[e.task].rec].providerId == id)
  }

  /** Main result: an event settles at most the one thing it names, and begins at most one. */
  lemma TasksChange(s: State, e: Event, c: Config)
    requires Shaped(s)
    ensures var t := Step(s, e, c);
      && |s.tasks| <= |t.tasks| <= |s.tasks| + 1
      && (forall i :: 0 <= i < |s.tasks| ==>
            t.tasks[i] == s.tasks[i].(open := s.tasks[i].open && !(e.Settle? && e.task == i)))
      && forall kind, k :: 0 <= k < |s.records| ==>
           (Begins(s, e, c, kind, k) <==> |t.tasks| > |s.tasks| && t.tasks[|s.tasks|] == Task(kind, k, true))
  {
  }

  /** The host runs from its start to its shutdown, and cannot be started again. */
  lemma HostRuns(s: State, e: Event, c: Config)
    ensures var t := Step(s, e, c);
      && t.started == ((s.started && !(e.Shutdown? && !s.shutdown)) || (e.Start? && !s.shutdown))
      && t.shutdown == (s.shutdown || e.Shutdown?)
  {
  }

  // ----- runs without overlap -----------------------------------------------

  predicate Idle(s: State, k: nat) { forall i :: 0 <= i < |s.tasks| ==> !Work(s.tasks[i], k) }

  /** A check or a call begins only when nothing is awaited for the registration; it may be stopped at any time. */
  predicate NoOverlap(s: State, e: Event) {
    match e
    case CallAdapter(id) => Current(s, id).Some? ==> Idle(s, Current(s, id).value)
    case Tick(id) => Current(s, id).Some? ==> Idle(s, Current(s, id).value)
    case _ => true
  }

  predicate Sequential(s: State, events: seq<Event>, c: Config)
    decreases |events|
  {
    events == [] || (NoOverlap(s, events[0]) && Sequential(Step(s, events[0], c), events[1..], c))
  }

  ghost predicate OneAtATime(s: State) {
    forall i, j :: 0 <= i < j < |s.tasks| && s.tasks[i].open && s.tasks[j].open && s.tasks[i].rec == s.tasks[j].rec ==>
      s.tasks[i].kind == Stopping || s.tasks[j].kind == Stopping
  }

  /** Failing checks and restarts go together until one finds the budget spent, and `idle` tells that nothing is
      awaited then; nor is it after a failure. */
  predicate Balanced(r: Record, idle: bool, c: Config) {
    && (r.failures == r.restartCount
        || (r.failures == r.restartCount + 1 && r.restartCount >= c.maxRestarts && Down(r) && idle))
    && (r.state == FailedState ==> idle)
  }

  ghost predicate SeqInv(s: State, c: Config) {
    && Counted(s, c) && OneAtATime(s)
    && (forall k :: 0 <= k < |s.records| ==> Balanced(s.records[k], Idle(s, k), c))
  }

  lemma AwaitKeepsSeq(s: State, kind: Kind, rec: nat, c: Config)
    requires SeqInv(s, c) && rec < |s.records| && kind != Restart
    requires kind != Stopping ==> Idle(s, rec) && !Down(s.records[rec])
    ensures SeqInv(Await(s, kind, rec), c)
  {
    var t := Await(s, kind, rec);
    AwaitKeepsCounted(s, kind, rec, c);
    forall i, j | 0 <= i < j < |t.tasks| && t.tasks[i].open && t.tasks[j].open && t.tasks[i].rec == t.tasks[j].rec
      ensures t.tasks[i].kind == Stopping || t.tasks[j].kind == Stopping
    {
      assert t.tasks[i] == s.tasks[i];
      if j == |s.tasks| { assert kind != Stopping ==> !Work(s.tasks[i], rec); }
    }
    forall k | 0 <= k < |t.records| ensures Balanced(t.records[k], Idle(t, k), c) {
      assert Idle(s, k) && (kind == Stopping || k != rec) ==> Idle(t, k);
    }
  }

  lemma SettleKeepsSeq(s: State, i: nat, outcome: Outcome, c: Config)
    requires SeqInv(s, c) && i < |s.tasks| && s.tasks[i].open
    ensures SeqInv(StepSettle(s, i, outcome, c), c)
  {
    var t := StepSettle(s, i, outcome, c);
    var task := s.tasks[i];
    SettleKeepsCounted(s, i, outcome, c);
    assert task.kind != Stopping ==> Work(task, task.rec);
    forall a, b | 0 <= a < b < |t.tasks| && t.tasks[a].open && t.tasks[b].open && t.tasks[a].rec == t.tasks[b].rec
      ensures t.tasks[a].kind == Stopping || t.tasks[b].kind == Stopping
    {
      assert a != i && t.tasks[a] == s.tasks[a];
    }
    forall k | 0 <= k < |t.records| ensures Balanced(t.records[k], Idle(t, k), c) {
      if k != task.rec || task.kind == Stopping {
        assert Idle(s, k) ==> Idle(t, k);
      } else if !Restarts(s.records[k], task.kind, outcome, c) {
        SettledAlone(s, i, outcome, c);
      }
    }
  }

  /** What is settled was all that was awaited. */
  lemma SettledAlone(s: State, i: nat, outcome: Outcome, c: Config)
    requires SeqInv(s, c) && i < |s.tasks| && s.tasks[i].open && s.tasks[i].kind != Stopping
    requires !Restarts(s.records[s.tasks[i].rec], s.tasks[i].kind, outcome, c)
    ensures Idle(StepSettle(s, i, outcome, c), s.tasks[i].rec)
  {
    var t := StepSettle(s, i, outcome, c);
    forall j | 0 <= j < |t.tasks| ensures !Work(t.tasks[j], s.tasks[i].rec) {
      if j != i { assert t.tasks[j] == s.tasks[j]; }
    }
  }

  /** Stopping registrations, or none, while nothing else happens. */
  lemma StoppingKeepsSeq(s: State, t: State, c: Config)
    requires SeqInv(s, c) && t.tasks == s.tasks && |t.records| == |s.records|
    requires forall k :: 0 <= k < |s.records| ==> t.records[k] == s.records[k] || t.records[k] == Stop(s.records[k])
    ensures SeqInv(t, c)
  {
    forall k | 0 <= k < |t.records| ensures Balanced(t.records[k], Idle(t, k), c) {
      assert Idle(t, k) <==> Idle(s, k);
    }
  }

  lemma StepKeepsSeq(s: State, e: Event, c: Config)
    requires SeqInv(s, c) && NoOverlap(s, e)
    ensures SeqInv(Step(s, e, c), c)
  {
    match e {
      case Settle(i, outcome) => if i < |s.tasks| && s.tasks[i].open { SettleKeepsSeq(s, i, outcome, c); }
      case Register(id) => RegisterKeepsSeq(s, id, c);
      case Deregister(id) =>
        if Accepting(s) && Current(s, id).Some? {
          var k := Current(s, id).value;
          var stopped := s.(records := s.records[k := Stop(s.records[k])]);
          StoppingKeepsSeq(s, stopped, c);
          AwaitKeepsSeq(stopped, Stopping, k, c);
        }
      case CallAdapter(id) =>
        if Step(s, e, c) != s { AwaitKeepsSeq(s, Call, Current(s, id).value, c); }
      case Tick(id) => if Step(s, e, c) != s { AwaitKeepsSeq(s, Probe, Current(s, id).value, c); }
      case _ => StoppingKeepsSeq(s, Step(s, e, c), c);
    }
  }

  lemma RegisterKeepsSeq(s: State, id: string, c: Config)
    requires SeqInv(s, c)
    ensures SeqInv(StepRegister(s, id), c)
  {
    if StepRegister(s, id) != s {
      NoRestartsBeyond(s.tasks, |s.records|);
      var added := s.(records := s.records + [Record(id, Starting, 0, false, 0)],
                      adapters := s.adapters[id := |s.records|]);
      assert forall j :: Idle(added, j) <==> Idle(s, j);
      assert SeqInv(added, c);
      assert Idle(added, |s.records|);
      AwaitKeepsSeq(added, Activation, |s.records|, c);
    }
  }

  lemma {:induction false} RunKeepsSeq(s: State, events: seq<Event>, c: Config)
    requires SeqInv(s, c) && Sequential(s, events, c)
    ensures SeqInv(Run(s, events, c), c)
    decreases |events|
  {
    if events != [] {
      StepKeepsSeq(s, events[0], c);
      RunKeepsSeq(Step(s, events[0], c), events[1..], c);
    }
  }

  /** Main result: when checks and calls do not overlap, whenever a deregistration or shutdown comes, every failing
      check begins a restart until the budget is spent; one more takes the registration down for good, so at most one
      failing check more than the limit is handled; a registration that failed is down for good, and leaves that state
      only when its provider is deregistered or the host shut down; and one that was stopped is down for good unless
      something reviving was awaited. */
  lemma SequentialRunsFailAtTheLimit(events: seq<Event>, c: Config, k: nat)
    requires Sequential(INITIAL, events, c) && k < |Run(INITIAL, events, c).records|
    ensures var s := Run(INITIAL, events, c);
      && s.records[k].restartCount <= s.records[k].failures <= Budget(c) + 1
      && (s.records[k].failures > s.records[k].restartCount ==>
            s.records[k].restartCount == Budget(c) && Down(s.records[k]) && DownForGood(s, c, k))
      && (s.records[k].state == FailedState ==> DownForGood(s, c, k) && FailedUntilStopped(s, c, k))
      && (Down(s.records[k]) ==> (DownForGood(s, c, k) <==> Quiet(s, k, c)))
  {
    var s := Run(INITIAL, events, c);
    RunKeepsSeq(INITIAL, events, c);
    RunKeepsNamed(INITIAL, events, c);
    if Down(s.records[k]) {
      assert Idle(s, k) ==> Quiet(s, k, c);
      DownForGoodIffQuiet(s, c, k);
      if s.records[k].state == FailedState { FailedUntilStoppedIffQuiet(s, c, k); }
    }
  }

  const NO_RESTARTS: Config := Config(0, true)

  lemma {:induction false} RunLast(s: State, events: seq<Event>, e: Event, c: Config)
    ensures Run(s, events + [e], c) == Step(Run(s, events, c), e, c)
    decreases |events|
  {
    if events == [] {
      assert [] + [e] == [e] && [e][1..] == [];
    } else {
      assert (events + [e])[1..] == events[1..] + [e] && (events + [e])[0] == events[0];
      RunLast(Step(s, events[0], c), events[1..], e, c);
    }
  }

  const REGISTERED: seq<Event> := [] + [Start] + [Register("p")]

  const CALLED: seq<Event> := REGISTERED + [Settle(0, Healthy)] + [CallAdapter("p")]

  /** A call is begun, a check overlaps it and finds the budget spent. */
  const OVERLAP: seq<Event> := CALLED + [Tick("p")] + [Settle(2, Rejected)]

  const STARTING_ALONE: State :=
    State(true, false, [Record("p", Starting, 0, false, 0)], map["p" := 0], [Task(Activation, 0, true)])

  const RUNNING_WITH_CALL: State := State(true, false, [Record("p", Running, 0, true, 0)], map["p" := 0],
    [Task(Activation, 0, false), Task(Call, 0, true)])

  const FAILED_WITH_CALL: State := State(true, false, [Record("p", FailedState, 0, false, 1)], map["p" := 0],
    [Task(Activation, 0, false), Task(Call, 0, true), Task(Probe, 0, false)])

  lemma RegisteredStarts()
    ensures Run(INITIAL, REGISTERED, NO_RESTARTS) == STARTING_ALONE
  {
    RunLast(INITIAL, [], Start, NO_RESTARTS);
    RunLast(INITIAL, [] + [Start], Register("p"), NO_RESTARTS);
  }

  lemma CalledRuns()
    ensures Run(INITIAL, CALLED, NO_RESTARTS) == RUNNING_WITH_CALL
  {
    RegisteredStarts();
    RunLast(INITIAL, REGISTERED, Settle(0, Healthy), NO_RESTARTS);
    RunLast(INITIAL, REGISTERED + [Settle(0, Healthy)], CallAdapter("p"), NO_RESTARTS);
    assert StepSettle(STARTING_ALONE, 0, Healthy, NO_RESTARTS) ==
      State(true, false, [Record("p", Running, 0, true, 0)], map["p" := 0], [Task(Activation, 0, false)]);
  }

  lemma OverlapFailsWithCall()
    ensures Run(INITIAL, OVERLAP, NO_RESTARTS) == FAILED_WITH_CALL
  {
    CalledRuns();
    RunLast(INITIAL, CALLED, Tick("p"), NO_RESTARTS);
    RunLast(INITIAL, CALLED + [Tick("p")], Settle(2, Rejected), NO_RESTARTS);
    assert StepTick(RUNNING_WITH_CALL, "p")
        == RUNNING_WITH_CALL.(tasks := RUNNING_WITH_CALL.tasks + [Task(Probe, 0, true)]);
  }

  /** With overlap a failed registration can come back: here a call that fails late leaves it degraded. */
  lemma OverlapCanRevive()
    ensures var s := Run(INITIAL, OVERLAP, NO_RESTARTS);
      |s.records| == 1 && s.records[0].state == FailedState && !DownForGood(s, NO_RESTARTS, 0)
  {
    OverlapFailsWithCall();
    RestartBudget(INITIAL, OVERLAP, NO_RESTARTS);
    assert Work(FAILED_WITH_CALL.tasks[1], 0);
    DownForGoodIffQuiet(FAILED_WITH_CALL, NO_RESTARTS, 0);
  }

  // ----- the objects --------------------------------------------------------

  class ManagedAdapter {
    const providerId: string
    var state: AdapterState
    var restartCount: nat
    var healthTimer: bool
    ghost var failures: nat

    ghost function Value(): Record
      reads this
    {
      Record(providerId, state, restartCount, healthTimer, failures)
    }

    constructor (providerId: string)
      ensures Value() == Record(providerId, Pending, 0, false, 0)
    {
      this.providerId, state, restartCount, healthTimer, failures := providerId, Pending, 0, false, 0;
    }

    /** `#attemptRestart` up to its await; the result tells whether a restart is then awaited. */
    method AttemptRestart(c: Config) returns (restarting: bool)
      modifies this
      ensures Value() == Restarted(old(Value()), c)
      ensures restarting <==> old(restartCount) < c.maxRestarts
    {
      if restartCount >= c.maxRestarts {
        state := FailedState;
        if healthTimer { healthTimer := false; }
        return false;
      }
      restartCount := restartCount + 1;
      state := Starting;
      restarting := true;
    }

    /** `#periodicHealthCheck` after its await. */
    method OnProbe(outcome: Outcome, c: Config) returns (restarting: bool)
      modifies this
      ensures Value() == Settled(old(Value()), Probe, outcome, c)
      ensures restarting <==> Restarts(old(Value()), Probe, outcome, c)
    {
      if outcome == Healthy {
        if state == Degraded { state := Running; }
        return false;
      }
      state := Degraded;
      failures := failures + 1;
      restarting := AttemptRestart(c);
    }

    /** `#attemptRestart` after its await. */
    method OnRestart(outcome: Outcome, c: Config)
      modifies this
      ensures Value() == Settled(old(Value()), Restart, outcome, c)
    {
      match outcome
      case Healthy => state := Running;
      case Unhealthy => state := Degraded;
      case Rejected => state := FailedState;
    }

    /** `#activateAdapter` after its await. */
    method OnActivation(outcome: Outcome, c: Config)
      modifies this
      ensures Value() == Settled(old(Value()), Activation, outcome, c)
    {
      if outcome == Rejected { state := FailedState; return; }
      state := if outcome == Healthy then Running else Degraded;
      if c.checks { healthTimer := true; }
    }

    /** `callAdapter` after its await. */
    method OnCall(outcome: Outcome, c: Config)
      modifies this
      ensures Value() == Settled(old(Value()), Call, outcome, c)
    {
      if outcome == Rejected { state := Degraded; }
    }

    /** `#shutdownAdapter` up to its await. */
    method BeginStop()
      modifies this
      ensures Value() == Stop(old(Value()))
    {
      if healthTimer { healthTimer := false; }
      if state == Stopped { return; }
      state := Stopped;
    }
  }

  datatype HostError = HostShutdown | HostNotStarted | HostAlreadyStarted

  ghost function Values(records: seq<ManagedAdapter>): seq<Record>
    reads records
  {
    seq(|records|, k requires 0 <= k < |records| reads records => records[k].Value())
  }

  /** The fields are the source's; the ghost fields number the registrations and what is awaited for them, of which the
      program knows only what its suspended calls hold. */
  class Host {
    var started: bool
    var shutdown: bool
    var adapters: map<string, ManagedAdapter>
    ghost var records: seq<ManagedAdapter>
    ghost var places: map<string, nat>
    ghost var tasks: seq<Task>

    ghost predicate Valid()
      reads this, records
    {
      && (forall i, j :: 0 <= i < j < |records| ==> records[i] != records[j])
      && (forall i :: 0 <= i < |tasks| ==> tasks[i].rec < |records|)
      && adapters.Keys == places.Keys
      && (forall id :: id in adapters ==>
            places[id] < |records| && adapters[id] == records[places[id]] && adapters[id].providerId == id)
    }

    ghost function Snapshot(): State
      reads this, records
    {
      State(started, shutdown, Values(records), places, tasks)
    }

    constructor ()
      ensures Valid() && Snapshot() == INITIAL
    {
      started, shutdown, adapters := false, false, map[];
      records, places, tasks := [], map[], [];
    }

    method Start() returns (r: Result<(), HostError>)
      requires Valid()
      modifies this`started
      ensures Valid()
      ensures Snapshot() == StepStart(old(Snapshot()))
      ensures r == if shutdown then Err(HostShutdown) else if old(started) then Err(HostAlreadyStarted) else Ok(())
    {
      if shutdown { return Err(HostShutdown); }
      if started { return Err(HostAlreadyStarted); }
      started := true;
      r := Ok(());
    }

    /** `registerAdapter` up to the await of its first health check. */
    method Register(providerId: string) returns (r: Result<ManagedAdapter, HostError>)
      requires Valid()
      modifies this
      ensures Valid()
      ensures Snapshot() == StepRegister(old(Snapshot()), providerId)
      ensures r.Ok? <==>
        started && !shutdown && (providerId in old(adapters) ==> Down(old(adapters[providerId].Value())))
      ensures r.Ok? ==> fresh(r.value) && records == old(records) + [r.value] && adapters[providerId] == r.value
      ensures r.Err? ==>
        r.error == if shutdown then HostShutdown else if !started then HostNotStarted else HostAlreadyStarted
    {
      if shutdown { return Err(HostShutdown); }
      if !started { return Err(HostNotStarted); }
      if providerId in adapters {
        var existing := adapters[providerId];
        if existing.state != Stopped && existing.state != FailedState { return Err(HostAlreadyStarted); }
      }
      var managed := Enter(providerId);
      r := Ok(managed);
    }

    /** Enters a new registration and begins its activation. */
    method Enter(providerId: string) returns (managed: ManagedAdapter)
      requires Valid()
      modifies this`adapters, this`records, this`places, this`tasks
      ensures Valid()
      ensures Snapshot() == Entered(old(Snapshot()), providerId)
      ensures fresh(managed) && records == old(records) + [managed] && adapters[providerId] == managed
    {
      managed := new ManagedAdapter(providerId);
      adapters := adapters[providerId := managed];
      managed.state := Starting;
      places := places[providerId := |records|];
      tasks := tasks + [Task(Activation, |records|, true)];
      records := records + [managed];
      assert Values(records) == old(Values(records)) + [managed.Value()];
    }

    /** `deregisterAdapter` up to its await. */
    method BeginDeregister(providerId: string) returns (r: Result<ManagedAdapter, HostError>)
      requires Valid()
      modifies this`tasks, if providerId in adapters then {adapters[providerId]} else {}
      ensures Valid()
      ensures Snapshot() == StepDeregister(old(Snapshot()), providerId)
      ensures r.Ok? <==> started && !shutdown && providerId in adapters
      ensures r.Ok? ==> r.value == adapters[providerId]
      ensures r.Err? ==> r.error == if shutdown then HostShutdown else HostNotStarted
    {
      if shutdown { return Err(HostShutdown); }
      if !started || providerId !in adapters { return Err(HostNotStarted); }
      var managed := adapters[providerId];
      managed.BeginStop();
      tasks := tasks + [Task(Stopping, places[providerId], true)];
      assert Values(records) == old(Values(records))[places[providerId] := managed.Value()];
      r := Ok(managed);
    }

    /** `callAdapter` up to its await. */
    method BeginCall(providerId: string) returns (r: Result<ManagedAdapter, HostError>)
      requires Valid()
      modifies this`tasks
      ensures Valid()
      ensures Snapshot() == StepCall(old(Snapshot()), providerId)
      ensures r.Ok? <==>
        started && !shutdown && providerId in adapters && adapters[providerId].state in {Running, Degraded}
      ensures r.Ok? ==> r.value == adapters[providerId]
      ensures r.Err? ==> r.error == if shutdown then HostShutdown else HostNotStarted
    {
      if shutdown { return Err(HostShutdown); }
      if !started || providerId !in adapters { return Err(HostNotStarted); }
      var managed := adapters[providerId];
      if managed.state != Running && managed.state != Degraded { return Err(HostNotStarted); }
      tasks := tasks + [Task(Call, places[providerId], true)];
      r := Ok(managed);
    }

    /** `#periodicHealthCheck` up to its await: whose health a firing timer checks, if anyone's. */
    method Tick(providerId: string) returns (probed: Option<ManagedAdapter>)
      requires Valid()
      modifies this`tasks
      ensures Valid()
      ensures Snapshot() == StepTick(old(Snapshot()), providerId)
      ensures probed.Some? <==> !shutdown && providerId in adapters && !Down(adapters[providerId].Value())
      ensures probed.Some? ==> probed.value == adapters[providerId]
    {
      if providerId !in adapters || shutdown { return None; }
      var managed := adapters[providerId];
      if managed.state == Stopped || managed.state == FailedState { return None; }
      tasks := tasks + [Task(Probe, places[providerId], true)];
      probed := Some(managed);
    }

    /** What is awaited for a registration ends, and the call that awaited it goes on with the object it holds, whether
        or not the table still leads to it. */
    method Settle(managed: ManagedAdapter, kind: Kind, outcome: Outcome, c: Config, ghost i: nat)
      requires Valid() && i < |tasks| && tasks[i].open && tasks[i].kind == kind && managed == records[tasks[i].rec]
      modifies this, managed
      ensures Valid() && records == old(records)
      ensures Snapshot() == StepSettle(old(Snapshot()), i, outcome, c)
    {
      ghost var k := tasks[i].rec;
      var restarting := false;
      match kind {
        case Activation => managed.OnActivation(outcome, c);
        case Probe => restarting := managed.OnProbe(outcome, c);
        case Restart => managed.OnRestart(outcome, c);
        case Call => managed.OnCall(outcome, c);
        case Stopping =>
          adapters := adapters - {managed.providerId};
          places := places - {managed.providerId};
      }
      tasks := tasks[i := tasks[i].(open := false)] + if restarting then [Task(Kind.Restart, k, true)] else [];
      assert Values(records) == old(Values(records))[k := managed.Value()];
    }

    /** `shutdown` up to its await. */
    method Shutdown()
      requires Valid()
      modifies this, adapters.Values
      ensures Valid()
      ensures Snapshot() == StepShutdown(old(Snapshot()))
    {
      if shutdown { return; }
      shutdown := true;
      started := false;
      StopAll();
    }

    method StopAll()
      requires Valid()
      modifies adapters.Values
      ensures Valid()
      ensures Values(records) == StopListed(old(Values(records)), places)
    {
      StopEach();
      forall k | 0 <= k < |records|
        ensures records[k].Value() ==
          if Leads(places, records[k].providerId, k) then Stop(old(records[k].Value())) else old(records[k].Value())
      {
        InTableIffListed(k);
      }
    }

    /** A registration is in the table if and only if its provider leads to it. */
    lemma InTableIffListed(k: nat)
      requires Valid() && k < |records|
      ensures records[k] in adapters.Values <==> Leads(places, records[k].providerId, k)
    {
      if records[k] in adapters.Values {
        var id :| id in adapters && adapters[id] == records[k];
        assert records[places[id]] == records[k];
      }
      if Leads(places, records[k].providerId, k) {
        assert adapters[records[k].providerId] == records[k];
      }
    }

    /** The loop in `shutdown`. */
    method StopEach()
      modifies adapters.Values
      ensures forall m :: m in records ==>
        m.Value() == if m in adapters.Values then Stop(old(m.Value())) else old(m.Value())
    {
      var todo := adapters.Keys;
      ghost var done: set<ManagedAdapter> := {};
      while todo != {}
        invariant todo <= adapters.Keys && done <= adapters.Values
        invariant forall id :: id in adapters.Keys - todo ==> adapters[id] in done
        invariant forall m :: m in records ==>
          m.Value() == if m in done then Stop(old(m.Value())) else old(m.Value())
        decreases |todo|
      {
        var id :| id in todo;
        var managed := adapters[id];
        managed.BeginStop();
        done := done + {managed};
        todo := todo - {id};
      }
      assert done == adapters.Values;
    }

    /** `shutdown` after its await. */
    method EndShutdown()
      requires Valid() && shutdown
      modifies this
      ensures Valid() && records == old(records)
      ensures Snapshot() == StepShutdownSettles(old(Snapshot()))
    {
      adapters, places := map[], map[];
    }
  }
}
