/** The AI SDK stream converter: chat events in, user-interface message parts out. */
module ConvertStream {
  import opened Wrappers

  datatype ChatEvent = Chunk(delta: string) | Done | Other

  /** How the source stops by itself. */
  datatype Ending = Exhausted | Throws(message: string)

  datatype Part =
    | Start
    | TextStart(id: string)
    | TextDelta(id: string, delta: string)
    | TextEnd(id: string)
    | Finish
    | ErrorPart(text: string)
    | Abort

  /** A signal that is aborted from the arrival of event `at` on, or never. */
  predicate Aborted(at: Option<nat>, i: nat) { at.Some? && at.value <= i }

  // ----- what should come out -----------------------------------------------

  /** How many events are converted: those before the first `done`, the abort or the end. */
  function Converted(events: seq<ChatEvent>, at: Option<nat>, i: nat): (n: nat)
    requires i <= |events|
    ensures i <= n <= |events|
    ensures forall k :: i <= k < n ==> !Aborted(at, k) && !events[k].Done?
    ensures n < |events| ==> Aborted(at, n) || events[n].Done?
    decreases |events| - i
  {
    if i == |events| || Aborted(at, i) || events[i].Done? then i else Converted(events, at, i + 1)
  }

  function Deltas(events: seq<ChatEvent>): seq<string>
    decreases |events|
  {
    if events == [] then []
    else
      var last := events[|events| - 1];
      Deltas(events[..|events| - 1]) + if last.Chunk? then [last.delta] else []
  }

  function DeltaParts(id: string, deltas: seq<string>): seq<Part> {
    seq(|deltas|, i requires 0 <= i < |deltas| => TextDelta(id, deltas[i]))
  }

  /** A text part that is opened and closed only if something is in it. */
  function TextParts(id: string, deltas: seq<string>): seq<Part> {
    if deltas == [] then [] else [TextStart(id)] + DeltaParts(id, deltas) + [TextEnd(id)]
  }

  function Terminal(events: seq<ChatEvent>, ending: Ending, at: Option<nat>): Part {
    var n := Converted(events, at, 0);
    if n < |events| then (if Aborted(at, n) then Abort else Finish)
    else if ending.Exhausted? then Finish
    else if Aborted(at, n) then Abort
    else ErrorPart(ending.message)
  }

  function Output(events: seq<ChatEvent>, ending: Ending, at: Option<nat>, id: string): seq<Part> {
    [Start] + TextParts(id, Deltas(events[..Converted(events, at, 0)])) + [Terminal(events, ending, at)]
  }

  /** What is out while the text is still open. */
  function SoFar(id: string, deltas: seq<string>): seq<Part> {
    [Start] + if deltas == [] then [] else [TextStart(id)] + DeltaParts(id, deltas)
  }

  /** The text end that a terminal is preceded by. */
  function Closing(id: string, open: bool, last: Part): seq<Part> { (if open then [TextEnd(id)] else []) + [last] }

  lemma SoFarGrows(id: string, deltas: seq<string>, d: string)
    ensures SoFar(id, deltas + [d])
      == SoFar(id, deltas) + (if deltas == [] then [TextStart(id)] else []) + [TextDelta(id, d)]
  {
    assert DeltaParts(id, deltas + [d]) == DeltaParts(id, deltas) + [TextDelta(id, d)];
  }

  lemma SoFarCloses(id: string, deltas: seq<string>, last: Part)
    ensures SoFar(id, deltas) + Closing(id, deltas != [], last) == [Start] + TextParts(id, deltas) + [last]
  {
  }

  lemma ConvertedStops(events: seq<ChatEvent>, at: Option<nat>, i: nat)
    requires i <= |events| && forall k :: 0 <= k < i ==> !Aborted(at, k) && !events[k].Done?
    requires i < |events| ==> Aborted(at, i) || events[i].Done?
    ensures Converted(events, at, 0) == i
  {
  }

  lemma OutputFrom(events: seq<ChatEvent>, ending: Ending, at: Option<nat>, id: string, i: nat)
    requires i <= |events| && forall k :: 0 <= k < i ==> !Aborted(at, k) && !events[k].Done?
    requires i < |events| ==> Aborted(at, i) || events[i].Done?
    ensures var deltas := Deltas(events[..i]);
      Output(events, ending, at, id)
        == SoFar(id, deltas) + Closing(id, deltas != [], Terminal(events, ending, at))
    ensures Terminal(events, ending, at) ==
      if i < |events| then (if Aborted(at, i) then Abort else Finish)
      else match ending
           case Exhausted => Finish
           case Throws(message) => if Aborted(at, i) then Abort else ErrorPart(message)
  {
    ConvertedStops(events, at, i);
    SoFarCloses(id, Deltas(events[..i]), Terminal(events, ending, at));
  }

  lemma DeltasGrow(events: seq<ChatEvent>, i: nat)
    requires i < |events|
    ensures Deltas(events[..i + 1]) == Deltas(events[..i]) + if events[i].Chunk? then [events[i].delta] else []
  {
    assert events[..i + 1][..i] == events[..i];
  }

  // ----- the converter ------------------------------------------------------

  method Close(out: seq<Part>, textStarted: bool, partId: string, last: Part) returns (closed: seq<Part>)
    ensures closed == out + Closing(partId, textStarted, last)
  {
    closed := out;
    if textStarted { closed := closed + [TextEnd(partId)]; }
    closed := closed + [last];
  }

  /** Main result: for every source, failure and abort point the parts are a start, at most one text part around the
      deltas converted, and exactly one terminal. */
  method Convert(events: seq<ChatEvent>, ending: Ending, at: Option<nat>, partId: string) returns (out: seq<Part>)
    ensures out == Output(events, ending, at, partId)
  {
    var textStarted := false;
    out := [Start];
    var i := 0;
    while i < |events|
      invariant 0 <= i <= |events|
      invariant forall k :: 0 <= k < i ==> !Aborted(at, k) && !events[k].Done?
      invariant textStarted <==> Deltas(events[..i]) != []
      invariant out == SoFar(partId, Deltas(events[..i]))
    {
      if Aborted(at, i) {
        OutputFrom(events, ending, at, partId, i);
        out := Close(out, textStarted, partId, Abort);
        return;
      }
      var event := events[i];
      DeltasGrow(events, i);
      if event.Chunk? {
        SoFarGrows(partId, Deltas(events[..i]), event.delta);
        if !textStarted {
          out := out + [TextStart(partId)];
          textStarted := true;
        }
        out := out + [TextDelta(partId, event.delta)];
      }
      if event.Done? {
        OutputFrom(events, ending, at, partId, i);
        out := Close(out, textStarted, partId, Finish);
        return;
      }
      i := i + 1;
    }
    OutputFrom(events, ending, at, partId, i);
    match ending
    case Exhausted => out := Close(out, textStarted, partId, Finish);
    case Throws(message) =>
      out := Close(out, textStarted, partId, if Aborted(at, i) then Abort else ErrorPart(message));
  }

  // ----- what the output tells ----------------------------------------------

  predicate IsTerminal(p: Part) { p.Finish? || p.Abort? || p.ErrorPart? }

  /** The text of a sequence of parts. */
  function TextOf(parts: seq<Part>): seq<string>
    decreases |parts|
  {
    if parts == [] then []
    else (if parts[0].TextDelta? then [parts[0].delta] else []) + TextOf(parts[1..])
  }

  /** Where the source ends: at its first `done`, or after its last event. */
  function EndOf(events: seq<ChatEvent>): (m: nat)
    ensures m <= |events|
  {
    Converted(events, None, 0)
  }

  /** The source's chunks before its first `done`, or before its end. */
  function SourceText(events: seq<ChatEvent>): seq<string> { Deltas(events[..EndOf(events)]) }

  lemma {:induction false} TextOfDeltaParts(id: string, deltas: seq<string>, rest: seq<Part>)
    ensures TextOf(DeltaParts(id, deltas) + rest) == deltas + TextOf(rest)
    decreases |deltas|
  {
    if deltas == [] {
      assert DeltaParts(id, deltas) + rest == rest;
    } else {
      var parts := DeltaParts(id, deltas) + rest;
      TextOfDeltaParts(id, deltas[1..], rest);
      assert parts[1..] == DeltaParts(id, deltas[1..]) + rest;
      assert deltas == [deltas[0]] + deltas[1..];
    }
  }

  lemma TextOfOutput(events: seq<ChatEvent>, ending: Ending, at: Option<nat>, id: string)
    ensures TextOf(Output(events, ending, at, id)) == Deltas(events[..Converted(events, at, 0)])
  {
    TextOfParts(id, Deltas(events[..Converted(events, at, 0)]), Terminal(events, ending, at));
  }

  lemma TextOfParts(id: string, deltas: seq<string>, last: Part)
    requires !last.TextDelta?
    ensures TextOf([Start] + TextParts(id, deltas) + [last]) == deltas
  {
    var out := [Start] + TextParts(id, deltas) + [last];
    assert [last][1..] == [] && TextOf([last]) == [];
    if deltas == [] {
      assert out[1..] == [last];
    } else {
      var tail := [TextEnd(id)] + [last];
      assert tail[1..] == [last];
      assert TextOf(tail) == [];
      TextOfDeltaParts(id, deltas, tail);
      assert out[1..][1..] == DeltaParts(id, deltas) + tail;
      assert out[1..][0] == TextStart(id);
      assert TextOf(out) == TextOf(out[1..]) == TextOf(out[1..][1..]);
      assert deltas + [] == deltas;
    }
  }

  lemma {:induction false} DeltasArePrefix(events: seq<ChatEvent>, n: nat, m: nat)
    requires n <= m <= |events|
    ensures Deltas(events[..n]) <= Deltas(events[..m])
    decreases m
  {
    if n < m {
      DeltasArePrefix(events, n, m - 1);
      DeltasGrow(events, m - 1);
    }
  }

  lemma StopsNoLater(events: seq<ChatEvent>, at: Option<nat>)
    ensures Converted(events, at, 0) <= EndOf(events)
  {
    var n, m := Converted(events, at, 0), EndOf(events);
    assert m < |events| ==> events[m].Done?;
  }

  /** The source came to its end by itself and nothing was aborted by then. */
  predicate Completes(events: seq<ChatEvent>, ending: Ending, at: Option<nat>) {
    && (EndOf(events) < |events| || ending.Exhausted?)
    && (forall k :: 0 <= k <= EndOf(events) && k < |events| ==> !Aborted(at, k))
  }

  lemma FinishIffCompletes(events: seq<ChatEvent>, ending: Ending, at: Option<nat>)
    ensures Terminal(events, ending, at) == Finish <==> Completes(events, ending, at)
  {
    var n := Converted(events, at, 0);
    if Completes(events, ending, at) { ConvertedStops(events, at, EndOf(events)); }
    if Terminal(events, ending, at) == Finish { ConvertedStops(events, None, n); }
  }

  /** Main result: only the last part is terminal. It is `finish` if and only if the source came to its end, by `done`
      or by exhaustion, and nothing was aborted by then; the text is then all the source's chunks up to there, and
      whatever the terminal is, it is a prefix of them. */
  lemma FinishMeansComplete(events: seq<ChatEvent>, ending: Ending, at: Option<nat>, id: string)
    ensures var out := Output(events, ending, at, id);
      && |out| >= 2 && out[0] == Start
      && (forall i :: 0 <= i < |out| ==> (IsTerminal(out[i]) <==> i == |out| - 1))
      && (out[|out| - 1] == Finish <==> Completes(events, ending, at))
      && (Completes(events, ending, at) ==> TextOf(out) == SourceText(events))
      && TextOf(out) <= SourceText(events)
  {
    var n := Converted(events, at, 0);
    TextOfOutput(events, ending, at, id);
    FinishIffCompletes(events, ending, at);
    StopsNoLater(events, at);
    DeltasArePrefix(events, n, EndOf(events));
    if Completes(events, ending, at) { ConvertedStops(events, at, EndOf(events)); }
  }

  /** The source's chunks, one by one. */
  lemma DeltasMean(before: seq<ChatEvent>, e: ChatEvent)
    ensures Deltas([]) == []
    ensures Deltas(before + [e]) == Deltas(before) + (match e case Chunk(delta) => [delta] case _ => [])
  {
    assert (before + [e])[..|before|] == before;
  }

  /** The signal was aborted by the time an event was looked at that is no later than the source's end. */
  predicate AbortedInTime(events: seq<ChatEvent>, at: Option<nat>) {
    at.Some? && at.value < |events| && at.value <= EndOf(events)
  }

  lemma StopsAtAbort(events: seq<ChatEvent>, at: Option<nat>)
    ensures AbortedInTime(events, at) ==> Converted(events, at, 0) == at.value
    ensures !AbortedInTime(events, at) ==> Converted(events, at, 0) == EndOf(events)
  {
    ConvertedStops(events, at, if AbortedInTime(events, at) then at.value else EndOf(events));
  }

  /** Main result: the last part is `abort` if an event at or before the source's end was looked at after the abort, or
      the source failed after it; it is an error, with the failure's text, if the source failed before. */
  lemma TerminalMeans(events: seq<ChatEvent>, ending: Ending, at: Option<nat>, id: string)
    ensures var out := Output(events, ending, at, id);
      var last := out[|out| - 1];
      var failed := EndOf(events) == |events| && ending.Throws?;
      && (last == Abort <==> AbortedInTime(events, at) || (failed && at.Some? && at.value <= |events|))
      && (forall text :: last == ErrorPart(text) <==>
            failed && text == ending.message && !(at.Some? && at.value <= |events|))
  {
    StopsAtAbort(events, at);
  }

  /** Main result: the text, if there is any, is one part that is started before its first delta and ended behind its
      last, under the part's id. */
  lemma TextIsBracketed(events: seq<ChatEvent>, ending: Ending, at: Option<nat>, id: string)
    ensures var out := Output(events, ending, at, id);
      var text := TextOf(out);
      if text == [] then |out| == 2
      else
        && |out| == |text| + 4 && out[1] == TextStart(id) && out[|out| - 2] == TextEnd(id)
        && forall i :: 0 <= i < |text| ==> out[i + 2] == TextDelta(id, text[i])
  {
    TextOfOutput(events, ending, at, id);
  }
}
