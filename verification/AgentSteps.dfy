/** How the streams of a run decide its course: the step bound, conservation of the assistant
    text, and the message reassembled from one provider stream. */
module AgentSteps {
  import opened Bytes
  import opened Llm
  import opened AgentSpec
  import H = AgentHistory
  import E = AgentEvents
  import S = SessionStore
  import Ad = EinoAdapter
  import Cs = ChunkStream
  import Sh = StreamShape
  import D = Demux

  // ---------------------------------------------------------------------------------
  // Reading a stream directly.
  // ---------------------------------------------------------------------------------

  predicate HasCall(evs: seq<StreamEvent>) {
    exists e <- evs :: e.ToolCallStart? || e.ToolCallArgs?
  }

  predicate HasEnd(evs: seq<StreamEvent>) {
    exists e <- evs :: e.MessageEnd?
  }

  lemma HasSnoc(evs: seq<StreamEvent>)
    requires evs != []
    ensures var init, last := evs[..|evs| - 1], evs[|evs| - 1];
      && (HasCall(evs) <==> HasCall(init) || last.ToolCallStart? || last.ToolCallArgs?)
      && (HasEnd(evs) <==> HasEnd(init) || last.MessageEnd?)
  {
    assert evs == evs[..|evs| - 1] + [evs[|evs| - 1]];
  }

  /** All argument text sent for an id. */
  function ArgsFor(evs: seq<StreamEvent>, id: Bytes): Bytes {
    if evs == [] then ""
    else
      var before, last := ArgsFor(evs[..|evs| - 1], id), evs[|evs| - 1];
      if last.ToolCallArgs? && last.id == id then before + last.delta else before
  }

  /** No error, no call over the cap, and no message end before a call has been seen. */
  predicate KeepsGoing(evs: seq<StreamEvent>) {
    evs == [] ||
    var init, last := evs[..|evs| - 1], evs[|evs| - 1];
    && KeepsGoing(init)
    && !last.Error?
    && (last.ToolCallArgs? ==> |ArgsFor(evs, last.id)| <= MAX_ARGUMENTS)
    && (last.MessageEnd? ==> HasCall(init))
  }

  /** The stream ends in tool calls. */
  predicate EndsInCalls(evs: seq<StreamEvent>) { KeepsGoing(evs) && HasEnd(evs) }

  predicate StreamEndsInCalls(w: World, k: nat) {
    w.stream(k).Stream? && EndsInCalls(w.stream(k).events)
  }

  function ArgsIn(acc: Acc, id: Bytes): Bytes {
    if id in acc.partials then acc.partials[id].args else ""
  }

  /** The accumulators know the arguments of every id, and whether there was a call. */
  lemma {:induction false} AccKnowsArgs(evs: seq<StreamEvent>, id: Bytes)
    requires AccumulateAll(evs).Some?
    ensures ArgsIn(AccumulateAll(evs).value, id) == ArgsFor(evs, id)
    ensures AccumulateAll(evs).value.order != [] <==> HasCall(evs)
    ensures id in AccumulateAll(evs).value.partials ==> AccumulateAll(evs).value.order != []
  {
    if evs != [] {
      AccKnowsArgs(evs[..|evs| - 1], id);
      var last := evs[|evs| - 1];
      if last.ToolCallStart? || last.ToolCallArgs? { AccKnowsArgs(evs[..|evs| - 1], last.id); }
      HasSnoc(evs);
    }
  }

  lemma {:induction false} CallBeforeEnd(evs: seq<StreamEvent>)
    requires KeepsGoing(evs) && HasEnd(evs)
    ensures HasCall(evs)
  {
    HasSnoc(evs);
    var init := evs[..|evs| - 1];
    if HasEnd(init) { CallBeforeEnd(init); }
  }

  // ---------------------------------------------------------------------------------
  // One stream, unless a Save fails.
  // ---------------------------------------------------------------------------------

  /** A message end with calls goes on; one without them ends the run. */
  lemma MessageEndCourse(w: World, s: StepState, ev: StreamEvent)
    requires Fair(w) && s.run.outcome.None?
    ensures var a := OnMessageEnd(w, s, ev);
      && a.asst.toolCalls == s.asst.toolCalls + Calls(s.acc)
      && a.acc == s.acc
      && (!SaveLost(a.run.outcome) ==> (a.run.outcome.None? <==> a.asst.toolCalls != []))
  {
    var asst := Built(s);
    if asst.toolCalls != [] {
      var r := SaveAnswer(w, s.run, asst);
      E.RunToolsEmits(w, Emit(r, [ev]), asst.toolCalls);
    }
  }

  /** Where the range loop stands after part of a stream. */
  ghost predicate Stands(s: StepState, evs: seq<StreamEvent>) {
    && AccumulateAll(evs) == Some(s.acc)
    && (s.asst.toolCalls != [] <==> HasEnd(evs))
    && (!HasEnd(evs) ==> s.asst == BLANK_ASSISTANT)
  }

  lemma ArgsCourse(w: World, s: StepState, evs: seq<StreamEvent>)
    requires Fair(w) && s.run.outcome.None? && evs != [] && evs[|evs| - 1].ToolCallArgs?
    requires KeepsGoing(evs[..|evs| - 1]) && Stands(s, evs[..|evs| - 1])
    ensures var a := OnEvent(w, s, evs[|evs| - 1]);
      && (!SaveLost(a.run.outcome) ==> (a.run.outcome.None? <==> KeepsGoing(evs)))
      && (a.run.outcome.None? ==> Stands(a, evs))
  {
    hide Calls, HasEnd, HasCall;
    var init, last := evs[..|evs| - 1], evs[|evs| - 1];
    HasSnoc(evs);
    AccKnowsArgs(init, last.id);
    assert ArgsFor(evs, last.id) == ArgsIn(s.acc, last.id) + last.delta;
  }

  lemma EndTaken(w: World, s: StepState, ev: StreamEvent)
    requires Fair(w) && ev.MessageEnd?
    ensures OnEvent(w, s, ev) == OnMessageEnd(w, s.(run := s.run.(consumed := s.run.consumed + [ev])), ev)
  {
  }

  lemma NoCallsExactly(s: StepState)
    ensures s.asst.toolCalls + Calls(s.acc) == [] <==> s.asst.toolCalls == [] && s.acc.order == []
  {
  }

  /** A message end, given whether there has been a call and an earlier message end. */
  lemma EndStands(w: World, s: StepState, ev: StreamEvent, hadCall: bool, hadEnd: bool)
    requires Fair(w) && s.run.outcome.None? && ev.MessageEnd?
    requires (s.acc.order != [] <==> hadCall) && (s.asst.toolCalls != [] <==> hadEnd) && (hadEnd ==> hadCall)
    ensures var a := OnEvent(w, s, ev);
      && a.acc == s.acc
      && (!SaveLost(a.run.outcome) ==> (a.run.outcome.None? <==> hadCall))
      && (a.run.outcome.None? ==> a.asst.toolCalls != [])
  {
    EndTaken(w, s, ev);
    NoCallsExactly(s);
    hide *;
    MessageEndCourse(w, s.(run := s.run.(consumed := s.run.consumed + [ev])), ev);
  }

  lemma EndCourse(w: World, s: StepState, evs: seq<StreamEvent>)
    requires Fair(w) && s.run.outcome.None? && evs != [] && evs[|evs| - 1].MessageEnd?
    requires KeepsGoing(evs[..|evs| - 1]) && Stands(s, evs[..|evs| - 1])
    ensures var a := OnEvent(w, s, evs[|evs| - 1]);
      && (!SaveLost(a.run.outcome) ==> (a.run.outcome.None? <==> KeepsGoing(evs)))
      && (a.run.outcome.None? ==> Stands(a, evs))
  {
    var init, last := evs[..|evs| - 1], evs[|evs| - 1];
    HasSnoc(evs);
    AccKnowsArgs(init, "");
    if HasEnd(init) { CallBeforeEnd(init); }
    EndStands(w, s, last, HasCall(init), HasEnd(init));
    assert AccumulateAll(evs) == Some(s.acc);
  }

  lemma PlainCourse(w: World, s: StepState, evs: seq<StreamEvent>)
    requires Fair(w) && s.run.outcome.None? && evs != []
    requires !evs[|evs| - 1].MessageEnd? && !evs[|evs| - 1].ToolCallArgs?
    requires KeepsGoing(evs[..|evs| - 1]) && Stands(s, evs[..|evs| - 1])
    ensures var a := OnEvent(w, s, evs[|evs| - 1]);
      && (!SaveLost(a.run.outcome) ==> (a.run.outcome.None? <==> KeepsGoing(evs)))
      && (a.run.outcome.None? ==> Stands(a, evs))
  {
    HasSnoc(evs);
  }

  lemma {:induction false} ConsumeCourse(w: World, s0: StepState, evs: seq<StreamEvent>)
    requires Fair(w) && s0.run.outcome.None? && s0.acc == EMPTY_ACC && s0.asst == BLANK_ASSISTANT
    ensures var s := Consume(w, s0, evs);
      && (!SaveLost(s.run.outcome) ==> (s.run.outcome.None? <==> KeepsGoing(evs)))
      && (s.run.outcome.None? ==> Stands(s, evs))
  {
    if evs != [] {
      var init := evs[..|evs| - 1];
      ConsumeCourse(w, s0, init);
      var s := Consume(w, s0, init);
      if s.run.outcome.None? {
        if evs[|evs| - 1].ToolCallArgs? {
          ArgsCourse(w, s, evs);
        } else if evs[|evs| - 1].MessageEnd? {
          EndCourse(w, s, evs);
        } else {
          PlainCourse(w, s, evs);
        }
      }
    }
  }

  /** The run goes on to another step exactly when the stream ends in tool calls. */
  lemma StepGoesOn(w: World, r: RunState)
    requires Fair(w) && r.outcome.None?
    ensures !SaveLost(Step(w, r).outcome) ==>
      (Step(w, r).outcome.None? <==> StreamEndsInCalls(w, r.streams))
  {
    var result := w.stream(r.streams);
    if result.Stream? {
      ConsumeCourse(w, StepStart(r), result.events);
    }
  }

  // ---------------------------------------------------------------------------------
  // The step bound.
  // ---------------------------------------------------------------------------------

  lemma EventOutcome(w: World, s: StepState, ev: StreamEvent)
    requires Fair(w) && s.run.outcome.None?
    ensures OnEvent(w, s, ev).run.outcome != Some(MaxStepsReached)
    ensures OnEvent(w, s, ev).run.streams == s.run.streams
  {
    if ev.MessageEnd? {
      var run := s.run.(consumed := s.run.consumed + [ev]);
      var asst := Built(s);
      E.RunToolsEmits(w, Emit(SaveAnswer(w, run, asst), [ev]), asst.toolCalls);
    }
  }

  lemma {:induction false} ConsumeOutcome(w: World, s: StepState, evs: seq<StreamEvent>)
    requires Fair(w) && s.run.outcome.None?
    ensures Consume(w, s, evs).run.outcome != Some(MaxStepsReached)
    ensures Consume(w, s, evs).run.streams == s.run.streams
  {
    if evs != [] {
      var init := evs[..|evs| - 1];
      ConsumeOutcome(w, s, init);
      var mid := Consume(w, s, init);
      if mid.run.outcome.None? { EventOutcome(w, mid, evs[|evs| - 1]); }
    }
  }

  lemma StepOutcome(w: World, r: RunState)
    requires Fair(w) && r.outcome.None?
    ensures Step(w, r).outcome != Some(MaxStepsReached)
    ensures Step(w, r).streams == r.streams + 1
  {
    var result := w.stream(r.streams);
    if result.Stream? {
      ConsumeOutcome(w, StepStart(r), result.events);
    }
  }

  lemma {:induction false} StepsBound(w: World, r: RunState, left: nat)
    requires Fair(w)
    ensures r.streams <= Steps(w, r, left).streams <= r.streams + left
    ensures r.outcome.None? && Steps(w, r, left).outcome == Some(MaxStepsReached) ==>
      Steps(w, r, left).streams == r.streams + left
    decreases left
  {
    if r.outcome.None? && left > 0 {
      StepOutcome(w, r);
      hide Step, Fair;
      StepsBound(w, Step(w, r), left - 1);
    }
  }

  /** n streams in a row end in tool calls. */
  predicate AllEndInCalls(w: World, from: nat, n: nat) {
    forall k :: from <= k < from + n ==> StreamEndsInCalls(w, k)
  }

  lemma FirstEndsInCalls(w: World, from: nat, n: nat)
    requires n > 0
    ensures AllEndInCalls(w, from, n) <==> StreamEndsInCalls(w, from) && AllEndInCalls(w, from + 1, n - 1)
  {
  }

  lemma {:induction false} StepsExhausted(w: World, r: RunState, left: nat)
    requires Fair(w) && r.outcome.None?
    ensures var o := Steps(w, r, left).outcome;
      o == Some(MaxStepsReached) <==> !SaveLost(o) && AllEndInCalls(w, r.streams, left)
    decreases left
  {
    hide Step;
    if left > 0 {
      StepGoesOn(w, r);
      StepOutcome(w, r);
      FirstEndsInCalls(w, r.streams, left);
      var a := Step(w, r);
      if a.outcome.None? {
        StepsExhausted(w, a, left - 1);
      } else {
        assert Steps(w, a, left - 1) == a;
      }
    }
  }

  /** At most MaxSteps streams are opened, whatever happens; and the run reports that it reached
      the bound exactly when all MaxSteps streams ended in tool calls and no Save failed. */
  lemma MaxStepsExactly(w: World, maxSteps: int, history: seq<Message>, input: Bytes)
    requires Fair(w)
    ensures var r := Run(w, maxSteps, history, input); var n := if maxSteps <= 0 then 12 else maxSteps;
      && r.streams <= n
      && (r.outcome == Some(MaxStepsReached) ==> r.streams == n)
      && (r.outcome == Some(MaxStepsReached) <==> !SaveLost(r.outcome) && AllEndInCalls(w, 0, n))
  {
    var r0 := Opening(w, history, input);
    StepsBound(w, r0, EffectiveSteps(maxSteps));
    if r0.outcome.None? { StepsExhausted(w, r0, EffectiveSteps(maxSteps)); }
  }

  // ---------------------------------------------------------------------------------
  // The card text is the assistant text.
  // ---------------------------------------------------------------------------------

  /** The contents of the assistant messages, in order. */
  function Contents(ms: seq<Message>): Bytes {
    if ms == [] then ""
    else
      var before, last := Contents(ms[..|ms| - 1]), ms[|ms| - 1];
      if last.role == Assistant then before + last.content else before
  }

  lemma ContentsSnoc(ms: seq<Message>, m: Message)
    ensures Contents(ms + [m]) == if m.role == Assistant then Contents(ms) + m.content else Contents(ms)
  {
    assert (ms + [m])[..|ms|] == ms;
  }

  lemma {:induction false} ContentsOfTools(ms: seq<Message>, rs: seq<ToolResult>)
    ensures Contents(ms + ToolMessages(rs)) == Contents(ms)
  {
    if rs == [] {
      assert ms + ToolMessages(rs) == ms;
    } else {
      var n := |rs| - 1;
      ContentsOfTools(ms, rs[..n]);
      ContentsSnoc(ms + ToolMessages(rs[..n]), ToolMessage(rs[n]));
      assert ms + ToolMessages(rs) == ms + ToolMessages(rs[..n]) + [ToolMessage(rs[n])];
    }
  }

  /** A terminator comes at most once, and last. */
  predicate Tidy(evs: seq<StreamEvent>) {
    forall k :: 0 <= k < |evs| - 1 ==> !IsTerminator(evs[k])
  }

  ghost predicate AllTidy(w: World) {
    forall k: nat :: w.stream(k).Stream? ==> Tidy(w.stream(k).events)
  }

  /** Before the terminator: nothing is appended, and text is forwarded as it accumulates. */
  ghost predicate InBody(r: RunState, s: StepState, evs: seq<StreamEvent>) {
    && s.run.ops == r.ops && s.asst == BLANK_ASSISTANT
    && (if AccumulateAll(evs).Some?
        then s.run.outcome.None? && s.acc == AccumulateAll(evs).value
             && TextOf(s.run.emitted) == TextOf(r.emitted) + s.acc.text
        else s.run.outcome == Some(ArgsTooLarge))
  }

  lemma BodyEvent(w: World, r: RunState, s: StepState, evs: seq<StreamEvent>)
    requires Fair(w) && evs != [] && !IsTerminator(evs[|evs| - 1])
    requires InBody(r, s, evs[..|evs| - 1]) && s.run.outcome.None?
    ensures InBody(r, OnEvent(w, s, evs[|evs| - 1]), evs)
  {
    var last := evs[|evs| - 1];
    TextOfSnoc(s.run.emitted, last);
    if last.TextDelta? {
      assert TextOf(r.emitted) + (s.acc.text + last.text) == TextOf(r.emitted) + s.acc.text + last.text;
    }
  }

  lemma {:induction false} ConsumeBody(w: World, r: RunState, s0: StepState, evs: seq<StreamEvent>)
    requires Fair(w) && r.outcome.None? && s0 == StepStart(r)
    requires forall e <- evs :: !IsTerminator(e)
    ensures InBody(r, Consume(w, s0, evs), evs)
  {
    if evs == [] {
      assert TextOf(r.emitted) + "" == TextOf(r.emitted);
    } else {
      var init, last := evs[..|evs| - 1], evs[|evs| - 1];
      assert last in evs;
      ConsumeBody(w, r, s0, init);
      var s := Consume(w, s0, init);
      if s.run.outcome.None? { BodyEvent(w, r, s, evs); }
    }
  }

  lemma TextOfSnoc(evs: seq<StreamEvent>, e: StreamEvent)
    ensures TextOf(evs + [e]) == TextOf(evs) + if e.TextDelta? then e.text else ""
  {
    assert (evs + [e])[..|evs|] == evs;
  }

  function AnswerOf(text: Bytes, thinking: Bytes, calls: seq<ToolCall>): Message {
    Message(Assistant, text, thinking, calls, "", "", false)
  }

  /** Saving an answer appends it to the transcript and emits nothing. */
  lemma AnswerAppends(w: World, r: RunState, asst: Message)
    requires asst.role == Assistant
    ensures var a := SaveAnswer(w, r, asst);
      && S.Transcript(a.ops) == S.Transcript(r.ops) + [asst]
      && Contents(S.Transcript(a.ops)) == Contents(S.Transcript(r.ops)) + asst.content
      && a.emitted == r.emitted
      && (a.outcome == r.outcome || SaveLost(a.outcome))
  {
    H.TranscriptSnoc(r.ops, S.Append(asst));
    H.TranscriptSnoc(Append(r, asst).ops, S.Op.Save);
    ContentsSnoc(S.Transcript(r.ops), asst);
  }

  lemma Longer(a: seq<Message>, m: Message, b: seq<Message>)
    ensures a + [m] <= b ==> a <= b
  {
  }

  /** What a message end appends to the transcript. */
  lemma MessageEndAppends(w: World, s: StepState, ev: StreamEvent)
    requires Fair(w) && s.run.outcome.None? && s.asst == BLANK_ASSISTANT && ev.MessageEnd?
    ensures var a := OnMessageEnd(w, s, ev).run; var asst := Built(s);
      && asst == AnswerOf(s.acc.text, s.acc.thinking, Calls(s.acc))
      && if IsEmptyAnswer(asst) then a.outcome == Some(EmptyResponse) && a.ops == s.run.ops
         else
           && S.Transcript(s.run.ops) + [asst] <= S.Transcript(a.ops)
           && Contents(S.Transcript(a.ops)) == Contents(S.Transcript(s.run.ops)) + s.acc.text
           && TextOf(a.emitted) == TextOf(s.run.emitted)
  {
    var asst := Built(s);
    assert s.asst.toolCalls + Calls(s.acc) == Calls(s.acc);
    hide Calls, SaveAnswer, RunTools, S.Transcript, Contents, TextOf;
    if !IsEmptyAnswer(asst) {
      var r := SaveAnswer(w, s.run, asst);
      AnswerAppends(w, s.run, asst);
      TextOfSnoc(r.emitted, ev);
      if r.outcome.None? && asst.toolCalls != [] {
        ToolsAppend(w, Emit(r, [ev]), asst.toolCalls);
        Longer(S.Transcript(s.run.ops), asst, S.Transcript(RunTools(w, Emit(r, [ev]), asst.toolCalls).ops));
      }
    }
  }

  lemma ToolsAppend(w: World, r: RunState, calls: seq<ToolCall>)
    requires Fair(w)
    ensures var a := RunTools(w, r, calls);
      && S.Transcript(r.ops) <= S.Transcript(a.ops)
      && Contents(S.Transcript(a.ops)) == Contents(S.Transcript(r.ops))
      && TextOf(a.emitted) == TextOf(r.emitted)
      && (a.outcome == r.outcome || SaveLost(a.outcome))
  {
    var results := Results(w, r.batches, calls);
    var r1 := Execute(w, r, calls);
    H.AppendAllTranscript(r1, ToolMessages(results));
    H.TranscriptSnoc(AppendAll(r1, ToolMessages(results)).ops, S.Op.Save);
    ContentsOfTools(S.Transcript(r.ops), results);
    E.RunToolsEmits(w, r, calls);
    E.ExecuteForwards(w, r, calls);
    E.DeltasCarryText(r1.emitted);
    E.DeltasCarryText(r.emitted);
  }

  ghost predicate TextMatches(r: RunState) {
    TextOf(r.emitted) == Contents(S.Transcript(r.ops))
  }

  lemma LastText(w: World, r: RunState, s: StepState, init: seq<StreamEvent>, last: StreamEvent)
    requires Fair(w) && r.outcome.None? && TextMatches(r) && InBody(r, s, init) && IsTerminator(last)
    ensures var a := if s.run.outcome.Some? then s else OnEvent(w, s, last);
      TextMatches(a.run) || a.run.outcome !in {None, Some(Finished)} || a.asst == BLANK_ASSISTANT
  {
    hide OnMessageEnd, TextOf, Contents, S.Transcript;
    if s.run.outcome.None? && last.MessageEnd? {
      EndTaken(w, s, last);
      MessageEndAppends(w, s.(run := s.run.(consumed := s.run.consumed + [last])), last);
    }
  }

  /** Consuming a whole stream whose only terminator is its last event. */
  lemma StreamText(w: World, r: RunState, s0: StepState, evs: seq<StreamEvent>)
    requires Fair(w) && r.outcome.None? && TextMatches(r) && s0 == StepStart(r)
    requires Tidy(evs) && evs != []
    ensures var s := Consume(w, s0, evs);
      || TextMatches(s.run)
      || s.run.outcome !in {None, Some(Finished)}
      || s.asst == BLANK_ASSISTANT
  {
    var init, last := evs[..|evs| - 1], evs[|evs| - 1];
    if IsTerminator(last) {
      ConsumeBody(w, r, s0, init);
      var s := Consume(w, s0, init);
      LastText(w, r, s, init, last);
    } else {
      forall e | e in evs ensures !IsTerminator(e) {
        var k :| 0 <= k < |evs| && evs[k] == e;
      }
      ConsumeBody(w, r, s0, evs);
    }
  }

  lemma StepText(w: World, r: RunState)
    requires Fair(w) && AllTidy(w) && r.outcome.None? && TextMatches(r)
    ensures Step(w, r).outcome in {None, Some(Finished)} ==> TextMatches(Step(w, r))
  {
    var result := w.stream(r.streams);
    if result.Stream? && result.events != [] {
      StreamText(w, r, StepStart(r), result.events);
      FinishedIsBuilt(w, StepStart(r), result.events);
    }
  }

  /** A blank message after the loop means that the run has not finished. */
  lemma {:induction false} FinishedIsBuilt(w: World, s: StepState, evs: seq<StreamEvent>)
    requires Fair(w) && s.run.outcome.None?
    ensures var a := Consume(w, s, evs);
      a.run.outcome == Some(Finished) ==> !IsBlank(a.asst)
  {
    if evs != [] {
      var init, last := evs[..|evs| - 1], evs[|evs| - 1];
      FinishedIsBuilt(w, s, init);
      var mid := Consume(w, s, init);
      if mid.run.outcome.None? && last.MessageEnd? {
        FinishedEnd(w, mid.(run := mid.run.(consumed := mid.run.consumed + [last])), last);
      }
    }
  }

  lemma FinishedEnd(w: World, s: StepState, ev: StreamEvent)
    requires Fair(w) && s.run.outcome.None?
    ensures var a := OnMessageEnd(w, s, ev);
      a.run.outcome == Some(Finished) ==> !IsBlank(a.asst)
  {
    if s.acc.text == "" { TrimSpaceIdentity(""); }
    var asst := Built(s);
    E.RunToolsEmits(w, Emit(SaveAnswer(w, s.run, asst), [ev]), asst.toolCalls);
  }

  lemma {:induction false} StepsText(w: World, r: RunState, left: nat)
    requires Fair(w) && AllTidy(w) && TextMatches(r) && r.outcome.None?
    ensures Steps(w, r, left).outcome in {Some(Finished), Some(MaxStepsReached)} ==> TextMatches(Steps(w, r, left))
    decreases left
  {
    if left > 0 {
      StepText(w, r);
      StepOutcome(w, r);
      var a := Step(w, r);
      if a.outcome.None? {
        StepsText(w, a, left - 1);
      } else {
        assert Steps(w, a, left - 1) == a;
      }
    }
  }

  /** When the run returns nil or reports the step bound, the text it emitted is exactly the
      contents of the assistant messages it appended. */
  lemma EmittedTextIsAssistantText(w: World, maxSteps: int, history: seq<Message>, input: Bytes)
    requires Fair(w) && AllTidy(w)
    ensures var r := Run(w, maxSteps, history, input);
      r.outcome == Some(Finished) || r.outcome == Some(MaxStepsReached) ==>
        TextOf(r.emitted) == Contents(S.Transcript(r.ops))
  {
    var u := UserMessage(input);
    var r0 := Opening(w, history, input);
    H.TranscriptSnoc([], S.Append(u));
    H.TranscriptSnoc([] + [S.Append(u)], S.Op.Save);
    ContentsSnoc([], u);
    if r0.outcome.None? {
      StepsText(w, r0, EffectiveSteps(maxSteps));
    }
  }

  // ---------------------------------------------------------------------------------
  // From provider chunks to the assistant message.
  // ---------------------------------------------------------------------------------

  /** The streams of the Eino adapter are tidy. */
  lemma AdapterIsTidy(chunks: seq<Option<Ad.Chunk>>, end: Ad.End, out: seq<StreamEvent>)
    requires Ad.IsOutput(chunks, end, out)
    ensures Tidy(out)
  {
    var body, ends := Sh.OutputShape(chunks, end, out);
    TidyParts(body, ends, out[|out| - 1]);
  }

  lemma TidyParts(body: seq<StreamEvent>, ends: seq<StreamEvent>, last: StreamEvent)
    requires forall e <- body :: !IsTerminator(e)
    requires forall e <- ends :: e.ToolCallEnd?
    ensures Tidy(body + ends + [last])
    ensures forall e <- body + ends :: !IsTerminator(e)
  {
    var all := body + ends + [last];
    forall k | 0 <= k < |all| - 1 ensures !IsTerminator(all[k]) {
      assert all[k] == (body + ends)[k];
      assert all[k] in body + ends;
    }
  }

  /** A step on an adapter stream with announced calls and distinct ids: given up exactly when a
      call is over the cap; otherwise, unless the answer is empty, the assistant message appended
      holds the content of the chunks, their reasoning, and the calls of their fragments. */
  lemma StepAppendsDirectFold(w: World, r: RunState, chunks: seq<Option<Ad.Chunk>>)
    requires Fair(w) && r.outcome.None? && w.stream(r.streams).Stream?
    requires Ad.IsOutput(chunks, Ad.Eof, w.stream(r.streams).events)
    requires D.Announced(Cs.CallsOf(chunks)) && D.DistinctIds(Cs.CallsOf(chunks))
    ensures var calls := Cs.CallsOf(chunks); var a := Step(w, r);
      var asst := AnswerOf(Cs.ContentOf(chunks), Cs.ReasoningOf(chunks), D.DirectCalls(calls));
      if D.AnyOversized(calls) then a.outcome == Some(ArgsTooLarge) && a.ops == r.ops
      else if D.DirectCalls(calls) == [] && TrimSpace(Cs.ContentOf(chunks)) == "" then a.outcome == Some(EmptyResponse) && a.ops == r.ops
      else S.Transcript(r.ops) + [asst] <= S.Transcript(a.ops)
  {
    hide Consume, Cs.ContentOf, Cs.ReasoningOf, Cs.CallsOf, D.DirectCalls, D.AnyOversized, S.Transcript, TrimSpace, Ad.IsOutput, D.Announced, D.DistinctIds;
    StreamAppends(w, r, chunks, w.stream(r.streams).events);
  }

  /** What becomes of a stream that is complete but for its message end. */
  lemma AtMessageEnd(w: World, r: RunState, s: StepState, init: seq<StreamEvent>, last: StreamEvent)
    requires Fair(w) && r.outcome.None? && last.MessageEnd? && InBody(r, s, init)
    ensures var acc := AccumulateAll(init);
      var a := if s.run.outcome.Some? then s.run else OnEvent(w, s, last).run;
      if acc.None? then a.outcome == Some(ArgsTooLarge) && a.ops == r.ops
      else
        var asst := AnswerOf(acc.value.text, acc.value.thinking, Calls(acc.value));
        if IsEmptyAnswer(asst) then a.outcome == Some(EmptyResponse) && a.ops == r.ops
        else S.Transcript(r.ops) + [asst] <= S.Transcript(a.ops)
  {
    if s.run.outcome.None? {
      MessageEndAppends(w, s.(run := s.run.(consumed := s.run.consumed + [last])), last);
    }
  }

  lemma StreamAppends(w: World, r: RunState, chunks: seq<Option<Ad.Chunk>>, out: seq<StreamEvent>)
    requires Fair(w) && r.outcome.None?
    requires Ad.IsOutput(chunks, Ad.Eof, out)
    requires D.Announced(Cs.CallsOf(chunks)) && D.DistinctIds(Cs.CallsOf(chunks))
    ensures var calls := Cs.CallsOf(chunks); var a := Consume(w, StepStart(r), out).run;
      var asst := AnswerOf(Cs.ContentOf(chunks), Cs.ReasoningOf(chunks), D.DirectCalls(calls));
      if D.AnyOversized(calls) then a.outcome == Some(ArgsTooLarge) && a.ops == r.ops
      else if IsEmptyAnswer(asst) then a.outcome == Some(EmptyResponse) && a.ops == r.ops
      else S.Transcript(r.ops) + [asst] <= S.Transcript(a.ops)
  {
    FoldBeforeEnd(chunks, out);
    var init := out[..|out| - 1];
    ConsumeBody(w, r, StepStart(r), init);
    AtMessageEnd(w, r, Consume(w, StepStart(r), init), init, out[|out| - 1]);
  }

  /** All that the accumulators need is known before the message end. */
  lemma FoldBeforeEnd(chunks: seq<Option<Ad.Chunk>>, out: seq<StreamEvent>)
    requires Ad.IsOutput(chunks, Ad.Eof, out)
    requires D.Announced(Cs.CallsOf(chunks)) && D.DistinctIds(Cs.CallsOf(chunks))
    ensures out != [] && out[|out| - 1].MessageEnd?
    ensures var calls, init := Cs.CallsOf(chunks), out[..|out| - 1]; var a := AccumulateAll(init);
      && (forall e <- init :: !IsTerminator(e))
      && (a.None? <==> D.AnyOversized(calls))
      && (a.Some? ==>
            && Calls(a.value) == D.DirectCalls(calls)
            && a.value.thinking == Cs.ReasoningOf(chunks)
            && a.value.text == Cs.ContentOf(chunks))
  {
    var body, ends := Sh.OutputShape(chunks, Ad.Eof, out);
    var init, last := out[..|out| - 1], out[|out| - 1];
    assert init == body + ends;
    TidyParts(body, ends, last);
    D.DemuxEqualsDirectFold(chunks, Ad.Eof, out);
    D.ClosingIgnored(init, [last]);
    assert out == init + [last];
  }
}
