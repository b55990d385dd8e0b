/** Which tool calls a run announces (internal/agent/loop.go:152-191): those of the messages it has
    saved, in order. */
module Announcements {
  import opened Bytes
  import opened Llm
  import opened AgentSpec
  import H = AgentHistory
  import S = SessionStore
  import St = AgentSteps

  function StartsOf(evs: seq<StreamEvent>): seq<StreamEvent> {
    if evs == [] then []
    else
      var init, last := StartsOf(evs[..|evs| - 1]), evs[|evs| - 1];
      if last.ToolCallStart? then init + [last] else init
  }

  /** The calls of some messages, in order. */
  function CallsIn(ms: seq<Message>): seq<ToolCall> {
    if ms == [] then [] else CallsIn(ms[..|ms| - 1]) + ms[|ms| - 1].toolCalls
  }

  lemma {:induction false} StartsAppend(a: seq<StreamEvent>, b: seq<StreamEvent>)
    ensures StartsOf(a + b) == StartsOf(a) + StartsOf(b)
  {
    if b == [] {
      assert a + b == a;
    } else {
      var init, last := b[..|b| - 1], b[|b| - 1];
      StartsAppend(a, init);
      assert (a + b)[..|a + b| - 1] == a + init;
    }
  }

  lemma {:induction false} OnlyStarts(evs: seq<StreamEvent>)
    requires forall e <- evs :: e.ToolCallStart?
    ensures StartsOf(evs) == evs
  {
    if evs != [] {
      assert evs[|evs| - 1] in evs;
      OnlyStarts(evs[..|evs| - 1]);
    }
  }

  lemma {:induction false} NoStarts(evs: seq<StreamEvent>)
    requires forall e <- evs :: !e.ToolCallStart?
    ensures StartsOf(evs) == []
  {
    if evs != [] {
      assert evs[|evs| - 1] in evs;
      NoStarts(evs[..|evs| - 1]);
    }
  }

  lemma {:induction false} NoCalls(ms: seq<Message>, more: seq<Message>)
    requires forall m <- more :: m.toolCalls == []
    ensures CallsIn(ms + more) == CallsIn(ms)
  {
    if more == [] {
      assert ms + more == ms;
    } else {
      assert more[|more| - 1] in more;
      assert (ms + more)[..|ms + more| - 1] == ms + more[..|more| - 1];
      NoCalls(ms, more[..|more| - 1]);
    }
  }

  lemma CallsSnoc(ms: seq<Message>, m: Message)
    ensures CallsIn(ms + [m]) == CallsIn(ms) + m.toolCalls
  {
    assert (ms + [m])[..|ms|] == ms;
  }

  /** The messages whose calls have been announced: all the run has appended, but for an answer
      that could not be saved. */
  predicate Announced(r: RunState) {
    var ms := S.Transcript(r.ops);
    && ms != []
    && StartsOf(r.emitted) ==
         StartEvents(CallsIn(if r.outcome == Some(SaveFailed(AtAnswer)) then ms[..|ms| - 1] else ms))
  }

  /** A step of a run that emits no Start and appends no message. */
  lemma Unannounced(r: RunState, r': RunState, evs: seq<StreamEvent>)
    requires Announced(r) && r.outcome.None? && r'.outcome != Some(SaveFailed(AtAnswer))
    requires r'.emitted == r.emitted + evs && r'.ops == r.ops && forall e <- evs :: !e.ToolCallStart?
    ensures Announced(r')
  {
    StartsAppend(r.emitted, evs);
    NoStarts(evs);
  }

  lemma AnswerAppended(w: World, r: RunState, asst: Message)
    requires r.outcome.None?
    ensures var a := SaveAnswer(w, r, asst);
      && S.Transcript(a.ops) == S.Transcript(r.ops) + [asst] && a.emitted == r.emitted
      && (a.outcome.None? || a.outcome == Some(SaveFailed(AtAnswer)))
  {
    H.TranscriptSnoc(r.ops, S.Append(asst));
    H.TranscriptSnoc(Append(r, asst).ops, S.Op.Save);
  }

  /** An answer that cannot be saved: nothing is announced. */
  lemma AnswerNotSaved(w: World, r: RunState, asst: Message)
    requires Announced(r) && r.outcome.None? && SaveAnswer(w, r, asst).outcome.Some?
    ensures Announced(SaveAnswer(w, r, asst))
  {
    AnswerAppended(w, r, asst);
    var ms := S.Transcript(r.ops);
    assert (ms + [asst])[..|ms|] == ms;
  }

  lemma ExecuteEmits(w: World, r: RunState, calls: seq<ToolCall>)
    requires Fair(w)
    ensures var a := Execute(w, r, calls);
      && StartsOf(a.emitted) == StartsOf(r.emitted) + StartEvents(calls)
      && a.ops == r.ops && a.outcome == r.outcome
  {
    var starts := StartEvents(calls);
    var ends := EndEvents(w, r.batches, Results(w, r.batches, calls), w.finish(r.batches, |calls|));
    StartsAppend(r.emitted, starts);
    StartsAppend(r.emitted + starts, ends);
    OnlyStarts(starts);
    NoStarts(ends);
  }

  lemma ToolsAppended(w: World, r: RunState, calls: seq<ToolCall>)
    requires Fair(w) && r.outcome.None?
    ensures var a := RunTools(w, r, calls);
      && StartsOf(a.emitted) == StartsOf(r.emitted) + StartEvents(calls)
      && S.Transcript(r.ops) <= S.Transcript(a.ops)
      && CallsIn(S.Transcript(a.ops)) == CallsIn(S.Transcript(r.ops))
      && a.outcome != Some(SaveFailed(AtAnswer))
  {
    var r1 := Execute(w, r, calls);
    var tools := ToolMessages(Results(w, r.batches, calls));
    ExecuteEmits(w, r, calls);
    NoCalls(S.Transcript(r.ops), tools);
    assert RunTools(w, r, calls) == Save(w, AppendAll(r1, tools), AtTools);
    hide *;
    ResultsAppended(w, r1, tools);
  }

  lemma ResultsAppended(w: World, r: RunState, tools: seq<Message>)
    requires r.outcome.None?
    ensures var a := Save(w, AppendAll(r, tools), AtTools);
      && a.emitted == r.emitted && S.Transcript(a.ops) == S.Transcript(r.ops) + tools
      && a.outcome != Some(SaveFailed(AtAnswer))
  {
    hide S.Transcript, Encodable;
    AppendAllFrame(r, tools);
    H.AppendAllTranscript(r, tools);
    H.TranscriptSnoc(AppendAll(r, tools).ops, S.Op.Save);
  }

  lemma StartsSplit(a: seq<ToolCall>, b: seq<ToolCall>)
    ensures StartEvents(a + b) == StartEvents(a) + StartEvents(b)
  {
  }

  /** An answer that is saved: exactly its calls are announced. */
  lemma AnswerAnnounced(w: World, r: RunState, asst: Message, ev: StreamEvent)
    requires Fair(w) && Announced(r) && r.outcome.None? && SaveAnswer(w, r, asst).outcome.None? && ev.MessageEnd?
    ensures var r1 := Emit(SaveAnswer(w, r, asst), [ev]);
      && (asst.toolCalls == [] ==> Announced(Finish(r1, Finished)))
      && (asst.toolCalls != [] ==> Announced(RunTools(w, r1, asst.toolCalls)))
  {
    var r1 := Emit(SaveAnswer(w, r, asst), [ev]);
    AnswerAppended(w, r, asst);
    StartsAppend(r.emitted, [ev]);
    NoStarts([ev]);
    CallsSnoc(S.Transcript(r.ops), asst);
    StartsSplit(CallsIn(S.Transcript(r.ops)), asst.toolCalls);
    hide StartsOf, CallsIn, S.Transcript, SaveAnswer, RunTools;
    ToolsAppended(w, r1, asst.toolCalls);
  }

  lemma MessageEndAnnounced(w: World, s: StepState, ev: StreamEvent)
    requires Fair(w) && Announced(s.run) && s.run.outcome.None? && ev.MessageEnd?
    ensures Announced(OnMessageEnd(w, s, ev).run)
  {
    var asst := Built(s);
    hide Announced, RunTools, SaveAnswer;
    if IsEmptyAnswer(asst) {
      var failed := [Error(Some("agent: empty assistant response"))];
      Unannounced(s.run, Finish(Emit(s.run, failed), EmptyResponse), failed);
    } else if SaveAnswer(w, s.run, asst).outcome.Some? {
      AnswerNotSaved(w, s.run, asst);
    } else {
      AnswerAnnounced(w, s.run, asst, ev);
    }
  }

  lemma NoStartEmitted(w: World, s: StepState, ev: StreamEvent) returns (evs: seq<StreamEvent>)
    requires Fair(w) && s.run.outcome.None? && !ev.MessageEnd?
    ensures var a := OnEvent(w, s, ev).run;
      && a.emitted == s.run.emitted + evs && (forall e <- evs :: !e.ToolCallStart?)
      && a.ops == s.run.ops && a.outcome != Some(SaveFailed(AtAnswer))
  {
    var emitted := OnEvent(w, s, ev).run.emitted;
    evs := emitted[|s.run.emitted|..];
  }

  lemma EventAnnounced(w: World, s: StepState, ev: StreamEvent)
    requires Fair(w) && Announced(s.run) && s.run.outcome.None?
    ensures Announced(OnEvent(w, s, ev).run)
  {
    hide OnEvent, OnMessageEnd;
    if ev.MessageEnd? {
      St.EndTaken(w, s, ev);
      MessageEndAnnounced(w, s.(run := s.run.(consumed := s.run.consumed + [ev])), ev);
    } else {
      hide Announced;
      var evs := NoStartEmitted(w, s, ev);
      Unannounced(s.run, OnEvent(w, s, ev).run, evs);
    }
  }

  lemma {:induction false} ConsumeAnnounced(w: World, s: StepState, evs: seq<StreamEvent>)
    requires Fair(w) && Announced(s.run) && s.run.outcome.None?
    ensures Announced(Consume(w, s, evs).run)
  {
    if evs != [] {
      hide Announced, OnEvent;
      ConsumeAnnounced(w, s, evs[..|evs| - 1]);
      var mid := Consume(w, s, evs[..|evs| - 1]);
      if mid.run.outcome.None? { EventAnnounced(w, mid, evs[|evs| - 1]); }
    }
  }

  lemma StepAnnounced(w: World, r: RunState)
    requires Fair(w) && Announced(r) && r.outcome.None?
    ensures Announced(Step(w, r))
  {
    var result := w.stream(r.streams);
    if result.Stream? { ConsumeAnnounced(w, StepStart(r), result.events); }
  }

  lemma FinishAnnounced(r: RunState, o: Outcome)
    requires Announced(r) && r.outcome.None? && !o.SaveFailed?
    ensures Announced(Finish(r, o))
  {
  }

  lemma NextStep(w: World, r: RunState, left: nat)
    requires Fair(w)
    ensures Steps(w, r, left) ==
      if r.outcome.Some? then r
      else if left == 0 then Finish(r, MaxStepsReached)
      else Steps(w, Step(w, r), left - 1)
  {
  }

  /** A step, and the end of the steps, keep a state in `inv`. */
  ghost predicate Keeps(w: World, inv: iset<RunState>, r: RunState)
    requires Fair(w)
  {
    r in inv && r.outcome.None? ==> Step(w, r) in inv && Finish(r, MaxStepsReached) in inv
  }

  /** What every step keeps holds behind all of them. */
  lemma {:induction false} StepsKeep(w: World, inv: iset<RunState>, r: RunState, left: nat)
    requires Fair(w) && r in inv && forall x :: Keeps(w, inv, x)
    ensures Steps(w, r, left) in inv
    decreases left
  {
    NextStep(w, r, left);
    assert Keeps(w, inv, r);
    hide Step, Steps, Fair;
    if r.outcome.None? && left > 0 { StepsKeep(w, inv, Step(w, r), left - 1); }
  }

  lemma StepsAnnounced(w: World, r: RunState, left: nat)
    requires Fair(w) && Announced(r)
    ensures Announced(Steps(w, r, left))
  {
    var inv := iset x: RunState | Announced(x);
    forall x: RunState ensures Keeps(w, inv, x) {
      if Announced(x) && x.outcome.None? {
        StepAnnounced(w, x);
        FinishAnnounced(x, MaxStepsReached);
      }
      hide Announced, Step, Finish;
    }
    hide *;
    StepsKeep(w, inv, r, left);
  }

  /** However a run ends, what it announces is exactly the calls of the messages it has appended,
      once each and in order, with their ids, names and the first 200 bytes of their arguments; the
      one exception is an answer that could not be saved. */
  lemma StartsAreSavedCalls(w: World, maxSteps: int, history: seq<Message>, input: Bytes)
    requires Fair(w)
    ensures var r := Run(w, maxSteps, history, input); var ms := S.Transcript(r.ops);
      && ms != []
      && var calls := CallsIn(if r.outcome == Some(SaveFailed(AtAnswer)) then ms[..|ms| - 1] else ms);
      var starts := StartsOf(r.emitted);
      && |starts| == |calls|
      && forall k :: 0 <= k < |calls| ==>
           starts[k] == ToolCallStart(calls[k].id, calls[k].name, Truncate(calls[k].arguments, 200))
  {
    SavedAnnounced(w, maxSteps, history, input);
    hide Run, S.Transcript, CallsIn, StartsOf;
  }

  lemma SavedAnnounced(w: World, maxSteps: int, history: seq<Message>, input: Bytes)
    requires Fair(w)
    ensures Announced(Run(w, maxSteps, history, input))
  {
    var r0 := Opening(w, history, input);
    H.TranscriptSnoc([], S.Append(UserMessage(input)));
    H.TranscriptSnoc([S.Append(UserMessage(input))], S.Op.Save);
    CallsSnoc([], UserMessage(input));
    StepsAnnounced(w, r0, EffectiveSteps(maxSteps));
  }
}
