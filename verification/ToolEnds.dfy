/** The End events of a run (internal/agent/loop.go:230-246): what they tell of the tool messages. */
module ToolEnds {
  import opened Bytes
  import opened Llm
  import opened AgentSpec
  import opened RunTranscript
  import An = Announcements
  import Cs = ChunkStream
  import H = AgentHistory
  import S = SessionStore
  import St = AgentSteps

  // ---------------------------------------------------------------------------------
  // What the End events should be.
  // ---------------------------------------------------------------------------------

  /** The End event of call i of batch n, given its tool message. */
  function EndOf(w: World, n: nat, i: nat, c: ToolCall, m: Message): StreamEvent {
    ToolCallEnd(c.id, c.name,
      if !m.isError then "success"
      else "error: " + (if |m.content| <= 80 then m.content else m.content[..80] + ELLIPSIS),
      w.elapsed(n, i))
  }

  /** Those of the batch that the p-th message asks for, in the order in which its calls finish. */
  function BatchEnds(w: World, n: nat, ms: seq<Message>, p: nat): seq<StreamEvent>
    requires Fair(w) && p < |ms| && p + |ms[p].toolCalls| < |ms|
  {
    var calls := ms[p].toolCalls;
    var order := w.finish(n, |calls|);
    assert IsOrder(order, |calls|);
    seq(|calls|, j requires 0 <= j < |calls| => EndOf(w, n, order[j], calls[order[j]], ms[p + 1 + order[j]]))
  }

  /** Those of all batches that the first k messages ask for. */
  function AllEnds(w: World, ms: seq<Message>, k: nat): seq<StreamEvent>
    requires Fair(w) && k <= |ms|
  {
    if k == 0 then []
    else
      var before, p := AllEnds(w, ms, k - 1), k - 1;
      if Asks(ms[p]) && p + |ms[p].toolCalls| < |ms| then before + BatchEnds(w, Batches(ms[..p]), ms, p) else before
  }

  // ---------------------------------------------------------------------------------
  // Appending.
  // ---------------------------------------------------------------------------------

  lemma {:induction false} EndsAppend(a: seq<StreamEvent>, b: seq<StreamEvent>)
    ensures Cs.EndsIn(a + b) == Cs.EndsIn(a) + Cs.EndsIn(b)
  {
    if b == [] {
      assert a + b == a;
    } else {
      assert (a + b)[..|a + b| - 1] == a + b[..|b| - 1];
      EndsAppend(a, b[..|b| - 1]);
    }
  }

  lemma {:induction false} NoEnds(evs: seq<StreamEvent>)
    requires forall e <- evs :: !e.ToolCallEnd?
    ensures Cs.EndsIn(evs) == []
  {
    if evs != [] {
      assert evs[|evs| - 1] in evs;
      NoEnds(evs[..|evs| - 1]);
    }
  }

  lemma {:induction false} OnlyEnds(evs: seq<StreamEvent>)
    requires forall e <- evs :: e.ToolCallEnd?
    ensures Cs.EndsIn(evs) == evs
  {
    if evs != [] {
      assert evs[|evs| - 1] in evs;
      OnlyEnds(evs[..|evs| - 1]);
    }
  }

  lemma BatchKept(w: World, n: nat, ms: seq<Message>, more: seq<Message>, p: nat)
    requires Fair(w) && p < |ms| && p + |ms[p].toolCalls| < |ms|
    ensures BatchEnds(w, n, ms + more, p) == BatchEnds(w, n, ms, p)
  {
    var order := w.finish(n, |ms[p].toolCalls|);
    assert IsOrder(order, |ms[p].toolCalls|);
  }

  lemma {:induction false} EndsKept(w: World, ms: seq<Message>, more: seq<Message>, k: nat)
    requires Fair(w) && AllReported(w, ms) && k <= |ms|
    ensures AllEnds(w, ms + more, k) == AllEnds(w, ms, k)
  {
    if k > 0 {
      var p := k - 1;
      EndsKept(w, ms, more, p);
      assert (ms + more)[..p] == ms[..p] && (ms + more)[p] == ms[p];
      if Asks(ms[p]) {
        assert ReportedAt(w, ms, p);
        BatchKept(w, Batches(ms[..p]), ms, more, p);
      }
      hide BatchEnds, Batches, Asks, AllReported, ReportedAt;
    }
  }

  lemma {:induction false} QuietTail(w: World, ms: seq<Message>, j: nat, k: nat)
    requires Fair(w) && j <= k <= |ms| && forall p :: j <= p < k ==> !Asks(ms[p])
    ensures AllEnds(w, ms, k) == AllEnds(w, ms, j)
    decreases k
  {
    if j < k { QuietTail(w, ms, j, k - 1); }
  }

  lemma ResultEnd(w: World, n: nat, i: nat, c: ToolCall)
    ensures EndEvent(w, n, i, ExecOne(w, n, i, c)) == EndOf(w, n, i, c, ToolMessage(ExecOne(w, n, i, c)))
  {
  }

  lemma ResultEnds(w: World, n: nat, calls: seq<ToolCall>)
    ensures var results := Results(w, n, calls); var tools := ToolMessages(results);
      forall i: nat | i < |calls| :: EndEvent(w, n, i, results[i]) == EndOf(w, n, i, calls[i], tools[i])
  {
    var results := Results(w, n, calls);
    forall i: nat | i < |calls|
      ensures EndEvent(w, n, i, results[i]) == EndOf(w, n, i, calls[i], ToolMessages(results)[i])
    {
      ResultEnd(w, n, i, calls[i]);
    }
  }

  /** The End events that executing these calls as batch n emits. */
  predicate IsBatch(w: World, n: nat, calls: seq<ToolCall>, ends: seq<StreamEvent>) {
    IsOrder(w.finish(n, |calls|), |calls|) && ends == EndEvents(w, n, Results(w, n, calls), w.finish(n, |calls|))
  }

  lemma BatchEndsIn(w: World, n: nat, calls: seq<ToolCall>, tools: seq<Message>, all: seq<Message>, p: nat,
                    ends: seq<StreamEvent>)
    requires Fair(w) && p < |all| && all[p].toolCalls == calls && |all| == p + 1 + |tools|
    requires tools == ToolMessages(Results(w, n, calls)) && IsBatch(w, n, calls, ends)
    requires forall i: nat | i < |tools| :: all[p + 1 + i] == tools[i]
    ensures ends == BatchEnds(w, n, all, p)
  {
    ResultEnds(w, n, calls);
    hide EndEvent, EndOf, ExecOne, ToolMessages, Results, Fair, BatchEnds, EndEvents, IsOrder;
    SameEnds(w, n, Results(w, n, calls), tools, all, p);
  }

  lemma BatchEndsAt(w: World, n: nat, ms: seq<Message>, p: nat)
    requires Fair(w) && p < |ms| && p + |ms[p].toolCalls| < |ms|
    ensures var r, order := BatchEnds(w, n, ms, p), w.finish(n, |ms[p].toolCalls|);
      && |r| == |ms[p].toolCalls| && IsOrder(order, |r|)
      && forall j :: 0 <= j < |r| ==> r[j] == EndOf(w, n, order[j], ms[p].toolCalls[order[j]], ms[p + 1 + order[j]])
  {
  }

  lemma SameEnds(w: World, n: nat, results: seq<ToolResult>, tools: seq<Message>, all: seq<Message>, p: nat)
    requires Fair(w) && p < |all| && p + |all[p].toolCalls| < |all| && |results| == |tools| == |all[p].toolCalls|
    requires forall i: nat | i < |tools| :: all[p + 1 + i] == tools[i]
    requires forall i: nat | i < |tools| :: EndEvent(w, n, i, results[i]) == EndOf(w, n, i, all[p].toolCalls[i], tools[i])
    requires IsOrder(w.finish(n, |tools|), |tools|)
    ensures EndEvents(w, n, results, w.finish(n, |tools|)) == BatchEnds(w, n, all, p)
  {
    BatchEndsAt(w, n, all, p);
    hide EndEvents, BatchEnds, EndEvent, EndOf;
    var order := w.finish(n, |tools|);
    forall j | 0 <= j < |tools| ensures EndEvents(w, n, results, order)[j] == BatchEnds(w, n, all, p)[j] {
      var i := order[j];
      assert all[p + 1 + i] == tools[i];
      assert EndEvent(w, n, i, results[i]) == EndOf(w, n, i, all[p].toolCalls[i], tools[i]);
    }
  }

  /** One more batch. */
  lemma BatchAdds(w: World, ms: seq<Message>, asst: Message, ends: seq<StreamEvent>)
    requires Fair(w) && AllReported(w, ms) && Asks(asst) && IsBatch(w, Batches(ms), asst.toolCalls, ends)
    ensures var all := ms + [asst] + ToolMessages(Results(w, Batches(ms), asst.toolCalls));
      AllEnds(w, all, |all|) == AllEnds(w, ms, |ms|) + ends
  {
    var n, calls := Batches(ms), asst.toolCalls;
    var tools := ToolMessages(Results(w, n, calls));
    var all := ms + [asst] + tools;
    ToolsAskNothing(Results(w, n, calls));
    BatchPlaced(w, ms, asst, tools, all);
    hide *;
    AddedBatch(w, ms, asst, tools, all, ends);
  }

  lemma BatchPlaced(w: World, ms: seq<Message>, asst: Message, tools: seq<Message>, all: seq<Message>)
    requires Fair(w) && AllReported(w, ms) && all == ms + [asst] + tools && forall m <- tools :: !Asks(m)
    ensures |all| == |ms| + 1 + |tools| && all[..|ms|] == ms && all[|ms|] == asst
    ensures forall i: nat | i < |tools| :: all[|ms| + 1 + i] == tools[i]
    ensures forall p: nat | |ms| < p < |all| :: !Asks(all[p])
    ensures AllEnds(w, all, |ms|) == AllEnds(w, ms, |ms|)
  {
    Placed(ms, asst, tools);
    EndsKept(w, ms, [asst] + tools, |ms|);
    hide AllReported, AllEnds, Asks;
    forall p: nat | |ms| < p < |all| ensures !Asks(all[p]) { BehindAsksNothing(ms, asst, tools, p); }
  }

  lemma AddedBatch(w: World, ms: seq<Message>, asst: Message, tools: seq<Message>, all: seq<Message>, ends: seq<StreamEvent>)
    requires Fair(w) && Asks(asst) && |all| == |ms| + 1 + |tools| && all[..|ms|] == ms && all[|ms|] == asst
    requires forall i: nat | i < |tools| :: all[|ms| + 1 + i] == tools[i]
    requires forall p: nat | |ms| < p < |all| :: !Asks(all[p])
    requires tools == ToolMessages(Results(w, Batches(ms), asst.toolCalls))
    requires IsBatch(w, Batches(ms), asst.toolCalls, ends)
    ensures AllEnds(w, all, |all|) == AllEnds(w, all, |ms|) + ends
  {
    hide *;
    BatchEndsIn(w, Batches(ms), asst.toolCalls, tools, all, |ms|, ends);
    LastBatch(w, ms, all, ends);
  }

  lemma LastBatch(w: World, ms: seq<Message>, all: seq<Message>, ends: seq<StreamEvent>)
    requires Fair(w) && |ms| < |all| && all[..|ms|] == ms && Asks(all[|ms|]) && |ms| + |all[|ms|].toolCalls| < |all|
    requires ends == BatchEnds(w, Batches(ms), all, |ms|)
    requires forall p: nat | |ms| < p < |all| :: !Asks(all[p])
    ensures AllEnds(w, all, |all|) == AllEnds(w, all, |ms|) + ends
  {
    hide BatchEnds, AllEnds, Batches, Asks, Fair;
    AllEndsStep(w, all, |ms|, Batches(ms), ends);
    QuietTail(w, all, |ms| + 1, |all|);
  }

  lemma AllEndsStep(w: World, ms: seq<Message>, p: nat, n: nat, ends: seq<StreamEvent>)
    requires Fair(w) && p < |ms| && Asks(ms[p]) && p + |ms[p].toolCalls| < |ms|
    requires n == Batches(ms[..p]) && ends == BatchEnds(w, n, ms, p)
    ensures AllEnds(w, ms, p + 1) == AllEnds(w, ms, p) + ends
  {
  }

  // ---------------------------------------------------------------------------------
  // The invariant of a run.
  // ---------------------------------------------------------------------------------

  ghost predicate Ended(w: World, r: RunState)
    requires Fair(w)
  {
    Cs.EndsIn(r.emitted) == AllEnds(w, Executed(r), |Executed(r)|)
  }

  /** Nothing is appended, and no End event emitted. */
  lemma StaysEnded(w: World, r: RunState, a: RunState, evs: seq<StreamEvent>)
    requires Fair(w) && Ended(w, r) && r.outcome.None? && a.outcome != Some(SaveFailed(AtAnswer))
    requires a.ops == r.ops && a.emitted == r.emitted + evs && forall e <- evs :: !e.ToolCallEnd?
    ensures Ended(w, a)
  {
    EndsAppend(r.emitted, evs);
    NoEnds(evs);
  }

  lemma AnswerEnded(w: World, input: Bytes, r: RunState, asst: Message)
    requires Fair(w) && Told(w, input, r) && Ended(w, r) && r.outcome.None?
    ensures var a := SaveAnswer(w, r, asst);
      (a.outcome.Some? || asst.toolCalls == []) ==> Ended(w, a)
  {
    var ms := S.Transcript(r.ops);
    An.AnswerAppended(w, r, asst);
    assert (ms + [asst])[..|ms|] == ms;
    EndsKept(w, ms, [asst], |ms|);
    if asst.toolCalls == [] { QuietTail(w, ms + [asst], |ms|, |ms| + 1); }
    hide AllEnds, SaveAnswer, S.Transcript, AllReported, NoUser, IsUserInput, Batches;
  }

  lemma ToolsEnded(w: World, input: Bytes, r: RunState, asst: Message, ev: StreamEvent)
    requires Fair(w) && Told(w, input, r) && Ended(w, r) && r.outcome.None? && ev.MessageEnd?
    requires Asks(asst) && SaveAnswer(w, r, asst).outcome.None?
    ensures Ended(w, RunTools(w, Emit(SaveAnswer(w, r, asst), [ev]), asst.toolCalls))
  {
    var ms, r1 := S.Transcript(r.ops), Emit(SaveAnswer(w, r, asst), [ev]);
    var tools := ToolMessages(Results(w, r.batches, asst.toolCalls));
    An.AnswerAppended(w, r, asst);
    var ends := ToolsEmitEnds(w, r1, asst.toolCalls);
    BatchAdds(w, ms, asst, ends);
    ToolsRun(w, r1, asst.toolCalls);
    EndsAppend(r.emitted, [ev]);
    NoEnds([ev]);
    hide AllEnds, S.Transcript, RunTools, SaveAnswer, Cs.EndsIn, AllReported, ToolMessages, Results;
    var a := RunTools(w, r1, asst.toolCalls);
    assert Executed(a) == ms + [asst] + tools;
  }

  lemma ToolsEmit(w: World, r: RunState, calls: seq<ToolCall>) returns (starts: seq<StreamEvent>, ends: seq<StreamEvent>)
    requires Fair(w)
    ensures IsBatch(w, r.batches, calls, ends)
    ensures RunTools(w, r, calls).emitted == r.emitted + starts + ends
    ensures (forall e <- starts :: !e.ToolCallEnd?) && forall e <- ends :: e.ToolCallEnd?
  {
    assert IsOrder(w.finish(r.batches, |calls|), |calls|);
    starts := StartEvents(calls);
    ends := EndEvents(w, r.batches, Results(w, r.batches, calls), w.finish(r.batches, |calls|));
    AppendAllFrame(Execute(w, r, calls), ToolMessages(Results(w, r.batches, calls)));
  }

  lemma ToolsEmitEnds(w: World, r: RunState, calls: seq<ToolCall>) returns (ends: seq<StreamEvent>)
    requires Fair(w)
    ensures IsBatch(w, r.batches, calls, ends)
    ensures Cs.EndsIn(RunTools(w, r, calls).emitted) == Cs.EndsIn(r.emitted) + ends
  {
    hide *;
    var starts;
    starts, ends := ToolsEmit(w, r, calls);
    NoEnds(starts);
    OnlyEnds(ends);
    EndsAppend(r.emitted, starts);
    EndsAppend(r.emitted + starts, ends);
  }

  lemma MessageEndEnded(w: World, input: Bytes, s: StepState, ev: StreamEvent)
    requires Fair(w) && Told(w, input, s.run) && Ended(w, s.run) && s.run.outcome.None?
    requires s.asst.role == Assistant && ev.MessageEnd?
    ensures Ended(w, OnMessageEnd(w, s, ev).run)
  {
    var asst := Built(s);
    hide Told, Ended, RunTools, SaveAnswer, IsEmptyAnswer;
    if IsEmptyAnswer(asst) {
      var failed := [Error(Some("agent: empty assistant response"))];
      StaysEnded(w, s.run, Finish(Emit(s.run, failed), EmptyResponse), failed);
    } else {
      var r := SaveAnswer(w, s.run, asst);
      AnswerEnded(w, input, s.run, asst);
      if r.outcome.None? {
        if asst.toolCalls == [] {
          StaysEnded(w, r, Finish(Emit(r, [ev]), Finished), [ev]);
        } else {
          ToolsEnded(w, input, s.run, asst, ev);
        }
      }
    }
  }

  lemma PlainEmits(w: World, s: StepState, ev: StreamEvent) returns (evs: seq<StreamEvent>)
    requires Fair(w) && s.run.outcome.None? && !ev.MessageEnd?
    ensures OnEvent(w, s, ev).run.emitted == s.run.emitted + evs && forall e <- evs :: !e.ToolCallEnd?
  {
    evs := OnEvent(w, s, ev).run.emitted[|s.run.emitted|..];
  }

  lemma EventEnded(w: World, input: Bytes, s: StepState, ev: StreamEvent)
    requires Fair(w) && Told(w, input, s.run) && Ended(w, s.run) && s.run.outcome.None? && s.asst.role == Assistant
    ensures Ended(w, OnEvent(w, s, ev).run)
  {
    var run := s.run.(consumed := s.run.consumed + [ev]);
    StaysTold(w, input, s.run, run);
    assert Ended(w, run);
    hide Told, Ended;
    if ev.MessageEnd? {
      St.EndTaken(w, s, ev);
      MessageEndEnded(w, input, s.(run := run), ev);
    } else {
      PlainEvent(w, s, ev);
      var evs := PlainEmits(w, s, ev);
      hide OnEvent;
      StaysEnded(w, s.run, OnEvent(w, s, ev).run, evs);
    }
  }

  lemma {:induction false} ConsumeEnded(w: World, input: Bytes, s: StepState, evs: seq<StreamEvent>)
    requires Fair(w) && Told(w, input, s.run) && Ended(w, s.run) && s.run.outcome.None? && s.asst.role == Assistant
    ensures Ended(w, Consume(w, s, evs).run)
  {
    if evs != [] {
      hide Told, Ended, OnEvent;
      ConsumeEnded(w, input, s, evs[..|evs| - 1]);
      ConsumeTold(w, input, s, evs[..|evs| - 1]);
      var mid := Consume(w, s, evs[..|evs| - 1]);
      if mid.run.outcome.None? { EventEnded(w, input, mid, evs[|evs| - 1]); }
    }
  }

  lemma StepEnded(w: World, input: Bytes, r: RunState)
    requires Fair(w) && Told(w, input, r) && Ended(w, r) && r.outcome.None?
    ensures Ended(w, Step(w, r))
  {
    var start := StepStart(r);
    StaysTold(w, input, r, start.run);
    assert Ended(w, start.run);
    var result := w.stream(r.streams);
    if result.Stream? {
      ConsumeEnded(w, input, start, result.events);
      var s := Consume(w, start, result.events);
      hide Consume;
      if s.run.outcome.None? { FinishEnded(w, s.run, NoMessageEnd); }
    } else {
      FinishEnded(w, start.run, StreamFailed);
    }
  }

  lemma FinishEnded(w: World, r: RunState, o: Outcome)
    requires Fair(w) && Ended(w, r) && r.outcome.None? && !o.SaveFailed?
    ensures Ended(w, Finish(r, o))
  {
  }

  lemma StepsEnded(w: World, input: Bytes, r: RunState, left: nat)
    requires Fair(w) && Told(w, input, r) && Ended(w, r)
    ensures Ended(w, Steps(w, r, left))
  {
    var inv := iset x: RunState | Told(w, input, x) && Ended(w, x);
    forall x: RunState ensures An.Keeps(w, inv, x) {
      hide Told, Ended, Step, Finish;
      if x in inv && x.outcome.None? {
        StepTold(w, input, x);
        StepEnded(w, input, x);
        FinishTold(w, input, x, MaxStepsReached);
        FinishEnded(w, x, MaxStepsReached);
      }
    }
    hide *;
    An.StepsKeep(w, inv, r, left);
  }

  lemma OpeningEnded(w: World, history: seq<Message>, input: Bytes)
    requires Fair(w)
    ensures Ended(w, Opening(w, history, input))
  {
    var r := Opening(w, history, input);
    OpeningTold(w, history, input);
    var ms := Executed(r);
    H.TranscriptSnoc([], S.Append(UserMessage(input)));
    H.TranscriptSnoc([] + [S.Append(UserMessage(input))], S.Op.Save);
    assert [] + [S.Append(UserMessage(input))] == [S.Append(UserMessage(input))];
    assert ms == [UserMessage(input)];
    QuietTail(w, ms, 0, 1);
  }

  /** However a run ends, its End events are, batch after batch and within a batch in the order in
      which the calls finish, one for each call, with its id and name, "success" or the start of
      the error that its tool message reports, and the time it took. */
  lemma EndsReportResults(w: World, maxSteps: int, history: seq<Message>, input: Bytes)
    requires Fair(w)
    ensures var r := Run(w, maxSteps, history, input); var ms := S.Transcript(r.ops);
      && ms != []
      && var done := if r.outcome == Some(SaveFailed(AtAnswer)) then ms[..|ms| - 1] else ms;
      Cs.EndsIn(r.emitted) == AllEnds(w, done, |done|)
  {
    var r0 := Opening(w, history, input);
    OpeningTold(w, history, input);
    OpeningEnded(w, history, input);
    StepsTold(w, input, r0, EffectiveSteps(maxSteps));
    StepsEnded(w, input, r0, EffectiveSteps(maxSteps));
    hide S.Transcript, Steps, AllEnds, Cs.EndsIn;
  }
}
