/** What a run appends to the session (internal/agent/loop.go:77-298): the user's input first, and
    behind every message that asks for tools what the tools have returned. */
module RunTranscript {
  import opened Bytes
  import opened Llm
  import opened AgentSpec
  import An = Announcements
  import H = AgentHistory
  import S = SessionStore
  import St = AgentSteps

  // ---------------------------------------------------------------------------------
  // What the messages should be.
  // ---------------------------------------------------------------------------------

  predicate IsUserInput(m: Message, input: Bytes) {
    m.role == User && m.content == input && m.thinking == "" && m.toolCalls == []
    && m.toolCallID == "" && m.name == "" && !m.isError
  }

  predicate NoUser(ms: seq<Message>) {
    forall m <- ms :: m.role != User
  }

  /** The tool is there and gets to see its arguments. */
  predicate Callable(w: World, c: ToolCall) {
    w.known(c.name) && (c.arguments == "" || w.validJson(c.arguments))
  }

  /** `m` tells how call i of batch n went: what the tool returned or the user is to read, as it
      is, and otherwise an error that names the tool, the JSON error, the tool's error or the panic. */
  predicate Reports(w: World, n: nat, i: nat, c: ToolCall, m: Message) {
    && m.role == Tool && m.toolCallID == c.id && m.name == c.name && m.thinking == "" && m.toolCalls == []
    && (m.isError <==> !Callable(w, c) || !w.call(n, i).Returns?)
    && (!w.known(c.name) ==> m.content == "unknown tool " + w.quoted(c.name))
    && (w.known(c.name) && !Callable(w, c) ==>
          m.content == "invalid JSON arguments from model: " + w.jsonError(c.arguments))
    && (Callable(w, c) ==>
          match w.call(n, i)
          case Returns(content) => m.content == content
          case UserError(text) => m.content == text
          case Fails(error) => m.content == "tool error: " + error
          case Panics(value) => m.content == "internal error: " + value)
  }

  predicate Asks(m: Message) { m.role == Assistant && m.toolCalls != [] }

  /** How many of the messages ask for tools. */
  function Batches(ms: seq<Message>): nat {
    if ms == [] then 0 else Batches(ms[..|ms| - 1]) + if Asks(ms[|ms| - 1]) then 1 else 0
  }

  /** The p-th message asks for tools, and the next ones report what its calls came to, in order. */
  predicate ReportedAt(w: World, ms: seq<Message>, p: nat)
    requires p < |ms|
  {
    var calls := ms[p].toolCalls;
    && p + |calls| < |ms|
    && forall i: nat | i < |calls| :: Reports(w, Batches(ms[..p]), i, calls[i], ms[p + 1 + i])
  }

  predicate AllReported(w: World, ms: seq<Message>) {
    forall p: nat | p < |ms| && Asks(ms[p]) :: ReportedAt(w, ms, p)
  }

  // ---------------------------------------------------------------------------------
  // Appending.
  // ---------------------------------------------------------------------------------

  lemma ReportedStays(w: World, ms: seq<Message>, more: seq<Message>, p: nat)
    requires p < |ms| && ReportedAt(w, ms, p)
    ensures ReportedAt(w, ms + more, p)
  {
    assert (ms + more)[..p] == ms[..p];
    hide Reports;
    forall i: nat | i < |ms[p].toolCalls|
      ensures Reports(w, Batches((ms + more)[..p]), i, (ms + more)[p].toolCalls[i], (ms + more)[p + 1 + i])
    {
      assert (ms + more)[p + 1 + i] == ms[p + 1 + i];
    }
  }

  lemma {:induction false} QuietAdds(w: World, ms: seq<Message>, more: seq<Message>)
    requires forall m <- more :: !Asks(m)
    ensures Batches(ms + more) == Batches(ms)
  {
    if more == [] {
      assert ms + more == ms;
    } else {
      assert more[|more| - 1] in more;
      assert (ms + more)[..|ms + more| - 1] == ms + more[..|more| - 1];
      QuietAdds(w, ms, more[..|more| - 1]);
    }
  }

  lemma AskingAdds(ms: seq<Message>, m: Message)
    ensures Batches(ms + [m]) == Batches(ms) + if Asks(m) then 1 else 0
  {
    assert (ms + [m])[..|ms|] == ms;
  }

  lemma ResultReports(w: World, n: nat, i: nat, c: ToolCall)
    ensures Reports(w, n, i, c, ToolMessage(ExecOne(w, n, i, c)))
  {
  }

  /** A message without calls. */
  lemma AnswerReported(w: World, ms: seq<Message>, m: Message)
    requires AllReported(w, ms) && !Asks(m)
    ensures AllReported(w, ms + [m]) && Batches(ms + [m]) == Batches(ms)
  {
    hide ReportedAt, Asks;
    AskingAdds(ms, m);
    forall p: nat | p < |ms + [m]| && Asks((ms + [m])[p]) ensures ReportedAt(w, ms + [m], p) {
      assert p < |ms|;
      ReportedStays(w, ms, [m], p);
    }
  }

  lemma Placed(ms: seq<Message>, asst: Message, tools: seq<Message>)
    ensures var all := ms + [asst] + tools;
      && |all| == |ms| + 1 + |tools| && all == ms + ([asst] + tools)
      && all[..|ms|] == ms && all[|ms|] == asst
      && forall i: nat | i < |tools| :: all[|ms| + 1 + i] == tools[i]
  {
  }

  lemma BatchAt(w: World, ms: seq<Message>, asst: Message)
    ensures ReportedAt(w, ms + [asst] + ToolMessages(Results(w, Batches(ms), asst.toolCalls)), |ms|)
  {
    var tools := ToolMessages(Results(w, Batches(ms), asst.toolCalls));
    BatchReports(w, Batches(ms), asst.toolCalls, tools);
    Placed(ms, asst, tools);
    hide *;
    ReportsInPlace(w, ms, asst.toolCalls, tools, ms + [asst] + tools);
  }

  lemma BatchReports(w: World, n: nat, calls: seq<ToolCall>, tools: seq<Message>)
    requires tools == ToolMessages(Results(w, n, calls))
    ensures |tools| == |calls| && forall i: nat | i < |calls| :: Reports(w, n, i, calls[i], tools[i])
  {
    hide Reports;
    forall i: nat | i < |calls| ensures Reports(w, n, i, calls[i], tools[i]) {
      ResultReports(w, n, i, calls[i]);
    }
  }

  lemma ReportsInPlace(w: World, ms: seq<Message>, calls: seq<ToolCall>, tools: seq<Message>, all: seq<Message>)
    requires |all| == |ms| + 1 + |tools| && all[..|ms|] == ms && all[|ms|].toolCalls == calls && |tools| == |calls|
    requires forall i: nat | i < |tools| :: all[|ms| + 1 + i] == tools[i]
    requires forall i: nat | i < |calls| :: Reports(w, Batches(ms), i, calls[i], tools[i])
    ensures ReportedAt(w, all, |ms|)
  {
    hide Reports, Batches;
    forall i: nat | i < |calls| ensures Reports(w, Batches(ms), i, calls[i], all[|ms| + 1 + i]) {
      assert all[|ms| + 1 + i] == tools[i];
    }
  }

  lemma ToolsAskNothing(rs: seq<ToolResult>)
    ensures NoUser(ToolMessages(rs)) && forall m <- ToolMessages(rs) :: !Asks(m)
  {
  }

  lemma BehindAsksNothing(ms: seq<Message>, asst: Message, tools: seq<Message>, p: nat)
    requires |ms| < p <= |ms| + |tools| && forall m <- tools :: !Asks(m)
    ensures !Asks((ms + [asst] + tools)[p])
  {
    Placed(ms, asst, tools);
    var i := p - |ms| - 1;
    assert (ms + [asst] + tools)[|ms| + 1 + i] == tools[i];
    assert tools[i] in tools;
  }

  /** A message with calls and the results of its batch. */
  lemma BatchReported(w: World, ms: seq<Message>, asst: Message)
    requires AllReported(w, ms) && Asks(asst)
    ensures var tools := ToolMessages(Results(w, Batches(ms), asst.toolCalls)); var all := ms + [asst] + tools;
      AllReported(w, all) && Batches(all) == Batches(ms) + 1 && NoUser(tools)
  {
    var tools := ToolMessages(Results(w, Batches(ms), asst.toolCalls));
    var all := ms + [asst] + tools;
    ToolsAskNothing(Results(w, Batches(ms), asst.toolCalls));
    AskingAdds(ms, asst);
    QuietAdds(w, ms + [asst], tools);
    BatchAt(w, ms, asst);
    Placed(ms, asst, tools);
    hide ReportedAt, Reports, ToolMessages, Results, Asks, NoUser, Batches;
    forall p: nat | p < |all| && Asks(all[p]) ensures ReportedAt(w, all, p) {
      if p < |ms| {
        assert all[p] == ms[p];
        ReportedStays(w, ms, [asst] + tools, p);
      } else if p > |ms| {
        BehindAsksNothing(ms, asst, tools, p);
      }
    }
  }

  // ---------------------------------------------------------------------------------
  // The invariant of a run.
  // ---------------------------------------------------------------------------------

  /** What the run has appended so far and executed: all but an answer that could not be saved. */
  function Executed(r: RunState): seq<Message> {
    var ms := S.Transcript(r.ops);
    if r.outcome == Some(SaveFailed(AtAnswer)) && ms != [] then ms[..|ms| - 1] else ms
  }

  ghost predicate Told(w: World, input: Bytes, r: RunState) {
    var ms := S.Transcript(r.ops);
    && ms != [] && IsUserInput(ms[0], input) && NoUser(ms[1..])
    && r.batches == Batches(Executed(r)) && AllReported(w, Executed(r))
  }

  /** Nothing is appended. */
  lemma StaysTold(w: World, input: Bytes, r: RunState, a: RunState)
    requires Told(w, input, r) && r.outcome.None? && a.outcome != Some(SaveFailed(AtAnswer))
    requires a.ops == r.ops && a.batches == r.batches
    ensures Told(w, input, a)
  {
  }

  lemma NoUserAdds(ms: seq<Message>, more: seq<Message>)
    requires ms != [] && NoUser(ms[1..]) && NoUser(more)
    ensures (ms + more)[0] == ms[0] && NoUser((ms + more)[1..])
  {
    assert (ms + more)[1..] == ms[1..] + more;
  }

  /** An answer that cannot be saved, or that asks for nothing. */
  lemma AnswerTold(w: World, input: Bytes, r: RunState, asst: Message)
    requires Told(w, input, r) && r.outcome.None? && asst.role == Assistant
    ensures var a := SaveAnswer(w, r, asst);
      (a.outcome.Some? || asst.toolCalls == []) ==> Told(w, input, a)
  {
    var ms := S.Transcript(r.ops);
    An.AnswerAppended(w, r, asst);
    NoUserAdds(ms, [asst]);
    assert (ms + [asst])[..|ms|] == ms;
    hide AllReported, S.Transcript, IsUserInput;
    if asst.toolCalls == [] && SaveAnswer(w, r, asst).outcome.None? { AnswerReported(w, ms, asst); }
  }

  /** An answer that asks for tools, and what they come to. */
  lemma ToolsTold(w: World, input: Bytes, r: RunState, asst: Message, ev: StreamEvent)
    requires Fair(w) && Told(w, input, r) && r.outcome.None? && Asks(asst) && SaveAnswer(w, r, asst).outcome.None?
    ensures Told(w, input, RunTools(w, Emit(SaveAnswer(w, r, asst), [ev]), asst.toolCalls))
  {
    var ms, r1 := S.Transcript(r.ops), Emit(SaveAnswer(w, r, asst), [ev]);
    var tools := ToolMessages(Results(w, r.batches, asst.toolCalls));
    An.AnswerAppended(w, r, asst);
    BatchReported(w, ms, asst);
    NoUserAdds(ms, [asst]);
    NoUserAdds(ms + [asst], tools);
    ToolsRun(w, r1, asst.toolCalls);
    hide AllReported, S.Transcript, IsUserInput, RunTools, SaveAnswer, NoUser;
    var a := RunTools(w, r1, asst.toolCalls);
    assert Executed(a) == ms + [asst] + tools;
  }

  lemma ToolsRun(w: World, r: RunState, calls: seq<ToolCall>)
    requires Fair(w) && r.outcome.None?
    ensures var a := RunTools(w, r, calls);
      && S.Transcript(a.ops) == S.Transcript(r.ops) + ToolMessages(Results(w, r.batches, calls))
      && a.batches == r.batches + 1 && a.outcome != Some(SaveFailed(AtAnswer))
  {
    var r1 := Execute(w, r, calls);
    var tools := ToolMessages(Results(w, r.batches, calls));
    AppendAllFrame(r1, tools);
    An.ResultsAppended(w, r1, tools);
  }

  lemma MessageEndTold(w: World, input: Bytes, s: StepState, ev: StreamEvent)
    requires Fair(w) && Told(w, input, s.run) && s.run.outcome.None? && s.asst.role == Assistant
    ensures Told(w, input, OnMessageEnd(w, s, ev).run)
  {
    var asst := Built(s);
    hide Told, RunTools, SaveAnswer, IsEmptyAnswer;
    if IsEmptyAnswer(asst) {
      StaysTold(w, input, s.run, OnMessageEnd(w, s, ev).run);
    } else {
      var r := SaveAnswer(w, s.run, asst);
      AnswerTold(w, input, s.run, asst);
      if r.outcome.None? {
        if asst.toolCalls == [] {
          StaysTold(w, input, r, Finish(Emit(r, [ev]), Finished));
        } else {
          ToolsTold(w, input, s.run, asst, ev);
        }
      }
    }
  }

  lemma PlainEvent(w: World, s: StepState, ev: StreamEvent)
    requires Fair(w) && s.run.outcome.None? && !ev.MessageEnd?
    ensures var a := OnEvent(w, s, ev);
      && a.run.ops == s.run.ops && a.run.batches == s.run.batches && a.run.outcome != Some(SaveFailed(AtAnswer))
      && a.asst == s.asst && a.run.written == s.run.written
  {
  }

  lemma EventTold(w: World, input: Bytes, s: StepState, ev: StreamEvent)
    requires Fair(w) && Told(w, input, s.run) && s.run.outcome.None? && s.asst.role == Assistant
    ensures Told(w, input, OnEvent(w, s, ev).run) && OnEvent(w, s, ev).asst.role == Assistant
  {
    var run := s.run.(consumed := s.run.consumed + [ev]);
    StaysTold(w, input, s.run, run);
    hide Told;
    if ev.MessageEnd? {
      St.EndTaken(w, s, ev);
      MessageEndTold(w, input, s.(run := run), ev);
    } else {
      PlainEvent(w, s, ev);
      hide OnEvent;
      StaysTold(w, input, s.run, OnEvent(w, s, ev).run);
    }
  }

  lemma {:induction false} ConsumeTold(w: World, input: Bytes, s: StepState, evs: seq<StreamEvent>)
    requires Fair(w) && Told(w, input, s.run) && s.run.outcome.None? && s.asst.role == Assistant
    ensures Told(w, input, Consume(w, s, evs).run) && Consume(w, s, evs).asst.role == Assistant
  {
    if evs != [] {
      hide Told, OnEvent;
      ConsumeTold(w, input, s, evs[..|evs| - 1]);
      var mid := Consume(w, s, evs[..|evs| - 1]);
      if mid.run.outcome.None? { EventTold(w, input, mid, evs[|evs| - 1]); }
    }
  }

  lemma StepTold(w: World, input: Bytes, r: RunState)
    requires Fair(w) && Told(w, input, r) && r.outcome.None?
    ensures Told(w, input, Step(w, r))
  {
    var start := StepStart(r);
    StaysTold(w, input, r, start.run);
    var result := w.stream(r.streams);
    if result.Stream? {
      ConsumeTold(w, input, start, result.events);
      var s := Consume(w, start, result.events);
      hide Told, Consume;
      if s.run.outcome.None? { StaysTold(w, input, s.run, Finish(s.run, NoMessageEnd)); }
    } else {
      hide Told;
      StaysTold(w, input, start.run, Finish(start.run, StreamFailed));
    }
  }

  lemma FinishTold(w: World, input: Bytes, r: RunState, o: Outcome)
    requires Told(w, input, r) && r.outcome.None? && !o.SaveFailed?
    ensures Told(w, input, Finish(r, o))
  {
  }

  lemma StepsTold(w: World, input: Bytes, r: RunState, left: nat)
    requires Fair(w) && Told(w, input, r)
    ensures Told(w, input, Steps(w, r, left))
  {
    var inv := iset x: RunState | Told(w, input, x);
    forall x: RunState ensures An.Keeps(w, inv, x) {
      hide Told, Step, Finish;
      if x in inv && x.outcome.None? {
        StepTold(w, input, x);
        FinishTold(w, input, x, MaxStepsReached);
      }
    }
    hide *;
    An.StepsKeep(w, inv, r, left);
  }

  lemma OpeningTold(w: World, history: seq<Message>, input: Bytes)
    ensures Told(w, input, Opening(w, history, input))
  {
    var u := UserMessage(input);
    H.TranscriptSnoc([], S.Append(u));
    H.TranscriptSnoc([] + [S.Append(u)], S.Op.Save);
    assert [] + [S.Append(u)] == [S.Append(u)];
    assert S.Transcript(Opening(w, history, input).ops) == [u];
    AskingAdds([], u);
    assert [] + [u] == [u];
  }

  // ---------------------------------------------------------------------------------
  // What has been written first stays first.
  // ---------------------------------------------------------------------------------

  lemma {:induction false} ConsumeWrites(w: World, s: StepState, evs: seq<StreamEvent>)
    requires Fair(w)
    ensures s.run.written <= Consume(w, s, evs).run.written
  {
    if evs != [] {
      hide OnEvent;
      ConsumeWrites(w, s, evs[..|evs| - 1]);
      var mid, ev := Consume(w, s, evs[..|evs| - 1]), evs[|evs| - 1];
      if mid.run.outcome.None? {
        if ev.MessageEnd? {
          St.EndTaken(w, mid, ev);
          EndWrites(w, mid.(run := mid.run.(consumed := mid.run.consumed + [ev])), ev);
        } else {
          PlainEvent(w, mid, ev);
        }
      }
    }
  }

  lemma EndWrites(w: World, s: StepState, ev: StreamEvent)
    requires Fair(w)
    ensures s.run.written <= OnMessageEnd(w, s, ev).run.written
  {
    var asst := Built(s);
    var r1 := Emit(SaveAnswer(w, s.run, asst), [ev]);
    AppendAllFrame(Execute(w, r1, asst.toolCalls), ToolMessages(Results(w, r1.batches, asst.toolCalls)));
  }

  lemma {:induction false} StepsWrite(w: World, r: RunState, left: nat)
    requires Fair(w)
    ensures r.written <= Steps(w, r, left).written
    decreases left
  {
    An.NextStep(w, r, left);
    if r.outcome.None? && left > 0 {
      StepWrites(w, r);
      hide *;
      StepsWrite(w, Step(w, r), left - 1);
    }
  }

  lemma StepWrites(w: World, r: RunState)
    requires Fair(w)
    ensures r.written <= Step(w, r).written
  {
    var result := w.stream(r.streams);
    if result.Stream? { ConsumeWrites(w, StepStart(r), result.events); }
  }

  // ---------------------------------------------------------------------------------
  // Every run.
  // ---------------------------------------------------------------------------------

  /** Every run appends the user's input, as it is, in front of everything else, and no other user
      message. */
  lemma RunStartsWithInput(w: World, maxSteps: int, history: seq<Message>, input: Bytes)
    requires Fair(w)
    ensures var ms := S.Transcript(Run(w, maxSteps, history, input).ops);
      ms != [] && IsUserInput(ms[0], input) && forall k :: 1 <= k < |ms| ==> ms[k].role != User
  {
    OpeningTold(w, history, input);
    StepsTold(w, input, Opening(w, history, input), EffectiveSteps(maxSteps));
    var ms := S.Transcript(Run(w, maxSteps, history, input).ops);
    hide Run, S.Transcript, AllReported;
    forall k | 1 <= k < |ms| ensures ms[k].role != User { assert ms[k] in ms[1..]; }
  }

  /** What the first Save stores: the history so far and the user's input, trimmed once, so that the
      input is the last message there, with its content cut to size.  If that Save fails, nothing
      is stored and the run is over. */
  lemma InputIsStored(w: World, maxSteps: int, history: seq<Message>, input: Bytes)
    requires Fair(w)
    ensures var r := Run(w, maxSteps, history, input);
      var first := S.Trim(history + [Message(User, input, "", [], "", "", false)]);
      && first != []
      && IsUserInput(first[|first| - 1], S.TruncateContent(input))
      && (w.redisUp(0) && Encodable(w, first) ==> r.written != [] && r.written[0] == first)
      && (!(w.redisUp(0) && Encodable(w, first)) ==> r.written == [] && r.outcome == Some(SaveFailed(PreTurn)))
  {
    var r0 := Opening(w, history, input);
    H.LastOfTrim(history, UserMessage(input));
    StepsWrite(w, r0, EffectiveSteps(maxSteps));
    hide S.Trim, Encodable;
    An.NextStep(w, r0, EffectiveSteps(maxSteps));
  }

  /** In the transcript of every run, call i of the n-th message that asks for tools is followed, in
      its place, by what call i of the n-th batch came to; only an answer that could not be saved
      has no results. */
  lemma RunReportsTools(w: World, maxSteps: int, history: seq<Message>, input: Bytes, p: nat)
    requires Fair(w)
    requires var ms := S.Transcript(Run(w, maxSteps, history, input).ops); p < |ms| && Asks(ms[p])
    ensures var r := Run(w, maxSteps, history, input); var ms := S.Transcript(r.ops);
      ReportedAt(w, ms, p) || (p == |ms| - 1 && r.outcome == Some(SaveFailed(AtAnswer)))
  {
    OpeningTold(w, history, input);
    StepsTold(w, input, Opening(w, history, input), EffectiveSteps(maxSteps));
    var r := Run(w, maxSteps, history, input);
    assert r == Steps(w, Opening(w, history, input), EffectiveSteps(maxSteps));
    hide *;
    ExecutedIsReported(w, input, r, p);
  }

  lemma ExecutedIsReported(w: World, input: Bytes, r: RunState, p: nat)
    requires Told(w, input, r) && p < |S.Transcript(r.ops)| && Asks(S.Transcript(r.ops)[p])
    ensures var ms := S.Transcript(r.ops);
      ReportedAt(w, ms, p) || (p == |ms| - 1 && r.outcome == Some(SaveFailed(AtAnswer)))
  {
    var ms, done := S.Transcript(r.ops), Executed(r);
    hide S.Transcript, ReportedAt, NoUser, IsUserInput, Batches, Asks;
    if p < |done| {
      assert done[p] == ms[p];
      ReportedStays(w, done, ms[|done|..], p);
      assert done + ms[|done|..] == ms;
    }
  }
}
