/** What a run leaves in the session: the transcript protocol, over any number of runs. */
module AgentHistory {
  import opened Bytes
  import opened Llm
  import opened AgentSpec
  import S = SessionStore
  import T = Transcript

  // ---------------------------------------------------------------------------------
  // The building blocks.
  // ---------------------------------------------------------------------------------

  lemma TranscriptSnoc(ops: seq<S.Op>, op: S.Op)
    ensures S.Transcript(ops + [op]) == S.Transcript(ops) + if op.Append? then [op.m] else []
  {
    assert (ops + [op])[..|ops|] == ops;
  }

  lemma KeptSnoc(before: seq<S.Op>, ops: seq<S.Op>, op: S.Op)
    ensures S.Kept(before + (ops + [op])) ==
      match op case Append(m) => S.Kept(before + ops) + [m] case Save => S.Trim(S.Kept(before + ops))
  {
    var all := before + (ops + [op]);
    assert all[..|all| - 1] == before + ops;
  }

  /** `r` continues the history that `before` produced. */
  ghost predicate Continues(before: seq<S.Op>, r: RunState) {
    r.msgs == S.Kept(before + r.ops)
  }

  lemma {:induction false} AppendAllTranscript(r: RunState, ms: seq<Message>)
    ensures S.Transcript(AppendAll(r, ms).ops) == S.Transcript(r.ops) + ms
  {
    if ms == [] {
      assert S.Transcript(r.ops) + ms == S.Transcript(r.ops);
    } else {
      var n := |ms| - 1;
      AppendAllTranscript(r, ms[..n]);
      TranscriptSnoc(AppendAll(r, ms[..n]).ops, S.Append(ms[n]));
      assert S.Transcript(r.ops) + ms == S.Transcript(r.ops) + ms[..n] + [ms[n]];
    }
  }

  lemma {:induction false} AppendAllContinues(before: seq<S.Op>, r: RunState, ms: seq<Message>)
    requires Continues(before, r)
    ensures Continues(before, AppendAll(r, ms))
  {
    if ms != [] {
      var n := |ms| - 1;
      AppendAllContinues(before, r, ms[..n]);
      KeptSnoc(before, AppendAll(r, ms[..n]).ops, S.Append(ms[n]));
    }
  }

  lemma SaveFacts(before: seq<S.Op>, w: World, r: RunState, at: SavePoint)
    requires Continues(before, r)
    ensures var a := Save(w, r, at);
      && Continues(before, a)
      && S.Transcript(a.ops) == S.Transcript(r.ops)
      && (if Encodable(w, a.msgs) && w.redisUp(r.saves)
          then Stored(a) == Some(a.msgs) && a.outcome == r.outcome
          else a.written == r.written && a.outcome == Some(SaveFailed(at)))
  {
    KeptSnoc(before, r.ops, S.Op.Save);
    TranscriptSnoc(r.ops, S.Op.Save);
  }

  lemma AppendFacts(before: seq<S.Op>, r: RunState, m: Message)
    requires Continues(before, r)
    ensures Continues(before, Append(r, m))
    ensures S.Transcript(Append(r, m).ops) == S.Transcript(r.ops) + [m]
  {
    KeptSnoc(before, r.ops, S.Append(m));
    TranscriptSnoc(r.ops, S.Append(m));
  }

  /** A message with its calls, followed by the results of executing them, conforms. */
  lemma AnsweredConforms(w: World, batch: nat, asst: Message)
    requires asst.role == Assistant
    ensures T.Conforms([asst] + ToolMessages(Results(w, batch, asst.toolCalls)))
  {
    var tools := ToolMessages(Results(w, batch, asst.toolCalls));
    var ms := [asst] + tools;
    var n := |asst.toolCalls|;
    assert ms[1..n + 1] == tools && ms[n + 1..] == [];
    forall i | 0 <= i < n
      ensures tools[i].role == Tool && tools[i].toolCallID == asst.toolCalls[i].id
        && tools[i].name == asst.toolCalls[i].name && tools[i].toolCalls == []
    {
      assert tools[i] == ToolMessage(ExecOne(w, batch, i, asst.toolCalls[i]));
    }
    assert T.Conforms([]);
  }

  // ---------------------------------------------------------------------------------
  // The invariant at every event boundary of a run.
  // ---------------------------------------------------------------------------------

  predicate CallsAreJson(w: World, ms: seq<Message>) { Encodable(w, ms) }

  /** A history whose last message asks for calls that have no results. */
  predicate Stranded(ms: seq<Message>) {
    ms != [] && ms[|ms| - 1].role == Assistant && ms[|ms| - 1].toolCalls != []
  }

  /** What is stored is the trimmed form of the first k operations, a conforming transcript. */
  predicate StoredEarlier(before: seq<S.Op>, r: RunState, k: nat) {
    && k <= |r.ops|
    && Stored(r) == Some(S.Kept(before + r.ops[..k]))
    && T.Conforms(S.Transcript(r.ops[..k]))
  }

  /** What is stored is the trimmed form of the first k operations, a conforming transcript with one
      message behind it that asks for calls. */
  predicate StoredUnanswered(before: seq<S.Op>, r: RunState, k: nat) {
    && k <= |r.ops|
    && Stored(r) == Some(S.Kept(before + r.ops[..k]))
    && EndsUnanswered(S.Transcript(r.ops[..k]))
  }

  predicate EndsUnanswered(ms: seq<Message>) {
    Stranded(ms) && T.Conforms(ms[..|ms| - 1])
  }

  /** What a run leaves in the store when one of its Saves has failed. */
  ghost predicate LeftBehind(before: seq<S.Op>, r: RunState, at: SavePoint) {
    match at
    case PreTurn => r.written == []
    case AtAnswer => exists k :: StoredEarlier(before, r, k)
    case AtTools => Stored(r).Some? && Stranded(Stored(r).value) && exists k :: StoredUnanswered(before, r, k)
  }

  /** Unless a Save failed: what is stored is what is in memory, which is the trimmed form of a
      conforming transcript whose calls all carry JSON. */
  ghost predicate Good(before: seq<S.Op>, w: World, r: RunState) {
    && Continues(before, r)
    && (if SaveLost(r.outcome) then LeftBehind(before, r, r.outcome.value.at)
        else
          && Stored(r) == Some(r.msgs)
          && T.Conforms(S.Transcript(r.ops))
          && CallsAreJson(w, S.Transcript(r.ops)))
  }

  lemma LastKept(w: World, ms: seq<Message>, m: Message)
    requires Encodable(w, S.Trim(ms + [m]))
    ensures Encodable(w, [m])
  {
    var kept := S.Trim(ms + [m]);
    var all := S.TruncateAll(ms + [m]);
    assert all[|ms|] == S.TruncateMessage(m);
    assert kept[|kept| - 1] == all[|ms|];
    assert kept[|kept| - 1] in kept;
  }

  lemma EncodableAppend(w: World, a: seq<Message>, b: seq<Message>)
    requires Encodable(w, a) && Encodable(w, b)
    ensures Encodable(w, a + b)
  {
    forall m | m in a + b ensures forall c <- m.toolCalls :: c.arguments == "" || w.validJson(c.arguments) {
      assert m in a || m in b;
    }
  }

  lemma ToolMessagesEncodable(w: World, rs: seq<ToolResult>)
    ensures Encodable(w, ToolMessages(rs))
  {
    forall m | m in ToolMessages(rs) ensures m.toolCalls == [] {
      var i :| 0 <= i < |rs| && ToolMessages(rs)[i] == m;
    }
  }

  /** The last message a Save writes. */
  lemma LastOfTrim(ms: seq<Message>, m: Message)
    ensures var kept := S.Trim(ms + [m]); kept != [] && kept[|kept| - 1] == S.TruncateMessage(m)
  {
    var all := S.TruncateAll(ms + [m]);
    assert all[|ms|] == S.TruncateMessage(m);
  }

  lemma AnswerKept(before: seq<S.Op>, w: World, r: RunState, asst: Message)
    requires Good(before, w, r) && r.outcome.None?
    requires SaveAnswer(w, r, asst).outcome.None?
    ensures CallsAreJson(w, S.Transcript(r.ops) + [asst])
    ensures asst.role == Assistant && asst.toolCalls != [] ==> Stranded(SaveAnswer(w, r, asst).msgs)
  {
    LastOfTrim(r.msgs, asst);
    LastKept(w, r.msgs, asst);
    EncodableAppend(w, S.Transcript(r.ops), [asst]);
  }

  lemma AnswerLost(before: seq<S.Op>, w: World, r: RunState, a: RunState)
    requires Good(before, w, r) && r.outcome.None?
    requires Continues(before, a) && r.ops <= a.ops && a.written == r.written
    requires a.outcome == Some(SaveFailed(AtAnswer))
    ensures Good(before, w, a)
  {
    assert a.ops[..|r.ops|] == r.ops;
    assert StoredEarlier(before, a, |r.ops|);
  }

  /** Appending and saving the assistant message. */
  lemma AssistantSaved(before: seq<S.Op>, w: World, r: RunState, asst: Message)
    requires Good(before, w, r) && r.outcome.None? && asst.role == Assistant
    ensures var a := SaveAnswer(w, r, asst);
      && Continues(before, a)
      && S.Transcript(a.ops) == S.Transcript(r.ops) + [asst]
      && (a.outcome.None? || a.outcome == Some(SaveFailed(AtAnswer)))
      && (a.outcome.None? ==>
            && Stored(a) == Some(a.msgs) && CallsAreJson(w, S.Transcript(a.ops))
            && (asst.toolCalls != [] ==> Stranded(a.msgs)))
      && (SaveLost(a.outcome) ==> Good(before, w, a))
  {
    var a := SaveAnswer(w, r, asst);
    AppendFacts(before, r, asst);
    SaveFacts(before, w, Append(r, asst), AtAnswer);
    if a.outcome.None? { AnswerKept(before, w, r, asst); } else { AnswerLost(before, w, r, a); }
  }

  lemma AnsweredTranscript(w: World, batch: nat, pre: seq<Message>, asst: Message)
    requires asst.role == Assistant && T.Conforms(pre) && CallsAreJson(w, pre + [asst])
    ensures var all := pre + [asst] + ToolMessages(Results(w, batch, asst.toolCalls));
      T.Conforms(all) && CallsAreJson(w, all)
  {
    var tools := ToolMessages(Results(w, batch, asst.toolCalls));
    AnsweredConforms(w, batch, asst);
    T.ConformsAppend(pre, [asst] + tools);
    assert pre + [asst] + tools == pre + ([asst] + tools);
    ToolMessagesEncodable(w, Results(w, batch, asst.toolCalls));
    EncodableAppend(w, pre + [asst], tools);
  }

  lemma {:induction false} AppendAllExtends(r: RunState, ms: seq<Message>)
    ensures r.ops <= AppendAll(r, ms).ops
  {
    if ms != [] { AppendAllExtends(r, ms[..|ms| - 1]); }
  }

  /** The calls are stored, but the Save of their results fails. */
  lemma ToolsLost(before: seq<S.Op>, w: World, r: RunState, pre: seq<Message>, asst: Message)
    requires Fair(w) && Continues(before, r) && asst.role == Assistant && asst.toolCalls != []
    requires S.Transcript(r.ops) == pre + [asst] && T.Conforms(pre) && Stored(r) == Some(r.msgs)
    ensures var a := RunTools(w, r, asst.toolCalls);
      a.written == r.written ==> exists k :: StoredUnanswered(before, a, k)
  {
    hide Encodable, T.Conforms, S.Transcript, S.Kept;
    var a := RunTools(w, r, asst.toolCalls);
    AppendAllExtends(Execute(w, r, asst.toolCalls), ToolMessages(Results(w, r.batches, asst.toolCalls)));
    if a.written == r.written {
      assert a.ops[..|r.ops|] == r.ops;
      assert (pre + [asst])[..|pre|] == pre;
      assert StoredUnanswered(before, a, |r.ops|);
    }
  }

  /** Executing the calls just saved. */
  lemma ToolsSaved(before: seq<S.Op>, w: World, r: RunState, pre: seq<Message>, asst: Message)
    requires Fair(w) && Continues(before, r) && r.outcome.None? && asst.role == Assistant && asst.toolCalls != []
    requires S.Transcript(r.ops) == pre + [asst] && T.Conforms(pre)
    requires CallsAreJson(w, S.Transcript(r.ops)) && Stored(r) == Some(r.msgs) && Stranded(r.msgs)
    ensures Good(before, w, RunTools(w, r, asst.toolCalls))
  {
    hide Encodable, Execute, T.Conforms, S.Transcript, S.Kept;
    var r1 := Execute(w, r, asst.toolCalls);
    var tools := ToolMessages(Results(w, r.batches, asst.toolCalls));
    ExecuteFrame(before, w, r, asst.toolCalls);
    AppendAllFrame(r1, tools);
    AppendAllTranscript(r1, tools);
    AppendAllContinues(before, r1, tools);
    SaveFacts(before, w, AppendAll(r1, tools), AtTools);
    AnsweredTranscript(w, r.batches, pre, asst);
    ToolsLost(before, w, r, pre, asst);
  }

  lemma ExecuteFrame(before: seq<S.Op>, w: World, r: RunState, calls: seq<ToolCall>)
    requires Fair(w) && Continues(before, r)
    ensures var a := Execute(w, r, calls);
      Continues(before, a) && a.ops == r.ops && a.outcome == r.outcome && a.written == r.written && a.msgs == r.msgs
  {
  }

  /** An answer without calls. */
  lemma AnswerGood(before: seq<S.Op>, w: World, r: RunState, a: RunState, asst: Message)
    requires Good(before, w, r) && r.outcome.None? && asst.role == Assistant && asst.toolCalls == []
    requires Continues(before, a) && S.Transcript(a.ops) == S.Transcript(r.ops) + [asst]
    requires Stored(a) == Some(a.msgs) && CallsAreJson(w, S.Transcript(a.ops)) && !SaveLost(a.outcome)
    ensures Good(before, w, a)
  {
    assert T.Conforms([asst]) by {
      assert [asst][1..] == [] && T.Conforms([]);
    }
    T.ConformsAppend(S.Transcript(r.ops), [asst]);
  }

  lemma CallsGood(before: seq<S.Op>, w: World, s: StepState, ev: StreamEvent)
    requires Fair(w) && Good(before, w, s.run) && s.run.outcome.None? && s.asst.role == Assistant
    requires Built(s).toolCalls != [] && SaveAnswer(w, s.run, Built(s)).outcome.None?
    ensures Good(before, w, RunTools(w, Emit(SaveAnswer(w, s.run, Built(s)), [ev]), Built(s).toolCalls))
  {
    AssistantSaved(before, w, s.run, Built(s));
    ToolsSaved(before, w, Emit(SaveAnswer(w, s.run, Built(s)), [ev]), S.Transcript(s.run.ops), Built(s));
  }

  lemma NoCallsGood(before: seq<S.Op>, w: World, s: StepState, ev: StreamEvent)
    requires Good(before, w, s.run) && s.run.outcome.None? && s.asst.role == Assistant
    requires Built(s).toolCalls == [] && SaveAnswer(w, s.run, Built(s)).outcome.None?
    ensures Good(before, w, Finish(Emit(SaveAnswer(w, s.run, Built(s)), [ev]), Finished))
  {
    AssistantSaved(before, w, s.run, Built(s));
    AnswerGood(before, w, s.run, Finish(Emit(SaveAnswer(w, s.run, Built(s)), [ev]), Finished), Built(s));
  }

  lemma MessageEndGood(before: seq<S.Op>, w: World, s: StepState, ev: StreamEvent)
    requires Fair(w) && Good(before, w, s.run) && s.run.outcome.None? && s.asst.role == Assistant
    ensures Good(before, w, OnMessageEnd(w, s, ev).run)
    ensures OnMessageEnd(w, s, ev).asst.role == Assistant
  {
    if IsEmptyAnswer(Built(s)) {
      FinishGood(before, w, Emit(s.run, [Error(Some("agent: empty assistant response"))]), EmptyResponse);
    } else {
      AssistantSaved(before, w, s.run, Built(s));
      if SaveAnswer(w, s.run, Built(s)).outcome.None? {
        if Built(s).toolCalls == [] { NoCallsGood(before, w, s, ev); } else { CallsGood(before, w, s, ev); }
      }
    }
  }

  /** What is sent and taken does not matter. */
  lemma StaysGood(before: seq<S.Op>, w: World, r: RunState, a: RunState)
    requires Good(before, w, r) && r.outcome.None? && !SaveLost(a.outcome)
    requires a.msgs == r.msgs && a.ops == r.ops && a.written == r.written
    ensures Good(before, w, a)
  {
  }

  lemma EventGood(before: seq<S.Op>, w: World, s: StepState, ev: StreamEvent)
    requires Fair(w) && Good(before, w, s.run) && s.run.outcome.None? && s.asst.role == Assistant
    ensures Good(before, w, OnEvent(w, s, ev).run)
    ensures OnEvent(w, s, ev).asst.role == Assistant
  {
    hide OnMessageEnd, Good;
    var run := s.run.(consumed := s.run.consumed + [ev]);
    StaysGood(before, w, s.run, run);
    if ev.MessageEnd? {
      MessageEndGood(before, w, s.(run := run), ev);
    } else {
      StaysGood(before, w, s.run, OnEvent(w, s, ev).run);
    }
  }

  lemma {:induction false} ConsumeGood(before: seq<S.Op>, w: World, s: StepState, evs: seq<StreamEvent>)
    requires Fair(w) && Good(before, w, s.run) && s.run.outcome.None? && s.asst.role == Assistant
    ensures Good(before, w, Consume(w, s, evs).run)
    ensures Consume(w, s, evs).asst.role == Assistant
  {
    if evs != [] {
      var init := evs[..|evs| - 1];
      ConsumeGood(before, w, s, init);
      var mid := Consume(w, s, init);
      if mid.run.outcome.None? { EventGood(before, w, mid, evs[|evs| - 1]); }
    }
  }

  lemma StartGood(before: seq<S.Op>, w: World, r: RunState)
    requires Good(before, w, r) && r.outcome.None?
    ensures Good(before, w, StepStart(r).run)
  {
  }

  lemma FinishGood(before: seq<S.Op>, w: World, r: RunState, o: Outcome)
    requires Good(before, w, r) && r.outcome.None? && !o.SaveFailed?
    ensures Good(before, w, Finish(r, o))
  {
  }

  lemma StepGood(before: seq<S.Op>, w: World, r: RunState)
    requires Fair(w) && Good(before, w, r) && r.outcome.None?
    ensures Good(before, w, Step(w, r))
  {
    var result := w.stream(r.streams);
    StartGood(before, w, r);
    if result.Stream? {
      ConsumeGood(before, w, StepStart(r), result.events);
      var a := Consume(w, StepStart(r), result.events).run;
      if a.outcome.None? { FinishGood(before, w, a, NoMessageEnd); }
    } else {
      FinishGood(before, w, StepStart(r).run, StreamFailed);
    }
  }

  lemma {:induction false} StepsGood(before: seq<S.Op>, w: World, r: RunState, left: nat)
    requires Fair(w) && Good(before, w, r)
    ensures Good(before, w, Steps(w, r, left))
    decreases left
  {
    if r.outcome.None? && left > 0 {
      StepGood(before, w, r);
      StepsGood(before, w, Step(w, r), left - 1);
    }
  }

  lemma FirstSave(before: seq<S.Op>, w: World, input: Bytes)
    ensures Good(before, w, Opening(w, S.Kept(before), input))
  {
    var r := Begin(S.Kept(before));
    assert before + [] == before;
    AppendFacts(before, r, UserMessage(input));
    SaveFacts(before, w, Append(r, UserMessage(input)), PreTurn);
    assert S.Transcript([]) + [UserMessage(input)] == [UserMessage(input)];
    assert T.Conforms([UserMessage(input)]) by {
      assert [UserMessage(input)][1..] == [];
      assert T.Conforms([]);
    }
  }

  /** One run on a history that earlier appends and Saves produced.  On every return but after a
      failed Save the store holds exactly what is in memory, and the run's part of the transcript
      obeys the tool protocol.  After a failed Save of the user's message nothing was written;
      after one of an answer the store still holds an earlier, conforming state; after one of tool
      results it holds calls without results. */
  lemma RunKeepsProtocol(before: seq<S.Op>, w: World, maxSteps: int, input: Bytes)
    requires Fair(w)
    ensures var r := Run(w, maxSteps, S.Kept(before), input);
      && r.msgs == S.Kept(before + r.ops)
      && r.outcome.Some?
      && (if SaveLost(r.outcome) then LeftBehind(before, r, r.outcome.value.at)
          else
            && Stored(r) == Some(r.msgs)
            && T.Conforms(S.Transcript(r.ops))
            && CallsAreJson(w, S.Transcript(r.ops)))
  {
    var r0 := Opening(w, S.Kept(before), input);
    FirstSave(before, w, input);
    StepsGood(before, w, r0, EffectiveSteps(maxSteps));
    StepsEnd(w, r0, EffectiveSteps(maxSteps));
  }

  lemma {:induction false} StepsEnd(w: World, r: RunState, left: nat)
    requires Fair(w)
    ensures Steps(w, r, left).outcome.Some?
    decreases left
  {
    if r.outcome.None? && left > 0 {
      StepsEnd(w, Step(w, r), left - 1);
    }
  }

  // ---------------------------------------------------------------------------------
  // Any number of runs.
  // ---------------------------------------------------------------------------------

  /** A history some sequence of appends and Saves left of a conforming transcript. */
  ghost predicate Sound(history: seq<Message>) {
    exists ops :: ProducedBy(history, ops)
  }

  ghost predicate ProducedBy(history: seq<Message>, ops: seq<S.Op>) {
    history == S.Kept(ops) && T.Conforms(S.Transcript(ops))
  }

  lemma EmptyIsSound()
    ensures Sound([])
  {
    assert ProducedBy([], []);
  }

  lemma {:induction false} TranscriptAppend(a: seq<S.Op>, b: seq<S.Op>)
    ensures S.Transcript(a + b) == S.Transcript(a) + S.Transcript(b)
  {
    if b == [] {
      assert a + b == a;
    } else {
      var init, op := b[..|b| - 1], b[|b| - 1];
      TranscriptAppend(a, init);
      assert a + b == a + init + [op] && b == init + [op];
      TranscriptSnoc(a + init, op);
      TranscriptSnoc(init, op);
    }
  }

  /** What a run leaves in the store: the history it read if it wrote nothing. */
  function Leaves(w: World, maxSteps: int, history: seq<Message>, input: Bytes): seq<Message>
    requires Fair(w)
  {
    var r := Run(w, maxSteps, history, input);
    if Stored(r).Some? then Stored(r).value else history
  }

  /** The Save of some tool results failed. */
  predicate Strands(w: World, maxSteps: int, history: seq<Message>, input: Bytes)
    requires Fair(w)
  {
    Run(w, maxSteps, history, input).outcome == Some(SaveFailed(AtTools))
  }

  lemma EarlierIsSound(before: seq<S.Op>, r: RunState, k: nat)
    requires T.Conforms(S.Transcript(before)) && StoredEarlier(before, r, k)
    ensures Sound(Stored(r).value)
  {
    var ops := r.ops[..k];
    TranscriptAppend(before, ops);
    T.ConformsAppend(S.Transcript(before), S.Transcript(ops));
    assert ProducedBy(Stored(r).value, before + ops);
  }

  /** Whatever happens to its Saves, a run on a sound history leaves a sound history in the store,
      with one exception: the Save of tool results fails.  Then what is stored is no window. */
  lemma RunLeavesSoundExactly(w: World, maxSteps: int, history: seq<Message>, input: Bytes)
    requires Fair(w) && Sound(history)
    ensures var left := Leaves(w, maxSteps, history, input);
      && (Sound(left) <==> !Strands(w, maxSteps, history, input))
      && (T.Window(left) <==> !Strands(w, maxSteps, history, input))
  {
    var before :| ProducedBy(history, before);
    RunKeepsProtocol(before, w, maxSteps, input);
    var r, left := Run(w, maxSteps, history, input), Leaves(w, maxSteps, history, input);
    hide Run, T.Window, Sound;
    if Strands(w, maxSteps, history, input) {
      StrandedIsNoWindow(left);
    } else {
      if Stored(r).Some? { StoredIsSound(before, r); }
      SoundIsWindow(left);
    }
  }

  /** What a run has stored, if its Saves of tool results got through. */
  lemma StoredIsSound(before: seq<S.Op>, r: RunState)
    requires T.Conforms(S.Transcript(before)) && Stored(r).Some? && r.outcome != Some(SaveFailed(AtTools))
    requires if SaveLost(r.outcome) then LeftBehind(before, r, r.outcome.value.at)
      else Stored(r) == Some(r.msgs) && r.msgs == S.Kept(before + r.ops) && T.Conforms(S.Transcript(r.ops))
    ensures Sound(Stored(r).value)
  {
    hide S.Kept, S.Transcript, T.Conforms;
    if r.outcome == Some(SaveFailed(AtAnswer)) {
      var k: nat :| StoredEarlier(before, r, k);
      EarlierIsSound(before, r, k);
    } else {
      assert r.ops[..|r.ops|] == r.ops;
      EarlierIsSound(before, r, |r.ops|);
    }
  }

  lemma StrandedIsNoWindow(ms: seq<Message>)
    requires Stranded(ms)
    ensures !T.Window(ms) && !Sound(ms)
  {
    if T.Window(ms) { WindowEndsAnswered(ms); }
    if Sound(ms) { SoundIsWindow(ms); }
  }

  /** What Sound means for the window a provider gets to see. */
  lemma SoundIsWindow(history: seq<Message>)
    requires Sound(history)
    ensures T.Window(history)
  {
    var ops :| ProducedBy(history, ops);
    T.TrimmedHistoryIsWindow(ops);
  }

  /** The turns of one session: each run continues on what the one before left in the store. */
  datatype Turn = Turn(w: World, maxSteps: int, input: Bytes)

  ghost predicate AllFair(turns: seq<Turn>) {
    forall k :: 0 <= k < |turns| ==> Fair(turns[k].w)
  }

  function Replay(turns: seq<Turn>): seq<Message>
    requires AllFair(turns)
  {
    if turns == [] then []
    else
      var t := turns[|turns| - 1];
      Leaves(t.w, t.maxSteps, Replay(turns[..|turns| - 1]), t.input)
  }

  /** No turn strands calls. */
  ghost predicate NoneStrands(turns: seq<Turn>)
    requires AllFair(turns)
  {
    turns == [] ||
    var init, t := turns[..|turns| - 1], turns[|turns| - 1];
    NoneStrands(init) && !Strands(t.w, t.maxSteps, Replay(init), t.input)
  }

  /** Over any number of turns, whatever other Saves fail, the stored history always is orphaned
      results followed by a conforming transcript, until a Save of tool results fails; and it is
      none right after that. */
  lemma {:induction false} ReplayIsSound(turns: seq<Turn>)
    requires AllFair(turns)
    ensures NoneStrands(turns) ==> Sound(Replay(turns)) && T.Window(Replay(turns))
    ensures turns != [] && NoneStrands(turns[..|turns| - 1]) ==> (T.Window(Replay(turns)) <==> NoneStrands(turns))
  {
    if turns == [] {
      EmptyIsSound();
      SoundIsWindow([]);
    } else {
      var init, t := turns[..|turns| - 1], turns[|turns| - 1];
      ReplayIsSound(init);
      if NoneStrands(init) { RunLeavesSoundExactly(t.w, t.maxSteps, Replay(init), t.input); }
    }
  }

  // ---------------------------------------------------------------------------------
  // Malformed call arguments.
  // ---------------------------------------------------------------------------------

  lemma Refused(w: World, ms: seq<Message>, m: Message, c: ToolCall)
    requires c in m.toolCalls && c.arguments != "" && !w.validJson(c.arguments)
    ensures !Encodable(w, S.Trim(ms + [m]))
  {
    assert m in [m];
    if Encodable(w, S.Trim(ms + [m])) { LastKept(w, ms, m); }
  }

  /** The tool layer has an answer ready for arguments that are not JSON, but with the Redis store
      no call with such arguments gets there: the Save in front of it fails and ends the run
      before any tool is announced or executed. */
  lemma MalformedArgumentsEndTheRun(w: World, s: StepState, ev: StreamEvent, id: Bytes)
    requires Fair(w) && s.run.outcome.None?
    requires id in s.acc.order && CallOf(s.acc, id).arguments != "" && !w.validJson(CallOf(s.acc, id).arguments)
    ensures var a := OnMessageEnd(w, s, ev).run;
      && a.outcome == Some(SaveFailed(AtAnswer))
      && a.batches == s.run.batches && a.emitted == s.run.emitted && a.written == s.run.written
  {
    var k :| 0 <= k < |s.acc.order| && s.acc.order[k] == id;
    var c := Calls(s.acc)[k];
    var asst := Built(s);
    assert asst.toolCalls[|s.asst.toolCalls| + k] == c;
    assert c in asst.toolCalls;
    Refused(w, s.run.msgs, asst, c);
  }

  // ---------------------------------------------------------------------------------
  // What providers get to see.
  // ---------------------------------------------------------------------------------

  /** The run after k passes of the step loop, or where it returned before. */
  function AfterSteps(w: World, r: RunState, k: nat): RunState
    requires Fair(w)
  {
    if k == 0 then r
    else
      var before := AfterSteps(w, r, k - 1);
      if before.outcome.Some? then before else Step(w, before)
  }

  lemma {:induction false} AfterStepsGood(before: seq<S.Op>, w: World, r: RunState, k: nat)
    requires Fair(w) && Good(before, w, r)
    ensures Good(before, w, AfterSteps(w, r, k))
  {
    if k > 0 {
      AfterStepsGood(before, w, r, k - 1);
      var mid := AfterSteps(w, r, k - 1);
      if mid.outcome.None? { StepGood(before, w, mid); }
    }
  }

  /** Whenever a run on a sound history is about to call the provider, be it for the first or for
      the k-th time, the messages it sends are orphaned tool results followed by a history that
      obeys the tool protocol. */
  lemma RequestsAreWindows(w: World, history: seq<Message>, input: Bytes, k: nat)
    requires Fair(w) && Sound(history)
    ensures var r := AfterSteps(w, Opening(w, history, input), k);
      r.outcome.None? ==> T.Window(r.msgs)
  {
    var ops :| ProducedBy(history, ops);
    var r0 := Opening(w, history, input);
    FirstSave(ops, w, input);
    AfterStepsGood(ops, w, r0, k);
    var r := AfterSteps(w, r0, k);
    if r.outcome.None? { GoodIsWindow(ops, w, r); }
  }

  lemma GoodIsWindow(ops: seq<S.Op>, w: World, r: RunState)
    requires Good(ops, w, r) && r.outcome.None? && T.Conforms(S.Transcript(ops))
    ensures T.Window(r.msgs)
  {
    TranscriptAppend(ops, r.ops);
    T.ConformsAppend(S.Transcript(ops), S.Transcript(r.ops));
    T.TrimmedHistoryIsWindow(ops + r.ops);
  }

  // ---------------------------------------------------------------------------------
  // The Save that has to succeed.
  // ---------------------------------------------------------------------------------

  /** A window does not end in a call without its result. */
  lemma {:induction false} ConformingEndsAnswered(ms: seq<Message>)
    requires T.Conforms(ms) && ms != []
    ensures ms[|ms| - 1].role == Assistant ==> ms[|ms| - 1].toolCalls == []
    decreases |ms|
  {
    var n := if ms[0].role == User then 0 else |ms[0].toolCalls|;
    var rest := ms[n + 1..];
    if rest != [] {
      ConformingEndsAnswered(rest);
      assert rest[|rest| - 1] == ms[|ms| - 1];
    } else if n > 0 {
      assert ms[1..n + 1][n - 1] == ms[n];
    }
  }

  lemma WindowEndsAnswered(ms: seq<Message>)
    requires T.Window(ms) && ms != []
    ensures ms[|ms| - 1].role == Assistant ==> ms[|ms| - 1].toolCalls == []
  {
    var k: nat :| T.SplitsAt(ms, k);
    if k < |ms| {
      ConformingEndsAnswered(ms[k..]);
      assert ms[k..][|ms| - k - 1] == ms[|ms| - 1];
    } else {
      assert ms[|ms| - 1] in ms[..k];
    }
  }

  /** When the answer is saved but Redis is gone for the Save of its tool results, the stored
      history ends in calls without results, and so is no window: the next turn builds on it. */
  lemma FailedSaveStrandsCalls(w: World, r: RunState, asst: Message)
    requires Fair(w) && r.outcome.None? && asst.role == Assistant && asst.toolCalls != []
    requires Encodable(w, S.Trim(r.msgs + [asst]))
    requires w.redisUp(r.saves) && !w.redisUp(r.saves + 1)
    ensures var a := RunTools(w, SaveAnswer(w, r, asst), asst.toolCalls);
      a.outcome == Some(SaveFailed(AtTools)) && Stored(a).Some? && !T.Window(Stored(a).value)
  {
    var saved := SaveAnswer(w, r, asst);
    var a := RunTools(w, saved, asst.toolCalls);
    AppendAllFrame(Execute(w, saved, asst.toolCalls), ToolMessages(Results(w, saved.batches, asst.toolCalls)));
    assert a.written == saved.written;
    LastOfTrim(r.msgs, asst);
    var kept := saved.msgs;
    assert Stored(a) == Some(kept);
    if T.Window(kept) { WindowEndsAnswered(kept); }
  }
}
