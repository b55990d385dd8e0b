/** Which Saves may fail: the exact condition, read off the provider's streams and Redis, under
    which a run leaves a history that ends in calls without results. */
module SaveFaults {
  import opened Bytes
  import opened Llm
  import opened AgentSpec
  import opened AgentSteps
  import H = AgentHistory
  import S = SessionStore

  /** The arguments of every call of a stream are JSON, or absent. */
  ghost predicate JsonCalls(w: World, evs: seq<StreamEvent>) {
    forall id :: JsonCall(w, evs, id)
  }

  predicate JsonCall(w: World, evs: seq<StreamEvent>, id: Bytes) {
    ArgsFor(evs, id) == "" || w.validJson(ArgsFor(evs, id))
  }

  /** The k-th stream ends in tool calls that can be stored. */
  ghost predicate Answerable(w: World, k: nat) {
    StreamEndsInCalls(w, k) && JsonCalls(w, w.stream(k).events)
  }

  /** From the k-th stream on, the first Save that fails is one of tool results.  The answer to
      the k-th stream is the (2k+1)-th Save of a run, its tool results are the (2k+2)-th. */
  ghost predicate ToolSaveFailsFirst(w: World, k: nat, left: nat)
    decreases left
  {
    && left > 0
    && Answerable(w, k)
    && w.redisUp(2 * k + 1)
    && (w.redisUp(2 * k + 2) ==> ToolSaveFailsFirst(w, k + 1, left - 1))
  }

  // ---------------------------------------------------------------------------------
  // Encodability.
  // ---------------------------------------------------------------------------------

  lemma {:induction false} OrderIsKeys(evs: seq<StreamEvent>, id: Bytes)
    requires AccumulateAll(evs).Some?
    ensures id in AccumulateAll(evs).value.order <==> id in AccumulateAll(evs).value.partials
  {
    if evs != [] { OrderIsKeys(evs[..|evs| - 1], id); }
  }

  /** The reassembled calls are storable exactly when their argument text is JSON. */
  lemma CallsAreStorable(w: World, evs: seq<StreamEvent>, asst: Message)
    requires AccumulateAll(evs).Some? && asst.toolCalls == Calls(AccumulateAll(evs).value)
    ensures Encodable(w, [asst]) <==> JsonCalls(w, evs)
  {
    var acc := AccumulateAll(evs).value;
    forall id ensures id in acc.partials ==> (JsonCall(w, evs, id) <==> CallOf(acc, id).arguments == "" || w.validJson(CallOf(acc, id).arguments)) {
      AccKnowsArgs(evs, id);
    }
    forall id ensures id !in acc.partials ==> JsonCall(w, evs, id) { AccKnowsArgs(evs, id); }
    forall id ensures id in acc.order <==> id in acc.partials { OrderIsKeys(evs, id); }
    if Encodable(w, [asst]) {
      assert asst in [asst];
      forall id ensures JsonCall(w, evs, id) {
        if id in acc.order {
          var k :| 0 <= k < |acc.order| && acc.order[k] == id;
          assert Calls(acc)[k] in asst.toolCalls;
        }
      }
    }
    if JsonCalls(w, evs) {
      forall c | c in asst.toolCalls ensures c.arguments == "" || w.validJson(c.arguments) {
        var k :| 0 <= k < |acc.order| && Calls(acc)[k] == c;
        assert JsonCall(w, evs, acc.order[k]);
      }
    }
  }

  /** Trimming looks at contents and positions only. */
  lemma TrimStaysEncodable(w: World, ms: seq<Message>)
    requires Encodable(w, ms)
    ensures Encodable(w, S.Trim(ms))
  {
    forall m | m in S.Trim(ms) ensures forall c <- m.toolCalls :: c.arguments == "" || w.validJson(c.arguments) {
      var i :| 0 <= i < |S.Trim(ms)| && S.Trim(ms)[i] == m;
      S.TrimAt(ms, i);
      assert ms[|ms| - |S.Trim(ms)| + i] in ms;
    }
  }

  lemma AnswerEncodable(w: World, ms: seq<Message>, asst: Message)
    requires Encodable(w, ms)
    ensures Encodable(w, S.Trim(ms + [asst])) <==> Encodable(w, [asst])
  {
    if Encodable(w, [asst]) {
      H.EncodableAppend(w, ms, [asst]);
      TrimStaysEncodable(w, ms + [asst]);
    }
    if Encodable(w, S.Trim(ms + [asst])) { H.LastKept(w, ms, asst); }
  }

  // ---------------------------------------------------------------------------------
  // The two Saves of a step.
  // ---------------------------------------------------------------------------------

  /** The Save of an answer fails exactly when Redis is gone or a call is not JSON. */
  lemma AnswerSave(w: World, r: RunState, asst: Message)
    requires r.outcome.None? && Encodable(w, r.msgs)
    ensures var a := SaveAnswer(w, r, asst);
      && a.outcome == (if Encodable(w, [asst]) && w.redisUp(r.saves) then None else Some(SaveFailed(AtAnswer)))
      && a.saves == r.saves + 1 && a.streams == r.streams
      && (a.outcome.None? ==> Encodable(w, a.msgs))
  {
    AnswerEncodable(w, r.msgs, asst);
  }

  lemma {:induction false} AppendedMsgs(r: RunState, ms: seq<Message>)
    ensures AppendAll(r, ms).msgs == r.msgs + ms
  {
    if ms == [] {
      assert r.msgs + ms == r.msgs;
    } else {
      var n := |ms| - 1;
      AppendedMsgs(r, ms[..n]);
      assert r.msgs + ms == r.msgs + ms[..n] + [ms[n]];
    }
  }

  /** The Save of tool results fails exactly when Redis is gone. */
  lemma ToolsSave(w: World, r: RunState, calls: seq<ToolCall>)
    requires Fair(w) && r.outcome.None? && Encodable(w, r.msgs)
    ensures var a := RunTools(w, r, calls);
      && a.outcome == (if w.redisUp(r.saves) then None else Some(SaveFailed(AtTools)))
      && a.saves == r.saves + 1 && a.streams == r.streams
      && Encodable(w, a.msgs)
  {
    var results := Results(w, r.batches, calls);
    var r1 := Execute(w, r, calls);
    AppendAllFrame(r1, ToolMessages(results));
    AppendedMsgs(r1, ToolMessages(results));
    H.ToolMessagesEncodable(w, results);
    H.EncodableAppend(w, r.msgs, ToolMessages(results));
    TrimStaysEncodable(w, r.msgs + ToolMessages(results));
  }

  lemma {:induction false} BodyKeepsGoing(evs: seq<StreamEvent>)
    requires (forall e <- evs :: !IsTerminator(e)) && AccumulateAll(evs).Some?
    ensures KeepsGoing(evs) && !HasEnd(evs)
  {
    if evs != [] {
      var init, last := evs[..|evs| - 1], evs[|evs| - 1];
      assert last in evs;
      BodyKeepsGoing(init);
      HasSnoc(evs);
      if last.ToolCallArgs? { AccKnowsArgs(init, last.id); }
    }
  }

  lemma ArgsOfEnd(evs: seq<StreamEvent>, w: World)
    requires evs != [] && evs[|evs| - 1].MessageEnd?
    ensures JsonCalls(w, evs) <==> JsonCalls(w, evs[..|evs| - 1])
  {
    var init := evs[..|evs| - 1];
    assert forall id :: ArgsFor(evs, id) == ArgsFor(init, id);
    if JsonCalls(w, evs) {
      forall id ensures JsonCall(w, init, id) { assert JsonCall(w, evs, id); }
    }
    if JsonCalls(w, init) {
      forall id ensures JsonCall(w, evs, id) { assert JsonCall(w, init, id); }
    }
  }

  /** What becomes of a step in terms of its stream and its two Saves. */
  ghost predicate StepDoes(w: World, r: RunState, a: RunState, answerable: bool) {
    && (a.outcome.None? <==> answerable && w.redisUp(r.saves) && w.redisUp(r.saves + 1))
    && (a.outcome == Some(SaveFailed(AtTools)) <==> answerable && w.redisUp(r.saves) && !w.redisUp(r.saves + 1))
    && (a.outcome.None? ==> a.saves == r.saves + 2 && a.streams == r.streams && Encodable(w, a.msgs))
  }

  /** At the message end of a tidy stream. */
  lemma EndDoes(w: World, s: StepState, init: seq<StreamEvent>, ev: StreamEvent)
    requires Fair(w) && s.run.outcome.None? && Encodable(w, s.run.msgs) && ev.MessageEnd?
    requires s.asst == BLANK_ASSISTANT && AccumulateAll(init) == Some(s.acc)
    ensures StepDoes(w, s.run, OnMessageEnd(w, s, ev).run, HasCall(init) && JsonCalls(w, init))
  {
    var asst := Built(s);
    assert asst.toolCalls == Calls(s.acc);
    AccKnowsArgs(init, "");
    CallsAreStorable(w, init, asst);
    AnswerSave(w, s.run, asst);
    var r := SaveAnswer(w, s.run, asst);
    if !IsEmptyAnswer(asst) && r.outcome.None? && asst.toolCalls != [] {
      ToolsSave(w, Emit(r, [ev]), asst.toolCalls);
    }
  }

  lemma TidyBody(evs: seq<StreamEvent>)
    requires Tidy(evs) && evs != []
    ensures forall e <- evs[..|evs| - 1] :: !IsTerminator(e)
  {
  }

  lemma EndsInCallsHere(evs: seq<StreamEvent>)
    requires evs != [] && IsTerminator(evs[|evs| - 1]) && forall e <- evs[..|evs| - 1] :: !IsTerminator(e)
    requires AccumulateAll(evs[..|evs| - 1]).Some?
    ensures EndsInCalls(evs) <==> evs[|evs| - 1].MessageEnd? && HasCall(evs[..|evs| - 1])
  {
    HasSnoc(evs);
    BodyKeepsGoing(evs[..|evs| - 1]);
  }

  lemma DoesAlike(w: World, r: RunState, r': RunState, a: RunState, x: bool)
    requires StepDoes(w, r', a, x) && r'.saves == r.saves && r'.streams == r.streams
    ensures StepDoes(w, r, a, x)
  {
  }

  lemma FailsDo(w: World, r: RunState, a: RunState)
    requires a.outcome.Some? && !SaveLost(a.outcome)
    ensures StepDoes(w, r, a, false)
  {
  }

  lemma LastDoes(w: World, s: StepState, evs: seq<StreamEvent>)
    requires Fair(w) && s.run.outcome.None? && Encodable(w, s.run.msgs)
    requires evs != [] && IsTerminator(evs[|evs| - 1]) && forall e <- evs[..|evs| - 1] :: !IsTerminator(e)
    requires s.asst == BLANK_ASSISTANT && AccumulateAll(evs[..|evs| - 1]) == Some(s.acc)
    ensures StepDoes(w, s.run, OnEvent(w, s, evs[|evs| - 1]).run, EndsInCalls(evs) && JsonCalls(w, evs))
  {
    var init, last := evs[..|evs| - 1], evs[|evs| - 1];
    EndsInCallsHere(evs);
    if last.MessageEnd? {
      ArgsOfEnd(evs, w);
      var s' := s.(run := s.run.(consumed := s.run.consumed + [last]));
      EndDoes(w, s', init, last);
      DoesAlike(w, s.run, s'.run, OnMessageEnd(w, s', last).run, HasCall(init) && JsonCalls(w, init));
    } else {
      FailsDo(w, s.run, OnEvent(w, s, last).run);
    }
  }

  lemma StreamDoes(w: World, r: RunState, evs: seq<StreamEvent>)
    requires Fair(w) && r.outcome.None? && Encodable(w, r.msgs) && Tidy(evs) && evs != []
    requires IsTerminator(evs[|evs| - 1])
    ensures StepDoes(w, StepStart(r).run, Consume(w, StepStart(r), evs).run, EndsInCalls(evs) && JsonCalls(w, evs))
  {
    var init := evs[..|evs| - 1];
    TidyBody(evs);
    ConsumeBody(w, r, StepStart(r), init);
    BodyMsgs(w, StepStart(r), init);
    var s := Consume(w, StepStart(r), init);
    if s.run.outcome.None? {
      LastDoes(w, s, evs);
      DoesAlike(w, StepStart(r).run, s.run, OnEvent(w, s, evs[|evs| - 1]).run, EndsInCalls(evs) && JsonCalls(w, evs));
    } else {
      NoMoreGoing(init);
      FailsDo(w, StepStart(r).run, s.run);
    }
  }

  /** A call over the cap ends the run. */
  lemma {:induction false} NoMoreGoing(evs: seq<StreamEvent>)
    requires (forall e <- evs :: !IsTerminator(e)) && AccumulateAll(evs).None?
    ensures !KeepsGoing(evs)
  {
    var init, last := evs[..|evs| - 1], evs[|evs| - 1];
    assert forall e <- init :: e in evs;
    if AccumulateAll(init).None? { NoMoreGoing(init); } else { AccKnowsArgs(init, last.id); }
  }

  /** Before its terminator a stream touches neither messages nor Saves. */
  lemma {:induction false} BodyMsgs(w: World, s0: StepState, evs: seq<StreamEvent>)
    requires Fair(w) && s0.run.outcome.None? && forall e <- evs :: !IsTerminator(e)
    ensures var r := Consume(w, s0, evs).run;
      r.msgs == s0.run.msgs && r.saves == s0.run.saves && r.streams == s0.run.streams
  {
    if evs != [] {
      assert evs[|evs| - 1] in evs;
      BodyMsgs(w, s0, evs[..|evs| - 1]);
    }
  }

  lemma StepSaves(w: World, r: RunState)
    requires Fair(w) && AllTidy(w) && r.outcome.None? && Encodable(w, r.msgs)
    ensures StepDoes(w, StepStart(r).run, Step(w, r), Answerable(w, r.streams))
  {
    var result := w.stream(r.streams);
    if result.Stream? {
      var evs := result.events;
      if evs != [] && IsTerminator(evs[|evs| - 1]) {
        StreamDoes(w, r, evs);
        BuiltAfterEnd(w, StepStart(r), evs);
      } else {
        NoTerminator(evs);
        NoEnd(w, r, evs);
      }
    }
  }

  lemma NoTerminator(evs: seq<StreamEvent>)
    requires Tidy(evs) && (evs == [] || !IsTerminator(evs[|evs| - 1]))
    ensures forall e <- evs :: !IsTerminator(e)
  {
    forall e | e in evs ensures !IsTerminator(e) {
      var k :| 0 <= k < |evs| && evs[k] == e;
    }
  }

  lemma NoEnd(w: World, r: RunState, evs: seq<StreamEvent>)
    requires Fair(w) && r.outcome.None? && forall e <- evs :: !IsTerminator(e)
    ensures !EndsInCalls(evs)
    ensures var s := Consume(w, StepStart(r), evs);
      s.run.outcome == Some(ArgsTooLarge) || (s.run.outcome.None? && IsBlank(s.asst))
  {
    ConsumeBody(w, r, StepStart(r), evs);
    if AccumulateAll(evs).Some? { BodyKeepsGoing(evs); } else { NoMoreGoing(evs); }
  }

  /** A run that goes on after a message end has built a message with calls. */
  lemma BuiltAfterEnd(w: World, s0: StepState, evs: seq<StreamEvent>)
    requires Fair(w) && s0.run.outcome.None? && evs != [] && IsTerminator(evs[|evs| - 1])
    ensures var s := Consume(w, s0, evs); s.run.outcome.None? ==> !IsBlank(s.asst)
  {
  }

  // ---------------------------------------------------------------------------------
  // Whole runs.
  // ---------------------------------------------------------------------------------

  /** Between steps: two Saves per stream so far and one for the user's message, all stored. */
  ghost predicate InStep(w: World, r: RunState) {
    r.outcome.None? && r.saves == 2 * r.streams + 1 && Encodable(w, r.msgs)
  }

  /** What a step leaves behind. */
  ghost predicate StepLeaves(w: World, r: RunState, a: RunState) {
    var k := r.streams;
    && (a.outcome.None? <==> Answerable(w, k) && w.redisUp(2 * k + 1) && w.redisUp(2 * k + 2))
    && (a.outcome == Some(SaveFailed(AtTools)) <==> Answerable(w, k) && w.redisUp(2 * k + 1) && !w.redisUp(2 * k + 2))
    && (a.outcome.None? ==> InStep(w, a) && a.streams == k + 1)
  }

  lemma StepKeepsCount(w: World, r: RunState)
    requires Fair(w) && AllTidy(w) && InStep(w, r)
    ensures StepLeaves(w, r, Step(w, r))
  {
    StepSaves(w, r);
    DoesLeaves(w, r, Step(w, r));
  }

  lemma DoesLeaves(w: World, r: RunState, a: RunState)
    requires InStep(w, r) && StepDoes(w, StepStart(r).run, a, Answerable(w, r.streams))
    ensures StepLeaves(w, r, a)
  {
  }

  /** `Steps` with the step as a parameter. */
  function Iterate(step: RunState -> RunState, r: RunState, left: nat): RunState
    decreases left
  {
    if r.outcome.Some? then r
    else if left == 0 then Finish(r, MaxStepsReached)
    else Iterate(step, step(r), left - 1)
  }

  lemma {:induction false} StepsAreIterated(w: World, step: RunState -> RunState, r: RunState, left: nat)
    requires Fair(w) && forall x :: step(x) == Step(w, x)
    ensures Steps(w, r, left) == Iterate(step, r, left)
    decreases left
  {
    if r.outcome.None? && left > 0 {
      StepsAreIterated(w, step, step(r), left - 1);
    }
  }

  lemma {:induction false} IterationStrands(w: World, step: RunState -> RunState, r: RunState, left: nat)
    requires forall x :: InStep(w, x) ==> StepLeaves(w, x, step(x))
    requires InStep(w, r)
    ensures Iterate(step, r, left).outcome == Some(SaveFailed(AtTools)) <==> ToolSaveFailsFirst(w, r.streams, left)
    decreases left
  {
    if left > 0 {
      assert StepLeaves(w, r, step(r));
      if step(r).outcome.None? { IterationStrands(w, step, step(r), left - 1); }
    }
  }

  lemma StepsStrand(w: World, r: RunState, left: nat)
    requires Fair(w) && AllTidy(w) && InStep(w, r)
    ensures Steps(w, r, left).outcome == Some(SaveFailed(AtTools)) <==> ToolSaveFailsFirst(w, r.streams, left)
  {
    var step := x => Step(w, x);
    forall x | InStep(w, x) ensures StepLeaves(w, x, step(x)) { StepKeepsCount(w, x); }
    StepsAreIterated(w, step, r, left);
    IterationStrands(w, step, r, left);
  }

  /** Whether the user's message gets stored. */
  predicate OpeningSaved(w: World, history: seq<Message>, input: Bytes) {
    w.redisUp(0) && Encodable(w, S.Trim(history + [UserMessage(input)]))
  }

  /** A run strands calls exactly when its first Save that fails is one of tool results: known
      from the streams and from which requests reach Redis. */
  lemma StrandsExactly(w: World, maxSteps: int, history: seq<Message>, input: Bytes)
    requires Fair(w) && AllTidy(w)
    ensures H.Strands(w, maxSteps, history, input) <==>
      OpeningSaved(w, history, input) && ToolSaveFailsFirst(w, 0, EffectiveSteps(maxSteps))
  {
    var r0 := Opening(w, history, input);
    if r0.outcome.None? { StepsStrand(w, r0, EffectiveSteps(maxSteps)); }
  }
}
