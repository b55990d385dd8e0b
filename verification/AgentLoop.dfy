/** `Agent.Run`, `execTools`, `execOne` and `saveSession` of internal/agent/loop.go as they are
    written, proved to do what AgentSpec says. */
module AgentLoop {
  import opened Bytes
  import opened Llm
  import opened AgentSpec
  import E = AgentEvents
  import S = SessionStore
  import opened Redis
  import opened Sessions

  /** The database after the writes of a run. */
  function Put(db: Db<Value>, s: SessionData, written: seq<seq<Message>>): Db<Value> {
    if written == [] then db else Set(db, SessKey(s.key), Blob(s.(messages := written[|written| - 1])))
  }

  /** An order in which n goroutines finish mentions every one of them. */
  lemma OrderCovers(order: seq<nat>, n: nat, i: nat) returns (k: nat)
    requires IsOrder(order, n) && i < n
    ensures k < n && order[k] == i
  {
    if j: nat :| j < n && order[j] == i {
      k := j;
    } else {
      E.NotYet(n, order, n, i);
      E.FinishedCount(order, n, n);
      assert false;
    }
  }

  /** The first k goroutines to finish have written their slots. */
  ghost predicate SlotsWritten(out: seq<ToolResult>, results: seq<ToolResult>, order: seq<nat>, k: nat)
    requires IsOrder(order, |results|) && k <= |results|
  {
    |out| == |results| && forall j :: 0 <= j < k ==> out[order[j]] == results[order[j]]
  }

  lemma FirstSlots(order: seq<nat>, n: nat)
    requires IsOrder(order, n)
    ensures forall out: seq<ToolResult>, results: seq<ToolResult> :: |out| == |results| == n ==> SlotsWritten(out, results, order, 0)
  {
  }

  lemma SlotWritten(out: seq<ToolResult>, results: seq<ToolResult>, order: seq<nat>, k: nat)
    requires IsOrder(order, |results|) && k < |results| && SlotsWritten(out, results, order, k)
    ensures SlotsWritten(out[order[k] := results[order[k]]], results, order, k + 1)
  {
  }

  /** When every goroutine has written its slot, all slots are written. */
  lemma AllSlotsWritten(out: seq<ToolResult>, results: seq<ToolResult>, order: seq<nat>)
    requires IsOrder(order, |results|) && SlotsWritten(out, results, order, |results|)
    ensures out == results
  {
    forall i | 0 <= i < |results| ensures out[i] == results[i] {
      var j := OrderCovers(order, |results|, i);
    }
  }

  class Agent {
    const w: World
    const sess: Session
    const store: RedisStore

    var maxSteps: int
    var emitted: seq<StreamEvent>       // what went through emit
    var written: seq<seq<Message>>      // what the store was given

    var saves: nat                      // how often the outside world has been asked
    var streams: nat
    var batches: nat

    ghost var ops: seq<S.Op>
    ghost var consumed: seq<StreamEvent>
    ghost const db0: Db<Value>          // Redis when the run began

    constructor (w: World, sess: Session, store: RedisStore, maxSteps: int)
      requires store.validJson == w.validJson
      ensures this.w == w && this.sess == sess && this.store == store && this.maxSteps == maxSteps
      ensures db0 == store.rdb.db && Synced()
      ensures After(None) == Begin(sess.messages)
    {
      this.w, this.sess, this.store, this.maxSteps := w, sess, store, maxSteps;
      db0 := store.rdb.db;
      emitted, written, saves, streams, batches := [], [], 0, 0, 0;
      ops, consumed := [], [];
    }

    /** Everything the run has done so far, if it returns `err` now. */
    ghost function After(err: Option<Outcome>): RunState
      reads this, sess
    {
      RunState(sess.messages, ops, written, saves, streams, batches, consumed, emitted, err)
    }

    /** Redis holds what this run has written, and nothing else has changed there. */
    ghost predicate Synced()
      reads this, sess, store.rdb
    {
      && store.validJson == w.validJson
      && store.rdb.db == Put(db0, sess.View(), written)
    }

    method EmitEvent(ev: StreamEvent)
      modifies `emitted
      ensures After(None) == Emit(old(After(None)), [ev])
    {
      emitted := emitted + [ev];
    }

    method AppendMessage(m: Message)
      modifies sess`messages, `ops
      ensures After(None) == Append(old(After(None)), m)
    {
      sess.messages := sess.messages + [m];
      ops := ops + [S.Append(m)];
    }

    method SaveSession(at: SavePoint) returns (err: Option<Outcome>)
      requires Synced()
      modifies sess`messages, `ops, `written, `saves, store.rdb`db
      ensures Synced() && After(err) == Save(w, old(After(None)), at)
    {
      ops := ops + [S.Op.Save];
      var ok := store.Save(sess.key, sess, w.redisUp(saves));
      saves := saves + 1;
      if !ok { return Some(SaveFailed(at)); }
      written := written + [sess.messages];
      return None;
    }

    /** One call, with panics and errors turned into results. */
    method RunOne(batch: nat, i: nat, c: ToolCall) returns (res: ToolResult)
      ensures res == ExecOne(w, batch, i, c)
    {
      res := ToolResult(c.id, c.name, "", false);
      if !w.known(c.name) {
        return res.(isError := true, content := "unknown tool " + w.quoted(c.name));
      }
      if |c.arguments| > 0 {
        if !w.validJson(c.arguments) {
          return res.(isError := true, content := "invalid JSON arguments from model: " + w.jsonError(c.arguments));
        }
      }
      match w.call(batch, i) {
        case Panics(v) => res := res.(isError := true, content := "internal error: " + v);
        case UserError(m) => res := res.(isError := true, content := m);
        case Fails(e) => res := res.(isError := true, content := "tool error: " + e);
        case Returns(content) => res := res.(content := content);
      }
    }

    /** The End event a goroutine sends when its call is done. */
    method ReportEnd(batch: nat, i: nat, res: ToolResult)
      modifies `emitted
      ensures emitted == old(emitted) + [EndEvent(w, batch, i, res)]
    {
      var endText := "success";
      if res.isError { endText := "error: " + Truncate(res.content, 80); }
      emitted := emitted + [ToolCallEnd(res.id, res.name, endText, w.elapsed(batch, i))];
    }

    /** One goroutine: it writes its own slot of `out` and reports. */
    method Goroutine(out: array<ToolResult>, batch: nat, i: nat, c: ToolCall)
      requires i < out.Length
      modifies out, `emitted
      ensures out[..] == old(out[..])[i := ExecOne(w, batch, i, c)]
      ensures emitted == old(emitted) + [EndEvent(w, batch, i, ExecOne(w, batch, i, c))]
    {
      out[i] := RunOne(batch, i, c);
      ReportEnd(batch, i, out[i]);
    }

    /** The goroutines of one batch, one after another in the order in which they finish. */
    method ExecTools(calls: seq<ToolCall>) returns (out: array<ToolResult>)
      requires Fair(w)
      modifies `emitted, `batches
      ensures fresh(out) && out[..] == Results(w, old(batches), calls)
      ensures batches == old(batches) + 1
      ensures emitted == old(emitted) +
        EndEvents(w, old(batches), Results(w, old(batches), calls), w.finish(old(batches), |calls|))
    {
      hide Results, EndEvents, ExecOne, EndEvent;
      var n, batch := |calls|, batches;
      var order := w.finish(batch, n);
      assert IsOrder(order, n);
      hide SlotsWritten;
      FirstSlots(order, n);
      ghost var results := Results(w, batch, calls);
      ghost var ends := EndEvents(w, batch, results, order);
      out := new ToolResult[n](_ => ToolResult("", "", "", false));
      for k := 0 to n
        invariant batches == batch
        invariant |out[..]| == n && SlotsWritten(out[..], results, order, k)
        invariant emitted == old(emitted) + ends[..k]
      {
        SlotWritten(out[..], results, order, k);
        Goroutine(out, batch, order[k], calls[order[k]]);
        assert ends[..k + 1] == ends[..k] + [ends[k]];
      }
      batches := batches + 1;
      assert ends[..n] == ends;
      AllSlotsWritten(out[..], results, order);
    }

    method AnnounceCalls(calls: seq<ToolCall>)
      modifies `emitted
      ensures After(None) == Emit(old(After(None)), StartEvents(calls))
    {
      ghost var starts := StartEvents(calls);
      for k := 0 to |calls|
        invariant emitted == old(emitted) + starts[..k]
      {
        emitted := emitted + [ToolCallStart(calls[k].id, calls[k].name, Truncate(calls[k].arguments, 200))];
        assert starts[..k + 1] == starts[..k] + [starts[k]];
      }
      assert starts[..|calls|] == starts;
    }

    method WriteBack(results: array<ToolResult>)
      modifies sess`messages, `ops
      ensures After(None) == AppendAll(old(After(None)), ToolMessages(results[..]))
    {
      ghost var ms := ToolMessages(results[..]);
      ghost var before := After(None);
      for k := 0 to results.Length
        invariant After(None) == AppendAll(before, ms[..k])
      {
        var r := results[k];
        AppendMessage(Message(Tool, r.content, "", [], r.id, r.name, r.isError));
        assert ms[..k + 1][..k] == ms[..k];
      }
      assert ms[..results.Length] == ms;
    }

    method AnnounceAndRun(calls: seq<ToolCall>) returns (results: array<ToolResult>)
      requires Fair(w)
      modifies `emitted, `batches
      ensures After(None) == Execute(w, old(After(None)), calls)
      ensures results[..] == Results(w, old(batches), calls)
    {
      AnnounceCalls(calls);
      results := ExecTools(calls);
    }

    /** Announce, execute and answer the calls of one message. */
    method AnswerCalls(calls: seq<ToolCall>) returns (err: Option<Outcome>)
      requires Fair(w)
      requires Synced()
      modifies this, sess`messages, store.rdb`db
      ensures Synced() && maxSteps == old(maxSteps)
      ensures After(err) == RunTools(w, old(After(None)), calls)
    {
      hide Execute, AppendAll;
      var results := AnnounceAndRun(calls);
      WriteBack(results);
      err := SaveSession(AtTools);
    }

    /** The calls of the finished message, in the order in which they were first seen. */
    method CollectCalls(asst: Message, acc: Acc) returns (r: Message)
      ensures r == asst.(toolCalls := asst.toolCalls + Calls(acc))
    {
      r := asst;
      for k := 0 to |acc.order|
        invariant r == asst.(toolCalls := asst.toolCalls + Calls(acc)[..k])
      {
        r := r.(toolCalls := r.toolCalls + [CallOf(acc, acc.order[k])]);
      }
      assert Calls(acc)[..|acc.order|] == Calls(acc);
    }

    method OnEnd(asst: Message, acc: Acc, ev: StreamEvent) returns (built: Message, err: Option<Outcome>)
      requires Fair(w)
      requires Synced()
      modifies this, sess`messages, store.rdb`db
      ensures Synced() && maxSteps == old(maxSteps)
      ensures StepState(After(err), acc, built) == OnMessageEnd(w, StepState(old(After(None)), acc, asst), ev)
    {
      hide RunTools;
      built := asst.(thinking := acc.thinking, content := acc.text);
      built := CollectCalls(built, acc);
      if |built.toolCalls| == 0 && TrimSpace(built.content) == "" {
        EmitEvent(Error(Some("agent: empty assistant response")));
        return built, Some(EmptyResponse);
      }
      AppendMessage(built);
      err := SaveSession(AtAnswer);
      if err.Some? { return built, err; }
      EmitEvent(ev);
      if |built.toolCalls| == 0 { return built, Some(Finished); }
      err := AnswerCalls(built.toolCalls);
    }

    /** The switch over one event. */
    method Dispatch(asst: Message, acc: Acc, ev: StreamEvent)
      returns (built: Message, acc': Acc, err: Option<Outcome>)
      requires Fair(w)
      requires Synced()
      modifies this, sess`messages, store.rdb`db
      ensures Synced() && maxSteps == old(maxSteps)
      ensures StepState(After(err), acc', built) == OnEvent(w, StepState(old(After(None)), acc, asst), ev)
    {
      built, acc', err := asst, acc, None;
      consumed := consumed + [ev];
      match ev {
        case ThinkingDelta(t) =>
          acc' := acc.(thinking := acc.thinking + t);
          EmitEvent(ev);
        case TextDelta(t) =>
          acc' := acc.(text := acc.text + t);
          EmitEvent(ev);
        case ToolCallStart(id, name, _) =>
          acc' := Opened(acc, id, name);
        case ToolCallArgs(id, name, delta) =>
          var a := Opened(acc, id, name);
          var p := a.partials[id];
          if |p.args| + |delta| > MAX_ARGUMENTS {
            EmitEvent(Error(Some("tool arguments too large")));
            err := Some(ArgsTooLarge);
          } else {
            acc' := a.(partials := a.partials[id := p.(args := p.args + delta)]);
          }
        case ToolCallEnd(_, _, _, _) =>
        case MessageEnd(_, _) =>
          built, err := OnEnd(asst, acc, ev);
        case Error(e) =>
          EmitEvent(ev);
          err := Some(ProviderError(e));
      }
    }

    /** The range loop over one event channel. */
    method Range(evs: seq<StreamEvent>) returns (asst: Message, err: Option<Outcome>)
      requires Fair(w)
      requires Synced()
      modifies this, sess`messages, store.rdb`db
      ensures Synced() && maxSteps == old(maxSteps)
      ensures var s := Consume(w, StepState(old(After(None)), EMPTY_ACC, BLANK_ASSISTANT), evs);
        After(err) == s.run && asst == s.asst
    {
      asst, err := BLANK_ASSISTANT, None;
      var acc := EMPTY_ACC;
      ghost var start := StepState(After(None), acc, asst);
      var k := 0;
      while k < |evs| && err.None?
        invariant k <= |evs| && Synced() && maxSteps == old(maxSteps)
        invariant StepState(After(err), acc, asst) == Consume(w, start, evs[..k])
      {
        assert evs[..k + 1][..k] == evs[..k];
        asst, acc, err := Dispatch(asst, acc, evs[k]);
        k := k + 1;
      }
      ConsumeStops(w, start, evs, k);
    }

    /** One pass of the step loop: one Stream call and the range over its events. */
    method OneStep() returns (err: Option<Outcome>)
      requires Fair(w)
      requires Synced()
      modifies this, sess`messages, store.rdb`db
      ensures Synced() && maxSteps == old(maxSteps)
      ensures After(err) == Step(w, old(After(None)))
    {
      hide Consume;
      var result := w.stream(streams);
      streams := streams + 1;
      if result.StreamErr? { return Some(StreamFailed); }
      var asst;
      asst, err := Range(result.events);
      if err.Some? { return err; }
      if asst.content == "" && asst.thinking == "" && |asst.toolCalls| == 0 { return Some(NoMessageEnd); }
    }

    method Run(userInput: Bytes) returns (err: Outcome)
      requires Fair(w)
      requires After(None) == Begin(sess.messages)
      requires Synced()
      modifies this, sess`messages, store.rdb`db
      ensures Synced()
      ensures After(Some(err)) == AgentSpec.Run(w, old(maxSteps), old(sess.messages), userInput)
    {
      if maxSteps <= 0 { maxSteps := DEFAULT_MAX_STEPS; }
      AppendMessage(UserMessage(userInput));
      var failed := SaveSession(PreTurn);
      ghost var r0 := After(failed);
      if failed.Some? { return failed.value; }
      var n := maxSteps;
      for step := 0 to n
        invariant Synced() && maxSteps == n
        invariant Steps(w, After(None), n - step) == Steps(w, r0, n)
      {
        failed := OneStep();
        if failed.Some? { return failed.value; }
      }
      return MaxStepsReached;
    }
  }

  /** Events behind the one at which Run returns do not matter. */
  lemma {:induction false} ConsumeStops(w: World, s: StepState, evs: seq<StreamEvent>, k: nat)
    requires Fair(w) && k <= |evs| && (k == |evs| || Consume(w, s, evs[..k]).run.outcome.Some?)
    ensures Consume(w, s, evs) == Consume(w, s, evs[..k])
  {
    if k < |evs| {
      var init := evs[..|evs| - 1];
      assert init[..k] == evs[..k];
      ConsumeStops(w, s, init, k);
    } else {
      assert evs[..k] == evs;
    }
  }
}
