/** What a run emits: it stays in the emission grammar, and no text is lost on the way. */
module AgentEvents {
  import opened Bytes
  import opened Llm
  import opened AgentSpec
  import opened EmissionProtocol
  import CardState

  // ---------------------------------------------------------------------------------
  // Every batch is announced and ended in the grammar.
  // ---------------------------------------------------------------------------------

  function Ids(calls: seq<ToolCall>): (r: seq<Bytes>)
    ensures |r| == |calls| && forall i :: 0 <= i < |calls| ==> r[i] == calls[i].id
  {
    seq(|calls|, i requires 0 <= i < |calls| => calls[i].id)
  }

  /** The ids at the positions in `todo`. */
  function Open(ids: seq<Bytes>, todo: set<nat>): multiset<Bytes> {
    if ids == [] then multiset{}
    else
      var n := |ids| - 1;
      Open(ids[..n], todo) + if n in todo then multiset{ids[n]} else multiset{}
  }

  lemma {:induction false} OpenWithout(ids: seq<Bytes>, todo: set<nat>, i: nat)
    requires i < |ids| && i in todo
    ensures Open(ids, todo) == Open(ids, todo - {i}) + multiset{ids[i]}
  {
    var n := |ids| - 1;
    if i < n {
      OpenWithout(ids[..n], todo, i);
    } else {
      OpenOutside(ids[..n], todo, i);
    }
  }

  lemma {:induction false} OpenOutside(ids: seq<Bytes>, todo: set<nat>, i: nat)
    requires i >= |ids|
    ensures Open(ids, todo) == Open(ids, todo - {i})
  {
    if ids != [] { OpenOutside(ids[..|ids| - 1], todo, i); }
  }

  lemma {:induction false} OpenNone(ids: seq<Bytes>)
    ensures Open(ids, {}) == multiset{}
  {
    if ids != [] { OpenNone(ids[..|ids| - 1]); }
  }

  function Upto(n: nat): (s: set<nat>)
    ensures |s| == n && forall i: nat :: i in s <==> i < n
  {
    if n == 0 then {} else Upto(n - 1) + {n - 1}
  }

  /** The positions that have not finished after the first `k` of the order. */
  function Unfinished(n: nat, order: seq<nat>, k: nat): set<nat>
    requires k <= |order|
  {
    if k == 0 then Upto(n) else Unfinished(n, order, k - 1) - {order[k - 1]}
  }

  lemma {:induction false} NotYet(n: nat, order: seq<nat>, k: nat, x: nat)
    requires k <= |order| && x < n
    requires forall j :: 0 <= j < k ==> order[j] != x
    ensures x in Unfinished(n, order, k)
  {
    if k > 0 { NotYet(n, order, k - 1, x); }
  }

  lemma {:induction false} FinishedCount(order: seq<nat>, n: nat, k: nat)
    requires IsOrder(order, n) && k <= n
    ensures |Unfinished(n, order, k)| == n - k
  {
    if k > 0 {
      FinishedCount(order, n, k - 1);
      NotYet(n, order, k - 1, order[k - 1]);
    }
  }

  lemma {:induction false} ScanStarts(calls: seq<ToolCall>)
    ensures Scan(Starting(multiset{}), StartEvents(calls)) == Starting(Open(Ids(calls), Upto(|calls|)))
  {
    if calls != [] {
      var n := |calls| - 1;
      ScanStarts(calls[..n]);
      assert StartEvents(calls)[..n] == StartEvents(calls[..n]);
      assert Ids(calls)[..n] == Ids(calls[..n]);
      OpenOutside(Ids(calls)[..n], Upto(|calls|), n);
      assert Upto(|calls|) - {n} == Upto(n);
    }
  }

  lemma EndOne(m: Mode, ids: seq<Bytes>, todo: set<nat>, i: nat, e: StreamEvent)
    requires (m.Starting? || m.Ending?) && m.waiting == Open(ids, todo)
    requires i < |ids| && i in todo && e.ToolCallEnd? && e.id == ids[i]
    ensures Next(m, e) == Ending(Open(ids, todo - {i}))
  {
    OpenWithout(ids, todo, i);
  }

  /** Where the automaton is after the first k Ends. */
  function AfterEnds(ids: seq<Bytes>, order: seq<nat>, k: nat): Mode
    requires k <= |order|
  {
    var waiting := Open(ids, Unfinished(|ids|, order, k));
    if k == 0 then Starting(waiting) else Ending(waiting)
  }

  lemma ScanTake(m: Mode, evs: seq<StreamEvent>, k: nat)
    requires 0 < k <= |evs|
    ensures Scan(m, evs[..k]) == Next(Scan(m, evs[..k - 1]), evs[k - 1])
  {
    hide Next;
    assert evs[..k][..k - 1] == evs[..k - 1];
  }

  /** One more End. */
  lemma EndStep(ids: seq<Bytes>, order: seq<nat>, n: nat, e: StreamEvent)
    requires IsOrder(order, |ids|) && n < |ids| && e.ToolCallEnd? && e.id == ids[order[n]]
    ensures Next(AfterEnds(ids, order, n), e) == AfterEnds(ids, order, n + 1)
  {
    hide Open;
    NotYet(|ids|, order, n, order[n]);
    EndOne(AfterEnds(ids, order, n), ids, Unfinished(|ids|, order, n), order[n], e);
  }

  lemma {:induction false} ScanEnds(evs: seq<StreamEvent>, ids: seq<Bytes>, order: seq<nat>, k: nat)
    requires IsOrder(order, |ids|) && k <= |ids| == |evs|
    requires forall j :: 0 <= j < |evs| ==> evs[j].ToolCallEnd? && evs[j].id == ids[order[j]]
    ensures Scan(AfterEnds(ids, order, 0), evs[..k]) == AfterEnds(ids, order, k)
  {
    if k == 0 {
      assert evs[..0] == [];
    } else {
      hide *;
      var n := k - 1;
      ScanEnds(evs, ids, order, n);
      ScanTake(AfterEnds(ids, order, 0), evs, k);
      EndStep(ids, order, n, evs[n]);
    }
  }

  lemma EndsNamed(w: World, batch: nat, calls: seq<ToolCall>, order: seq<nat>, j: nat)
    requires IsOrder(order, |calls|) && j < |calls|
    ensures var e := EndEvents(w, batch, Results(w, batch, calls), order)[j];
      e.ToolCallEnd? && e.id == Ids(calls)[order[j]]
  {
    assert Results(w, batch, calls)[order[j]] == ExecOne(w, batch, order[j], calls[order[j]]);
  }

  lemma AllFinished(order: seq<nat>, ids: seq<Bytes>)
    requires IsOrder(order, |ids|)
    ensures Open(ids, Unfinished(|ids|, order, |ids|)) == multiset{}
  {
    FinishedCount(order, |ids|, |ids|);
    assert Unfinished(|ids|, order, |ids|) == {};
    OpenNone(ids);
  }

  lemma EndsScan(w: World, batch: nat, calls: seq<ToolCall>, order: seq<nat>)
    requires IsOrder(order, |calls|) && calls != []
    ensures Scan(Starting(Open(Ids(calls), Upto(|calls|))), EndEvents(w, batch, Results(w, batch, calls), order)) == Ending(multiset{})
  {
    var ids := Ids(calls);
    var ends := EndEvents(w, batch, Results(w, batch, calls), order);
    forall j | 0 <= j < |ids| ensures ends[j].ToolCallEnd? && ends[j].id == ids[order[j]] {
      EndsNamed(w, batch, calls, order, j);
    }
    AllEndsScan(ends, ids, order);
  }

  lemma AllEndsScan(ends: seq<StreamEvent>, ids: seq<Bytes>, order: seq<nat>)
    requires IsOrder(order, |ids|) && ids != [] && |ends| == |ids|
    requires forall j :: 0 <= j < |ends| ==> ends[j].ToolCallEnd? && ends[j].id == ids[order[j]]
    ensures Scan(Starting(Open(ids, Upto(|ids|))), ends) == Ending(multiset{})
  {
    ScanEnds(ends, ids, order, |ids|);
    assert ends[..|ids|] == ends;
    AllFinished(order, ids);
  }

  /** One Start per call, then one End per call in whatever order the goroutines finish. */
  lemma BatchScans(w: World, r: RunState, calls: seq<ToolCall>)
    requires Fair(w) && calls != []
    requires Scan(Streaming, r.emitted) == Starting(multiset{})
    ensures Scan(Streaming, Execute(w, r, calls).emitted) == Ending(multiset{})
  {
    var order := w.finish(r.batches, |calls|);
    var starts := StartEvents(calls);
    var ends := EndEvents(w, r.batches, Results(w, r.batches, calls), order);
    ScanStarts(calls);
    EndsScan(w, r.batches, calls, order);
    ScanAppend(Streaming, r.emitted, starts);
    ScanAppend(Streaming, r.emitted + starts, ends);
  }

  // ---------------------------------------------------------------------------------
  // The run as a whole stays in the grammar.
  // ---------------------------------------------------------------------------------

  predicate SentError(o: Option<Outcome>) {
    o.Some? && (o.value.EmptyResponse? || o.value.ArgsTooLarge? || o.value.ProviderError?)
  }

  /** Between events no call is open, and an error event has been sent exactly for these outcomes. */
  predicate Accepted(r: RunState) {
    var m := Scan(Streaming, r.emitted);
    if SentError(r.outcome) then m == Failed else Quiet(m)
  }

  lemma EmitOne(r: RunState, e: StreamEvent)
    ensures Scan(Streaming, Emit(r, [e]).emitted) == Next(Scan(Streaming, r.emitted), e)
  {
    ScanAppend(Streaming, r.emitted, [e]);
    ScanOne(Scan(Streaming, r.emitted), e);
  }

  /** Writing the results back does not emit anything. */
  lemma RunToolsEmits(w: World, r: RunState, calls: seq<ToolCall>)
    requires Fair(w)
    ensures RunTools(w, r, calls).emitted == Execute(w, r, calls).emitted
    ensures RunTools(w, r, calls).consumed == r.consumed && RunTools(w, r, calls).streams == r.streams
    ensures RunTools(w, r, calls).outcome == r.outcome || RunTools(w, r, calls).outcome == Some(SaveFailed(AtTools))
  {
    AppendAllFrame(Execute(w, r, calls), ToolMessages(Results(w, r.batches, calls)));
  }

  lemma CallsAccepted(w: World, r: RunState, calls: seq<ToolCall>)
    requires Fair(w) && calls != [] && r.outcome.None?
    requires Scan(Streaming, r.emitted) == Starting(multiset{})
    ensures Accepted(RunTools(w, r, calls))
  {
    BatchScans(w, r, calls);
    RunToolsEmits(w, r, calls);
  }

  lemma MessageEndAccepted(w: World, s: StepState, ev: StreamEvent)
    requires Fair(w) && ev.MessageEnd? && s.run.outcome.None? && Accepted(s.run)
    ensures Accepted(OnMessageEnd(w, s, ev).run)
  {
    var asst := Built(s);
    if IsEmptyAnswer(asst) {
      EmitOne(s.run, Error(Some("agent: empty assistant response")));
    } else {
      var r := SaveAnswer(w, s.run, asst);
      if r.outcome.None? {
        EmitOne(r, ev);
        if asst.toolCalls != [] { CallsAccepted(w, Emit(r, [ev]), asst.toolCalls); }
      }
    }
  }

  lemma EventAccepted(w: World, s: StepState, ev: StreamEvent)
    requires Fair(w) && s.run.outcome.None? && Accepted(s.run)
    ensures Accepted(OnEvent(w, s, ev).run)
  {
    var run := s.run.(consumed := s.run.consumed + [ev]);
    match ev
    case MessageEnd(_, _) => MessageEndAccepted(w, s.(run := run), ev);
    case ToolCallArgs(_, _, _) => EmitOne(run, Error(Some("tool arguments too large")));
    case _ => EmitOne(run, ev);
  }

  lemma {:induction false} ConsumeAccepted(w: World, s: StepState, evs: seq<StreamEvent>)
    requires Fair(w) && s.run.outcome.None? && Accepted(s.run)
    ensures Accepted(Consume(w, s, evs).run)
  {
    if evs != [] {
      var init := evs[..|evs| - 1];
      ConsumeAccepted(w, s, init);
      var mid := Consume(w, s, init);
      if mid.run.outcome.None? { EventAccepted(w, mid, evs[|evs| - 1]); }
    }
  }

  lemma StepAccepted(w: World, r: RunState)
    requires Fair(w) && Accepted(r) && r.outcome.None?
    ensures Accepted(Step(w, r))
  {
    assert Accepted(StepStart(r).run);
    if w.stream(r.streams).Stream? {
      ConsumeAccepted(w, StepStart(r), w.stream(r.streams).events);
    }
  }

  lemma {:induction false} StepsAccepted(w: World, r: RunState, left: nat)
    requires Fair(w) && Accepted(r)
    ensures Accepted(Steps(w, r, left))
    decreases left
  {
    hide Step;
    if r.outcome.None? && left > 0 {
      StepAccepted(w, r);
      StepsAccepted(w, Step(w, r), left - 1);
    }
  }

  /** Whatever the streams, the store and the tools do: in every step each call gets one Start,
      then one End, all before the next step's events; an error event comes at most once and
      last; and no call is left open when Run returns. */
  lemma RunEmitsAccepted(w: World, maxSteps: int, history: seq<Message>, input: Bytes)
    requires Fair(w)
    ensures Accepted(Run(w, maxSteps, history, input))
  {
    StepsAccepted(w, Opening(w, history, input), EffectiveSteps(maxSteps));
  }

  /** The card after a run: no row is pending, rows have distinct ids, and it is an error card
      exactly when an error event was sent. */
  lemma RunLeavesNoPendingRow(w: World, maxSteps: int, history: seq<Message>, input: Bytes, clock: nat -> int)
    requires Fair(w)
    ensures var r := Run(w, maxSteps, history, input);
      var c := CardState.ApplyAll(CardState.NEW_CARD, r.emitted, clock);
      && NoPending(c)
      && CardState.DistinctRows(c)
      && (c.phase == CardState.PhaseError <==> SentError(r.outcome))
  {
    RunEmitsAccepted(w, maxSteps, history, input);
    var r := Run(w, maxSteps, history, input);
    CardTracksOpen(r.emitted, clock);
    NothingPendingWhenQuiet(r.emitted, clock);
    CardState.RowsStayDistinct(CardState.NEW_CARD, r.emitted, clock);
  }

  /** A row tells whether its tool message is an error, and shows the start of its content. */
  lemma RowTellsOutcome(w: World, batch: nat, i: nat, r: ToolResult, row: CardState.Row, now: int)
    ensures var e := EndEvent(w, batch, i, r); var done := CardState.Ended(row, e.status, now);
      && e.id == r.id
      && done.endedAt == Some(now)
      && (done.success <==> !r.isError)
      && (r.isError ==> done.errorMsg == TrimSpace(" " + Truncate(r.content, 80)))
  {
    var status := EndEvent(w, batch, i, r).status;
    if r.isError {
      assert status[..6] == "error:" && status[6..] == " " + Truncate(r.content, 80);
    } else {
      assert status[..6] == "succes";
      assert status[0] == 's';
    }
  }

  // ---------------------------------------------------------------------------------
  // Conservation of text.
  // ---------------------------------------------------------------------------------

  predicate IsDelta(e: StreamEvent) { e.ThinkingDelta? || e.TextDelta? }

  function Deltas(evs: seq<StreamEvent>): seq<StreamEvent> {
    if evs == [] then []
    else
      var init, last := Deltas(evs[..|evs| - 1]), evs[|evs| - 1];
      if IsDelta(last) then init + [last] else init
  }

  lemma DeltasSnoc(evs: seq<StreamEvent>, e: StreamEvent)
    ensures Deltas(evs + [e]) == if IsDelta(e) then Deltas(evs) + [e] else Deltas(evs)
  {
    assert (evs + [e])[..|evs|] == evs;
  }

  lemma {:induction false} DeltasNone(a: seq<StreamEvent>, b: seq<StreamEvent>)
    requires forall e <- b :: !IsDelta(e)
    ensures Deltas(a + b) == Deltas(a)
  {
    if b == [] {
      assert a + b == a;
    } else {
      var n := |b| - 1;
      assert b[n] in b;
      assert a + b == a + b[..n] + [b[n]];
      DeltasNone(a, b[..n]);
      DeltasSnoc(a + b[..n], b[n]);
    }
  }

  /** Text and leading thinking only depend on the deltas. */
  lemma {:induction false} DeltasCarryText(evs: seq<StreamEvent>)
    ensures TextOf(Deltas(evs)) == TextOf(evs)
    ensures ThinkingBeforeText(Deltas(evs)) == ThinkingBeforeText(evs)
    ensures CardState.HasText(Deltas(evs)) <==> CardState.HasText(evs)
  {
    if evs != [] {
      var init, last := evs[..|evs| - 1], evs[|evs| - 1];
      DeltasCarryText(init);
      CardState.HasTextSnoc(evs);
      if IsDelta(last) {
        assert Deltas(evs)[..|Deltas(evs)| - 1] == Deltas(init);
        CardState.HasTextSnoc(Deltas(evs));
      }
    }
  }

  /** What is forwarded of what has been consumed: every delta, in order, once. */
  predicate Forwards(r: RunState) { Deltas(r.emitted) == Deltas(r.consumed) }

  lemma EventForwards(w: World, s: StepState, ev: StreamEvent)
    requires Fair(w) && s.run.outcome.None? && Forwards(s.run)
    ensures Forwards(OnEvent(w, s, ev).run)
  {
    var run := s.run.(consumed := s.run.consumed + [ev]);
    DeltasSnoc(s.run.consumed, ev);
    DeltasSnoc(run.emitted, ev);
    match ev
    case MessageEnd(_, _) => MessageEndForwards(w, s.(run := run), ev);
    case ToolCallArgs(_, _, _) => DeltasSnoc(run.emitted, Error(Some("tool arguments too large")));
    case _ =>
  }

  lemma MessageEndForwards(w: World, s: StepState, ev: StreamEvent)
    requires Fair(w) && s.run.outcome.None? && Forwards(s.run) && ev.MessageEnd?
    ensures Forwards(OnMessageEnd(w, s, ev).run)
  {
    var asst := Built(s);
    DeltasSnoc(s.run.emitted, Error(Some("agent: empty assistant response")));
    var r := SaveAnswer(w, s.run, asst);
    DeltasSnoc(r.emitted, ev);
    var r1 := Emit(r, [ev]);
    RunToolsEmits(w, r1, asst.toolCalls);
    ExecuteForwards(w, r1, asst.toolCalls);
  }

  lemma ExecuteForwards(w: World, r: RunState, calls: seq<ToolCall>)
    requires Fair(w)
    ensures Deltas(Execute(w, r, calls).emitted) == Deltas(r.emitted)
  {
    var starts := StartEvents(calls);
    var ends := EndEvents(w, r.batches, Results(w, r.batches, calls), w.finish(r.batches, |calls|));
    forall e | e in starts ensures !IsDelta(e) {
      var i :| 0 <= i < |starts| && starts[i] == e;
    }
    forall e | e in ends ensures !IsDelta(e) {
      var i :| 0 <= i < |ends| && ends[i] == e;
    }
    DeltasNone(r.emitted, starts);
    DeltasNone(r.emitted + starts, ends);
  }

  lemma {:induction false} ConsumeForwards(w: World, s: StepState, evs: seq<StreamEvent>)
    requires Fair(w) && s.run.outcome.None? && Forwards(s.run)
    ensures Forwards(Consume(w, s, evs).run)
  {
    if evs != [] {
      var init := evs[..|evs| - 1];
      ConsumeForwards(w, s, init);
      var mid := Consume(w, s, init);
      if mid.run.outcome.None? { EventForwards(w, mid, evs[|evs| - 1]); }
    }
  }

  lemma StepForwards(w: World, r: RunState)
    requires Fair(w) && Forwards(r) && r.outcome.None?
    ensures Forwards(Step(w, r))
  {
    assert Forwards(StepStart(r).run);
    if w.stream(r.streams).Stream? {
      ConsumeForwards(w, StepStart(r), w.stream(r.streams).events);
    }
  }

  lemma {:induction false} StepsForward(w: World, r: RunState, left: nat)
    requires Fair(w) && Forwards(r)
    ensures Forwards(Steps(w, r, left))
    decreases left
  {
    if r.outcome.None? && left > 0 {
      StepForwards(w, r);
      StepsForward(w, Step(w, r), left - 1);
    }
  }

  /** After any run, however it ended, the card holds the text of all text deltas the run took
      from the provider and the thinking that came before the first of them. */
  lemma CardShowsConsumedText(w: World, maxSteps: int, history: seq<Message>, input: Bytes, clock: nat -> int)
    requires Fair(w)
    ensures var r := Run(w, maxSteps, history, input);
      var c := CardState.ApplyAll(CardState.NEW_CARD, r.emitted, clock);
      c.text == TextOf(r.consumed) && c.thinking == ThinkingBeforeText(r.consumed)
  {
    var r := Run(w, maxSteps, history, input);
    StepsForward(w, Opening(w, history, input), EffectiveSteps(maxSteps));
    CardState.CardTextIsAllText(r.emitted, clock);
    DeltasCarryText(r.emitted);
    DeltasCarryText(r.consumed);
  }
}
