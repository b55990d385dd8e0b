/** What one `Agent.Run` of internal/agent/loop.go does, as a function of everything that comes
    from outside: provider streams, the store's answers, tool behaviour and goroutine timing. */
module AgentSpec {
  import opened Bytes
  import opened Llm
  import SessionStore
  import Sessions

  const DEFAULT_MAX_STEPS := 12
  const MAX_ARGUMENTS := 100 * 1024

  // ---------------------------------------------------------------------------------
  // The outside world of one run.
  // ---------------------------------------------------------------------------------

  datatype StreamResult = StreamErr | Stream(events: seq<StreamEvent>)

  datatype CallOutcome =
    | Returns(content: Bytes)
    | UserError(message: Bytes)
    | Fails(error: Bytes)
    | Panics(value: Bytes)

  datatype World = World(
    stream: nat -> StreamResult,            // the n-th Stream call
    redisUp: nat -> bool,                   // whether the n-th Save reaches Redis
    validJson: Bytes -> bool,               // json.Unmarshal accepts
    jsonError: Bytes -> Bytes,              // its message when it does not
    known: Bytes -> bool,                   // tool names in the registry
    quoted: Bytes -> Bytes,                 // %q
    call: (nat, nat) -> CallOutcome,        // the i-th call of the n-th batch
    finish: (nat, nat) -> seq<nat>,         // order in which n goroutines of a batch finish
    elapsed: (nat, nat) -> Bytes)           // milliseconds, printed

  /** `order` names each of the `n` goroutines exactly once. */
  predicate IsOrder(order: seq<nat>, n: nat) {
    && |order| == n
    && (forall k :: 0 <= k < n ==> order[k] < n)
    && (forall j, k :: 0 <= j < k < n ==> order[j] != order[k])
  }

  ghost predicate Fair(w: World) {
    forall batch, n :: IsOrder(w.finish(batch, n), n)
  }

  // ---------------------------------------------------------------------------------
  // Reassembling one assistant message from stream events.
  // ---------------------------------------------------------------------------------

  datatype Partial = Partial(name: Bytes, args: Bytes)

  datatype Acc = Acc(thinking: Bytes, text: Bytes, partials: map<Bytes, Partial>, order: seq<Bytes>)

  const EMPTY_ACC := Acc("", "", map[], [])

  function Opened(acc: Acc, id: Bytes, name: Bytes): Acc {
    if id in acc.partials then acc
    else acc.(partials := acc.partials[id := Partial(name, "")], order := acc.order + [id])
  }

  /** One event; None when a call's arguments exceed the cap. */
  function Accumulate(acc: Acc, ev: StreamEvent): Option<Acc> {
    match ev
    case ThinkingDelta(t) => Some(acc.(thinking := acc.thinking + t))
    case TextDelta(t) => Some(acc.(text := acc.text + t))
    case ToolCallStart(id, name, _) => Some(Opened(acc, id, name))
    case ToolCallArgs(id, name, delta) =>
      var a := Opened(acc, id, name);
      var p := a.partials[id];
      if |p.args| + |delta| > MAX_ARGUMENTS then None
      else Some(a.(partials := a.partials[id := p.(args := p.args + delta)]))
    case _ => Some(acc)
  }

  function AccumulateAll(evs: seq<StreamEvent>): Option<Acc> {
    if evs == [] then Some(EMPTY_ACC)
    else
      var before := AccumulateAll(evs[..|evs| - 1]);
      if before.None? then None else Accumulate(before.value, evs[|evs| - 1])
  }

  function CallOf(acc: Acc, id: Bytes): ToolCall {
    if id in acc.partials then ToolCall(id, acc.partials[id].name, acc.partials[id].args)
    else ToolCall(id, "", "")
  }

  function Calls(acc: Acc): (r: seq<ToolCall>)
    ensures |r| == |acc.order|
  {
    seq(|acc.order|, k requires 0 <= k < |acc.order| => CallOf(acc, acc.order[k]))
  }

  // ---------------------------------------------------------------------------------
  // Executing a batch of calls.
  // ---------------------------------------------------------------------------------

  datatype ToolResult = ToolResult(id: Bytes, name: Bytes, content: Bytes, isError: bool)

  function ExecOne(w: World, batch: nat, i: nat, c: ToolCall): ToolResult {
    if !w.known(c.name) then
      ToolResult(c.id, c.name, "unknown tool " + w.quoted(c.name), true)
    else if |c.arguments| > 0 && !w.validJson(c.arguments) then
      ToolResult(c.id, c.name, "invalid JSON arguments from model: " + w.jsonError(c.arguments), true)
    else match w.call(batch, i)
      case Panics(v) => ToolResult(c.id, c.name, "internal error: " + v, true)
      case UserError(m) => ToolResult(c.id, c.name, m, true)
      case Fails(e) => ToolResult(c.id, c.name, "tool error: " + e, true)
      case Returns(content) => ToolResult(c.id, c.name, content, false)
  }

  function Results(w: World, batch: nat, calls: seq<ToolCall>): (r: seq<ToolResult>)
    ensures |r| == |calls|
    ensures forall i :: 0 <= i < |calls| ==> r[i] == ExecOne(w, batch, i, calls[i])
  {
    seq(|calls|, i requires 0 <= i < |calls| => ExecOne(w, batch, i, calls[i]))
  }

  function ToolMessage(r: ToolResult): Message {
    Message(Tool, r.content, "", [], r.id, r.name, r.isError)
  }

  function ToolMessages(rs: seq<ToolResult>): (ms: seq<Message>)
    ensures |ms| == |rs|
    ensures forall i :: 0 <= i < |rs| ==> ms[i] == ToolMessage(rs[i])
  {
    seq(|rs|, i requires 0 <= i < |rs| => ToolMessage(rs[i]))
  }

  function StartEvent(c: ToolCall): StreamEvent {
    ToolCallStart(c.id, c.name, Truncate(c.arguments, 200))
  }

  function StartEvents(calls: seq<ToolCall>): (evs: seq<StreamEvent>)
    ensures |evs| == |calls|
    ensures forall i :: 0 <= i < |calls| ==> evs[i] == StartEvent(calls[i])
  {
    seq(|calls|, i requires 0 <= i < |calls| => StartEvent(calls[i]))
  }

  function EndEvent(w: World, batch: nat, i: nat, r: ToolResult): StreamEvent {
    ToolCallEnd(r.id, r.name, if r.isError then "error: " + Truncate(r.content, 80) else "success", w.elapsed(batch, i))
  }

  /** The End events in the order the goroutines finish. */
  function EndEvents(w: World, batch: nat, rs: seq<ToolResult>, order: seq<nat>): (evs: seq<StreamEvent>)
    requires forall k :: 0 <= k < |order| ==> order[k] < |rs|
    ensures |evs| == |order|
    ensures forall k :: 0 <= k < |order| ==> evs[k] == EndEvent(w, batch, order[k], rs[order[k]])
  {
    seq(|order|, k requires 0 <= k < |order| => EndEvent(w, batch, order[k], rs[order[k]]))
  }

  // ---------------------------------------------------------------------------------
  // The run.
  // ---------------------------------------------------------------------------------

  /** Which of its Saves a run was at; Run wraps the error with the same three words. */
  datatype SavePoint = PreTurn | AtAnswer | AtTools

  datatype Outcome =
    | Finished
    | MaxStepsReached
    | SaveFailed(at: SavePoint)
    | StreamFailed
    | EmptyResponse
    | ArgsTooLarge
    | ProviderError(err: Option<Bytes>)
    | NoMessageEnd

  /** `msgs` is sess.Messages; `ops` are the appends and Saves it went through in this run;
      `written` is what the successful Saves wrote, in order. */
  datatype RunState = RunState(
    msgs: seq<Message>,
    ops: seq<SessionStore.Op>,
    written: seq<seq<Message>>,
    saves: nat,
    streams: nat,
    batches: nat,
    consumed: seq<StreamEvent>,
    emitted: seq<StreamEvent>,
    outcome: Option<Outcome>)

  predicate Encodable(w: World, ms: seq<Message>) {
    Sessions.Encodable(w.validJson, ms)
  }

  /** What the store holds because of this run, if it has written anything. */
  function Stored(r: RunState): Option<seq<Message>> {
    if r.written == [] then None else Some(r.written[|r.written| - 1])
  }

  function Append(r: RunState, m: Message): RunState {
    r.(msgs := r.msgs + [m], ops := r.ops + [SessionStore.Append(m)])
  }

  function AppendAll(r: RunState, ms: seq<Message>): RunState {
    if ms == [] then r else Append(AppendAll(r, ms[..|ms| - 1]), ms[|ms| - 1])
  }

  /** Appending touches nothing but the messages. */
  lemma {:induction false} AppendAllFrame(r: RunState, ms: seq<Message>)
    ensures AppendAll(r, ms) == r.(msgs := AppendAll(r, ms).msgs, ops := AppendAll(r, ms).ops)
  {
    if ms != [] { AppendAllFrame(r, ms[..|ms| - 1]); }
  }

  /** `saveSession`: trims in memory first, then encodes and writes. */
  function Save(w: World, r: RunState, at: SavePoint): RunState {
    var kept := SessionStore.Trim(r.msgs);
    var ok := Encodable(w, kept) && w.redisUp(r.saves);
    r.(msgs := kept,
       ops := r.ops + [SessionStore.Op.Save],
       written := if ok then r.written + [kept] else r.written,
       saves := r.saves + 1,
       outcome := if ok then r.outcome else Some(SaveFailed(at)))
  }

  /** The run ended because a Save failed. */
  predicate SaveLost(o: Option<Outcome>) { o.Some? && o.value.SaveFailed? }

  function SaveAnswer(w: World, r: RunState, asst: Message): RunState {
    Save(w, Append(r, asst), AtAnswer)
  }

  function Emit(r: RunState, evs: seq<StreamEvent>): RunState {
    r.(emitted := r.emitted + evs)
  }

  /** Within one stream: the run, the accumulators and the assistant message under construction. */
  datatype StepState = StepState(run: RunState, acc: Acc, asst: Message)

  const BLANK_ASSISTANT := Message(Assistant, "", "", [], "", "", false)

  function Finish(r: RunState, o: Outcome): RunState { r.(outcome := Some(o)) }

  /** Announce and execute one batch of calls. */
  function Execute(w: World, r: RunState, calls: seq<ToolCall>): RunState
    requires IsOrder(w.finish(r.batches, |calls|), |calls|)
  {
    var ends := EndEvents(w, r.batches, Results(w, r.batches, calls), w.finish(r.batches, |calls|));
    Emit(Emit(r, StartEvents(calls)), ends).(batches := r.batches + 1)
  }

  /** Execute a batch and write the results back in call order. */
  function RunTools(w: World, r: RunState, calls: seq<ToolCall>): RunState
    requires IsOrder(w.finish(r.batches, |calls|), |calls|)
  {
    Save(w, AppendAll(Execute(w, r, calls), ToolMessages(Results(w, r.batches, calls))), AtTools)
  }

  /** The assistant message at a message end. */
  function Built(s: StepState): Message {
    s.asst.(thinking := s.acc.thinking, content := s.acc.text, toolCalls := s.asst.toolCalls + Calls(s.acc))
  }

  predicate IsEmptyAnswer(asst: Message) {
    asst.toolCalls == [] && TrimSpace(asst.content) == ""
  }

  function OnMessageEnd(w: World, s: StepState, ev: StreamEvent): StepState
    requires forall n :: IsOrder(w.finish(s.run.batches, n), n)
  {
    var asst := Built(s);
    if IsEmptyAnswer(asst) then
      StepState(Finish(Emit(s.run, [Error(Some("agent: empty assistant response"))]), EmptyResponse), s.acc, asst)
    else
      var r := SaveAnswer(w, s.run, asst);
      if r.outcome.Some? then StepState(r, s.acc, asst)
      else
        var r1 := Emit(r, [ev]);
        if asst.toolCalls == [] then StepState(Finish(r1, Finished), s.acc, asst)
        else StepState(RunTools(w, r1, asst.toolCalls), s.acc, asst)
  }

  function OnEvent(w: World, s: StepState, ev: StreamEvent): StepState
    requires forall n :: IsOrder(w.finish(s.run.batches, n), n)
  {
    var run := s.run.(consumed := s.run.consumed + [ev]);
    match ev
    case ThinkingDelta(_) => StepState(Emit(run, [ev]), Accumulate(s.acc, ev).value, s.asst)
    case TextDelta(_) => StepState(Emit(run, [ev]), Accumulate(s.acc, ev).value, s.asst)
    case ToolCallStart(_, _, _) => StepState(run, Accumulate(s.acc, ev).value, s.asst)
    case ToolCallArgs(_, _, _) =>
      var a := Accumulate(s.acc, ev);
      if a.None? then
        StepState(Finish(Emit(run, [Error(Some("tool arguments too large"))]), ArgsTooLarge), s.acc, s.asst)
      else StepState(run, a.value, s.asst)
    case ToolCallEnd(_, _, _, _) => StepState(run, s.acc, s.asst)
    case MessageEnd(_, _) => OnMessageEnd(w, s.(run := run), ev)
    case Error(err) => StepState(Finish(Emit(run, [ev]), ProviderError(err)), s.acc, s.asst)
  }

  /** The range loop over one event channel; it stops where Run returns. */
  function Consume(w: World, s: StepState, evs: seq<StreamEvent>): StepState
    requires Fair(w)
  {
    if evs == [] then s
    else
      var before := Consume(w, s, evs[..|evs| - 1]);
      if before.run.outcome.Some? then before else OnEvent(w, before, evs[|evs| - 1])
  }

  predicate IsBlank(asst: Message) {
    asst.content == "" && asst.thinking == "" && asst.toolCalls == []
  }

  /** The state in which the range loop of a step starts. */
  function StepStart(r: RunState): StepState {
    StepState(r.(streams := r.streams + 1), EMPTY_ACC, BLANK_ASSISTANT)
  }

  /** One pass of the step loop. */
  function Step(w: World, r: RunState): RunState
    requires Fair(w)
  {
    var result := w.stream(r.streams);
    if result.StreamErr? then Finish(StepStart(r).run, StreamFailed)
    else
      var s := Consume(w, StepStart(r), result.events);
      if s.run.outcome.None? && IsBlank(s.asst) then Finish(s.run, NoMessageEnd) else s.run
  }

  function Steps(w: World, r: RunState, left: nat): RunState
    requires Fair(w)
    decreases left
  {
    if r.outcome.Some? then r
    else if left == 0 then Finish(r, MaxStepsReached)
    else Steps(w, Step(w, r), left - 1)
  }

  function Begin(history: seq<Message>): RunState {
    RunState(history, [], [], 0, 0, 0, [], [], None)
  }

  /** The user's message, appended and saved. */
  function Opening(w: World, history: seq<Message>, input: Bytes): RunState {
    Save(w, Append(Begin(history), UserMessage(input)), PreTurn)
  }

  /** `Run` on a session with the given history. */
  function Run(w: World, maxSteps: int, history: seq<Message>, input: Bytes): RunState
    requires Fair(w)
  {
    Steps(w, Opening(w, history, input), EffectiveSteps(maxSteps))
  }

  function EffectiveSteps(maxSteps: int): nat {
    if maxSteps <= 0 then DEFAULT_MAX_STEPS else maxSteps
  }
}
