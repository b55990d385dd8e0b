/** The card state machine of internal/render/state.go. */
module CardState {
  import opened Bytes
  import opened Llm

  datatype Phase = PhaseIdle | PhaseThinking | PhaseText | PhaseToolExecuting | PhaseDone | PhaseError

  /** One row of the tool list; `endedAt` is None for the zero time. */
  datatype Row = Row(id: Bytes, name: Bytes, argsPrev: Bytes, startedAt: int, endedAt: Option<int>, success: bool, errorMsg: Bytes)

  /** Everything a snapshot copies, and so everything a card can show. */
  datatype Card = Card(
    phase: Phase,
    thinking: Bytes,
    thinkingDone: bool,
    text: Bytes,
    tools: seq<Row>,
    errorText: Bytes,
    traceID: Bytes,
    model: Bytes)

  const NEW_CARD := Card(PhaseIdle, "", false, "", [], "", "", "")

  const ERROR_PREFIX: Bytes := "error:"

  /** Position of the row with this id, or the number of rows. */
  function RowOf(tools: seq<Row>, id: Bytes): (k: nat)
    ensures k <= |tools| && (k < |tools| ==> tools[k].id == id)
    ensures forall i :: 0 <= i < k ==> tools[i].id != id
  {
    if tools == [] || tools[0].id == id then 0 else 1 + RowOf(tools[1..], id)
  }

  function Ended(row: Row, status: Bytes, now: int): Row {
    if HasPrefix(status, ERROR_PREFIX) then
      row.(endedAt := Some(now), success := false, errorMsg := TrimSpace(TrimPrefix(status, ERROR_PREFIX)))
    else
      row.(endedAt := Some(now), success := true)
  }

  /** `State.Apply`: the next card, and whether Apply reports a visible change. */
  function Apply(c: Card, ev: StreamEvent, now: int): (Card, bool) {
    match ev
    case ThinkingDelta(t) =>
      var c1 := if c.phase == PhaseIdle then c.(phase := PhaseThinking) else c;
      if c.thinkingDone then (c1, false) else (c1.(thinking := c.thinking + t), true)
    case TextDelta(t) =>
      (c.(thinkingDone := true,
          phase := if c.phase == PhaseIdle || c.phase == PhaseThinking then PhaseText else c.phase,
          text := c.text + t), true)
    case ToolCallStart(id, name, preview) =>
      var c1 := c.(phase := PhaseToolExecuting);
      if RowOf(c.tools, id) < |c.tools| then (c1, false)
      else (c1.(tools := c.tools + [Row(id, name, Truncate(preview, 60), now, None, false, "")]), true)
    case ToolCallEnd(id, _, status, _) =>
      var k := RowOf(c.tools, id);
      if k == |c.tools| then (c, false)
      else (c.(tools := c.tools[k := Ended(c.tools[k], status, now)]), true)
    case Error(err) =>
      (c.(phase := PhaseError, errorText := if err.Some? then err.value else "unknown error"), true)
    case ToolCallArgs(_, _, _) => (c, false)
    case MessageEnd(_, _) => (c, false)
  }

  function MarkDone(c: Card): Card {
    if c.phase == PhaseError then c else c.(phase := PhaseDone)
  }

  function MarkError(c: Card, msg: Bytes): Card {
    c.(phase := PhaseError, errorText := if TrimSpace(msg) == "" then "unknown error" else msg)
  }

  // ---------------------------------------------------------------------------------
  // What a card shows.
  // ---------------------------------------------------------------------------------

  /** The elements of a card, without their wording and Markdown. */
  datatype Element =
    | Failure(message: Bytes, traceID: Bytes)
    | Thoughts(preview: Bytes)
    | ThoughtsOver
    | Answer(text: Bytes)
    | StartingUp
    | ToolLine(row: Row)
    | Footer(traceID: Bytes, model: Bytes)

  function ToolLines(tools: seq<Row>): (r: seq<Element>)
    ensures |r| == |tools| && forall k :: 0 <= k < |tools| ==> r[k] == ToolLine(tools[k])
  {
    seq(|tools|, k requires 0 <= k < |tools| => ToolLine(tools[k]))
  }

  function ThoughtElements(c: Card): seq<Element> {
    if c.thinking == "" then [] else if c.thinkingDone then [ThoughtsOver] else [Thoughts(Truncate(c.thinking, 300))]
  }

  function AnswerElements(c: Card): seq<Element> {
    if c.text != "" then [Answer(c.text)] else if c.phase == PhaseIdle then [StartingUp] else []
  }

  function FooterElements(c: Card): seq<Element> {
    if c.phase == PhaseDone && (c.traceID != "" || c.model != "") then [Footer(c.traceID, c.model)] else []
  }

  /** The elements `BuildCardJSON` puts on a card, in order, before it looks at the size. */
  function Layout(c: Card): seq<Element> {
    if c.phase == PhaseError then [Failure(Truncate(c.errorText, 120), c.traceID)]
    else ThoughtElements(c) + (AnswerElements(c) + (ToolLines(c.tools) + FooterElements(c)))
  }

  /** The answer text among the elements of a card. */
  function AnswerIn(es: seq<Element>): Bytes {
    if es == [] then ""
    else if es[0].Answer? then es[0].text
    else AnswerIn(es[1..])
  }

  lemma {:induction false} AnswerBehind(a: seq<Element>, b: seq<Element>)
    requires forall e <- a :: !e.Answer?
    ensures AnswerIn(a + b) == AnswerIn(b)
  {
    if a == [] {
      assert a + b == b;
    } else {
      assert a[0] in a && (a + b)[1..] == a[1..] + b;
      AnswerBehind(a[1..], b);
    }
  }

  lemma NoAnswerBehind(c: Card)
    ensures AnswerIn(ToolLines(c.tools) + FooterElements(c)) == ""
  {
    AnswerBehind(ToolLines(c.tools), FooterElements(c));
    AnswerBehind(FooterElements(c), []);
    assert FooterElements(c) + [] == FooterElements(c);
  }

  lemma AnswerFirst(c: Card, rest: seq<Element>)
    requires AnswerIn(rest) == ""
    ensures AnswerIn(AnswerElements(c) + rest) == c.text
  {
    if c.text == "" { AnswerBehind(AnswerElements(c), rest); }
  }

  /** A card shows its whole text, whatever else is on it, unless it is an error card, which shows
      none of it. */
  lemma CardShowsText(c: Card)
    ensures AnswerIn(Layout(c)) == if c.phase == PhaseError then "" else c.text
  {
    if c.phase != PhaseError {
      var rest := ToolLines(c.tools) + FooterElements(c);
      NoAnswerBehind(c);
      AnswerFirst(c, rest);
      AnswerBehind(ThoughtElements(c), AnswerElements(c) + rest);
    }
  }

  /** The rows among the elements of a card, in order. */
  function RowsIn(es: seq<Element>): seq<Row> {
    if es == [] then []
    else (if es[0].ToolLine? then [es[0].row] else []) + RowsIn(es[1..])
  }

  /** A card that has just taken an error event shows that error, or the generic one for the nil
      error, and nothing else. */
  lemma ErrorIsShown(c: Card, evs: seq<StreamEvent>, clock: nat -> int)
    requires evs != [] && evs[|evs| - 1].Error?
    ensures var shown := ApplyAll(c, evs, clock); var err := evs[|evs| - 1].err;
      var text := if err.Some? then err.value else "unknown error";
      Layout(shown) == [Failure(if |text| <= 120 then text else text[..120] + ELLIPSIS, shown.traceID)]
  {
  }

  /** What a card shows of the thinking: nothing, the start of it, or that it is over. */
  datatype Pondering = NoThinking | Thinking(preview: Bytes) | Thought

  function PonderingIn(es: seq<Element>): Pondering {
    if es == [] then NoThinking
    else if es[0].Thoughts? then Thinking(es[0].preview)
    else if es[0].ThoughtsOver? then Thought
    else PonderingIn(es[1..])
  }

  lemma {:induction false} RowsAppend(a: seq<Element>, b: seq<Element>)
    ensures RowsIn(a + b) == RowsIn(a) + RowsIn(b)
    ensures PonderingIn(a + b) == if PonderingIn(a) == NoThinking then PonderingIn(b) else PonderingIn(a)
  {
    if a == [] {
      assert a + b == b;
    } else {
      assert (a + b)[1..] == a[1..] + b;
      RowsAppend(a[1..], b);
    }
  }

  lemma {:induction false} LinesAreRows(tools: seq<Row>)
    ensures RowsIn(ToolLines(tools)) == tools && PonderingIn(ToolLines(tools)) == NoThinking
  {
    if tools != [] {
      LinesAreRows(tools[1..]);
      assert ToolLines(tools)[1..] == ToolLines(tools[1..]);
    }
  }

  lemma OtherPartsShow(c: Card)
    ensures RowsIn(ThoughtElements(c)) == [] && RowsIn(AnswerElements(c)) == [] && RowsIn(FooterElements(c)) == []
    ensures PonderingIn(AnswerElements(c)) == PonderingIn(FooterElements(c)) == NoThinking
  {
  }

  lemma RowsShown(c: Card)
    requires c.phase != PhaseError
    ensures RowsIn(Layout(c)) == c.tools
    ensures PonderingIn(Layout(c)) == PonderingIn(ThoughtElements(c))
  {
    var tail := ToolLines(c.tools) + FooterElements(c);
    OtherPartsShow(c);
    LinesAreRows(c.tools);
    hide ThoughtElements, AnswerElements, FooterElements, ToolLines, RowsIn, PonderingIn;
    RowsAppend(ToolLines(c.tools), FooterElements(c));
    RowsAppend(AnswerElements(c), tail);
    RowsAppend(ThoughtElements(c), AnswerElements(c) + tail);
  }

  lemma FooterShown(c: Card)
    requires c.phase != PhaseError
    ensures Footer(c.traceID, c.model) in Layout(c) <==> c.phase == PhaseDone && !(c.traceID == "" && c.model == "")
    ensures StartingUp in Layout(c) <==> c.phase == PhaseIdle && c.text == ""
    ensures forall e <- Layout(c) :: !e.Failure? && (e.Footer? ==> e == Footer(c.traceID, c.model))
  {
  }

  /** A card shows all its rows, in order, and of its thinking the first 300 bytes until the first
      text arrives; the footer names trace and model, on a finished card only; an error card shows
      none of it, but the first 120 bytes of the error and the trace. */
  lemma CardShowsTheRest(c: Card)
    ensures c.phase != PhaseError ==>
      && RowsIn(Layout(c)) == c.tools
      && (PonderingIn(Layout(c)) == NoThinking <==> c.thinking == "")
      && (PonderingIn(Layout(c)) == Thought <==> c.thinking != "" && c.thinkingDone)
      && (c.thinking != "" && !c.thinkingDone ==>
            PonderingIn(Layout(c)) == Thinking(if |c.thinking| <= 300 then c.thinking else c.thinking[..300] + ELLIPSIS))
      && (Footer(c.traceID, c.model) in Layout(c) <==> c.phase == PhaseDone && !(c.traceID == "" && c.model == ""))
      && (StartingUp in Layout(c) <==> c.phase == PhaseIdle && c.text == "")
      && forall e <- Layout(c) :: !e.Failure? && (e.Footer? ==> e == Footer(c.traceID, c.model))
    ensures c.phase == PhaseError ==>
      Layout(c) == [Failure(if |c.errorText| <= 120 then c.errorText else c.errorText[..120] + ELLIPSIS, c.traceID)]
  {
    if c.phase != PhaseError {
      RowsShown(c);
      FooterShown(c);
      hide Layout;
    }
  }

  // ---------------------------------------------------------------------------------
  // The state with its shared entries: a list and a map of pointers to the same rows.
  // ---------------------------------------------------------------------------------

  class ToolEntry {
    const id: Bytes
    const name: Bytes
    const argsPrev: Bytes
    const startedAt: int
    var endedAt: Option<int>
    var success: bool
    var errorMsg: Bytes

    constructor (id: Bytes, name: Bytes, argsPrev: Bytes, startedAt: int)
      ensures View() == Row(id, name, argsPrev, startedAt, None, false, "")
    {
      this.id, this.name, this.argsPrev, this.startedAt := id, name, argsPrev, startedAt;
      endedAt, success, errorMsg := None, false, "";
    }

    function View(): Row
      reads this
    {
      Row(id, name, argsPrev, startedAt, endedAt, success, errorMsg)
    }

    method Finish(status: Bytes, now: int)
      modifies this
      ensures View() == Ended(old(View()), status, now)
    {
      endedAt := Some(now);
      success := !HasPrefix(status, ERROR_PREFIX);
      if !success {
        errorMsg := TrimPrefix(status, ERROR_PREFIX);
        errorMsg := TrimSpace(errorMsg);
      }
    }
  }

  class State {
    var phase: Phase
    var thinking: Bytes
    var thinkingDone: bool
    var text: Bytes
    var tools: seq<ToolEntry>
    var toolByID: map<Bytes, ToolEntry>
    var errorText: Bytes
    var traceID: Bytes
    var model: Bytes

    constructor ()
      ensures Valid() && Snapshot() == NEW_CARD && tools == []
    {
      phase, thinking, thinkingDone, text := PhaseIdle, "", false, "";
      tools, toolByID := [], map[];
      errorText, traceID, model := "", "", "";
      new;
      assert Rows() == [];
    }

    /** The list and the map describe the same entries, which have distinct ids. */
    ghost predicate Valid()
      reads this
    {
      && (forall i :: 0 <= i < |tools| ==> tools[i].id in toolByID && toolByID[tools[i].id] == tools[i])
      && (forall i, j :: 0 <= i < j < |tools| ==> tools[i].id != tools[j].id)
      && (forall id :: id in toolByID ==> toolByID[id] in tools && toolByID[id].id == id)
    }

    function Rows(): seq<Row>
      reads this, tools
    {
      seq(|tools|, i requires 0 <= i < |tools| reads this, tools => tools[i].View())
    }

    /** `Snapshot`: a deep copy. */
    function Snapshot(): Card
      reads this, tools
    {
      Card(phase, thinking, thinkingDone, text, Rows(), errorText, traceID, model)
    }

    lemma RowOfId(id: Bytes)
      requires Valid()
      ensures RowOf(Rows(), id) < |tools| <==> id in toolByID
      ensures id in toolByID ==> tools[RowOf(Rows(), id)] == toolByID[id]
    {
      var k := RowOf(Rows(), id);
      assert k < |tools| ==> Rows()[k].id == tools[k].id;
      if id in toolByID {
        var i :| 0 <= i < |tools| && tools[i] == toolByID[id];
        assert Rows()[i].id == id;
      }
    }

    method StartTool(id: Bytes, name: Bytes, preview: Bytes, now: int) returns (changed: bool)
      requires Valid()
      modifies this
      ensures Valid()
      ensures (Snapshot(), changed) == Apply(old(Snapshot()), ToolCallStart(id, name, preview), now)
      ensures forall t :: t in tools ==> t in old(tools) || fresh(t)
    {
      hide RowOf, Truncate;
      RowOfId(id);
      phase := PhaseToolExecuting;
      if id in toolByID {
        assert Rows() == old(Rows());
        return false;
      }
      var entry := new ToolEntry(id, name, Truncate(preview, 60), now);
      toolByID := toolByID[id := entry];
      tools := tools + [entry];
      assert Rows() == old(Rows()) + [entry.View()];
      return true;
    }

    method EndTool(id: Bytes, name: Bytes, status: Bytes, elapsed: Bytes, now: int) returns (changed: bool)
      requires Valid()
      modifies tools
      ensures Valid()
      ensures (Snapshot(), changed) == Apply(old(Snapshot()), ToolCallEnd(id, name, status, elapsed), now)
    {
      RowOfId(id);
      ghost var k := RowOf(Rows(), id);
      if id !in toolByID { return false; }
      var entry := toolByID[id];
      entry.Finish(status, now);
      assert Rows() == old(Rows())[k := Ended(old(Rows())[k], status, now)];
      return true;
    }

    /** `Apply`. */
    method ApplyEvent(ev: StreamEvent, now: int) returns (changed: bool)
      requires Valid()
      modifies this, tools
      ensures Valid()
      ensures (Snapshot(), changed) == Apply(old(Snapshot()), ev, now)
      ensures forall t :: t in tools ==> t in old(tools) || fresh(t)
    {
      hide RowOf, Ended, Truncate;
      match ev {
        case ThinkingDelta(t) =>
          if phase == PhaseIdle { phase := PhaseThinking; }
          changed := !thinkingDone;
          if !thinkingDone { thinking := thinking + t; }
          assert Rows() == old(Rows());
        case TextDelta(t) =>
          if !thinkingDone { thinkingDone := true; }
          if phase == PhaseIdle || phase == PhaseThinking { phase := PhaseText; }
          text := text + t;
          changed := true;
          assert Rows() == old(Rows());
        case ToolCallStart(id, name, preview) =>
          changed := StartTool(id, name, preview, now);
        case ToolCallEnd(id, name, status, elapsed) =>
          changed := EndTool(id, name, status, elapsed, now);
        case Error(err) =>
          phase := PhaseError;
          errorText := if err.Some? then err.value else "unknown error";
          changed := true;
          assert Rows() == old(Rows());
        case ToolCallArgs(_, _, _) => changed := false;
        case MessageEnd(_, _) => changed := false;
      }
    }

    method SetDone()
      modifies `phase
      ensures Snapshot() == MarkDone(old(Snapshot()))
    {
      if phase != PhaseError { phase := PhaseDone; }
      assert Rows() == old(Rows());
    }

    method SetError(msg: Bytes)
      modifies `phase, `errorText
      ensures Snapshot() == MarkError(old(Snapshot()), msg)
      ensures phase == PhaseError && errorText == if TrimSpace(msg) == "" then "unknown error" else msg
    {
      phase := PhaseError;
      errorText := if TrimSpace(msg) == "" then "unknown error" else msg;
      assert Rows() == old(Rows());
    }
  }

  // ---------------------------------------------------------------------------------
  // Folding a whole event sequence; `clock` gives the time at which the n-th event is applied.
  // ---------------------------------------------------------------------------------

  function ApplyAll(c: Card, evs: seq<StreamEvent>, clock: nat -> int): Card {
    if evs == [] then c
    else Apply(ApplyAll(c, evs[..|evs| - 1], clock), evs[|evs| - 1], clock(|evs| - 1)).0
  }

  lemma {:induction false} CardText(c: Card, evs: seq<StreamEvent>, clock: nat -> int)
    ensures ApplyAll(c, evs, clock).text == c.text + TextOf(evs)
  {
    if evs != [] {
      CardText(c, evs[..|evs| - 1], clock);
    }
  }

  predicate HasText(evs: seq<StreamEvent>) {
    exists e <- evs :: e.TextDelta?
  }

  lemma HasTextSnoc(evs: seq<StreamEvent>)
    requires evs != []
    ensures HasText(evs) <==> HasText(evs[..|evs| - 1]) || evs[|evs| - 1].TextDelta?
  {
    assert evs == evs[..|evs| - 1] + [evs[|evs| - 1]];
  }

  lemma {:induction false} ThinkingDoneAtText(c: Card, evs: seq<StreamEvent>, clock: nat -> int)
    requires !c.thinkingDone
    ensures ApplyAll(c, evs, clock).thinkingDone <==> HasText(evs)
  {
    if evs != [] {
      ThinkingDoneAtText(c, evs[..|evs| - 1], clock);
      HasTextSnoc(evs);
    }
  }

  lemma {:induction false} CardThinking(c: Card, evs: seq<StreamEvent>, clock: nat -> int)
    requires !c.thinkingDone
    ensures ApplyAll(c, evs, clock).thinking == c.thinking + ThinkingBeforeText(evs)
  {
    if evs != [] {
      CardThinking(c, evs[..|evs| - 1], clock);
      ThinkingDoneAtText(c, evs[..|evs| - 1], clock);
    }
  }

  /** The card text is all text deltas; the thinking text is what precedes the first of them. */
  lemma CardTextIsAllText(evs: seq<StreamEvent>, clock: nat -> int)
    ensures ApplyAll(NEW_CARD, evs, clock).text == TextOf(evs)
    ensures ApplyAll(NEW_CARD, evs, clock).thinking == ThinkingBeforeText(evs)
  {
    CardText(NEW_CARD, evs, clock);
    CardThinking(NEW_CARD, evs, clock);
  }

  predicate StartsId(evs: seq<StreamEvent>, id: Bytes) {
    exists e <- evs :: e.ToolCallStart? && e.id == id
  }

  /** The Start events that are the first for their id. */
  function FirstStarts(evs: seq<StreamEvent>): seq<StreamEvent> {
    if evs == [] then []
    else
      var init, last := evs[..|evs| - 1], evs[|evs| - 1];
      if last.ToolCallStart? && !StartsId(init, last.id) then FirstStarts(init) + [last] else FirstStarts(init)
  }

  /** The rows are those of these Start events: id, name and the cut preview. */
  ghost predicate RowsOf(tools: seq<Row>, starts: seq<StreamEvent>) {
    && |tools| == |starts|
    && forall k :: 0 <= k < |tools| ==> RowOfStart(tools[k], starts[k])
  }

  predicate RowOfStart(row: Row, start: StreamEvent) {
    start.ToolCallStart? && row.id == start.id && row.name == start.name
    && row.argsPrev == if |start.preview| <= 60 then start.preview else start.preview[..60] + ELLIPSIS
  }

  lemma {:induction false} FirstStartsCover(evs: seq<StreamEvent>, id: Bytes)
    ensures StartsId(evs, id) <==> exists e <- FirstStarts(evs) :: e.ToolCallStart? && e.id == id
  {
    if evs != [] {
      var init, last := evs[..|evs| - 1], evs[|evs| - 1];
      FirstStartsCover(init, id);
      assert evs == init + [last];
      hide FirstStarts;
      StartsSnoc(init, last, id);
      StartsSnoc(FirstStarts(init), last, id);
    }
  }

  lemma StartsSnoc(evs: seq<StreamEvent>, e: StreamEvent, id: Bytes)
    ensures StartsId(evs + [e], id) <==> StartsId(evs, id) || (e.ToolCallStart? && e.id == id)
  {
    if x :| x in evs && x.ToolCallStart? && x.id == id { assert x in evs + [e]; }
    assert e in evs + [e];
  }

  /** Each id that is started has one row, in the order of the first Starts, with the name and the
      cut preview of its first Start. */
  lemma {:induction false} RowsAreFirstStarts(c: Card, evs: seq<StreamEvent>, clock: nat -> int)
    requires c.tools == []
    ensures RowsOf(ApplyAll(c, evs, clock).tools, FirstStarts(evs))
  {
    if evs != [] {
      var n := |evs| - 1;
      RowsAreFirstStarts(c, evs[..n], clock);
      RowStep(ApplyAll(c, evs[..n], clock), evs[..n], evs[n], clock(n));
      hide Apply;
    }
  }

  lemma RowStep(c: Card, init: seq<StreamEvent>, e: StreamEvent, now: int)
    requires RowsOf(c.tools, FirstStarts(init))
    ensures RowsOf(Apply(c, e, now).0.tools,
      if e.ToolCallStart? && !StartsId(init, e.id) then FirstStarts(init) + [e] else FirstStarts(init))
  {
    if e.ToolCallStart? {
      FirstStartsCover(init, e.id);
      StartedHasRow(c.tools, FirstStarts(init), e.id);
    }
  }

  lemma StartedHasRow(tools: seq<Row>, starts: seq<StreamEvent>, id: Bytes)
    requires RowsOf(tools, starts)
    ensures RowOf(tools, id) < |tools| <==> exists e <- starts :: e.ToolCallStart? && e.id == id
  {
    var k := RowOf(tools, id);
    if k < |tools| { assert RowOfStart(tools[k], starts[k]) && starts[k] in starts; }
    forall e | e in starts && e.ToolCallStart? && e.id == id ensures k < |tools| {
      var j :| 0 <= j < |starts| && starts[j] == e;
      assert RowOfStart(tools[j], starts[j]);
    }
  }

  /** The status of the last End of an id that has been started before. */
  function LastStatus(evs: seq<StreamEvent>, id: Bytes): Option<Bytes> {
    if evs == [] then None
    else
      var init, last := evs[..|evs| - 1], evs[|evs| - 1];
      if last.ToolCallEnd? && last.id == id && StartsId(init, id) then Some(last.status) else LastStatus(init, id)
  }

  /** The row is running, or tells what the End with this status said. */
  predicate RowSays(row: Row, status: Option<Bytes>) {
    match status
    case None => row.endedAt.None? && !row.success && row.errorMsg == ""
    case Some(s) =>
      && row.endedAt.Some?
      && (row.success <==> !HasPrefix(s, "error:"))
      && (HasPrefix(s, "error:") ==> row.errorMsg == TrimSpace(s[6..]))
  }

  ghost predicate RowsSay(tools: seq<Row>, evs: seq<StreamEvent>) {
    forall k :: 0 <= k < |tools| ==> RowSays(tools[k], LastStatus(evs, tools[k].id))
  }

  /** Every row tells what the last End of its id said, or is still running if there was none. */
  lemma {:induction false} RowsTellLastEnd(c: Card, evs: seq<StreamEvent>, clock: nat -> int)
    requires c.tools == []
    ensures RowsSay(ApplyAll(c, evs, clock).tools, evs)
  {
    if evs != [] {
      var n := |evs| - 1;
      assert evs[..n] + [evs[n]] == evs && DistinctRows(c);
      assert ApplyAll(c, evs, clock) == Apply(ApplyAll(c, evs[..n], clock), evs[n], clock(n)).0;
      hide *;
      RowsTellLastEnd(c, evs[..n], clock);
      RowsAreFirstStarts(c, evs[..n], clock);
      RowsStayDistinct(c, evs[..n], clock);
      SaysStep(ApplyAll(c, evs[..n], clock), evs[..n], evs[n], clock(n));
    }
  }

  lemma StatusSnoc(evs: seq<StreamEvent>, e: StreamEvent, id: Bytes)
    ensures LastStatus(evs + [e], id) ==
      if e.ToolCallEnd? && e.id == id && StartsId(evs, id) then Some(e.status) else LastStatus(evs, id)
  {
    assert (evs + [e])[..|evs|] == evs;
  }

  lemma {:induction false} NoStartNoStatus(evs: seq<StreamEvent>, id: Bytes)
    requires !StartsId(evs, id)
    ensures LastStatus(evs, id) == None
  {
    if evs != [] {
      assert evs == evs[..|evs| - 1] + [evs[|evs| - 1]];
      StartsSnoc(evs[..|evs| - 1], evs[|evs| - 1], id);
      NoStartNoStatus(evs[..|evs| - 1], id);
    }
  }

  lemma EndedSays(row: Row, status: Bytes, now: int)
    ensures RowSays(Ended(row, status, now), Some(status)) && Ended(row, status, now).id == row.id
  {
  }

  lemma SaysStep(c: Card, init: seq<StreamEvent>, e: StreamEvent, now: int)
    requires RowsOf(c.tools, FirstStarts(init)) && RowsSay(c.tools, init) && DistinctRows(c)
    ensures RowsSay(Apply(c, e, now).0.tools, init + [e])
  {
    var after := Apply(c, e, now).0.tools;
    forall k | 0 <= k < |after| ensures RowSays(after[k], LastStatus(init + [e], after[k].id)) {
      StatusSnoc(init, e, after[k].id);
      if k < |c.tools| {
        StartedHasRow(c.tools, FirstStarts(init), after[k].id);
        FirstStartsCover(init, after[k].id);
        RowKept(c, init, e, now, k);
      } else {
        NewRowSays(c, init, e, now);
      }
    }
  }

  lemma NewRowSays(c: Card, init: seq<StreamEvent>, e: StreamEvent, now: int)
    requires RowsOf(c.tools, FirstStarts(init)) && |Apply(c, e, now).0.tools| > |c.tools|
    ensures var row := Apply(c, e, now).0.tools[|c.tools|]; e.ToolCallStart? && RowSays(row, LastStatus(init, row.id))
    ensures |Apply(c, e, now).0.tools| == |c.tools| + 1
  {
    StartedHasRow(c.tools, FirstStarts(init), e.id);
    FirstStartsCover(init, e.id);
    NoStartNoStatus(init, e.id);
  }

  lemma RowKept(c: Card, init: seq<StreamEvent>, e: StreamEvent, now: int, k: nat)
    requires RowsOf(c.tools, FirstStarts(init)) && RowsSay(c.tools, init) && k < |c.tools|
    requires DistinctRows(c)
    ensures var row := Apply(c, e, now).0.tools[k];
      row.id == c.tools[k].id &&
      RowSays(row, if e.ToolCallEnd? && e.id == row.id then Some(e.status) else LastStatus(init, row.id))
  {
    assert RowSays(c.tools[k], LastStatus(init, c.tools[k].id));
    hide RowSays, LastStatus, Ended, Truncate, RowsOf, FirstStarts;
    if e.ToolCallEnd? { EndedSays(c.tools[k], e.status, now); }
  }

  predicate Stirs(e: StreamEvent) { e.ThinkingDelta? || e.TextDelta? || e.ToolCallStart? || e.Error? }

  lemma QuietSnoc(evs: seq<StreamEvent>, e: StreamEvent)
    ensures (forall x <- evs + [e] :: !Stirs(x)) <==> (forall x <- evs :: !Stirs(x)) && !Stirs(e)
  {
    if forall x <- evs + [e] :: !Stirs(x) {
      assert e in evs + [e];
      forall x | x in evs ensures !Stirs(x) { assert x in evs + [e]; }
    }
  }

  /** A card is idle until the first thought, text, tool or error. */
  lemma {:induction false} IdleUntilStirred(c: Card, evs: seq<StreamEvent>, clock: nat -> int)
    requires c.phase == PhaseIdle
    ensures ApplyAll(c, evs, clock).phase == PhaseIdle <==> forall e <- evs :: !Stirs(e)
  {
    if evs != [] {
      var n := |evs| - 1;
      IdleUntilStirred(c, evs[..n], clock);
      assert evs == evs[..n] + [evs[n]];
      QuietSnoc(evs[..n], evs[n]);
    }
  }

  predicate DistinctRows(c: Card) {
    forall i, j :: 0 <= i < j < |c.tools| ==> c.tools[i].id != c.tools[j].id
  }

  lemma RowStaysDistinct(c: Card, ev: StreamEvent, now: int)
    requires DistinctRows(c)
    ensures DistinctRows(Apply(c, ev, now).0)
  {
  }

  lemma {:induction false} RowsStayDistinct(c: Card, evs: seq<StreamEvent>, clock: nat -> int)
    requires DistinctRows(c)
    ensures DistinctRows(ApplyAll(c, evs, clock))
  {
    if evs != [] {
      var n := |evs| - 1;
      RowsStayDistinct(c, evs[..n], clock);
      RowStaysDistinct(ApplyAll(c, evs[..n], clock), evs[n], clock(n));
    }
  }

  /** The event changes what the card shows although Apply reports no change: a thinking delta on
      an idle card that already has text, or a repeated Start on a card that is not executing. */
  predicate Hides(c: Card, ev: StreamEvent) {
    || (ev.ThinkingDelta? && c.thinkingDone && c.phase == PhaseIdle)
    || (ev.ToolCallStart? && RowOf(c.tools, ev.id) < |c.tools| && c.phase != PhaseToolExecuting)
  }

  /** On any card, "no change" is true of what the card can show exactly when the event does not
      hide one. */
  lemma NoChangeIsInvisible(c: Card, ev: StreamEvent, now: int)
    ensures (!Apply(c, ev, now).1 ==> Apply(c, ev, now).0 == c) <==> !Hides(c, ev)
  {
    assert ev.ThinkingDelta? && c.phase == PhaseIdle ==> Apply(c, ev, now).0.phase == PhaseThinking;
    assert ev.ToolCallStart? ==> Apply(c, ev, now).0.phase == PhaseToolExecuting;
  }

  /** Phases agree with what has been seen: text or tool rows mean the card has moved on. */
  predicate Consistent(c: Card) {
    && (c.thinkingDone ==> c.phase != PhaseIdle)
    && (c.tools != [] ==> c.phase == PhaseToolExecuting)
  }

  /** On a consistent card no event hides a change, and only an error event makes a card
      inconsistent. */
  lemma ConsistentHidesNothing(c: Card, ev: StreamEvent, now: int)
    requires Consistent(c)
    ensures !Hides(c, ev)
    ensures !ev.Error? ==> Consistent(Apply(c, ev, now).0)
  {
  }

  /** After an error event it is otherwise: a repeated Start of any row turns the error card back
      into a running one and reports no change. */
  lemma RepeatedStartHidesError(c: Card, err: Option<Bytes>, k: nat, name: Bytes, preview: Bytes, now: int)
    requires k < |c.tools|
    ensures var e := Apply(c, Error(err), now).0;
      var start := ToolCallStart(c.tools[k].id, name, preview);
      var r := Apply(e, start, now);
      Hides(e, start) && e.phase == PhaseError && !r.1 && r.0 == e.(phase := PhaseToolExecuting)
  {
    assert RowOf(c.tools, c.tools[k].id) <= k;
  }
}
