/** From the provider's events to the final card: an agent run, the channel, the renderer's loop
    and the closing steps of internal/lark/handler.go:190-235 put together. */
module TurnEnd {
  import opened Bytes
  import opened Llm
  import opened CardState
  import A = AgentSpec
  import An = Announcements
  import E = AgentEvents
  import H = AgentHistory
  import P = EmissionProtocol
  import St = AgentSteps
  import R = Renderer
  import Channel
  import CardSize
  import Hanging
  import S = SessionStore

  const TOO_MANY_STEPS: Bytes :=
    "\U{E5}\U{B7}\U{B2}\U{E8}\U{BE}\U{BE}\U{E5}\U{88}\U{B0}\U{E6}\U{8E}\U{A8}\U{E7}\U{90}\U{86}" +
    "\U{E6}\U{AD}\U{A5}\U{E6}\U{95}\U{B0}\U{E4}\U{B8}\U{8A}\U{E9}\U{99}\U{90}\U{EF}\U{BC}\U{88}12 " +
    "\U{E6}\U{AD}\U{A5}\U{EF}\U{BC}\U{89}\U{EF}\U{BC}\U{8C}\U{E8}\U{AF}\U{B7}\U{E6}\U{8B}\U{86}" +
    "\U{E8}\U{A7}\U{A3}\U{E9}\U{97}\U{AE}\U{E9}\U{A2}\U{98}\U{E5}\U{90}\U{8E}\U{E9}\U{87}\U{8D}" +
    "\U{E8}\U{AF}\U{95}\U{E3}\U{80}\U{82}"

  const EMPTY_ANSWER: Bytes :=
    "\U{E6}\U{A8}\U{A1}\U{E5}\U{9E}\U{8B}\U{E8}\U{BF}\U{94}\U{E5}\U{9B}\U{9E}\U{E4}\U{BA}\U{86}" +
    "\U{E7}\U{A9}\U{BA}\U{E5}\U{93}\U{8D}\U{E5}\U{BA}\U{94}\U{EF}\U{BC}\U{8C}\U{E8}\U{AF}\U{B7}" +
    "\U{E7}\U{A8}\U{8D}\U{E5}\U{90}\U{8E}\U{E9}\U{87}\U{8D}\U{E8}\U{AF}\U{95}\U{E3}\U{80}\U{82}"

  const SOMETHING_WRONG: Bytes :=
    "\U{E5}\U{A4}\U{84}\U{E7}\U{90}\U{86}\U{E8}\U{BF}\U{87}\U{E7}\U{A8}\U{8B}\U{E4}\U{B8}\U{AD}" +
    "\U{E5}\U{87}\U{BA}\U{E9}\U{94}\U{99}\U{E4}\U{BA}\U{86}\U{EF}\U{BC}\U{8C}\U{E8}\U{AF}\U{B7}" +
    "\U{E7}\U{A8}\U{8D}\U{E5}\U{90}\U{8E}\U{E9}\U{87}\U{8D}\U{E8}\U{AF}\U{95}\U{E3}\U{80}\U{82}"

  /** Run returns a non-nil error.  It returns the provider's Err as it is, nil or not. */
  predicate Fails(o: A.Outcome) {
    o != A.Finished && o != A.ProviderError(None)
  }

  /** `userFacingRunError`. */
  function UserFacing(o: A.Outcome): Bytes {
    if o == A.MaxStepsReached then TOO_MANY_STEPS
    else if o == A.EmptyResponse then EMPTY_ANSWER
    else SOMETHING_WRONG
  }

  /** What Handle makes of the card before `Stop` sends it for the last time. */
  function Closing(c: Card, o: A.Outcome): Card {
    MarkDone(if Fails(o) then MarkError(c, UserFacing(o)) else c)
  }

  /** The card a turn starts with. */
  function Stamped(traceID: Bytes, model: Bytes): Card {
    NEW_CARD.(traceID := traceID, model := model)
  }

  lemma ApplyStamped(c: Card, ev: StreamEvent, now: int, traceID: Bytes, model: Bytes)
    ensures Apply(c.(traceID := traceID, model := model), ev, now).0 ==
      Apply(c, ev, now).0.(traceID := traceID, model := model)
  {
  }

  lemma {:induction false} StampStays(evs: seq<StreamEvent>, clock: nat -> int, traceID: Bytes, model: Bytes)
    ensures ApplyAll(Stamped(traceID, model), evs, clock) ==
      ApplyAll(NEW_CARD, evs, clock).(traceID := traceID, model := model)
  {
    if evs != [] {
      var n := |evs| - 1;
      StampStays(evs[..n], clock, traceID, model);
      ApplyStamped(ApplyAll(NEW_CARD, evs[..n], clock), evs[n], clock(n), traceID, model);
      hide Apply;
    }
  }

  /** The final card after any run, whatever the streams, the tools and the store did. */
  lemma FinalCard(w: A.World, maxSteps: int, history: seq<Message>, input: Bytes, clock: nat -> int,
                  traceID: Bytes, model: Bytes)
    requires A.Fair(w)
    ensures var r := A.Run(w, maxSteps, history, input); var o := r.outcome;
      var c := ApplyAll(Stamped(traceID, model), r.emitted, clock);
      && o.Some?
      && var final := Closing(c, o.value);
      && final.text == TextOf(r.consumed)
      && final.thinking == ThinkingBeforeText(r.consumed)
      && P.NoPending(final) && DistinctRows(final)
      && (final.phase == PhaseError <==> Fails(o.value) || o == Some(A.ProviderError(None)))
      && (final.phase == PhaseDone <==> o == Some(A.Finished))
      && final.traceID == traceID && final.model == model
  {
    var r := A.Run(w, maxSteps, history, input);
    StampStays(r.emitted, clock, traceID, model);
    RunEnds(w, maxSteps, history, input);
    E.RunLeavesNoPendingRow(w, maxSteps, history, input, clock);
    E.CardShowsConsumedText(w, maxSteps, history, input, clock);
  }

  lemma RunEnds(w: A.World, maxSteps: int, history: seq<Message>, input: Bytes)
    requires A.Fair(w)
    ensures A.Run(w, maxSteps, history, input).outcome.Some?
  {
    var r0 := A.Opening(w, history, input);
    H.StepsEnd(w, r0, A.EffectiveSteps(maxSteps));
  }

  /** Text conservation end to end.  However the sender, the receiver and the ticker interleave,
      and whatever happens to the patches: once Feed has returned the card holds exactly the text
      the run took from the provider; and when Run returned nil or reported the step bound on tidy
      streams, that is the concatenation of the assistant contents it appended. */
  lemma TextConservation(w: A.World, maxSteps: int, history: seq<Message>, input: Bytes,
                         build: R.Builder, schedule: seq<Channel.Action>, clock: nat -> int,
                         traceID: Bytes, model: Bytes)
    requires A.Fair(w)
    requires var f0 := R.NewFeed(Stamped(traceID, model)); var out := A.Run(w, maxSteps, history, input).emitted;
      Channel.Possible(build, out, f0, schedule) && TimedBy(Channel.After(build, out, f0, schedule), clock)
    ensures var f0 := R.NewFeed(Stamped(traceID, model)); var r := A.Run(w, maxSteps, history, input);
      var shown := Channel.After(build, r.emitted, f0, schedule).feed.card;
      && shown.text == TextOf(r.consumed)
      && shown.thinking == ThinkingBeforeText(r.consumed)
      && (St.AllTidy(w) && (r.outcome == Some(A.Finished) || r.outcome == Some(A.MaxStepsReached)) ==>
            shown.text == St.Contents(S.Transcript(r.ops)))
  {
    var f0 := R.NewFeed(Stamped(traceID, model));
    var r := A.Run(w, maxSteps, history, input);
    Channel.FeedReceivesAll(build, r.emitted, f0, schedule, clock);
    StampStays(r.emitted, clock, traceID, model);
    E.CardShowsConsumedText(w, maxSteps, history, input, clock);
    CardTextIsAllText(r.emitted, clock);
    if St.AllTidy(w) { St.EmittedTextIsAssistantText(w, maxSteps, history, input); }
  }

  /** Feed has returned, and `clock` tells when it applied each event. */
  ghost predicate TimedBy(s: Channel.State, clock: nat -> int) {
    && s.feed.stopped
    && forall k :: 0 <= k < |R.TimesOf(Channel.Live(s))| ==> clock(k) == R.TimesOf(Channel.Live(s))[k]
  }

  // ---------------------------------------------------------------------------------
  // The tool list.
  // ---------------------------------------------------------------------------------

  predicate CallsId(calls: seq<ToolCall>, id: Bytes) {
    exists c <- calls :: c.id == id
  }

  /** The calls that are the first with their id. */
  function FirstCalls(calls: seq<ToolCall>): seq<ToolCall> {
    if calls == [] then []
    else
      var init, last := calls[..|calls| - 1], calls[|calls| - 1];
      if CallsId(init, last.id) then FirstCalls(init) else FirstCalls(init) + [last]
  }

  predicate StartOfCall(e: StreamEvent, c: ToolCall) {
    e == ToolCallStart(c.id, c.name, Truncate(c.arguments, 200))
  }

  ghost predicate StartsOfCalls(starts: seq<StreamEvent>, calls: seq<ToolCall>) {
    |starts| == |calls| && forall k :: 0 <= k < |calls| ==> StartOfCall(starts[k], calls[k])
  }

  lemma SameIds(starts: seq<StreamEvent>, calls: seq<ToolCall>, id: Bytes)
    requires StartsOfCalls(starts, calls)
    ensures StartsId(starts, id) <==> CallsId(calls, id)
  {
    if e :| e in starts && e.ToolCallStart? && e.id == id {
      var k :| 0 <= k < |starts| && starts[k] == e;
      assert StartOfCall(starts[k], calls[k]) && calls[k] in calls;
    }
    if c :| c in calls && c.id == id {
      var k :| 0 <= k < |calls| && calls[k] == c;
      assert StartOfCall(starts[k], calls[k]) && starts[k] in starts;
    }
  }

  lemma {:induction false} FirstOfBoth(starts: seq<StreamEvent>, calls: seq<ToolCall>)
    requires StartsOfCalls(starts, calls)
    ensures StartsOfCalls(FirstStarts(starts), FirstCalls(calls))
  {
    if calls != [] {
      var n := |calls| - 1;
      assert StartOfCall(starts[n], calls[n]);
      assert starts[n].ToolCallStart? && starts[n].id == calls[n].id;
      hide StartsId, CallsId, StartOfCall;
      FirstOfBoth(starts[..n], calls[..n]);
      SameIds(starts[..n], calls[..n], calls[n].id);
    }
  }

  lemma {:induction false} OnlyStartsMatter(evs: seq<StreamEvent>, id: Bytes)
    ensures FirstStarts(An.StartsOf(evs)) == FirstStarts(evs)
    ensures StartsId(An.StartsOf(evs), id) <==> StartsId(evs, id)
  {
    if evs != [] {
      var init, last := evs[..|evs| - 1], evs[|evs| - 1];
      assert init + [last] == evs;
      OnlyStartsMatter(init, id);
      StartsSnoc(init, last, id);
      if last.ToolCallStart? {
        var before := An.StartsOf(init);
        OnlyStartsMatter(init, last.id);
        StartsSnoc(before, last, id);
        assert (before + [last])[..|before|] == before;
      }
    }
  }

  predicate RowOfCall(row: Row, c: ToolCall) {
    && row.id == c.id && row.name == c.name
    && row.argsPrev == if |c.arguments| <= 60 then c.arguments else c.arguments[..60] + ELLIPSIS
  }

  lemma RowFits(row: Row, e: StreamEvent, c: ToolCall)
    requires RowOfStart(row, e) && StartOfCall(e, c)
    ensures RowOfCall(row, c)
  {
    if |c.arguments| > 200 { assert e.preview[..60] == c.arguments[..60]; }
  }

  /** After any run the rows of the card are the calls of the messages it has appended, one row per
      id, in order, with name and the first 60 bytes of the arguments; only the calls of an answer
      that could not be saved have none. */
  lemma RowsAreSavedCalls(w: A.World, maxSteps: int, history: seq<Message>, input: Bytes, clock: nat -> int,
                          traceID: Bytes, model: Bytes)
    requires A.Fair(w)
    ensures var r := A.Run(w, maxSteps, history, input); var ms := S.Transcript(r.ops);
      && ms != []
      && var saved := FirstCalls(An.CallsIn(if r.outcome == Some(A.SaveFailed(A.AtAnswer)) then ms[..|ms| - 1] else ms));
      var rows := ApplyAll(Stamped(traceID, model), r.emitted, clock).tools;
      |rows| == |saved| && forall k :: 0 <= k < |rows| ==> RowOfCall(rows[k], saved[k])
  {
    var r := A.Run(w, maxSteps, history, input);
    var ms := S.Transcript(r.ops);
    RowsAreFirstStarts(Stamped(traceID, model), r.emitted, clock);
    An.StartsAreSavedCalls(w, maxSteps, history, input);
    OnlyStartsMatter(r.emitted, "");
    var calls := An.CallsIn(if r.outcome == Some(A.SaveFailed(A.AtAnswer)) then ms[..|ms| - 1] else ms);
    var rows := ApplyAll(Stamped(traceID, model), r.emitted, clock).tools;
    FirstOfBoth(An.StartsOf(r.emitted), calls);
    hide *;
    RowsFit(rows, FirstStarts(r.emitted), FirstCalls(calls));
  }

  lemma RowsFit(rows: seq<Row>, starts: seq<StreamEvent>, calls: seq<ToolCall>)
    requires RowsOf(rows, starts) && StartsOfCalls(starts, calls)
    ensures |rows| == |calls| && forall k :: 0 <= k < |rows| ==> RowOfCall(rows[k], calls[k])
  {
    forall k | 0 <= k < |rows| ensures RowOfCall(rows[k], calls[k]) {
      assert StartOfCall(starts[k], calls[k]);
      RowFits(rows[k], starts[k], calls[k]);
    }
  }

  // ---------------------------------------------------------------------------------
  // What is shown is never stale.
  // ---------------------------------------------------------------------------------

  lemma {:induction false} TurnIsAnEvent(turns: seq<R.Turn>, j: nat) returns (i: nat)
    requires j < |turns| && turns[j].input.Event?
    ensures i < |R.EventsOf(turns)| && R.EventsOf(turns)[i] == turns[j].input.ev
    ensures j < |turns| - 1 && turns[|turns| - 1].input.Event? ==> i < |R.EventsOf(turns)| - 1
  {
    var n := |turns| - 1;
    if j == n {
      i := |R.EventsOf(turns)| - 1;
    } else {
      i := TurnIsAnEvent(turns[..n], j);
    }
  }

  lemma {:induction false} EventsOfPrefix(turns: seq<R.Turn>, k: nat)
    requires k <= |turns|
    ensures R.EventsOf(turns[..k]) <= R.EventsOf(turns)
    decreases |turns|
  {
    var n := |turns| - 1;
    if k == |turns| {
      assert turns[..k] == turns;
    } else {
      assert turns[..n][..k] == turns[..k];
      EventsOfPrefix(turns[..n], k);
    }
  }

  /** An accepted run hands Feed no event after an error event. */
  lemma ErrorEndsRun(out: seq<StreamEvent>, turns: seq<R.Turn>)
    requires !P.Scan(P.Streaming, out).Broken? && R.EventsOf(turns) <= out
    ensures R.ErrorEnds(turns)
  {
    forall j, k | 0 <= j < k < |turns| && R.IsError(turns[j]) ensures !turns[k].input.Event? {
      if turns[k].input.Event? {
        var upto := turns[..k + 1];
        EventsOfPrefix(turns, k + 1);
        var i := TurnIsAnEvent(upto, j);
        P.ErrorOnlyLast(out, i);
      }
    }
  }

  /** Feed is coherent in every schedule of an accepted sequence. */
  lemma FeedIsFresh(build: R.Builder, out: seq<StreamEvent>, card: Card, schedule: seq<Channel.Action>)
    requires !P.Scan(P.Streaming, out).Broken? && Consistent(card)
    requires Channel.Possible(build, out, R.NewFeed(card), schedule)
    ensures R.Fresh(build, Channel.After(build, out, R.NewFeed(card), schedule).feed)
  {
    Channel.FedPrefix(build, out, R.NewFeed(card), schedule);
    var turns := Channel.After(build, out, R.NewFeed(card), schedule).turns;
    ErrorEndsRun(out, turns);
    R.DirtyFlagCoherence(build, card, turns);
  }

  /** At every moment of every run, however it ends and however it is interleaved with ticks and
      failing patches: if the dirty flag is clear and the card was ever patched, the last body the
      user got shows the current card. */
  lemma ShownIsCurrent(w: A.World, maxSteps: int, history: seq<Message>, input: Bytes,
                       build: R.Builder, schedule: seq<Channel.Action>, traceID: Bytes, model: Bytes)
    requires A.Fair(w)
    requires var f0 := R.NewFeed(Stamped(traceID, model)); var out := A.Run(w, maxSteps, history, input).emitted;
      Channel.Possible(build, out, f0, schedule)
    ensures var f0 := R.NewFeed(Stamped(traceID, model)); var out := A.Run(w, maxSteps, history, input).emitted;
      R.Fresh(build, Channel.After(build, out, f0, schedule).feed)
  {
    E.RunEmitsAccepted(w, maxSteps, history, input);
    FeedIsFresh(build, A.Run(w, maxSteps, history, input).emitted, Stamped(traceID, model), schedule);
  }

  // ---------------------------------------------------------------------------------
  // Which runs leave Feed hanging.
  // ---------------------------------------------------------------------------------

  lemma StampIsConsistent(traceID: Bytes, model: Bytes)
    ensures Consistent(Stamped(traceID, model))
  {
  }

  lemma RunHasNoEventAfterError(w: A.World, maxSteps: int, history: seq<Message>, input: Bytes)
    requires A.Fair(w)
    ensures var r := A.Run(w, maxSteps, history, input);
      && Hanging.NoEventAfterError(r.emitted)
      && (!E.SentError(r.outcome) ==> forall e <- r.emitted :: !e.Error?)
  {
    var r := A.Run(w, maxSteps, history, input);
    E.RunEmitsAccepted(w, maxSteps, history, input);
    forall i | 0 <= i < |r.emitted| && r.emitted[i].Error? ensures i == |r.emitted| - 1 && E.SentError(r.outcome) {
      P.ErrorOnlyLast(r.emitted, i);
    }
  }

  lemma EmittedText(w: A.World, maxSteps: int, history: seq<Message>, input: Bytes)
    requires A.Fair(w)
    ensures var r := A.Run(w, maxSteps, history, input); TextOf(r.emitted) == TextOf(r.consumed)
  {
    var noon: nat -> int := k => 0;
    E.CardShowsConsumedText(w, maxSteps, history, input, noon);
    CardTextIsAllText(A.Run(w, maxSteps, history, input).emitted, noon);
  }

  /** Feed can hang in a run exactly when one of the cards its events add up to never gets built. */
  lemma RunHangsExactly(w: A.World, maxSteps: int, history: seq<Message>, input: Bytes,
                        build: R.Builder, traceID: Bytes, model: Bytes)
    requires A.Fair(w) && !build(Stamped(traceID, model)).NeverEnds?
    ensures var out, card := A.Run(w, maxSteps, history, input).emitted, Stamped(traceID, model);
      (exists schedule :: Hanging.Hangs(build, card, out, schedule)) <==>
      exists clock, k :: Hanging.EndlessAt(build, card, out, clock, k)
  {
    RunHasNoEventAfterError(w, maxSteps, history, input);
    StampIsConsistent(traceID, model);
    Hanging.HangsExactly(build, Stamped(traceID, model), A.Run(w, maxSteps, history, input).emitted);
  }

  /** With the size cut: never when the provider sends at most 20000 bytes of text; but always, in
      every schedule, when it sends more, starting with 20000 quotes, and no error event. */
  lemma QuotedRunsHang(w: A.World, maxSteps: int, history: seq<Message>, input: Bytes,
                       encode: Card -> Bytes, traceID: Bytes, model: Bytes)
    requires A.Fair(w)
    ensures var r, card := A.Run(w, maxSteps, history, input), Stamped(traceID, model);
      var build := CardSize.BuilderOf(encode); var text := TextOf(r.consumed);
      && (|text| <= CardSize.KEEP ==> forall schedule :: !Hanging.Hangs(build, card, r.emitted, schedule))
      && (CardSize.Escapes(encode) && Hanging.Quoted(text) && !E.SentError(r.outcome) ==>
            && (forall schedule :: !Hanging.Returns(build, card, r.emitted, schedule))
            && exists schedule :: Hanging.Hangs(build, card, r.emitted, schedule))
  {
    var r, card := A.Run(w, maxSteps, history, input), Stamped(traceID, model);
    var build := CardSize.BuilderOf(encode);
    EmittedText(w, maxSteps, history, input);
    RunHasNoEventAfterError(w, maxSteps, history, input);
    StampIsConsistent(traceID, model);
    if |TextOf(r.consumed)| <= CardSize.KEEP {
      forall schedule ensures !Hanging.Hangs(build, card, r.emitted, schedule) {
        if Hanging.Hangs(build, card, r.emitted, schedule) {
          Hanging.ShortAnswersNeverHang(encode, card, r.emitted, schedule);
        }
      }
    }
    if CardSize.Escapes(encode) && Hanging.Quoted(TextOf(r.consumed)) && !E.SentError(r.outcome) {
      Hanging.QuotedAnswersHang(encode, card, r.emitted);
    }
  }
}
