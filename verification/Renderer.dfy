/** The event loop of `Renderer.Feed` in internal/render/renderer.go. */
module Renderer {
  import opened Bytes
  import opened Llm
  import opened CardState
  import opened CardSize

  /** How a Patch call ends. */
  datatype PatchOutcome = Sent | RateLimited | PatchFailed

  /** What the select statement picks next. */
  datatype Input = Tick | Event(ev: StreamEvent, now: int) | Closed | Cancelled

  /** One turn of the loop; a turn patches at most once, with this outcome if it does. */
  datatype Turn = Turn(input: Input, outcome: PatchOutcome)

  /** `sent` are the bodies patched successfully; `stopped` tells that Feed has returned, `hung`
      that it is in a call of `BuildCardJSON` that never ends. */
  datatype FeedState = FeedState(
    card: Card,
    dirty: bool,
    lastSnap: Bytes,
    backedOff: bool,
    sent: seq<Bytes>,
    stopped: bool,
    hung: bool)

  function NewFeed(c: Card): FeedState { FeedState(c, false, "", false, [], false, false) }

  type Builder = Card -> Built

  predicate Over(f: FeedState) { f.stopped || f.hung }

  /** The `flush` closure. */
  function Flush(build: Builder, f: FeedState, force: bool, outcome: PatchOutcome): FeedState {
    if !f.dirty && !force then f
    else
      match build(f.card)
      case NeverEnds => f.(hung := true)
      case EncodingFails => f
      case Body(body) =>
        if !force && body == f.lastSnap then f
        else match outcome
          case RateLimited => f.(backedOff := true)
          case PatchFailed => f
          case Sent => f.(lastSnap := body, dirty := false, sent := f.sent + [body])
  }

  /** The last flush; Feed returns behind it. */
  function LastFlush(build: Builder, f: FeedState, outcome: PatchOutcome): FeedState {
    var flushed := Flush(build, f, true, outcome);
    flushed.(stopped := !flushed.hung)
  }

  predicate ForcesFlush(card: Card, ev: StreamEvent) {
    || (ev.TextDelta? && !card.thinkingDone)
    || ev.ToolCallEnd? || ev.Error? || ev.MessageEnd?
  }

  function OnTurn(build: Builder, f: FeedState, t: Turn): FeedState {
    match t.input
    case Tick => Flush(build, f, false, t.outcome)
    case Closed => LastFlush(build, f, t.outcome)
    case Cancelled => LastFlush(build, f, t.outcome)
    case Event(ev, now) =>
      var (card, changed) := Apply(f.card, ev, now);
      var f1 := f.(card := card, dirty := f.dirty || changed);
      if ForcesFlush(f.card, ev) then Flush(build, f1, true, t.outcome) else f1
  }

  /** Only the end of the channel or of the context lets Feed return. */
  lemma TurnOver(build: Builder, f: FeedState, t: Turn)
    requires !Over(f)
    ensures var g := OnTurn(build, f, t);
      (t.input.Tick? || t.input.Event? ==> !g.stopped) && (t.input.Closed? || t.input.Cancelled? ==> Over(g))
  {
  }

  /** The loop, up to the turn in which Feed returns or hangs. */
  function Run(build: Builder, f: FeedState, turns: seq<Turn>): FeedState {
    if turns == [] then f
    else
      var before := Run(build, f, turns[..|turns| - 1]);
      if Over(before) then before else OnTurn(build, before, turns[|turns| - 1])
  }

  /** A Feed that hangs never returns. */
  lemma {:induction false} OneEnd(build: Builder, f: FeedState, turns: seq<Turn>)
    requires !f.stopped || !f.hung
    ensures !Run(build, f, turns).stopped || !Run(build, f, turns).hung
  {
    if turns != [] { OneEnd(build, f, turns[..|turns| - 1]); }
  }

  // ---------------------------------------------------------------------------------
  // The loop as it is written.
  // ---------------------------------------------------------------------------------

  class Loop {
    const state: State
    const build: Builder
    var dirty: bool
    var lastSnap: Bytes
    var backedOff: bool
    var sent: seq<Bytes>
    var stopped: bool
    var hung: bool              // a call never ended; nothing happens any more

    constructor (state: State, build: Builder)
      ensures this.state == state && this.build == build
      ensures !dirty && lastSnap == "" && !backedOff && sent == [] && !stopped && !hung
    {
      this.state, this.build := state, build;
      dirty, lastSnap, backedOff, sent, stopped, hung := false, "", false, [], false, false;
    }

    function View(): FeedState
      reads this, state, state.tools
    {
      FeedState(state.Snapshot(), dirty, lastSnap, backedOff, sent, stopped, hung)
    }

    method DoFlush(force: bool, outcome: PatchOutcome)
      modifies `lastSnap, `dirty, `backedOff, `sent, `hung
      ensures View() == Flush(build, old(View()), force, outcome)
    {
      if !dirty && !force { return; }
      var built := build(state.Snapshot());
      if built.NeverEnds? {
        hung := true;
        return;
      }
      if built.EncodingFails? { return; }
      if !force && built.body == lastSnap { return; }
      if outcome == RateLimited {
        if !backedOff { backedOff := true; }
        return;
      }
      if outcome == PatchFailed { return; }
      sent := sent + [built.body];
      lastSnap := built.body;
      dirty := false;
    }

    method ApplyToState(ev: StreamEvent, now: int) returns (firstText: bool)
      requires state.Valid()
      modifies `dirty, state, state.tools
      ensures state.Valid()
      ensures firstText == (ev.TextDelta? && !old(state.thinkingDone))
      ensures var (card, changed) := Apply(old(state.Snapshot()), ev, now);
        state.Snapshot() == card && dirty == (old(dirty) || changed)
      ensures forall t :: t in state.tools ==> t in old(state.tools) || fresh(t)
    {
      firstText := ev.TextDelta? && !state.thinkingDone;
      var changed := state.ApplyEvent(ev, now);
      if changed { dirty := true; }
    }

    method HandleEvent(ev: StreamEvent, now: int, outcome: PatchOutcome)
      requires state.Valid() && !stopped && !hung
      modifies this, state, state.tools
      ensures state.Valid() && !stopped
      ensures View() == OnTurn(build, old(View()), Turn(Event(ev, now), outcome))
      ensures forall t :: t in state.tools ==> t in old(state.tools) || fresh(t)
    {
      var firstText := ApplyToState(ev, now);
      if firstText || ev.ToolCallEnd? || ev.Error? || ev.MessageEnd? {
        DoFlush(true, outcome);
      }
    }

    method OnInput(t: Turn)
      requires state.Valid() && !stopped && !hung
      modifies this, state, state.tools
      ensures state.Valid()
      ensures View() == OnTurn(build, old(View()), t)
      ensures forall x :: x in state.tools ==> x in old(state.tools) || fresh(x)
    {
      match t.input {
        case Tick => DoFlush(false, t.outcome);
        case Closed =>
          DoFlush(true, t.outcome);
          stopped := !hung;
        case Cancelled =>
          DoFlush(true, t.outcome);
          stopped := !hung;
        case Event(ev, now) => HandleEvent(ev, now, t.outcome);
      }
    }

    /** `Feed` over whatever the select statement yields, as long as it yields something. */
    method Feed(turns: seq<Turn>)
      requires state.Valid() && !stopped && !hung
      modifies this, state, state.tools
      ensures state.Valid()
      ensures View() == Run(build, old(View()), turns)
    {
      var k := 0;
      ghost var before := View();
      while k < |turns| && !stopped && !hung
        invariant k <= |turns| && state.Valid()
        invariant View() == Run(build, before, turns[..k])
        invariant forall t :: t in state.tools ==> t in old(state.tools) || fresh(t)
      {
        RunSnoc(build, before, turns, k);
        OnInput(turns[k]);
        k := k + 1;
      }
      OverStays(build, before, turns, k);
    }
  }

  lemma RunSnoc(build: Builder, f: FeedState, turns: seq<Turn>, k: nat)
    requires k < |turns| && !Over(Run(build, f, turns[..k]))
    ensures Run(build, f, turns[..k + 1]) == OnTurn(build, Run(build, f, turns[..k]), turns[k])
  {
    assert turns[..k + 1][..k] == turns[..k];
  }

  lemma {:induction false} OverStays(build: Builder, f: FeedState, turns: seq<Turn>, k: nat)
    requires k <= |turns| && (k == |turns| || Over(Run(build, f, turns[..k])))
    ensures Run(build, f, turns) == Run(build, f, turns[..k])
    decreases |turns|
  {
    if k < |turns| {
      var init := turns[..|turns| - 1];
      assert init[..k] == turns[..k];
      OverStays(build, f, init, k);
    } else {
      assert turns[..k] == turns;
    }
  }

  // ---------------------------------------------------------------------------------
  // What the loop guarantees.
  // ---------------------------------------------------------------------------------

  /** The events among the turns, and the times at which they are applied. */
  function EventsOf(turns: seq<Turn>): seq<StreamEvent> {
    if turns == [] then []
    else
      var init, last := EventsOf(turns[..|turns| - 1]), turns[|turns| - 1].input;
      if last.Event? then init + [last.ev] else init
  }

  function TimesOf(turns: seq<Turn>): seq<int> {
    if turns == [] then []
    else
      var init, last := TimesOf(turns[..|turns| - 1]), turns[|turns| - 1].input;
      if last.Event? then init + [last.now] else init
  }

  predicate Runs(turns: seq<Turn>) {
    forall t <- turns :: t.input.Tick? || t.input.Event?
  }

  /** Feed is there for each of the turns. */
  predicate Awake(build: Builder, f: FeedState, turns: seq<Turn>) {
    turns == [] || !Over(Run(build, f, turns[..|turns| - 1]))
  }

  /** Ticks, forced flushes and failing patches never lose, repeat or reorder an event. */
  lemma {:induction false} EveryEventAppliedOnce(build: Builder, f: FeedState, turns: seq<Turn>, clock: nat -> int)
    requires !f.stopped && Runs(turns) && Awake(build, f, turns)
    requires forall k :: 0 <= k < |TimesOf(turns)| ==> clock(k) == TimesOf(turns)[k]
    ensures |TimesOf(turns)| == |EventsOf(turns)|
    ensures Run(build, f, turns).card == ApplyAll(f.card, EventsOf(turns), clock)
    ensures !Run(build, f, turns).stopped
  {
    if turns != [] {
      var init, last := turns[..|turns| - 1], turns[|turns| - 1];
      assert last in turns;
      SameLength(init);
      AwakeBefore(build, f, init);
      EveryEventAppliedOnce(build, f, init, clock);
      TurnApplies(build, Run(build, f, init), last);
      hide OnTurn, Apply, Awake;
      if last.input.Event? {
        var evs := EventsOf(turns);
        assert evs[..|evs| - 1] == EventsOf(init);
        assert clock(|evs| - 1) == last.input.now;
      }
    }
  }

  lemma AwakeBefore(build: Builder, f: FeedState, turns: seq<Turn>)
    requires !Over(Run(build, f, turns))
    ensures Awake(build, f, turns)
  {
  }

  lemma TurnApplies(build: Builder, f: FeedState, t: Turn)
    requires !Over(f) && (t.input.Tick? || t.input.Event?)
    ensures OnTurn(build, f, t).card == if t.input.Event? then Apply(f.card, t.input.ev, t.input.now).0 else f.card
    ensures !OnTurn(build, f, t).stopped
  {
  }

  lemma {:induction false} SameLength(turns: seq<Turn>)
    ensures |TimesOf(turns)| == |EventsOf(turns)|
  {
    if turns != [] { SameLength(turns[..|turns| - 1]); }
  }

  /** The user has not got a stale body: when the card is clean and was ever patched, the last body
      that went out is that of the current card. */
  predicate Fresh(build: Builder, f: FeedState) {
    !f.dirty && f.sent != [] ==> build(f.card) == Body(f.sent[|f.sent| - 1])
  }

  lemma FlushFresh(build: Builder, f: FeedState, force: bool, outcome: PatchOutcome)
    requires Fresh(build, f)
    ensures Fresh(build, Flush(build, f, force, outcome))
  {
  }

  /** A turn keeps that, unless its event hides a change on the card it meets. */
  lemma TurnFresh(build: Builder, f: FeedState, t: Turn)
    requires Fresh(build, f)
    requires t.input.Event? ==> !Hides(f.card, t.input.ev)
    ensures Fresh(build, OnTurn(build, f, t))
  {
    match t.input
    case Tick => FlushFresh(build, f, false, t.outcome);
    case Closed => FlushFresh(build, f, true, t.outcome);
    case Cancelled => FlushFresh(build, f, true, t.outcome);
    case Event(ev, now) =>
      NoChangeIsInvisible(f.card, ev, now);
      var (card, changed) := Apply(f.card, ev, now);
      var f1 := f.(card := card, dirty := f.dirty || changed);
      FlushFresh(build, f1, true, t.outcome);
  }

  /** The other half: on a clean card that has been patched, an event that hides a change leaves
      the user with a stale body exactly when the change makes a difference to the body. */
  lemma HiddenChangeIsStale(build: Builder, f: FeedState, ev: StreamEvent, now: int, outcome: PatchOutcome)
    requires Fresh(build, f) && !f.dirty && f.sent != [] && Hides(f.card, ev)
    ensures var f' := OnTurn(build, f, Turn(Event(ev, now), outcome));
      && f'.card != f.card
      && (Fresh(build, f') <==> build(f'.card) == build(f.card))
  {
    NoChangeIsInvisible(f.card, ev, now);
  }

  /** At every turn the event, if there is one, does not hide a change on the card it meets. */
  predicate NothingHidden(build: Builder, f: FeedState, turns: seq<Turn>) {
    forall k | 0 <= k < |turns| ::
      turns[k].input.Event? ==> !Hides(Run(build, f, turns[..k]).card, turns[k].input.ev)
  }

  lemma {:induction false} CoherentWhenNothingHidden(build: Builder, f: FeedState, turns: seq<Turn>)
    requires Fresh(build, f) && NothingHidden(build, f, turns)
    ensures Fresh(build, Run(build, f, turns))
  {
    if turns != [] {
      var n := |turns| - 1;
      forall k | 0 <= k < n ensures turns[..n][..k] == turns[..k] {}
      CoherentWhenNothingHidden(build, f, turns[..n]);
      var before := Run(build, f, turns[..n]);
      if !Over(before) { TurnFresh(build, before, turns[n]); }
    }
  }

  // ---------------------------------------------------------------------------------
  // What goes out, and when.
  // ---------------------------------------------------------------------------------

  /** `lastSnap` is what went out last, and empty before that. */
  predicate SnapIsLast(f: FeedState) {
    f.lastSnap == if f.sent == [] then "" else f.sent[|f.sent| - 1]
  }

  lemma {:induction false} SnapStaysLast(build: Builder, f: FeedState, turns: seq<Turn>)
    requires SnapIsLast(f)
    ensures SnapIsLast(Run(build, f, turns))
  {
    if turns != [] {
      SnapStaysLast(build, f, turns[..|turns| - 1]);
      TurnKeepsSnap(build, Run(build, f, turns[..|turns| - 1]), turns[|turns| - 1]);
    }
  }

  lemma TurnKeepsSnap(build: Builder, f: FeedState, t: Turn)
    requires SnapIsLast(f)
    ensures SnapIsLast(OnTurn(build, f, t))
  {
    hide Apply, Flush;
    match t.input
    case Tick => FlushKeepsSnap(build, f, false, t.outcome);
    case Closed => FlushKeepsSnap(build, f, true, t.outcome);
    case Cancelled => FlushKeepsSnap(build, f, true, t.outcome);
    case Event(ev, now) =>
      var (card, changed) := Apply(f.card, ev, now);
      FlushKeepsSnap(build, f.(card := card, dirty := f.dirty || changed), true, t.outcome);
  }

  lemma FlushKeepsSnap(build: Builder, f: FeedState, force: bool, outcome: PatchOutcome)
    requires SnapIsLast(f)
    ensures SnapIsLast(Flush(build, f, force, outcome))
  {
  }

  /** What a flush does, exactly. */
  lemma FlushExactly(build: Builder, f: FeedState, force: bool, outcome: PatchOutcome)
    requires SnapIsLast(f)
    ensures var g := Flush(build, f, force, outcome); var built := build(f.card);
      var tried := built.Body? && (force || (f.dirty && IsNews(f.sent, built.body)));
      && g.card == f.card
      && g.sent == f.sent + (if tried && outcome == Sent then [built.body] else [])
      && (g.dirty <==> f.dirty && !(tried && outcome == Sent))
      && (g.backedOff <==> f.backedOff || (tried && outcome == RateLimited))
  {
  }

  /** The turn patches whether or not there is anything new: Feed returns, the first text arrives,
      a tool call ends, an error or the end of a message arrives. */
  predicate PatchesAnyway(card: Card, i: Input) {
    match i
    case Tick => false
    case Closed => true
    case Cancelled => true
    case Event(ev, _) => ev.ToolCallEnd? || ev.Error? || ev.MessageEnd? || (ev.TextDelta? && !card.thinkingDone)
  }

  /** The body differs from the one that went out last; the empty one is never sent first. */
  predicate IsNews(sent: seq<Bytes>, body: Bytes) {
    body != if sent == [] then "" else sent[|sent| - 1]
  }

  /** At any turn of any run a patch with the body of the current card is tried exactly when the card
      can be encoded and the turn patches in any case, or is a tick that finds the card dirty and the
      body new.  If it gets through, the body is sent and the card clean; otherwise the card is as
      dirty as before, or dirty because of the event.  Only a refusal for too many requests sets the
      back-off. */
  lemma PatchesExactly(build: Builder, card: Card, turns: seq<Turn>, t: Turn)
    requires !Over(Run(build, NewFeed(card), turns))
    ensures var f := Run(build, NewFeed(card), turns); var g := OnTurn(build, f, t); var built := build(g.card);
      var tried := built.Body? &&
        (PatchesAnyway(f.card, t.input) || (t.input.Tick? && f.dirty && IsNews(f.sent, built.body)));
      var goesOut := tried && t.outcome == Sent;
      && g.sent == f.sent + (if goesOut then [built.body] else [])
      && (g.dirty <==> !goesOut && (f.dirty || (t.input.Event? && Apply(f.card, t.input.ev, t.input.now).1)))
      && (g.backedOff <==> f.backedOff || (tried && t.outcome == RateLimited))
  {
    SnapStaysLast(build, NewFeed(card), turns);
    var f := Run(build, NewFeed(card), turns);
    hide Run, Apply, Flush;
    match t.input
    case Tick => FlushExactly(build, f, false, t.outcome);
    case Closed => FlushExactly(build, f, true, t.outcome);
    case Cancelled => FlushExactly(build, f, true, t.outcome);
    case Event(ev, now) =>
      var (card', changed) := Apply(f.card, ev, now);
      FlushExactly(build, f.(card := card', dirty := f.dirty || changed), true, t.outcome);
  }

  /** Nothing but ticks and the end of the channel follows an error event. */
  predicate ErrorEnds(turns: seq<Turn>) {
    forall j, k | 0 <= j < k < |turns| :: IsError(turns[j]) ==> !turns[k].input.Event?
  }

  predicate IsError(t: Turn) { t.input.Event? && t.input.ev.Error? }

  lemma TurnStaysConsistent(build: Builder, f: FeedState, t: Turn)
    requires Consistent(f.card) && !IsError(t)
    ensures Consistent(OnTurn(build, f, t).card)
  {
    if t.input.Event? {
      ConsistentHidesNothing(f.card, t.input.ev, t.input.now);
      hide Apply, Consistent;
    }
  }

  lemma {:induction false} StaysConsistent(build: Builder, f: FeedState, turns: seq<Turn>)
    requires Consistent(f.card) && forall t <- turns :: !IsError(t)
    ensures Consistent(Run(build, f, turns).card)
  {
    if turns != [] {
      var init, last := turns[..|turns| - 1], turns[|turns| - 1];
      assert last in turns;
      StaysConsistent(build, f, init);
      TurnStaysConsistent(build, Run(build, f, init), last);
    }
  }

  /** From any consistent card, over every interleaving of events, ticks and patch outcomes in
      which no event follows an error event. */
  lemma DirtyFlagCoherence(build: Builder, card: Card, turns: seq<Turn>)
    requires Consistent(card) && ErrorEnds(turns)
    ensures Fresh(build, Run(build, NewFeed(card), turns))
  {
    var f := NewFeed(card);
    forall k | 0 <= k < |turns| && turns[k].input.Event?
      ensures !Hides(Run(build, f, turns[..k]).card, turns[k].input.ev)
    {
      StaysConsistent(build, f, turns[..k]);
      ConsistentHidesNothing(Run(build, f, turns[..k]).card, turns[k].input.ev, 0);
    }
    CoherentWhenNothingHidden(build, f, turns);
  }

  /** When the event channel closes and the last patch goes through, the card shows the final
      state, even after an error. */
  lemma FinalPatchShowsFinalState(build: Builder, f: FeedState, turns: seq<Turn>)
    requires !f.stopped && Runs(turns) && !Run(build, f, turns).hung
    requires build(Run(build, f, turns).card).Body?
    ensures var r := Run(build, f, turns + [Turn(Closed, Sent)]);
      && r.stopped
      && r.card == Run(build, f, turns).card
      && r.sent != [] && Body(r.sent[|r.sent| - 1]) == build(r.card)
  {
    StillRunning(build, f, turns);
    assert (turns + [Turn(Closed, Sent)])[..|turns|] == turns;
  }

  lemma {:induction false} StillRunning(build: Builder, f: FeedState, turns: seq<Turn>)
    requires !f.stopped && Runs(turns)
    ensures !Run(build, f, turns).stopped
  {
    if turns != [] {
      assert turns[|turns| - 1] in turns;
      StillRunning(build, f, turns[..|turns| - 1]);
    }
  }

  /** The back-off is permanent. */
  lemma {:induction false} BackOffStays(build: Builder, f: FeedState, turns: seq<Turn>)
    requires f.backedOff
    ensures Run(build, f, turns).backedOff
  {
    if turns != [] { BackOffStays(build, f, turns[..|turns| - 1]); }
  }
}
