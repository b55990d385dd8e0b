/** Which runs leave `Feed` hanging in `BuildCardJSON` (internal/render/state.go:307-312 called from
    internal/render/renderer.go:79-146): read off the emitted events and the cards they add up to. */
module Hanging {
  import opened Bytes
  import opened Llm
  import opened CardState
  import opened CardSize
  import opened Channel
  import R = Renderer

  /** The card after the first k events. */
  function CardAt(card: Card, out: seq<StreamEvent>, clock: nat -> int, k: nat): Card
    requires k <= |out|
  {
    ApplyAll(card, out[..k], clock)
  }

  /** That card never gets built. */
  predicate EndlessAt(build: R.Builder, card: Card, out: seq<StreamEvent>, clock: nat -> int, k: nat) {
    k <= |out| && build(CardAt(card, out, clock, k)).NeverEnds?
  }

  /** The k-th event forces a flush. */
  predicate Forced(card: Card, out: seq<StreamEvent>, clock: nat -> int, k: nat) {
    0 < k <= |out| && R.ForcesFlush(CardAt(card, out, clock, k - 1), out[k - 1])
  }

  /** That card is built in any case: by a forced flush, or because the channel closes. */
  predicate MustBuild(card: Card, out: seq<StreamEvent>, clock: nat -> int, k: nat) {
    k == |out| || Forced(card, out, clock, k)
  }

  predicate NoEventAfterError(out: seq<StreamEvent>) {
    forall i :: 0 <= i < |out| - 1 ==> !out[i].Error?
  }

  predicate Hangs(build: R.Builder, card: Card, out: seq<StreamEvent>, schedule: seq<Action>) {
    Possible(build, out, R.NewFeed(card), schedule) && After(build, out, R.NewFeed(card), schedule).feed.hung
  }

  predicate Returns(build: R.Builder, card: Card, out: seq<StreamEvent>, schedule: seq<Action>) {
    Possible(build, out, R.NewFeed(card), schedule) && After(build, out, R.NewFeed(card), schedule).feed.stopped
  }

  // ---------------------------------------------------------------------------------
  // A Feed that hangs is in one of these cards.
  // ---------------------------------------------------------------------------------

  lemma TurnHangs(build: R.Builder, f: R.FeedState, t: R.Turn)
    requires !R.Over(f)
    ensures R.OnTurn(build, f, t).hung ==> build(R.OnTurn(build, f, t).card).NeverEnds?
    ensures t.input.Closed? ==>
      && R.OnTurn(build, f, t).card == f.card
      && (R.OnTurn(build, f, t).hung <==> build(f.card).NeverEnds?)
  {
  }

  lemma {:induction false} HungCard(build: R.Builder, f: R.FeedState, turns: seq<R.Turn>)
    requires !R.Over(f)
    ensures R.Run(build, f, turns).hung ==> build(R.Run(build, f, turns).card).NeverEnds?
  {
    if turns != [] {
      var before := R.Run(build, f, turns[..|turns| - 1]);
      HungCard(build, f, turns[..|turns| - 1]);
      if !R.Over(before) { TurnHangs(build, before, turns[|turns| - 1]); }
    }
  }

  /** The times at which Feed applied the events. */
  function ClockOf(turns: seq<R.Turn>): nat -> int {
    var times := R.TimesOf(turns);
    (k: nat) => if k < |times| then times[k] else 0
  }

  /** What Feed holds in a schedule is the card after some of the events. */
  lemma FedCard(build: R.Builder, out: seq<StreamEvent>, card: Card, schedule: seq<Action>)
    returns (clock: nat -> int, k: nat)
    requires Possible(build, out, R.NewFeed(card), schedule)
    ensures var s := After(build, out, R.NewFeed(card), schedule);
      k <= |out| && s.feed.card == CardAt(card, out, clock, k) && (s.feed.stopped ==> k == |out|)
  {
    var f0 := R.NewFeed(card);
    ScheduleInv(build, out, f0, schedule);
    var s := After(build, out, f0, schedule);
    var live := Live(s);
    clock, k := ClockOf(live), |R.EventsOf(live)|;
    if SawClose(s) {
      R.AwakeBefore(build, f0, live);
      TurnHangs(build, R.Run(build, f0, live), s.turns[|s.turns| - 1]);
    }
    R.EveryEventAppliedOnce(build, f0, live, clock);
    assert R.EventsOf(live) <= out[..s.sent] <= out;
    assert R.EventsOf(live) == out[..k];
    if SawClose(s) { assert R.EventsOf(live) + [] == out[..s.sent] == out; }
  }

  // ---------------------------------------------------------------------------------
  // Showing the events one by one.
  // ---------------------------------------------------------------------------------

  /** The first n events at their times, with every patch failing. */
  function Shown(out: seq<StreamEvent>, clock: nat -> int, n: nat): seq<R.Turn>
    requires n <= |out|
  {
    if n == 0 then [] else Shown(out, clock, n - 1) + [R.Turn(R.Event(out[n - 1], clock(n - 1)), R.PatchFailed)]
  }

  lemma {:induction false} ShownEvents(out: seq<StreamEvent>, clock: nat -> int, n: nat)
    requires n <= |out|
    ensures R.Runs(Shown(out, clock, n)) && R.EventsOf(Shown(out, clock, n)) == out[..n]
  {
    if n > 0 {
      ShownEvents(out, clock, n - 1);
      assert out[..n] == out[..n - 1] + [out[n - 1]];
    }
  }

  lemma RunShownStep(build: R.Builder, card: Card, out: seq<StreamEvent>, clock: nat -> int, n: nat)
    requires 0 < n <= |out|
    ensures var t := R.Turn(R.Event(out[n - 1], clock(n - 1)), R.PatchFailed);
      var before := R.Run(build, R.NewFeed(card), Shown(out, clock, n - 1));
      !R.Over(before) ==> R.Run(build, R.NewFeed(card), Shown(out, clock, n)) == R.OnTurn(build, before, t)
  {
  }

  lemma CardStep(card: Card, out: seq<StreamEvent>, clock: nat -> int, n: nat)
    requires 0 < n <= |out|
    ensures CardAt(card, out, clock, n) == Apply(CardAt(card, out, clock, n - 1), out[n - 1], clock(n - 1)).0
  {
    assert out[..n][..n - 1] == out[..n - 1];
  }

  /** One more event: Feed goes on, unless the flush it forces hangs. */
  lemma ShowOne(build: R.Builder, f: R.FeedState, ev: StreamEvent, now: int)
    requires !R.Over(f)
    ensures var g := R.OnTurn(build, f, R.Turn(R.Event(ev, now), R.PatchFailed)); var (card, changed) := Apply(f.card, ev, now);
      && g.card == card && !g.stopped
      && (g.hung <==> R.ForcesFlush(f.card, ev) && build(card).NeverEnds?)
      && g.dirty == (f.dirty || changed)
  {
  }

  /** Feed gets through n events if the builds they force all end. */
  lemma {:induction false} RunShown(build: R.Builder, card: Card, out: seq<StreamEvent>, clock: nat -> int, n: nat)
    requires n <= |out|
    requires forall k: nat | k <= n && Forced(card, out, clock, k) :: !EndlessAt(build, card, out, clock, k)
    ensures var f := R.Run(build, R.NewFeed(card), Shown(out, clock, n));
      !R.Over(f) && f.card == CardAt(card, out, clock, n)
  {
    if n == 0 {
      assert out[..0] == [];
    } else {
      hide R.OnTurn, R.Run, R.ForcesFlush, Apply, CardAt, Shown;
      assert Forced(card, out, clock, n) ==> !EndlessAt(build, card, out, clock, n);
      RunShown(build, card, out, clock, n - 1);
      RunShownStep(build, card, out, clock, n);
      CardStep(card, out, clock, n);
      ShowOne(build, R.Run(build, R.NewFeed(card), Shown(out, clock, n - 1)), out[n - 1], clock(n - 1));
    }
  }

  // ---------------------------------------------------------------------------------
  // When Feed can return.
  // ---------------------------------------------------------------------------------

  /** Every card that has to be built gets built. */
  ghost predicate AllBuilt(build: R.Builder, card: Card, out: seq<StreamEvent>, clock: nat -> int) {
    forall k: nat | k <= |out| && MustBuild(card, out, clock, k) :: !EndlessAt(build, card, out, clock, k)
  }

  /** A run of Feed over the events that is not over has built the cards it had to. */
  lemma {:induction false} ForcedWereBuilt(build: R.Builder, card: Card, turns: seq<R.Turn>, clock: nat -> int, k: nat)
    requires R.Runs(turns) && !R.Over(R.Run(build, R.NewFeed(card), turns))
    requires forall i :: 0 <= i < |R.TimesOf(turns)| ==> clock(i) == R.TimesOf(turns)[i]
    requires Forced(card, R.EventsOf(turns), clock, k)
    ensures !EndlessAt(build, card, R.EventsOf(turns), clock, k)
  {
    var init, last := turns[..|turns| - 1], turns[|turns| - 1];
    var evs, before := R.EventsOf(turns), R.EventsOf(init);
    assert last in turns;
    R.SameLength(init);
    R.SameLength(turns);
    if k <= |before| {
      assert evs[..k] == before[..k] && evs[..k - 1] == before[..k - 1];
      ForcedWereBuilt(build, card, init, clock, k);
    } else {
      R.AwakeBefore(build, R.NewFeed(card), init);
      R.EveryEventAppliedOnce(build, R.NewFeed(card), init, clock);
      assert evs[..k - 1] == before && evs[..|before|] == before;
      CardStep(card, evs, clock, k);
      JustBuilt(build, R.Run(build, R.NewFeed(card), init), last);
    }
  }

  lemma JustBuilt(build: R.Builder, f: R.FeedState, t: R.Turn)
    requires !R.Over(f) && t.input.Event? && !R.Over(R.OnTurn(build, f, t))
    ensures R.ForcesFlush(f.card, t.input.ev) ==> !build(Apply(f.card, t.input.ev, t.input.now).0).NeverEnds?
  {
  }

  lemma ReturnsMeansBuilt(build: R.Builder, card: Card, out: seq<StreamEvent>, schedule: seq<Action>)
    returns (clock: nat -> int)
    requires Returns(build, card, out, schedule)
    ensures AllBuilt(build, card, out, clock) && !EndlessAt(build, card, out, clock, |out|)
  {
    var f0 := R.NewFeed(card);
    ScheduleInv(build, out, f0, schedule);
    var s := After(build, out, f0, schedule);
    var live := Live(s);
    clock := ClockOf(live);
    assert R.EventsOf(live) + [] == out[..s.sent] == out;
    R.AwakeBefore(build, f0, live);
    R.EveryEventAppliedOnce(build, f0, live, clock);
    TurnHangs(build, R.Run(build, f0, live), s.turns[|s.turns| - 1]);
    assert out[..|out|] == out;
    forall k: nat | k <= |out| && MustBuild(card, out, clock, k) ensures !EndlessAt(build, card, out, clock, k) {
      if k < |out| { ForcedWereBuilt(build, card, live, clock, k); }
    }
  }

  lemma BuiltMeansReturns(build: R.Builder, card: Card, out: seq<StreamEvent>, clock: nat -> int)
    returns (schedule: seq<Action>)
    requires AllBuilt(build, card, out, clock)
    ensures Returns(build, card, out, schedule)
  {
    var shown, last := Shown(out, clock, |out|), R.Turn(R.Closed, R.Sent);
    var turns := shown + [last];
    assert turns[..|shown|] == shown && out[..|out|] == out;
    RunShown(build, card, out, clock, |out|);
    ShownEvents(out, clock, |out|);
    TurnHangs(build, R.Run(build, R.NewFeed(card), shown), last);
    R.TurnOver(build, R.Run(build, R.NewFeed(card), shown), last);
    assert MustBuild(card, out, clock, |out|);
    schedule := CompleteIsScheduled(build, out, R.NewFeed(card), turns);
  }

  /** Feed can return, in some schedule, exactly when for some times of the events every card that
      a forced flush or the close has to build gets built. */
  lemma ReturnsExactly(build: R.Builder, card: Card, out: seq<StreamEvent>)
    ensures (exists schedule :: Returns(build, card, out, schedule)) <==> exists clock :: AllBuilt(build, card, out, clock)
  {
    if schedule :| Returns(build, card, out, schedule) {
      var clock := ReturnsMeansBuilt(build, card, out, schedule);
    }
    if clock :| AllBuilt(build, card, out, clock) {
      var schedule := BuiltMeansReturns(build, card, out, clock);
    }
  }

  // ---------------------------------------------------------------------------------
  // When Feed can hang.
  // ---------------------------------------------------------------------------------

  /** A clean card is still the first one. */
  predicate CleanIsFirst(f: R.FeedState, card: Card) { !f.dirty ==> f.card == card }

  lemma OneMoreEvent(build: R.Builder, f: R.FeedState, card: Card, ev: StreamEvent, now: int)
    requires !R.Over(f) && Consistent(f.card) && CleanIsFirst(f, card)
    ensures var g := R.OnTurn(build, f, R.Turn(R.Event(ev, now), R.PatchFailed));
      && g.card == Apply(f.card, ev, now).0 && !g.stopped && CleanIsFirst(g, card)
      && (g.hung ==> build(g.card).NeverEnds?)
      && (!ev.Error? ==> Consistent(g.card))
  {
    ShowOne(build, f, ev, now);
    ConsistentHidesNothing(f.card, ev, now);
    NoChangeIsInvisible(f.card, ev, now);
  }

  /** What Feed looks like after n events, as long as no earlier card hangs it and no event follows
      an error event. */
  predicate SoFar(build: R.Builder, card: Card, out: seq<StreamEvent>, clock: nat -> int, n: nat, f: R.FeedState)
    requires n <= |out|
  {
    && f.card == CardAt(card, out, clock, n) && !f.stopped && CleanIsFirst(f, card)
    && (f.hung ==> EndlessAt(build, card, out, clock, n))
    && (n == 0 || !out[n - 1].Error? ==> Consistent(f.card))
  }

  lemma SoFarStep(build: R.Builder, card: Card, out: seq<StreamEvent>, clock: nat -> int, n: nat, f: R.FeedState)
    requires 0 < n <= |out| && SoFar(build, card, out, clock, n - 1, f)
    requires !EndlessAt(build, card, out, clock, n - 1) && NoEventAfterError(out)
    ensures !R.Over(f)
    ensures SoFar(build, card, out, clock, n, R.OnTurn(build, f, R.Turn(R.Event(out[n - 1], clock(n - 1)), R.PatchFailed)))
  {
    hide R.OnTurn, CardAt, Consistent, CleanIsFirst, EndlessAt, Apply;
    CardStep(card, out, clock, n);
    OneMoreEvent(build, f, card, out[n - 1], clock(n - 1));
    EndlessHere(build, card, out, clock, n);
  }

  /** The first card that never gets built is the n-th. */
  ghost predicate FirstAt(build: R.Builder, card: Card, out: seq<StreamEvent>, clock: nat -> int, n: nat) {
    EndlessAt(build, card, out, clock, n) && forall j: nat :: j < n ==> !EndlessAt(build, card, out, clock, j)
  }

  lemma NotYetEndless(build: R.Builder, card: Card, out: seq<StreamEvent>, clock: nat -> int, n: nat, j: nat)
    requires FirstAt(build, card, out, clock, n) && j < n
    ensures !EndlessAt(build, card, out, clock, j)
  {
  }

  lemma NothingShown(build: R.Builder, card: Card, out: seq<StreamEvent>, clock: nat -> int)
    requires Consistent(card)
    ensures SoFar(build, card, out, clock, 0, R.Run(build, R.NewFeed(card), Shown(out, clock, 0)))
  {
    assert out[..0] == [];
  }

  lemma {:induction false} ShownSoFar(build: R.Builder, card: Card, out: seq<StreamEvent>, clock: nat -> int, n: nat, first: nat)
    requires n <= |out| && n <= first && Consistent(card) && NoEventAfterError(out)
    requires FirstAt(build, card, out, clock, first)
    ensures SoFar(build, card, out, clock, n, R.Run(build, R.NewFeed(card), Shown(out, clock, n)))
  {
    hide *;
    if n == 0 {
      NothingShown(build, card, out, clock);
    } else {
      ShownSoFar(build, card, out, clock, n - 1, first);
      NotYetEndless(build, card, out, clock, first, n - 1);
      SoFarStep(build, card, out, clock, n, R.Run(build, R.NewFeed(card), Shown(out, clock, n - 1)));
      RunShownStep(build, card, out, clock, n);
    }
  }

  lemma EndlessHere(build: R.Builder, card: Card, out: seq<StreamEvent>, clock: nat -> int, n: nat)
    requires n <= |out|
    ensures EndlessAt(build, card, out, clock, n) <==> build(CardAt(card, out, clock, n)).NeverEnds?
  {
  }

  lemma {:induction false} FirstEndless(build: R.Builder, card: Card, out: seq<StreamEvent>, clock: nat -> int, k: nat)
    returns (n: nat)
    requires EndlessAt(build, card, out, clock, k)
    ensures FirstAt(build, card, out, clock, n)
  {
    if j: nat :| j < k && EndlessAt(build, card, out, clock, j) {
      n := FirstEndless(build, card, out, clock, j);
    } else {
      n := k;
    }
  }

  lemma TickHangs(build: R.Builder, f: R.FeedState)
    requires !R.Over(f) && f.dirty && build(f.card).NeverEnds?
    ensures R.OnTurn(build, f, R.Turn(R.Input.Tick, R.PatchFailed)).hung
  {
  }

  /** Turns on which Feed hangs in the first card that never gets built: at the flush its event
      forces, or else at a tick. */
  lemma HangingTurns(build: R.Builder, card: Card, out: seq<StreamEvent>, clock: nat -> int, n: nat)
    returns (turns: seq<R.Turn>)
    requires Consistent(card) && NoEventAfterError(out) && !build(card).NeverEnds?
    requires FirstAt(build, card, out, clock, n)
    ensures R.Runs(turns) && R.EventsOf(turns) == out[..n]
    ensures R.Run(build, R.NewFeed(card), turns).hung
  {
    hide R.OnTurn, CardAt, Consistent;
    var shown, tick := Shown(out, clock, n), R.Turn(R.Input.Tick, R.PatchFailed);
    ShownSoFar(build, card, out, clock, n, n);
    ShownEvents(out, clock, n);
    EndlessHere(build, card, out, clock, n);
    turns := shown;
    if !R.Run(build, R.NewFeed(card), shown).hung {
      TickHangs(build, R.Run(build, R.NewFeed(card), shown));
      turns := shown + [tick];
      assert turns[..|shown|] == shown;
    }
  }

  lemma EndlessMeansHangs(build: R.Builder, card: Card, out: seq<StreamEvent>, clock: nat -> int, k: nat)
    returns (schedule: seq<Action>)
    requires Consistent(card) && NoEventAfterError(out) && !build(card).NeverEnds?
    requires EndlessAt(build, card, out, clock, k)
    ensures Hangs(build, card, out, schedule)
  {
    hide R.Run, R.EventsOf, CardAt, Consistent, NoEventAfterError, Complete;
    var n := FirstEndless(build, card, out, clock, k);
    var f0 := R.NewFeed(card);
    var turns := HangingTurns(build, card, out, clock, n);
    CompletedBy(turns, out[n..]);
    assert out[..n] + out[n..] == out;
    var all := turns + Rest(out[n..]);
    assert all[..|turns|] == turns;
    R.OverStays(build, f0, all, |turns|);
    schedule := CompleteIsScheduled(build, out, f0, all);
  }

  /** Feed can hang, in some schedule, exactly when for some times of the events one of the cards on
      the way never gets built. */
  lemma HangsExactly(build: R.Builder, card: Card, out: seq<StreamEvent>)
    requires Consistent(card) && NoEventAfterError(out) && !build(card).NeverEnds?
    ensures (exists schedule :: Hangs(build, card, out, schedule)) <==>
      exists clock, k :: EndlessAt(build, card, out, clock, k)
  {
    if schedule :| Hangs(build, card, out, schedule) {
      var clock, k := FedCard(build, out, card, schedule);
      FedPrefix(build, out, R.NewFeed(card), schedule);
      HungCard(build, R.NewFeed(card), After(build, out, R.NewFeed(card), schedule).turns);
      assert EndlessAt(build, card, out, clock, k);
    }
    if clock, k :| EndlessAt(build, card, out, clock, k) {
      var schedule := EndlessMeansHangs(build, card, out, clock, k);
    }
  }

  // ---------------------------------------------------------------------------------
  // With the size cut of BuildCardJSON.
  // ---------------------------------------------------------------------------------

  lemma {:induction false} TextGrows(out: seq<StreamEvent>, k: nat)
    requires k <= |out|
    ensures TextOf(out[..k]) <= TextOf(out)
    decreases |out|
  {
    if k == |out| {
      assert out[..k] == out;
    } else {
      var init := out[..|out| - 1];
      assert init[..k] == out[..k];
      TextGrows(init, k);
    }
  }

  /** Answers that need no cut never hang Feed, whatever the encoder makes of them. */
  lemma ShortAnswersNeverHang(encode: Card -> Bytes, card: Card, out: seq<StreamEvent>, schedule: seq<Action>)
    requires |card.text| + |TextOf(out)| <= KEEP
    requires Possible(BuilderOf(encode), out, R.NewFeed(card), schedule)
    ensures !Hangs(BuilderOf(encode), card, out, schedule)
  {
    var build := BuilderOf(encode);
    var clock, k := FedCard(build, out, card, schedule);
    FedPrefix(build, out, R.NewFeed(card), schedule);
    var s := After(build, out, R.NewFeed(card), schedule);
    HungCard(build, R.NewFeed(card), s.turns);
    CardText(card, out[..k], clock);
    TextGrows(out, k);
    RetryEndsExactly(encode, s.feed.card, 2);
  }

  lemma {:induction false} NoErrorNoErrorCard(card: Card, out: seq<StreamEvent>, clock: nat -> int)
    requires card.phase != PhaseError && forall e <- out :: !e.Error?
    ensures ApplyAll(card, out, clock).phase != PhaseError
  {
    if out != [] {
      assert out[|out| - 1] in out;
      NoErrorNoErrorCard(card, out[..|out| - 1], clock);
    }
  }

  /** A text of more than 20000 bytes that starts with 20000 quotes. */
  predicate Quoted(text: Bytes) {
    |text| > KEEP && forall k :: 0 <= k < KEEP ==> text[k] == '"'
  }

  /** Such an answer, if no error ends it, never lets Feed return, and does let it hang. */
  lemma QuotedAnswersHang(encode: Card -> Bytes, card: Card, out: seq<StreamEvent>)
    requires Escapes(encode) && Consistent(card) && card.phase != PhaseError && card.text == ""
    requires Quoted(TextOf(out)) && forall e <- out :: !e.Error?
    ensures forall schedule :: !Returns(BuilderOf(encode), card, out, schedule)
    ensures exists schedule :: Hangs(BuilderOf(encode), card, out, schedule)
  {
    forall schedule ensures !Returns(BuilderOf(encode), card, out, schedule) {
      QuotedNeverReturns(encode, card, out, schedule);
    }
    RetryEndsExactly(encode, card, 2);
    hide Hangs, Returns, Consistent, EndlessAt;
    var noon: nat -> int := k => 0;
    QuotedIsEndless(encode, card, out, noon);
    var schedule := EndlessMeansHangs(BuilderOf(encode), card, out, noon, |out|);
  }

  lemma QuotedNeverReturns(encode: Card -> Bytes, card: Card, out: seq<StreamEvent>, schedule: seq<Action>)
    requires Escapes(encode) && card.phase != PhaseError && card.text == ""
    requires Quoted(TextOf(out)) && forall e <- out :: !e.Error?
    ensures !Returns(BuilderOf(encode), card, out, schedule)
  {
    if Returns(BuilderOf(encode), card, out, schedule) {
      hide Returns, EndlessAt;
      var clock := ReturnsMeansBuilt(BuilderOf(encode), card, out, schedule);
      QuotedIsEndless(encode, card, out, clock);
    }
  }

  lemma QuotedIsEndless(encode: Card -> Bytes, card: Card, out: seq<StreamEvent>, clock: nat -> int)
    requires Escapes(encode) && card.phase != PhaseError && card.text == ""
    requires Quoted(TextOf(out)) && forall e <- out :: !e.Error?
    ensures EndlessAt(BuilderOf(encode), card, out, clock, |out|)
  {
    assert out[..|out|] == out;
    CardText(card, out, clock);
    NoErrorNoErrorCard(card, out, clock);
    assert card.text + TextOf(out) == TextOf(out);
    hide ApplyAll, BuiltFrom, Ends, Escapes;
    QuotedTextNeverEnds(encode, ApplyAll(card, out, clock), 2);
  }

  /** For one answer in a single delta the first forced flush is enough: Feed hangs as soon as it
      has received it. */
  lemma FirstDeltaHangs(encode: Card -> Bytes, q: Bytes)
    requires Escapes(encode) && Quoted(q)
    ensures var schedule := [Send, Take(0, R.Sent)];
      Hangs(BuilderOf(encode), NEW_CARD, [TextDelta(q)], schedule)
  {
    var build, out, f0 := BuilderOf(encode), [TextDelta(q)], R.NewFeed(NEW_CARD);
    Extend(build, out, f0, [], Send);
    assert [] + [Send] == [Send];
    Extend(build, out, f0, [Send], Take(0, R.Sent));
    assert [Send] + [Take(0, R.Sent)] == [Send, Take(0, R.Sent)];
    assert NEW_CARD.text + q == q;
    QuotedTextNeverEnds(encode, Apply(NEW_CARD, TextDelta(q), 0).0, 2);
  }
}
