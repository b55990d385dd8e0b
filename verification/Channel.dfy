/** The buffered channel between an agent run and the renderer: one goroutine sends what the run
    emits and closes, the other one is `Feed` (internal/lark/handler.go:180-197). */
module Channel {
  import opened Bytes
  import opened Llm
  import R = Renderer
  import CardState

  const CAPACITY := 64

  /** `sent` counts the events sent so far; `turns` are the turns Feed has taken. */
  datatype State = State(sent: nat, queue: seq<StreamEvent>, closed: bool, feed: R.FeedState, turns: seq<R.Turn>)

  datatype Action =
    | Send
    | Close
    | Take(now: int, outcome: R.PatchOutcome)      // Feed receives an event
    | SeeClosed(outcome: R.PatchOutcome)           // Feed finds the channel closed and drained
    | Tick(outcome: R.PatchOutcome)

  function Begin(f: R.FeedState): State { State(0, [], false, f, []) }

  /** `out` is what the run emits, in the order in which it reaches the channel.  A send blocks
      while the buffer is full; the channel is closed when the run has returned. */
  predicate Enabled(out: seq<StreamEvent>, s: State, a: Action) {
    match a
    case Send => s.sent < |out| && |s.queue| < CAPACITY
    case Close => s.sent == |out| && !s.closed
    case Take(_, _) => !R.Over(s.feed) && s.queue != []
    case SeeClosed(_) => !R.Over(s.feed) && s.queue == [] && s.closed
    case Tick(_) => !R.Over(s.feed)
  }

  function OnFeed(build: R.Builder, s: State, t: R.Turn): State {
    s.(feed := R.OnTurn(build, s.feed, t), turns := s.turns + [t])
  }

  function Next(build: R.Builder, out: seq<StreamEvent>, s: State, a: Action): State
    requires Enabled(out, s, a)
  {
    match a
    case Send => s.(queue := s.queue + [out[s.sent]], sent := s.sent + 1)
    case Close => s.(closed := true)
    case Take(now, outcome) => OnFeed(build, s.(queue := s.queue[1..]), R.Turn(R.Event(s.queue[0], now), outcome))
    case SeeClosed(outcome) => OnFeed(build, s, R.Turn(R.Closed, outcome))
    case Tick(outcome) => OnFeed(build, s, R.Turn(R.Input.Tick, outcome))
  }

  /** Feed has found the channel closed. */
  predicate SawClose(s: State) { s.turns != [] && s.turns[|s.turns| - 1].input.Closed? }

  /** The turns before that. */
  function Live(s: State): seq<R.Turn> {
    if SawClose(s) then s.turns[..|s.turns| - 1] else s.turns
  }

  /** Nothing is lost, repeated or reordered between the run and the renderer; Feed returns only
      after the channel is closed and drained; nothing is sent after the close. */
  ghost predicate Inv(build: R.Builder, out: seq<StreamEvent>, f0: R.FeedState, s: State) {
    && s.sent <= |out| && |s.queue| <= CAPACITY
    && R.EventsOf(Live(s)) + s.queue == out[..s.sent]
    && s.feed == R.Run(build, f0, s.turns)
    && R.Awake(build, f0, s.turns)
    && R.Runs(Live(s))
    && (s.closed ==> s.sent == |out|)
    && (s.feed.stopped ==> SawClose(s))
    && (SawClose(s) ==> R.Over(s.feed) && s.closed && s.queue == [])
  }

  lemma TurnSnoc(build: R.Builder, f0: R.FeedState, turns: seq<R.Turn>, t: R.Turn)
    requires !R.Over(R.Run(build, f0, turns))
    ensures R.Awake(build, f0, turns + [t])
    ensures R.Run(build, f0, turns + [t]) == R.OnTurn(build, R.Run(build, f0, turns), t)
    ensures R.EventsOf(turns + [t]) == R.EventsOf(turns) + if t.input.Event? then [t.input.ev] else []
    ensures var g := R.Run(build, f0, turns + [t]);
      (t.input.Tick? || t.input.Event? ==> !g.stopped) && (t.input.Closed? ==> R.Over(g))
  {
    R.TurnOver(build, R.Run(build, f0, turns), t);
    hide R.OnTurn;
    assert (turns + [t])[..|turns|] == turns;
  }

  lemma BeginInv(build: R.Builder, out: seq<StreamEvent>, f0: R.FeedState)
    requires !R.Over(f0)
    ensures Inv(build, out, f0, Begin(f0))
  {
  }

  lemma SenderInv(build: R.Builder, out: seq<StreamEvent>, f0: R.FeedState, s: State, a: Action)
    requires Inv(build, out, f0, s) && Enabled(out, s, a) && (a.Send? || a.Close?)
    ensures Inv(build, out, f0, Next(build, out, s, a))
  {
    var s' := Next(build, out, s, a);
    assert Live(s') == Live(s);
    if a.Send? {
      assert out[..s.sent + 1] == out[..s.sent] + [out[s.sent]];
      assert R.EventsOf(Live(s)) + s.queue + [out[s.sent]] == R.EventsOf(Live(s)) + (s.queue + [out[s.sent]]);
    }
  }

  lemma TakeMovesEvent(evs: seq<StreamEvent>, queue: seq<StreamEvent>)
    requires queue != []
    ensures evs + [queue[0]] + queue[1..] == evs + queue
  {
  }

  lemma TakeInv(build: R.Builder, out: seq<StreamEvent>, f0: R.FeedState, s: State, a: Action)
    requires Inv(build, out, f0, s) && Enabled(out, s, a) && a.Take?
    ensures Inv(build, out, f0, Next(build, out, s, a))
  {
    hide R.OnTurn;
    var t := R.Turn(R.Event(s.queue[0], a.now), a.outcome);
    TurnSnoc(build, f0, s.turns, t);
    TakeMovesEvent(R.EventsOf(s.turns), s.queue);
    assert Live(Next(build, out, s, a)) == s.turns + [t];
  }

  lemma TickInv(build: R.Builder, out: seq<StreamEvent>, f0: R.FeedState, s: State, a: Action)
    requires Inv(build, out, f0, s) && Enabled(out, s, a) && a.Tick?
    ensures Inv(build, out, f0, Next(build, out, s, a))
  {
    hide R.OnTurn;
    TurnSnoc(build, f0, s.turns, R.Turn(R.Input.Tick, a.outcome));
    assert R.EventsOf(s.turns) + [] == R.EventsOf(s.turns);
  }

  lemma ClosedInv(build: R.Builder, out: seq<StreamEvent>, f0: R.FeedState, s: State, a: Action)
    requires Inv(build, out, f0, s) && Enabled(out, s, a) && a.SeeClosed?
    ensures Inv(build, out, f0, Next(build, out, s, a))
  {
    TurnSnoc(build, f0, s.turns, R.Turn(R.Closed, a.outcome));
    assert (s.turns + [R.Turn(R.Closed, a.outcome)])[..|s.turns|] == s.turns;
  }

  lemma StepInv(build: R.Builder, out: seq<StreamEvent>, f0: R.FeedState, s: State, a: Action)
    requires Inv(build, out, f0, s) && Enabled(out, s, a)
    ensures Inv(build, out, f0, Next(build, out, s, a))
  {
    match a
    case Send => SenderInv(build, out, f0, s, a);
    case Close => SenderInv(build, out, f0, s, a);
    case Take(_, _) => TakeInv(build, out, f0, s, a);
    case SeeClosed(_) => ClosedInv(build, out, f0, s, a);
    case Tick(_) => TickInv(build, out, f0, s, a);
  }

  // ---------------------------------------------------------------------------------
  // Schedules: any interleaving of the two goroutines and the ticker.
  // ---------------------------------------------------------------------------------

  predicate Possible(build: R.Builder, out: seq<StreamEvent>, f0: R.FeedState, schedule: seq<Action>)
    decreases |schedule|, 0
  {
    schedule == [] ||
    var init := schedule[..|schedule| - 1];
    Possible(build, out, f0, init) && Enabled(out, After(build, out, f0, init), schedule[|schedule| - 1])
  }

  function After(build: R.Builder, out: seq<StreamEvent>, f0: R.FeedState, schedule: seq<Action>): State
    requires Possible(build, out, f0, schedule)
    decreases |schedule|, 1
  {
    if schedule == [] then Begin(f0)
    else Next(build, out, After(build, out, f0, schedule[..|schedule| - 1]), schedule[|schedule| - 1])
  }

  lemma {:induction false} ScheduleInv(build: R.Builder, out: seq<StreamEvent>, f0: R.FeedState, schedule: seq<Action>)
    requires !R.Over(f0) && Possible(build, out, f0, schedule)
    ensures Inv(build, out, f0, After(build, out, f0, schedule))
  {
    if schedule == [] {
      BeginInv(build, out, f0);
    } else {
      var init := schedule[..|schedule| - 1];
      ScheduleInv(build, out, f0, init);
      StepInv(build, out, f0, After(build, out, f0, init), schedule[|schedule| - 1]);
    }
  }

  /** At any time Feed has run on a prefix of what is emitted. */
  lemma FedPrefix(build: R.Builder, out: seq<StreamEvent>, f0: R.FeedState, schedule: seq<Action>)
    requires !R.Over(f0) && Possible(build, out, f0, schedule)
    ensures var s := After(build, out, f0, schedule);
      R.EventsOf(s.turns) <= out && s.feed == R.Run(build, f0, s.turns)
  {
    ScheduleInv(build, out, f0, schedule);
    var s := After(build, out, f0, schedule);
    assert R.EventsOf(s.turns) == R.EventsOf(Live(s));
    assert R.EventsOf(Live(s)) <= out[..s.sent] <= out;
  }

  // ---------------------------------------------------------------------------------
  // Progress.
  // ---------------------------------------------------------------------------------

  /** Until Feed has returned, or hangs in a card that never gets built, there is a step other than
      a tick to take: the sender and the receiver never wait for each other.  When Feed hangs is
      said in Hanging. */
  lemma NoDeadlock(build: R.Builder, out: seq<StreamEvent>, f0: R.FeedState, schedule: seq<Action>)
    returns (a: Action)
    requires !R.Over(f0) && Possible(build, out, f0, schedule)
    requires !R.Over(After(build, out, f0, schedule).feed)
    ensures !a.Tick? && Enabled(out, After(build, out, f0, schedule), a)
  {
    ScheduleInv(build, out, f0, schedule);
    var s := After(build, out, f0, schedule);
    a := if s.queue != [] then Take(0, R.Sent)
         else if s.sent < |out| then Send
         else if !s.closed then Close
         else SeeClosed(R.Sent);
  }

  function Steps(schedule: seq<Action>): nat {
    if schedule == [] then 0
    else Steps(schedule[..|schedule| - 1]) + if schedule[|schedule| - 1].Tick? then 0 else 1
  }

  /** What the non-tick steps so far have moved. */
  function Moved(s: State): int {
    2 * s.sent - |s.queue| + (if s.closed then 1 else 0) + (if SawClose(s) then 1 else 0)
  }

  lemma StepMoves(build: R.Builder, out: seq<StreamEvent>, f0: R.FeedState, s: State, a: Action)
    requires Inv(build, out, f0, s) && Enabled(out, s, a)
    ensures Moved(Next(build, out, s, a)) == Moved(s) + if a.Tick? then 0 else 1
  {
    hide R.OnTurn;
  }

  lemma MovedBounded(build: R.Builder, out: seq<StreamEvent>, f0: R.FeedState, s: State)
    requires Inv(build, out, f0, s)
    ensures Moved(s) <= 2 * |out| + 2
  {
  }

  /** Every schedule takes at most two steps per event and two more, besides ticks. */
  lemma {:induction false} StepsAreBounded(build: R.Builder, out: seq<StreamEvent>, f0: R.FeedState, schedule: seq<Action>)
    requires !R.Over(f0) && Possible(build, out, f0, schedule)
    ensures Steps(schedule) == Moved(After(build, out, f0, schedule)) <= 2 * |out| + 2
  {
    ScheduleInv(build, out, f0, schedule);
    MovedBounded(build, out, f0, After(build, out, f0, schedule));
    if schedule != [] {
      hide Inv, Moved, Next;
      var init := schedule[..|schedule| - 1];
      ScheduleInv(build, out, f0, init);
      StepsAreBounded(build, out, f0, init);
      StepMoves(build, out, f0, After(build, out, f0, init), schedule[|schedule| - 1]);
    }
  }

  /** When Feed has returned, it has applied exactly the events of the run, each once and in
      order. */
  lemma FeedReceivesAll(build: R.Builder, out: seq<StreamEvent>, f0: R.FeedState, schedule: seq<Action>, clock: nat -> int)
    requires !R.Over(f0) && Possible(build, out, f0, schedule)
    requires var s := After(build, out, f0, schedule);
      s.feed.stopped && forall k :: 0 <= k < |R.TimesOf(Live(s))| ==> clock(k) == R.TimesOf(Live(s))[k]
    ensures var s := After(build, out, f0, schedule);
      R.EventsOf(Live(s)) == out && s.feed.card == CardState.ApplyAll(f0.card, out, clock)
  {
    ScheduleInv(build, out, f0, schedule);
    var s := After(build, out, f0, schedule);
    var live, last := Live(s), s.turns[|s.turns| - 1];
    assert out[..|out|] == out;
    assert R.EventsOf(live) + s.queue == R.EventsOf(live);
    R.EveryEventAppliedOnce(build, f0, live, clock);
  }

  // ---------------------------------------------------------------------------------
  // What Feed can see of a schedule.
  // ---------------------------------------------------------------------------------

  /** Exactly `out`, with ticks in between, and then the close. */
  predicate Complete(out: seq<StreamEvent>, turns: seq<R.Turn>) {
    && turns != []
    && R.Runs(turns[..|turns| - 1])
    && turns[|turns| - 1].input.Closed?
    && R.EventsOf(turns[..|turns| - 1]) == out
  }

  /** The events one after the other, and then the close. */
  function Rest(evs: seq<StreamEvent>): seq<R.Turn> {
    if evs == [] then [R.Turn(R.Closed, R.Sent)] else [R.Turn(R.Event(evs[0], 0), R.Sent)] + Rest(evs[1..])
  }

  lemma EventSnoc(turns: seq<R.Turn>, ev: StreamEvent)
    ensures var t := R.Turn(R.Event(ev, 0), R.Sent); R.EventsOf(turns + [t]) == R.EventsOf(turns) + [ev]
  {
    var t := R.Turn(R.Event(ev, 0), R.Sent);
    assert (turns + [t])[..|turns|] == turns;
  }

  lemma Complement<T>(a: seq<T>, whole: seq<T>)
    requires a <= whole
    ensures a + whole[|a|..] == whole
  {
  }

  lemma MoveOver<T>(a: seq<T>, x: T, b: seq<T>)
    ensures a + [x] + b == a + ([x] + b)
  {
  }

  lemma {:induction false} CompletedBy(turns: seq<R.Turn>, evs: seq<StreamEvent>)
    requires R.Runs(turns)
    ensures Complete(R.EventsOf(turns) + evs, turns + Rest(evs))
    decreases |evs|
  {
    hide R.EventsOf;
    if evs == [] {
      assert (turns + Rest([]))[..|turns|] == turns;
      assert R.EventsOf(turns) + [] == R.EventsOf(turns);
    } else {
      var t, more := R.Turn(R.Event(evs[0], 0), R.Sent), Rest(evs[1..]);
      assert Rest(evs) == [t] + more;
      hide Complete, Rest;
      EventSnoc(turns, evs[0]);
      CompletedBy(turns + [t], evs[1..]);
      MoveOver(turns, t, more);
      MoveOver(R.EventsOf(turns), evs[0], evs[1..]);
      assert [evs[0]] + evs[1..] == evs;
    }
  }

  /** A schedule in which Feed returns or hangs is to Feed a complete sequence of turns, of which it
      takes those before it hangs. */
  lemma ScheduleIsComplete(build: R.Builder, out: seq<StreamEvent>, f0: R.FeedState, schedule: seq<Action>)
    returns (turns: seq<R.Turn>)
    requires !R.Over(f0) && Possible(build, out, f0, schedule)
    requires R.Over(After(build, out, f0, schedule).feed)
    ensures var s := After(build, out, f0, schedule);
      Complete(out, turns) && s.turns <= turns && s.feed == R.Run(build, f0, turns) && (s.feed.stopped ==> s.turns == turns)
  {
    ScheduleInv(build, out, f0, schedule);
    var s := After(build, out, f0, schedule);
    if SawClose(s) {
      turns := s.turns;
      assert out[..|out|] == out;
      assert R.EventsOf(Live(s)) + s.queue == R.EventsOf(Live(s));
    } else {
      var taken := R.EventsOf(s.turns);
      assert taken <= out[..s.sent] <= out;
      Complement(taken, out);
      hide *;
      turns := s.turns + Rest(out[|taken|..]);
      CompletedBy(s.turns, out[|taken|..]);
      assert turns[..|s.turns|] == s.turns;
      R.OverStays(build, f0, turns, |s.turns|);
    }
  }

  lemma Extend(build: R.Builder, out: seq<StreamEvent>, f0: R.FeedState, schedule: seq<Action>, a: Action)
    requires Possible(build, out, f0, schedule) && Enabled(out, After(build, out, f0, schedule), a)
    ensures Possible(build, out, f0, schedule + [a])
    ensures After(build, out, f0, schedule + [a]) == Next(build, out, After(build, out, f0, schedule), a)
  {
    assert (schedule + [a])[..|schedule|] == schedule;
  }

  /** The schedule has shown Feed these turns, and nothing is on its way. */
  predicate Shows(build: R.Builder, out: seq<StreamEvent>, f0: R.FeedState, schedule: seq<Action>, turns: seq<R.Turn>) {
    && Possible(build, out, f0, schedule)
    && var s := After(build, out, f0, schedule);
    s.turns == turns && s.queue == [] && !s.closed && !R.Over(s.feed) && s.sent == |R.EventsOf(turns)|
    && s.feed == R.Run(build, f0, turns)
  }

  /** The schedule ends with Feed hanging where it does on these turns. */
  predicate HangsOn(build: R.Builder, out: seq<StreamEvent>, f0: R.FeedState, schedule: seq<Action>, turns: seq<R.Turn>) {
    && Possible(build, out, f0, schedule)
    && var s := After(build, out, f0, schedule);
    s.turns <= turns && s.feed == R.Run(build, f0, turns) && s.feed.hung && !s.feed.stopped
  }

  predicate Follows(build: R.Builder, out: seq<StreamEvent>, f0: R.FeedState, schedule: seq<Action>, turns: seq<R.Turn>) {
    Shows(build, out, f0, schedule, turns) || HangsOn(build, out, f0, schedule, turns)
  }

  lemma ShowTick(build: R.Builder, out: seq<StreamEvent>, f0: R.FeedState, schedule: seq<Action>,
                 turns: seq<R.Turn>, t: R.Turn)
    requires Shows(build, out, f0, schedule, turns) && t.input.Tick?
    ensures Follows(build, out, f0, schedule + [Tick(t.outcome)], turns + [t])
  {
    hide R.OnTurn;
    Extend(build, out, f0, schedule, Tick(t.outcome));
    TurnSnoc(build, f0, turns, t);
  }

  lemma ShowEvent(build: R.Builder, out: seq<StreamEvent>, f0: R.FeedState, schedule: seq<Action>,
                  turns: seq<R.Turn>, t: R.Turn)
    requires Shows(build, out, f0, schedule, turns) && t.input.Event?
    requires |R.EventsOf(turns)| < |out| && out[|R.EventsOf(turns)|] == t.input.ev
    ensures Follows(build, out, f0, schedule + [Send] + [Take(t.input.now, t.outcome)], turns + [t])
  {
    hide R.OnTurn;
    Extend(build, out, f0, schedule, Send);
    Extend(build, out, f0, schedule + [Send], Take(t.input.now, t.outcome));
    TurnSnoc(build, f0, turns, t);
  }

  lemma StillHangs(build: R.Builder, out: seq<StreamEvent>, f0: R.FeedState, schedule: seq<Action>,
                   turns: seq<R.Turn>, t: R.Turn)
    requires HangsOn(build, out, f0, schedule, turns)
    ensures HangsOn(build, out, f0, schedule, turns + [t])
  {
    assert (turns + [t])[..|turns|] == turns;
  }

  /** A schedule that shows Feed these turns, as far as it gets, the sender staying one event ahead
      at most. */
  lemma {:induction false} ScheduleOf(build: R.Builder, out: seq<StreamEvent>, f0: R.FeedState, turns: seq<R.Turn>)
    returns (schedule: seq<Action>)
    requires !R.Over(f0) && R.Runs(turns) && R.EventsOf(turns) <= out
    ensures Follows(build, out, f0, schedule, turns)
  {
    if turns == [] {
      schedule := [];
    } else {
      var init, last := turns[..|turns| - 1], turns[|turns| - 1];
      assert last in turns && init + [last] == turns;
      schedule := ScheduleOf(build, out, f0, init);
      if HangsOn(build, out, f0, schedule, init) {
        StillHangs(build, out, f0, schedule, init, last);
      } else if last.input.Tick? {
        ShowTick(build, out, f0, schedule, init, last);
        schedule := schedule + [Tick(last.outcome)];
      } else {
        ShowEvent(build, out, f0, schedule, init, last);
        schedule := schedule + [Send] + [Take(last.input.now, last.outcome)];
      }
    }
  }

  lemma ShowClose(build: R.Builder, out: seq<StreamEvent>, f0: R.FeedState, schedule: seq<Action>,
                  turns: seq<R.Turn>, t: R.Turn)
    requires Shows(build, out, f0, schedule, turns) && t.input.Closed? && R.EventsOf(turns) == out
    ensures var closed := schedule + [Close] + [SeeClosed(t.outcome)];
      && Possible(build, out, f0, closed)
      && After(build, out, f0, closed).turns == turns + [t]
      && After(build, out, f0, closed).feed == R.Run(build, f0, turns + [t])
      && R.Over(After(build, out, f0, closed).feed)
  {
    hide R.OnTurn;
    Extend(build, out, f0, schedule, Close);
    Extend(build, out, f0, schedule + [Close], SeeClosed(t.outcome));
    TurnSnoc(build, f0, turns, t);
    assert t == R.Turn(R.Closed, t.outcome);
  }

  /** And every complete sequence of turns comes from a schedule, so that running Feed after the
      run on any of them covers exactly what the two goroutines can do. */
  lemma CompleteIsScheduled(build: R.Builder, out: seq<StreamEvent>, f0: R.FeedState, turns: seq<R.Turn>)
    returns (schedule: seq<Action>)
    requires !R.Over(f0) && Complete(out, turns)
    ensures Possible(build, out, f0, schedule)
    ensures var s := After(build, out, f0, schedule);
      && s.feed == R.Run(build, f0, turns) && R.Over(s.feed)
      && s.turns <= turns && (s.feed.stopped ==> s.turns == turns)
  {
    hide R.OnTurn, R.EventsOf, After, Possible;
    var init, last := turns[..|turns| - 1], turns[|turns| - 1];
    assert init + [last] == turns;
    schedule := ScheduleOf(build, out, f0, init);
    if HangsOn(build, out, f0, schedule, init) {
      StillHangs(build, out, f0, schedule, init, last);
    } else {
      ShowClose(build, out, f0, schedule, init, last);
      schedule := schedule + [Close] + [SeeClosed(last.outcome)];
    }
  }
}
