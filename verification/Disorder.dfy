/** The other half of serialisability in the order of the log, that is, of the grants and the
    commands: what happens when a turn or a command starts inside another one.  Then some writes
    make the store differ from what replaying the log leaves, so not overlapping is exactly what
    replaying the log needs.  Other orders are not looked at: a /clear between the grant and the
    Load of a turn, say, has the same effect as one before the grant, but stands behind the turn in
    the log. */
module Disorder {
  import opened Bytes
  import opened Sessions
  import opened Turns
  import opened Serial

  // ---------------------------------------------------------------------------------
  // Systems that cannot be told apart so far.
  // ---------------------------------------------------------------------------------

  predicate AgreeUpTo(a: seq<SessionData>, b: seq<SessionData>, n: nat) {
    n <= |a| && n <= |b| && a[..n] == b[..n]
  }

  /** Two systems agree on everything that has happened by `s`; they may differ in what turns under
      way and half-way commands will still write, and in what later ones will. */
  ghost predicate Alike(env: Env, other: Env, s: State) {
    && other.ttl == env.ttl && other.token == env.token
    && (forall id: nat, v :: id < s.next && id !in s.turns ==> other.writes(id, v) == env.writes(id, v))
    && (forall id <- s.turns :: AlikeTurn(env, other, id, s.turns[id].phase))
    && (forall id: nat, v :: id < s.next && id !in s.switches ==> other.switched(id, v) == env.switched(id, v))
  }

  predicate AlikeTurn(env: Env, other: Env, id: nat, p: Phase) {
    p.Loaded? ==> AgreeUpTo(env.writes(id, p.read), other.writes(id, p.read), p.saved)
  }

  lemma TurnBack(env: Env, other: Env, s: State, a: Action)
    requires Inv(env, s) && Enabled(env, s, a) && Alike(env, other, Next(env, s, a))
    ensures forall id <- s.turns :: AlikeTurn(env, other, id, s.turns[id].phase)
  {
    var s' := Next(env, s, a);
    forall id | id in s.turns ensures AlikeTurn(env, other, id, s.turns[id].phase) {
      if id in s'.turns {
        assert AlikeTurn(env, other, id, s'.turns[id].phase);
        if a == Save(id) { PrefixAgrees(env.writes(id, s.turns[id].phase.read), other.writes(id, s.turns[id].phase.read), s.turns[id].phase.saved); }
      }
    }
  }

  lemma PrefixAgrees(a: seq<SessionData>, b: seq<SessionData>, n: nat)
    requires AgreeUpTo(a, b, n + 1)
    ensures AgreeUpTo(a, b, n) && a[n] == b[n]
  {
    assert a[..n] == a[..n + 1][..n] && b[..n] == b[..n + 1][..n];
    assert a[n] == a[..n + 1][n] && b[n] == b[..n + 1][n];
  }

  /** What is alike after a step was alike before it, and takes the same step. */
  lemma StepBack(env: Env, other: Env, s: State, a: Action)
    requires Inv(env, s) && Enabled(env, s, a) && Alike(env, other, Next(env, s, a))
    ensures Alike(env, other, s)
    ensures Enabled(other, s, a) && Next(other, s, a) == Next(env, s, a)
  {
    TurnBack(env, other, s, a);
    var s' := Next(env, s, a);
    if a.Save? {
      assert AlikeTurn(env, other, a.id, s'.turns[a.id].phase);
      var p := s.turns[a.id].phase;
      PrefixAgrees(env.writes(a.id, p.read), other.writes(a.id, p.read), p.saved);
    }
  }

  lemma {:induction false} SameTrace(env: Env, other: Env, trace: seq<Action>, key: Bytes)
    requires FreshTokens(env) && Possible(env, trace) && Alike(env, other, After(env, trace))
    ensures Possible(other, trace) && After(other, trace) == After(env, trace)
    ensures Log(other, trace, key) == Log(env, trace, key)
    ensures SameStates(env, other, trace)
  {
    if trace != [] {
      var init, a := trace[..|trace| - 1], trace[|trace| - 1];
      TraceInv(env, init);
      StepBack(env, other, After(env, init), a);
      SameTrace(env, other, init, key);
    }
  }

  /** The trace goes through the same states in both systems. */
  predicate SameStates(env: Env, other: Env, trace: seq<Action>) {
    && Possible(env, trace) && Possible(other, trace)
    && After(env, trace) == After(other, trace)
    && (trace == [] || SameStates(env, other, trace[..|trace| - 1]))
  }

  // ---------------------------------------------------------------------------------
  // Finishing what has begun.
  // ---------------------------------------------------------------------------------

  /** Steps that only finish turns and commands under way. */
  predicate Finishing(a: Action) {
    a.Load? || a.Save? || a.Release? || a.SwitchPut?
  }

  predicate Finishes(trace: seq<Action>, rest: seq<Action>) {
    trace <= rest && forall k :: |trace| <= k < |rest| ==> Finishing(rest[k])
  }

  lemma FinishesSnoc(trace: seq<Action>, rest: seq<Action>, a: Action)
    requires Finishes(trace, rest) && Finishing(a)
    ensures Finishes(trace, rest + [a])
  {
  }

  lemma FinishesTrans(a: seq<Action>, b: seq<Action>, c: seq<Action>)
    requires Finishes(a, b) && Finishes(b, c)
    ensures Finishes(a, c)
  {
  }

  /** The turn has one Save to go, and it writes x. */
  ghost predicate OneToGo(env: Env, id: nat, p: Phase, x: SessionData) {
    match p
    case Locked => forall v :: env.writes(id, v) == [x]
    case Loaded(read, n) => |env.writes(id, read)| == n + 1 && env.writes(id, read)[n] == x
  }

  lemma FinishLoaded(env: Env, t: seq<Action>, id: nat, x: SessionData) returns (t': seq<Action>)
    requires FreshTokens(env) && Possible(env, t)
    requires id in After(env, t).turns && After(env, t).turns[id].phase.Loaded?
    requires OneToGo(env, id, After(env, t).turns[id].phase, x)
    ensures Possible(env, t') && Finishes(t, t')
    ensures var s, s', key := After(env, t), After(env, t'), After(env, t).turns[id].key;
      && s'.turns == s.turns - {id} && s'.switches == s.switches && s'.next == s.next
      && Stored(s', key) == Some(x)
      && Log(env, t', key) == Log(env, t, key)
  {
    var key := After(env, t).turns[id].key;
    TraceSnoc(env, t, Save(id), key);
    var t1 := t + [Save(id)];
    var s1 := After(env, t1);
    assert Stored(s1, key) == Some(x);
    TraceSnoc(env, t1, Release(id, true), key);
    StoredUnchanged(env, s1, Release(id, true), key);
    t' := t1 + [Release(id, true)];
    FinishesSnoc(t, t, Save(id));
    FinishesSnoc(t, t1, Release(id, true));
  }

  lemma FinishTurn(env: Env, t: seq<Action>, id: nat, x: SessionData) returns (t': seq<Action>)
    requires FreshTokens(env) && Possible(env, t) && id in After(env, t).turns
    requires OneToGo(env, id, After(env, t).turns[id].phase, x)
    ensures Possible(env, t') && Finishes(t, t')
    ensures var s, s', key := After(env, t), After(env, t'), After(env, t).turns[id].key;
      && s'.turns == s.turns - {id} && s'.switches == s.switches && s'.next == s.next
      && Stored(s', key) == Some(x)
      && Log(env, t', key) == Log(env, t, key)
  {
    var s := After(env, t);
    if s.turns[id].phase.Locked? {
      TraceSnoc(env, t, Load(id), s.turns[id].key);
      var t1 := t + [Load(id)];
      assert After(env, t1).turns - {id} == s.turns - {id};
      t' := FinishLoaded(env, t1, id, x);
      FinishesSnoc(t, t, Load(id));
      FinishesTrans(t, t1, t');
    } else {
      t' := FinishLoaded(env, t, id, x);
    }
  }

  lemma FinishSwitch(env: Env, t: seq<Action>, id: nat) returns (t': seq<Action>)
    requires Possible(env, t) && id in After(env, t).switches
    ensures Possible(env, t') && Finishes(t, t')
    ensures var s, s', c := After(env, t), After(env, t'), After(env, t).switches[id];
      && s'.turns == s.turns && s'.switches == s.switches - {id} && s'.next == s.next
      && Stored(s', c.key) == Some(env.switched(id, c.read))
      && Log(env, t', c.key) == Log(env, t, c.key) + [Switched(id)]
  {
    TraceSnoc(env, t, SwitchPut(id), After(env, t).switches[id].key);
    t' := t + [SwitchPut(id)];
    FinishesSnoc(t, t, SwitchPut(id));
  }

  // ---------------------------------------------------------------------------------
  // Something starts inside a turn.
  // ---------------------------------------------------------------------------------

  /** What the turn has saved so far, and then x; whatever starts next writes y. */
  function RiggedTurn(env: Env, id: nat, p: Phase, next: nat, x: SessionData, y: SessionData): Env {
    env.(
      writes := (i: nat, v: Option<SessionData>) =>
        if i == id then
          (if p.Loaded? && p.saved <= |env.writes(id, p.read)| then env.writes(id, p.read)[..p.saved] else []) + [x]
        else if i >= next then [y]
        else env.writes(i, v),
      switched := (i: nat, v: Option<SessionData>) => if i >= next then y else env.switched(i, v))
  }

  lemma RiggedTurnAlike(env: Env, s: State, id: nat, x: SessionData, y: SessionData)
    requires Inv(env, s) && id in s.turns
    requires s.turns[id].phase.Loaded? ==> s.turns[id].phase.saved <= |env.writes(id, s.turns[id].phase.read)|
    requires forall i <- s.turns :: s.turns[i].phase.Loaded? ==> s.turns[i].phase.saved <= |env.writes(i, s.turns[i].phase.read)|
    ensures var other := RiggedTurn(env, id, s.turns[id].phase, s.next, x, y);
      Alike(env, other, s) && OneToGo(other, id, s.turns[id].phase, x)
  {
    var p := s.turns[id].phase;
    var other := RiggedTurn(env, id, p, s.next, x, y);
    forall i | i in s.turns ensures AlikeTurn(env, other, i, s.turns[i].phase) {
      if i == id && p.Loaded? {
        var done := env.writes(id, p.read)[..p.saved];
        assert (done + [x])[..p.saved] == done;
      }
    }
  }

  /** Turns never have saved more than they write. */
  ghost predicate Bounded(env: Env, s: State) {
    forall i <- s.turns :: s.turns[i].phase.Loaded? ==> s.turns[i].phase.saved <= |env.writes(i, s.turns[i].phase.read)|
  }

  lemma {:induction false} TraceBounded(env: Env, trace: seq<Action>)
    requires Possible(env, trace)
    ensures Bounded(env, After(env, trace))
  {
    if trace != [] { TraceBounded(env, trace[..|trace| - 1]); }
  }

  /** The end of a trace that is not serial. */
  ghost predicate Lost(env: Env, rest: seq<Action>, key: Bytes) {
    && Possible(env, rest)
    && NoTurn(After(env, rest), key) && NoSwitch(After(env, rest), key)
    && Stored(After(env, rest), key) != Replay(env, Log(env, rest, key))
  }

  lemma NextIsNew(env: Env, s: State)
    requires Inv(env, s)
    ensures s.next !in s.turns && s.next !in s.switches
  {
  }

  lemma IntruderSwitches(env: Env, t: seq<Action>, key: Bytes, y: SessionData) returns (t': seq<Action>)
    requires Possible(env, t) && Inv(env, After(env, t))
    requires forall v :: env.switched(After(env, t).next, v) == y
    ensures Possible(env, t') && Finishes(t + [SwitchGet(key)], t')
    ensures After(env, t').turns == After(env, t).turns && After(env, t').switches == After(env, t).switches
    ensures Replay(env, Log(env, t', key)) == Some(y)
  {
    var s := After(env, t);
    NextIsNew(env, s);
    TraceSnoc(env, t, SwitchGet(key), key);
    var t1 := t + [SwitchGet(key)];
    hide Inv, After, Possible, Log, Replay, Stored, Finishes;
    var begun := Switch(key, Stored(s, key));
    assert After(env, t1).turns == s.turns && After(env, t1).switches == s.switches[s.next := begun];
    hide Next;
    t' := FinishSwitch(env, t1, s.next);
    ReplaySnoc(env, Log(env, t1, key), Switched(s.next));
    AddedAndGone(s.switches, s.next, begun);
  }

  lemma IntruderTurn(env: Env, t: seq<Action>, key: Bytes, y: SessionData) returns (t': seq<Action>)
    requires FreshTokens(env) && Possible(env, t) && Inv(env, After(env, t)) && Free(After(env, t), key)
    requires forall v :: env.writes(After(env, t).next, v) == [y]
    ensures Possible(env, t') && Finishes(t + [TryAcquire(key)], t')
    ensures After(env, t').turns == After(env, t).turns && After(env, t').switches == After(env, t).switches
    ensures Replay(env, Log(env, t', key)) == Some(y)
  {
    var s := After(env, t);
    TraceSnoc(env, t, TryAcquire(key), key);
    var t1 := t + [TryAcquire(key)];
    ReplaySnoc(env, Log(env, t, key), Turned(s.next));
    var turn := Turn(key, s.now, Locked);
    assert After(env, t1).turns == s.turns[s.next := turn];
    t' := FinishTurn(env, t1, s.next, y);
    AddedAndGone(s.turns, s.next, turn);
  }

  lemma IntruderClears(env: Env, t: seq<Action>, key: Bytes) returns (t': seq<Action>)
    requires Possible(env, t)
    ensures Possible(env, t') && Finishes(t + [Clear(key)], t')
    ensures After(env, t').turns == After(env, t).turns && After(env, t').switches == After(env, t).switches
    ensures Replay(env, Log(env, t', key)) == None
  {
    TraceSnoc(env, t, Clear(key), key);
    t' := t + [Clear(key)];
    ReplaySnoc(env, Log(env, t, key), Cleared);
  }

  lemma AddedAndGone<T>(m: map<nat, T>, k: nat, v: T)
    requires k !in m
    ensures m[k := v] - {k} == m
  {
  }

  /** The intruder of a turn is finished first; `y` is what it leaves, or nothing after a /clear. */
  lemma FinishIntruder(env: Env, t: seq<Action>, a: Action, key: Bytes, y: SessionData) returns (t': seq<Action>)
    requires FreshTokens(env) && Possible(env, t) && Inv(env, After(env, t))
    requires a == Clear(key) || a == SwitchGet(key) || (a == TryAcquire(key) && Free(After(env, t), key))
    requires forall i: nat, v :: i >= After(env, t).next ==> env.writes(i, v) == [y] && env.switched(i, v) == y
    ensures Possible(env, t') && Finishes(t + [a], t')
    ensures After(env, t').turns == After(env, t).turns && After(env, t').switches == After(env, t).switches
    ensures Replay(env, Log(env, t', key)) == if a.Clear? then None else Some(y)
  {
    hide Inv, FreshTokens, Free, Replay, Log, After, Possible;
    if a.Clear? {
      t' := IntruderClears(env, t, key);
    } else if a.SwitchGet? {
      t' := IntruderSwitches(env, t, key, y);
    } else {
      t' := IntruderTurn(env, t, key, y);
    }
  }

  /** Whatever starts on a key inside a turn on it, its effect is lost when the turn writes last. */
  lemma TurnOverwrites(env: Env, t: seq<Action>, a: Action, id: nat, x: SessionData, y: SessionData)
    returns (other: Env, rest: seq<Action>)
    requires FreshTokens(env) && Possible(env, t) && x != y
    requires id in After(env, t).turns
    requires var s, key := After(env, t), After(env, t).turns[id].key;
      && (forall i <- s.turns :: s.turns[i].key == key ==> i == id) && NoSwitch(s, key)
      && (a == Clear(key) || a == SwitchGet(key) || (a == TryAcquire(key) && Free(s, key)))
    ensures Possible(env, t) && Alike(env, other, After(env, t))
    ensures Finishes(t + [a], rest) && Lost(other, rest, After(env, t).turns[id].key)
  {
    var s := After(env, t);
    var key := s.turns[id].key;
    TraceInv(env, t);
    TraceBounded(env, t);
    other := RiggedTurn(env, id, s.turns[id].phase, s.next, x, y);
    RiggedTurnAlike(env, s, id, x, y);
    SameTrace(env, other, t, key);
    TraceInv(other, t);
    var t1 := FinishIntruder(other, t, a, key, y);
    rest := FinishTurn(other, t1, id, x);
    FinishesTrans(t + [a], t1, rest);
    forall i | i in After(other, rest).turns ensures After(other, rest).turns[i].key != key {
      assert i in s.turns && i != id;
    }
  }

  // ---------------------------------------------------------------------------------
  // Something starts inside a /model command.
  // ---------------------------------------------------------------------------------

  /** The command writes y if there is no session, else x. */
  function RiggedByAbsence(env: Env, id: nat, x: SessionData, y: SessionData): Env {
    env.(switched := (i: nat, v: Option<SessionData>) => if i == id then (if v == None then y else x) else env.switched(i, v))
  }

  /** The command writes y, turns that start next write x. */
  function RiggedBefore(env: Env, id: nat, next: nat, x: SessionData, y: SessionData): Env {
    env.(writes := (i: nat, v: Option<SessionData>) => if i >= next then [x] else env.writes(i, v),
         switched := (i: nat, v: Option<SessionData>) => if i == id then y else env.switched(i, v))
  }

  /** The command writes z; the next one writes y if it finds z, else x. */
  function RiggedPair(env: Env, id: nat, next: nat, x: SessionData, y: SessionData, z: SessionData): Env {
    env.(switched := (i: nat, v: Option<SessionData>) =>
      if i == id then z else if i >= next then (if v == Some(z) then y else x) else env.switched(i, v))
  }

  lemma SwitchRigAlike(env: Env, other: Env, s: State, id: nat)
    requires Inv(env, s) && Bounded(env, s) && id in s.switches
    requires other.ttl == env.ttl && other.token == env.token
    requires forall i: nat, v :: i < s.next ==> other.writes(i, v) == env.writes(i, v)
    requires forall i: nat, v :: i < s.next && i != id ==> other.switched(i, v) == env.switched(i, v)
    ensures Alike(env, other, s)
  {
    forall i | i in s.turns ensures AlikeTurn(env, other, i, s.turns[i].phase) {}
  }

  lemma ClearInSwitch(env: Env, t: seq<Action>, id: nat, x: SessionData, y: SessionData)
    returns (other: Env, rest: seq<Action>)
    requires FreshTokens(env) && Possible(env, t) && x != y && id in After(env, t).switches
    requires Quietly(After(env, t), id) && After(env, t).switches[id].read != None
    ensures Alike(env, other, After(env, t))
    ensures Finishes(t + [Clear(After(env, t).switches[id].key)], rest) && Lost(other, rest, After(env, t).switches[id].key)
  {
    var s := After(env, t);
    var key := s.switches[id].key;
    TraceInv(env, t);
    TraceBounded(env, t);
    other := RiggedByAbsence(env, id, x, y);
    SwitchRigAlike(env, other, s, id);
    SameTrace(env, other, t, key);
    TraceSnoc(other, t, Clear(key), key);
    var t1 := t + [Clear(key)];
    ReplaySnoc(other, Log(other, t, key), Cleared);
    rest := FinishSwitch(other, t1, id);
    ReplaySnoc(other, Log(other, t1, key), Switched(id));
    OnlySwitch(s, id, After(other, rest));
  }

  /** The command is the only thing going on on its key. */
  predicate Quietly(s: State, id: nat)
    requires id in s.switches
  {
    var key := s.switches[id].key;
    NoTurn(s, key) && forall i <- s.switches :: s.switches[i].key == key ==> i == id
  }

  lemma OnlySwitch(s: State, id: nat, s': State)
    requires id in s.switches && Quietly(s, id)
    requires s'.turns == s.turns && s'.switches == s.switches - {id}
    ensures NoTurn(s', s.switches[id].key) && NoSwitch(s', s.switches[id].key)
  {
  }

  lemma TurnInSwitch(env: Env, t: seq<Action>, id: nat, x: SessionData, y: SessionData)
    returns (other: Env, rest: seq<Action>)
    requires FreshTokens(env) && Possible(env, t) && x != y && id in After(env, t).switches
    requires Quietly(After(env, t), id) && Free(After(env, t), After(env, t).switches[id].key)
    ensures Alike(env, other, After(env, t))
    ensures Finishes(t + [TryAcquire(After(env, t).switches[id].key)], rest) && Lost(other, rest, After(env, t).switches[id].key)
  {
    var s := After(env, t);
    var key := s.switches[id].key;
    TraceInv(env, t);
    TraceBounded(env, t);
    other := RiggedBefore(env, id, s.next, x, y);
    SwitchRigAlike(env, other, s, id);
    SameTrace(env, other, t, key);
    TraceSnoc(other, t, TryAcquire(key), key);
    var turn := Turn(key, s.now, Locked);
    assert After(other, t + [TryAcquire(key)]).turns == s.turns[s.next := turn];
    rest := PutThenTurn(other, t + [TryAcquire(key)], id, s.next, x, y);
    AddedAndGone(s.turns, s.next, turn);
    OnlySwitch(s, id, After(other, rest));
  }

  /** The command writes y, then the turn writes x; the log has them the other way round. */
  lemma PutThenTurn(env: Env, t: seq<Action>, id: nat, turn: nat, x: SessionData, y: SessionData) returns (rest: seq<Action>)
    requires FreshTokens(env) && Possible(env, t) && id in After(env, t).switches && turn in After(env, t).turns
    requires After(env, t).turns[turn].key == After(env, t).switches[id].key
    requires OneToGo(env, turn, After(env, t).turns[turn].phase, x) && forall v :: env.switched(id, v) == y
    ensures Possible(env, rest) && Finishes(t, rest)
    ensures After(env, rest).turns == After(env, t).turns - {turn}
    ensures After(env, rest).switches == After(env, t).switches - {id}
    ensures var key := After(env, t).switches[id].key;
      Stored(After(env, rest), key) == Some(x) && Replay(env, Log(env, rest, key)) == Some(y)
  {
    var key := After(env, t).switches[id].key;
    var t2 := FinishSwitch(env, t, id);
    ReplaySnoc(env, Log(env, t, key), Switched(id));
    rest := FinishTurn(env, t2, turn, x);
    FinishesTrans(t, t2, rest);
  }

  lemma SwitchInSwitch(env: Env, t: seq<Action>, id: nat, x: SessionData, y: SessionData)
    returns (other: Env, rest: seq<Action>)
    requires FreshTokens(env) && Possible(env, t) && x != y && id in After(env, t).switches
    requires Quietly(After(env, t), id)
    ensures Alike(env, other, After(env, t))
    ensures Finishes(t + [SwitchGet(After(env, t).switches[id].key)], rest) && Lost(other, rest, After(env, t).switches[id].key)
  {
    hide RiggedPair, Possible, After, Finishes, Lost, Quietly, FreshTokens, Stored, NoTurn, Bounded;
    var s := After(env, t);
    var key := s.switches[id].key;
    var z := if Stored(s, key) == Some(x) then y else x;
    TraceInv(env, t);
    TraceBounded(env, t);
    other := RiggedPair(env, id, s.next, x, y, z);
    PairWrites(env, id, s.next, x, y, z, Stored(s, key));
    PairIsAlike(env, s, id, x, y, z);
    SameTrace(env, other, t, key);
    rest := SwitchTwice(other, t, id, x, y, z);
  }

  lemma PairIsAlike(env: Env, s: State, id: nat, x: SessionData, y: SessionData, z: SessionData)
    requires Inv(env, s) && Bounded(env, s) && id in s.switches
    ensures Alike(env, RiggedPair(env, id, s.next, x, y, z), s)
  {
    SwitchRigAlike(env, RiggedPair(env, id, s.next, x, y, z), s, id);
  }

  lemma PairWrites(env: Env, id: nat, next: nat, x: SessionData, y: SessionData, z: SessionData, seen: Option<SessionData>)
    requires id < next && seen != Some(z)
    ensures var other := RiggedPair(env, id, next, x, y, z);
      && other.switched(next, seen) == x && other.switched(next, Some(z)) == y
      && forall v :: other.switched(id, v) == z
  {
  }

  /** A second command reads before the first has written. */
  lemma SwitchTwice(env: Env, t: seq<Action>, id: nat, x: SessionData, y: SessionData, z: SessionData) returns (rest: seq<Action>)
    requires Possible(env, t) && Inv(env, After(env, t)) && id in After(env, t).switches && Quietly(After(env, t), id)
    requires x != y && forall v :: env.switched(id, v) == z
    requires var s := After(env, t);
      && env.switched(s.next, Stored(s, s.switches[id].key)) == x && env.switched(s.next, Some(z)) == y
    ensures Finishes(t + [SwitchGet(After(env, t).switches[id].key)], rest) && Lost(env, rest, After(env, t).switches[id].key)
  {
    var s := After(env, t);
    var key := s.switches[id].key;
    TraceSnoc(env, t, SwitchGet(key), key);
    var t1 := t + [SwitchGet(key)];
    rest := PutTwice(env, t1, id, s.next, y, z);
    assert After(env, t1).switches - {id} - {s.next} == s.switches - {id};
    OnlySwitch(s, id, After(env, rest));
  }

  /** Two commands that have both read put one after the other. */
  lemma PutTwice(env: Env, t: seq<Action>, id: nat, id': nat, y: SessionData, z: SessionData) returns (rest: seq<Action>)
    requires Possible(env, t) && id in After(env, t).switches && id' in After(env, t).switches && id != id'
    requires After(env, t).switches[id].key == After(env, t).switches[id'].key
    requires env.switched(id', Some(z)) == y && forall v :: env.switched(id, v) == z
    ensures Possible(env, rest) && Finishes(t, rest)
    ensures After(env, rest).turns == After(env, t).turns
    ensures After(env, rest).switches == After(env, t).switches - {id} - {id'}
    ensures var s := After(env, t); var key := s.switches[id].key;
      && Stored(After(env, rest), key) == Some(env.switched(id', s.switches[id'].read))
      && Replay(env, Log(env, rest, key)) == Some(y)
  {
    var key := After(env, t).switches[id].key;
    var t2 := FinishSwitch(env, t, id);
    ReplaySnoc(env, Log(env, t, key), Switched(id));
    rest := FinishSwitch(env, t2, id');
    ReplaySnoc(env, Log(env, t2, key), Switched(id'));
    FinishesTrans(t, t2, rest);
  }

  // ---------------------------------------------------------------------------------
  // The exact condition.
  // ---------------------------------------------------------------------------------

  /** After an orderly trace there is at most one thing going on on the key. */
  lemma OneThing(env: Env, trace: seq<Action>, key: Bytes)
    requires FreshTokens(env) && Possible(env, trace) && Orderly(env, trace, key)
    ensures var s := After(env, trace);
      && (forall i, j :: i in s.turns && j in s.turns && s.turns[i].key == s.turns[j].key == key ==> i == j)
      && (NoTurn(s, key) || NoSwitch(s, key))
      && (forall i <- s.switches :: s.switches[i].key == key ==> Quietly(s, i) && s.switches[i].read == Stored(s, key))
  {
    TraceSerial(env, trace, key);
    var s, log := After(env, trace), Log(env, trace, key);
    forall i, j | i in s.turns && j in s.turns && s.turns[i].key == s.turns[j].key == key ensures i == j {
      assert UnderWay(env, s, i, s.turns[i], log) && UnderWay(env, s, j, s.turns[j], log);
    }
  }

  /** As soon as a step of a trace that was orderly so far is not, there is a system that has
      behaved in exactly the same way up to that step, and a way of just finishing what has
      begun, that leave in the store something else than the replay of the log, in its order. */
  lemma DisorderLoses(env: Env, trace: seq<Action>, a: Action, key: Bytes, x: SessionData, y: SessionData)
    returns (other: Env, rest: seq<Action>)
    requires FreshTokens(env) && Possible(env, trace) && Orderly(env, trace, key) && x != y
    requires Enabled(env, After(env, trace), a) && !OrderlyStep(After(env, trace), a, key)
    ensures FreshTokens(other) && other.ttl == env.ttl && other.token == env.token
    ensures SameStates(env, other, trace)
    ensures Finishes(trace + [a], rest) && Lost(other, rest, key)
  {
    var s := After(env, trace);
    OneThing(env, trace, key);
    if !NoTurn(s, key) {
      var id :| id in s.turns && s.turns[id].key == key;
      other, rest := TurnOverwrites(env, trace, a, id, x, y);
    } else {
      var id :| id in s.switches && s.switches[id].key == key;
      match a
      case Clear(_) => other, rest := ClearInSwitch(env, trace, id, x, y);
      case TryAcquire(_) => other, rest := TurnInSwitch(env, trace, id, x, y);
      case SwitchGet(_) => other, rest := SwitchInSwitch(env, trace, id, x, y);
    }
    SameTrace(env, other, trace, key);
  }

  /** The other system has the same lock, and has behaved in the same way. */
  ghost predicate SameFace(env: Env, other: Env, trace: seq<Action>) {
    FreshTokens(other) && other.ttl == env.ttl && other.token == env.token && SameStates(env, other, trace)
  }

  /** Whatever turns and commands will write, if they are just finished from here on, the store is
      serial between turns. */
  ghost predicate Safe(env: Env, trace: seq<Action>, key: Bytes) {
    forall other: Env, rest: seq<Action> ::
      SameFace(env, other, trace) && Finishes(trace, rest) && Possible(other, rest) && NoTurn(After(other, rest), key)
      ==> Stored(After(other, rest), key) == Replay(other, Log(other, rest, key))
  }

  predicate OrderlySoFar(env: Env, trace: seq<Action>, key: Bytes) {
    Possible(env, trace) && Orderly(env, trace, key)
  }

  lemma {:induction false} OrderlyAlike(env: Env, other: Env, trace: seq<Action>, key: Bytes)
    requires SameStates(env, other, trace) && Orderly(env, trace, key)
    ensures Orderly(other, trace, key)
  {
    if trace != [] { OrderlyAlike(env, other, trace[..|trace| - 1], key); }
  }

  lemma {:induction false} FinishingIsOrderly(env: Env, trace: seq<Action>, rest: seq<Action>, key: Bytes)
    requires OrderlySoFar(env, trace, key) && Finishes(trace, rest) && Possible(env, rest)
    ensures Orderly(env, rest, key)
    decreases |rest|
  {
    if |rest| > |trace| {
      FinishingIsOrderly(env, trace, rest[..|rest| - 1], key);
      assert Finishing(rest[|rest| - 1]);
    } else {
      assert rest == trace;
    }
  }

  lemma OrderlyIsSafe(env: Env, trace: seq<Action>, key: Bytes)
    requires FreshTokens(env) && OrderlySoFar(env, trace, key)
    ensures Safe(env, trace, key)
  {
    forall other: Env, rest: seq<Action> |
      SameFace(env, other, trace) && Finishes(trace, rest) && Possible(other, rest) && NoTurn(After(other, rest), key)
      ensures Stored(After(other, rest), key) == Replay(other, Log(other, rest, key))
    {
      OrderlyAlike(env, other, trace, key);
      FinishingIsOrderly(other, trace, rest, key);
      StoreIsSerial(other, rest, key);
    }
  }

  lemma {:induction false} PossiblePrefix(env: Env, trace: seq<Action>, rest: seq<Action>)
    requires Possible(env, rest) && trace <= rest
    ensures Possible(env, trace)
    decreases |rest|
  {
    if |rest| > |trace| { PossiblePrefix(env, trace, rest[..|rest| - 1]); } else { assert rest == trace; }
  }

  lemma DisorderIsUnsafe(env: Env, trace: seq<Action>, key: Bytes)
    requires FreshTokens(env) && Possible(env, trace) && trace != []
    requires Orderly(env, trace[..|trace| - 1], key) && !Orderly(env, trace, key)
    ensures !Safe(env, trace, key)
  {
    var init, a := trace[..|trace| - 1], trace[|trace| - 1];
    var x := SessionData(key, "", "", "", "x", []);
    var y := x.(provider := "y");
    assert init + [a] == trace;
    hide Orderly, OrderlyStep, After, Stored, Replay, Log;
    var other, rest := DisorderLoses(env, init, a, key, x, y);
    PossiblePrefix(other, trace, rest);
    assert SameStates(env, other, trace);
  }

  ghost predicate AlwaysSafe(env: Env, trace: seq<Action>, key: Bytes) {
    Safe(env, trace, key) && (trace == [] || AlwaysSafe(env, trace[..|trace| - 1], key))
  }

  /** Serialisability in the order of the log, exactly: a trace has at every point been safe for the
      key, whatever the turns and commands under way and to come write, if and only if turns and
      commands on the key have not overlapped. */
  lemma {:induction false} SerialisableExactly(env: Env, trace: seq<Action>, key: Bytes)
    requires FreshTokens(env) && Possible(env, trace)
    ensures Orderly(env, trace, key) <==> AlwaysSafe(env, trace, key)
  {
    if trace != [] { SerialisableExactly(env, trace[..|trace| - 1], key); }
    if Orderly(env, trace, key) {
      OrderlyIsSafe(env, trace, key);
    } else if Orderly(env, trace[..|trace| - 1], key) {
      DisorderIsUnsafe(env, trace, key);
    }
  }
}
