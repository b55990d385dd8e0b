/** Serialisability of stored sessions: under the lock's time limit, and with commands kept out of
    turns, each key holds what its turns and commands would have left one after another. */
module Serial {
  import opened Bytes
  import opened Redis
  import opened Sessions
  import opened Turns

  // ---------------------------------------------------------------------------------
  // The serial history of a key, and what it should leave in the store.
  // ---------------------------------------------------------------------------------

  datatype Entry = Turned(id: nat) | Cleared | Switched(id: nat)

  /** Granted turns in the order of their grants, with the commands that ran between them. */
  function Log(env: Env, trace: seq<Action>, key: Bytes): seq<Entry>
    requires Possible(env, trace)
  {
    if trace == [] then []
    else
      var init := trace[..|trace| - 1];
      Log(env, init, key) + Logged(After(env, init), trace[|trace| - 1], key)
  }

  function Logged(s: State, a: Action, key: Bytes): seq<Entry> {
    match a
    case TryAcquire(k) => if k == key && Free(s, k) then [Turned(s.next)] else []
    case Clear(k) => if k == key then [Cleared] else []
    case SwitchPut(id) => if id in s.switches && s.switches[id].key == key then [Switched(id)] else []
    case _ => []
  }

  function Effect(env: Env, e: Entry, v: Option<SessionData>): Option<SessionData> {
    match e
    case Turned(id) =>
      var ws := env.writes(id, v);
      if ws == [] then v else Some(ws[|ws| - 1])
    case Cleared => None
    case Switched(id) => Some(env.switched(id, v))
  }

  function Replay(env: Env, log: seq<Entry>): Option<SessionData> {
    if log == [] then None else Effect(env, log[|log| - 1], Replay(env, log[..|log| - 1]))
  }

  // ---------------------------------------------------------------------------------
  // Orderly traces.
  // ---------------------------------------------------------------------------------

  predicate NoTurn(s: State, key: Bytes) {
    forall id <- s.turns :: s.turns[id].key != key
  }

  predicate NoSwitch(s: State, key: Bytes) {
    forall id <- s.switches :: s.switches[id].key != key
  }

  /** Turns and commands on the key do not overlap: none starts before the one before it is done.
      A /clear that finds nothing to clear may come at any time but in a turn. */
  predicate OrderlyStep(s: State, a: Action, key: Bytes) {
    match a
    case Clear(k) => k == key ==> NoTurn(s, key) && (NoSwitch(s, key) || Stored(s, key).None?)
    case SwitchGet(k) => k == key ==> NoTurn(s, key) && NoSwitch(s, key)
    case TryAcquire(k) => k == key && Free(s, k) ==> NoTurn(s, key) && NoSwitch(s, key)
    case _ => true
  }

  predicate Orderly(env: Env, trace: seq<Action>, key: Bytes)
    requires Possible(env, trace)
  {
    trace == [] ||
    (Orderly(env, trace[..|trace| - 1], key) &&
     OrderlyStep(After(env, trace[..|trace| - 1]), trace[|trace| - 1], key))
  }

  // ---------------------------------------------------------------------------------
  // The invariant.
  // ---------------------------------------------------------------------------------

  /** How far a turn that found `v` has come. */
  predicate Progress(env: Env, s: State, id: nat, t: Turn, v: Option<SessionData>) {
    match t.phase
    case Locked => Stored(s, t.key) == v
    case Loaded(read, n) =>
      && read == v
      && n <= |env.writes(id, v)|
      && Stored(s, t.key) == if n == 0 then v else Some(env.writes(id, v)[n - 1])
  }

  /** The one turn under way is the last entry of the log. */
  predicate UnderWay(env: Env, s: State, id: nat, t: Turn, log: seq<Entry>) {
    log != [] && log[|log| - 1] == Turned(id) && Progress(env, s, id, t, Replay(env, log[..|log| - 1]))
  }

  /** Entries at session keys are sessions and never expire. */
  ghost predicate WellStored(db: Db<Value>) {
    forall k :: SessKey(k) in db ==> db[SessKey(k)].value.Blob? && db[SessKey(k)].expires.None?
  }

  ghost predicate SerialInv(env: Env, s: State, key: Bytes, log: seq<Entry>) {
    && (forall id <- s.turns :: s.turns[id].key == key ==> UnderWay(env, s, id, s.turns[id], log))
    && (forall id <- s.switches :: s.switches[id].key == key ==> s.switches[id].read == Replay(env, log))
    && (NoTurn(s, key) ==> Stored(s, key) == Replay(env, log))
    && (NoTurn(s, key) || NoSwitch(s, key))
    && (forall a <- s.switches, b <- s.switches :: s.switches[a].key == s.switches[b].key == key ==> a == b)
  }

  lemma ReplaySnoc(env: Env, log: seq<Entry>, e: Entry)
    ensures Replay(env, log + [e]) == Effect(env, e, Replay(env, log))
  {
    assert (log + [e])[..|log|] == log;
  }

  /** Steps on locks and on other keys leave the stored session of a key alone. */
  lemma StoredUnchanged(env: Env, s: State, a: Action, key: Bytes)
    requires Enabled(env, s, a) && (a.Advance? ==> WellStored(s.db))
    requires match a
      case Save(id) => s.turns[id].key != key
      case Clear(k) => k != key
      case SwitchPut(id) => s.switches[id].key != key
      case _ => true
    ensures Stored(Next(env, s, a), key) == Stored(s, key)
  {
    match a
    case Save(id) => KeysApart(s.turns[id].key, key);
    case Clear(k) => KeysApart(k, key);
    case SwitchPut(id) => KeysApart(s.switches[id].key, key);
    case TryAcquire(k) => KeysApart(k, key);
    case Release(id, _) => KeysApart(s.turns[id].key, key);
    case _ =>
  }

  lemma StepWellStored(env: Env, s: State, a: Action)
    requires Enabled(env, s, a) && WellStored(s.db)
    ensures WellStored(Next(env, s, a).db)
  {
    var s' := Next(env, s, a);
    forall k | SessKey(k) in s'.db
      ensures s'.db[SessKey(k)].value.Blob? && s'.db[SessKey(k)].expires.None?
    {
      match a
      case Save(id) => KeysApart(s.turns[id].key, k);
      case Clear(c) => KeysApart(c, k);
      case SwitchPut(id) => KeysApart(s.switches[id].key, k);
      case TryAcquire(c) => KeysApart(c, k);
      case Release(id, _) => KeysApart(s.turns[id].key, k);
      case _ =>
    }
  }

  lemma AcquireSerial(env: Env, s: State, k: Bytes, key: Bytes, log: seq<Entry>)
    requires Inv(env, s) && WellStored(s.db) && SerialInv(env, s, key, log)
    requires OrderlyStep(s, TryAcquire(k), key)
    ensures SerialInv(env, Next(env, s, TryAcquire(k)), key, log + Logged(s, TryAcquire(k), key))
  {
    var s' := Next(env, s, TryAcquire(k));
    StoredUnchanged(env, s, TryAcquire(k), key);
    if Free(s, k) && k == key {
      var log' := log + [Turned(s.next)];
      assert log'[..|log|] == log;
      assert UnderWay(env, s', s.next, s'.turns[s.next], log');
    } else {
      SameTurns(env, s, s', key, log);
    }
  }

  lemma StillTurn(s: State, s': State, key: Bytes)
    requires forall id <- s.turns :: s.turns[id].key == key ==> id in s'.turns && s'.turns[id].key == key
    ensures NoTurn(s', key) ==> NoTurn(s, key)
  {
    if !NoTurn(s, key) {
      var id :| id in s.turns && s.turns[id].key == key;
      assert id in s'.turns;
    }
  }

  /** Nothing about the key has changed. */
  lemma SameTurns(env: Env, s: State, s': State, key: Bytes, log: seq<Entry>)
    requires SerialInv(env, s, key, log)
    requires Stored(s', key) == Stored(s, key)
    requires forall id <- s'.turns :: s'.turns[id].key == key ==> id in s.turns && s.turns[id] == s'.turns[id]
    requires forall id <- s.turns :: s.turns[id].key == key ==> id in s'.turns && s'.turns[id].key == key
    requires forall id <- s'.switches :: s'.switches[id].key == key ==> id in s.switches && s.switches[id] == s'.switches[id]
    ensures SerialInv(env, s', key, log + [])
  {
    assert log + [] == log;
    StillTurn(s, s', key);
    forall id | id in s'.turns && s'.turns[id].key == key ensures UnderWay(env, s', id, s'.turns[id], log) {
      assert UnderWay(env, s, id, s.turns[id], log);
    }
  }

  lemma LoadSerial(env: Env, s: State, id: nat, key: Bytes, log: seq<Entry>)
    requires WellStored(s.db) && SerialInv(env, s, key, log) && Enabled(env, s, Load(id))
    ensures SerialInv(env, Next(env, s, Load(id)), key, log)
  {
    var s' := Next(env, s, Load(id));
    StoredUnchanged(env, s, Load(id), key);
    StillTurn(s, s', key);
    forall x | x in s'.turns && s'.turns[x].key == key ensures UnderWay(env, s', x, s'.turns[x], log) {
      assert UnderWay(env, s, x, s.turns[x], log);
    }
  }

  lemma SaveSerial(env: Env, s: State, id: nat, key: Bytes, log: seq<Entry>)
    requires WellStored(s.db) && SerialInv(env, s, key, log) && Enabled(env, s, Save(id))
    ensures SerialInv(env, Next(env, s, Save(id)), key, log)
  {
    var s' := Next(env, s, Save(id));
    if s.turns[id].key != key { StoredUnchanged(env, s, Save(id), key); }
    StillTurn(s, s', key);
    forall x | x in s'.turns && s'.turns[x].key == key ensures UnderWay(env, s', x, s'.turns[x], log) {
      assert UnderWay(env, s, x, s.turns[x], log);
      if s.turns[id].key == key { assert UnderWay(env, s, id, s.turns[id], log); }
    }
  }

  lemma ReleaseSerial(env: Env, s: State, id: nat, up: bool, key: Bytes, log: seq<Entry>)
    requires WellStored(s.db) && SerialInv(env, s, key, log) && Enabled(env, s, Release(id, up))
    ensures SerialInv(env, Next(env, s, Release(id, up)), key, log)
  {
    var s' := Next(env, s, Release(id, up));
    StoredUnchanged(env, s, Release(id, up), key);
    if s.turns[id].key == key {
      assert UnderWay(env, s, id, s.turns[id], log);
      assert log == log[..|log| - 1] + [Turned(id)];
      ReplaySnoc(env, log[..|log| - 1], Turned(id));
      forall x | x in s'.turns ensures s'.turns[x].key != key {
        assert s.turns[x].key == key ==> UnderWay(env, s, x, s.turns[x], log);
      }
    } else {
      SameTurns(env, s, s', key, log);
      assert log + [] == log;
    }
  }

  lemma ClearSerial(env: Env, s: State, k: Bytes, key: Bytes, log: seq<Entry>)
    requires WellStored(s.db) && SerialInv(env, s, key, log) && OrderlyStep(s, Clear(k), key)
    ensures SerialInv(env, Next(env, s, Clear(k)), key, log + Logged(s, Clear(k), key))
  {
    var s' := Next(env, s, Clear(k));
    if k == key {
      ReplaySnoc(env, log, Cleared);
    } else {
      StoredUnchanged(env, s, Clear(k), key);
      SameTurns(env, s, s', key, log);
    }
  }

  lemma SwitchGetSerial(env: Env, s: State, k: Bytes, key: Bytes, log: seq<Entry>)
    requires WellStored(s.db) && SerialInv(env, s, key, log) && OrderlyStep(s, SwitchGet(k), key)
    ensures SerialInv(env, Next(env, s, SwitchGet(k)), key, log)
  {
    var s' := Next(env, s, SwitchGet(k));
    StoredUnchanged(env, s, SwitchGet(k), key);
    if k != key {
      SameTurns(env, s, s', key, log);
      assert log + [] == log;
    }
  }

  lemma SwitchPutSerial(env: Env, s: State, id: nat, key: Bytes, log: seq<Entry>)
    requires WellStored(s.db) && SerialInv(env, s, key, log) && Enabled(env, s, SwitchPut(id))
    ensures SerialInv(env, Next(env, s, SwitchPut(id)), key, log + Logged(s, SwitchPut(id), key))
  {
    var s' := Next(env, s, SwitchPut(id));
    if s.switches[id].key == key {
      ReplaySnoc(env, log, Switched(id));
    } else {
      StoredUnchanged(env, s, SwitchPut(id), key);
      SameTurns(env, s, s', key, log);
    }
  }

  lemma StepSerial(env: Env, s: State, a: Action, key: Bytes, log: seq<Entry>)
    requires Inv(env, s) && WellStored(s.db) && SerialInv(env, s, key, log)
    requires Enabled(env, s, a) && OrderlyStep(s, a, key)
    ensures SerialInv(env, Next(env, s, a), key, log + Logged(s, a, key))
  {
    assert log + [] == log;
    match a
    case Advance(d) =>
      StoredUnchanged(env, s, a, key);
      SameTurns(env, s, Next(env, s, a), key, log);
    case TryAcquire(k) => AcquireSerial(env, s, k, key, log);
    case Load(id) => LoadSerial(env, s, id, key, log);
    case Save(id) => SaveSerial(env, s, id, key, log);
    case Release(id, up) => ReleaseSerial(env, s, id, up, key, log);
    case Clear(k) => ClearSerial(env, s, k, key, log);
    case SwitchGet(k) => SwitchGetSerial(env, s, k, key, log);
    case SwitchPut(id) => SwitchPutSerial(env, s, id, key, log);
  }

  lemma {:induction false} TraceSerial(env: Env, trace: seq<Action>, key: Bytes)
    requires FreshTokens(env) && Possible(env, trace) && Orderly(env, trace, key)
    ensures WellStored(After(env, trace).db)
    ensures SerialInv(env, After(env, trace), key, Log(env, trace, key))
  {
    if trace != [] {
      var init, a := trace[..|trace| - 1], trace[|trace| - 1];
      TraceSerial(env, init, key);
      TraceInv(env, init);
      StepWellStored(env, After(env, init), a);
      StepSerial(env, After(env, init), a, key, Log(env, init, key));
    }
  }

  /** The stored session of a key with no turn under way is what its granted turns and its
      commands leave when they run one after another in the order of the log; what happens on
      other keys, and refused turns, do not matter. */
  lemma StoreIsSerial(env: Env, trace: seq<Action>, key: Bytes)
    requires FreshTokens(env) && Possible(env, trace) && Orderly(env, trace, key)
    requires NoTurn(After(env, trace), key)
    ensures Stored(After(env, trace), key) == Replay(env, Log(env, trace, key))
  {
    TraceSerial(env, trace, key);
  }

  /** A turn that is under way has read, and is extending, what the entries before it left. */
  lemma TurnSeesSerialPrefix(env: Env, trace: seq<Action>, id: nat)
    requires FreshTokens(env) && Possible(env, trace)
    requires id in After(env, trace).turns && Orderly(env, trace, After(env, trace).turns[id].key)
    ensures var s := After(env, trace); var t := s.turns[id];
      UnderWay(env, s, id, t, Log(env, trace, t.key))
  {
    TraceSerial(env, trace, After(env, trace).turns[id].key);
  }

  // ---------------------------------------------------------------------------------
  // Turns within the lock's time limit never overlap.
  // ---------------------------------------------------------------------------------

  /** Every turn on the key is within the lock's time limit. */
  predicate InTime(env: Env, s: State, key: Bytes) {
    forall id <- s.turns :: s.turns[id].key == key ==> s.now < s.turns[id].since + env.ttl
  }

  /** Commands keep out of turns and of each other, and no turn starts while a /model command is
      half way. */
  predicate CommandsKeepOut(s: State, a: Action, key: Bytes) {
    match a
    case Clear(k) => k == key ==> NoTurn(s, key) && NoSwitch(s, key)
    case SwitchGet(k) => k == key ==> NoTurn(s, key) && NoSwitch(s, key)
    case TryAcquire(k) => k == key && Free(s, k) ==> NoSwitch(s, key)
    case _ => true
  }

  /** Whenever a turn is granted on the key, all turns on it are within the time limit, and
      commands keep out. */
  predicate Timely(env: Env, trace: seq<Action>, key: Bytes)
    requires Possible(env, trace)
  {
    trace == [] ||
    var s, a := After(env, trace[..|trace| - 1]), trace[|trace| - 1];
    && Timely(env, trace[..|trace| - 1], key)
    && CommandsKeepOut(s, a, key)
    && (a == TryAcquire(key) ==> InTime(env, s, key))
  }

  /** A grant means that no turn on the key is within its time limit. */
  lemma GrantMeansNoTurn(env: Env, s: State, key: Bytes)
    requires Inv(env, s) && InTime(env, s, key) && Free(s, key)
    ensures NoTurn(s, key)
  {
    forall id | id in s.turns ensures s.turns[id].key != key {
      assert HoldsOrLate(env, s, id, s.turns[id]);
    }
  }

  /** The lock does its work as long as turns keep its time limit: then they never overlap. */
  lemma {:induction false} TimelyIsOrderly(env: Env, trace: seq<Action>, key: Bytes)
    requires FreshTokens(env) && Possible(env, trace) && Timely(env, trace, key)
    ensures Orderly(env, trace, key)
  {
    if trace != [] {
      var init, a := trace[..|trace| - 1], trace[|trace| - 1];
      TimelyIsOrderly(env, init, key);
      TraceInv(env, init);
      if a == TryAcquire(key) && Free(After(env, init), key) { GrantMeansNoTurn(env, After(env, init), key); }
    }
  }

  // ---------------------------------------------------------------------------------
  // What an overlap does: two traces.
  // ---------------------------------------------------------------------------------

  lemma TraceSnoc(env: Env, trace: seq<Action>, a: Action, key: Bytes)
    requires Possible(env, trace) && Enabled(env, After(env, trace), a)
    ensures Possible(env, trace + [a])
    ensures After(env, trace + [a]) == Next(env, After(env, trace), a)
    ensures Log(env, trace + [a], key) == Log(env, trace, key) + Logged(After(env, trace), a, key)
  {
    assert (trace + [a])[..|trace|] == trace;
  }

  /** The system with one turn that has been granted at time 0 and has loaded. */
  function Working(env: Env, key: Bytes): State {
    State(0, map[LockKey(key) := Redis.Entry(Token(env.token(0)), Some(env.ttl))], 1,
          map[0 := Turn(key, 0, Loaded(None, 0))], map[])
  }

  lemma FirstTurn(env: Env, key: Bytes) returns (trace: seq<Action>)
    requires FreshTokens(env)
    ensures Possible(env, trace)
    ensures After(env, trace) == Working(env, key) && Log(env, trace, key) == [Turned(0)]
  {
    TraceSnoc(env, [], TryAcquire(key), key);
    TraceSnoc(env, [] + [TryAcquire(key)], Load(0), key);
    KeysApart(key, key);
    trace := [] + [TryAcquire(key)] + [Load(0)];
    assert After(env, [] + [TryAcquire(key)]).turns == map[0 := Turn(key, 0, Locked)];
  }

  /** A /clear in the middle of a turn is undone by the turn's next Save: the user is told that
      the context is gone, and yet it is there. */
  lemma ClearDuringTurnIsLost(env: Env, key: Bytes, x: SessionData) returns (trace: seq<Action>)
    requires FreshTokens(env) && env.writes(0, None) == [x]
    ensures Possible(env, trace) && NoTurn(After(env, trace), key)
    ensures Log(env, trace, key) == [Turned(0), Cleared]
    ensures Replay(env, Log(env, trace, key)) == None && Stored(After(env, trace), key) == Some(x)
  {
    var t := FirstTurn(env, key);
    var t1 := ClearDuring(env, key, t);
    TraceSnoc(env, t1, Save(0), key);
    var t2 := t1 + [Save(0)];
    assert After(env, t2).db == Set(Working(env, key).db, SessKey(key), Blob(x));
    TraceSnoc(env, t2, Release(0, true), key);
    StoredUnchanged(env, After(env, t2), Release(0, true), key);
    trace := t2 + [Release(0, true)];
    ReplaySnoc(env, [Turned(0)], Cleared);
    assert [Turned(0)] + [Cleared] == [Turned(0), Cleared];
  }

  lemma ClearDuring(env: Env, key: Bytes, t: seq<Action>) returns (trace: seq<Action>)
    requires FreshTokens(env) && Possible(env, t) && Log(env, t, key) == [Turned(0)]
    requires After(env, t) == Working(env, key)
    ensures Possible(env, trace) && Log(env, trace, key) == [Turned(0), Cleared]
    ensures After(env, trace) == Working(env, key)
  {
    KeysApart(key, key);
    TraceSnoc(env, t, Clear(key), key);
    trace := t + [Clear(key)];
    assert Del(Working(env, key).db, SessKey(key)) == Working(env, key).db;
    assert [Turned(0)] + [Cleared] == [Turned(0), Cleared];
  }

  /** A turn that outlives the lock lets a second one in, which does not see the first one's
      answer and overwrites it: with distinct answers the first is lost. */
  lemma LateTurnLosesUpdate(env: Env, key: Bytes, x: SessionData, y: SessionData, z: SessionData)
    returns (trace: seq<Action>)
    requires FreshTokens(env)
    requires env.writes(0, None) == [x] && env.writes(1, None) == [y] && env.writes(1, Some(x)) == [z]
    ensures Possible(env, trace) && NoTurn(After(env, trace), key)
    ensures Log(env, trace, key) == [Turned(0), Turned(1)]
    ensures Replay(env, Log(env, trace, key)) == Some(z) && Stored(After(env, trace), key) == Some(y)
  {
    var t := FirstTurn(env, key);
    KeysApart(key, key);
    var t1 := SecondTurn(env, key, t);
    TraceSnoc(env, t1, Save(0), key);
    var t2 := t1 + [Save(0)];
    TraceSnoc(env, t2, Save(1), key);
    var t3 := t2 + [Save(1)];
    trace := ReleaseBoth(env, key, t3);
    ReplaySnoc(env, [], Turned(0));
    assert [] + [Turned(0)] == [Turned(0)];
    ReplaySnoc(env, [Turned(0)], Turned(1));
    assert [Turned(0)] + [Turned(1)] == [Turned(0), Turned(1)];
  }

  lemma SecondTurn(env: Env, key: Bytes, t: seq<Action>) returns (trace: seq<Action>)
    requires FreshTokens(env) && Possible(env, t) && Log(env, t, key) == [Turned(0)]
    requires After(env, t) == Working(env, key)
    ensures Possible(env, trace) && Log(env, trace, key) == [Turned(0), Turned(1)]
    ensures After(env, trace) ==
      State(env.ttl, map[LockKey(key) := Redis.Entry(Token(env.token(1)), Some(env.ttl + env.ttl))], 2,
            map[0 := Turn(key, 0, Loaded(None, 0)), 1 := Turn(key, env.ttl, Loaded(None, 0))], map[])
  {
    var t1 := LockLapses(env, key, t);
    var s1 := After(env, t1);
    KeysApart(key, key);
    TraceSnoc(env, t1, Load(1), key);
    trace := t1 + [Load(1)];
    assert Stored(s1, key) == None;
    assert s1.turns[1 := Turn(key, env.ttl, Loaded(None, 0))] ==
      map[0 := Turn(key, 0, Loaded(None, 0)), 1 := Turn(key, env.ttl, Loaded(None, 0))];
  }

  lemma LockLapses(env: Env, key: Bytes, t: seq<Action>) returns (trace: seq<Action>)
    requires FreshTokens(env) && Possible(env, t) && Log(env, t, key) == [Turned(0)]
    requires After(env, t) == Working(env, key)
    ensures Possible(env, trace) && Log(env, trace, key) == [Turned(0), Turned(1)]
    ensures After(env, trace) ==
      State(env.ttl, map[LockKey(key) := Redis.Entry(Token(env.token(1)), Some(env.ttl + env.ttl))], 2,
            map[0 := Turn(key, 0, Loaded(None, 0)), 1 := Turn(key, env.ttl, Locked)], map[])
  {
    TraceSnoc(env, t, Advance(env.ttl), key);
    var t1 := t + [Advance(env.ttl)];
    var s1 := After(env, t1);
    assert s1 == Working(env, key).(now := env.ttl) && Free(s1, key);
    TraceSnoc(env, t1, TryAcquire(key), key);
    trace := t1 + [TryAcquire(key)];
    assert [Turned(0)] + [Turned(1)] == [Turned(0), Turned(1)];
  }

  lemma ReleaseBoth(env: Env, key: Bytes, t: seq<Action>) returns (trace: seq<Action>)
    requires Possible(env, t) && Enabled(env, After(env, t), Release(0, true)) && Enabled(env, After(env, t), Release(1, true))
    requires After(env, t).turns.Keys == {0, 1}
    ensures Possible(env, trace) && Log(env, trace, key) == Log(env, t, key)
    ensures After(env, trace).turns == map[] && Stored(After(env, trace), key) == Stored(After(env, t), key)
  {
    var s := After(env, t);
    TraceSnoc(env, t, Release(0, true), key);
    var t1 := t + [Release(0, true)];
    TraceSnoc(env, t1, Release(1, true), key);
    trace := t1 + [Release(1, true)];
    KeysApart(s.turns[0].key, key);
    KeysApart(s.turns[1].key, key);
  }
}
