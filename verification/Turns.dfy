/** Many handler goroutines on one Redis: turns under a lock with a time limit, and commands that
    do not take the lock, as a timed transition system (internal/lark/handler.go:110-157,
    internal/lark/commands.go:29-68, internal/session/lock.go). */
module Turns {
  import opened Bytes
  import opened Redis
  import opened Sessions

  /** What is fixed for a run of the system: the lock's time limit, the random tokens, the
      sessions a turn writes one after another given what it read, and the session a /model
      command writes given what it read. */
  datatype Env = Env(
    ttl: nat,
    token: nat -> Bytes,
    writes: (nat, Option<SessionData>) -> seq<SessionData>,
    switched: (nat, Option<SessionData>) -> SessionData)

  ghost predicate FreshTokens(env: Env) {
    && env.ttl > 0
    && (forall i :: env.token(i) != "")
    && (forall i, j :: i != j ==> env.token(i) != env.token(j))
  }

  datatype Phase = Locked | Loaded(read: Option<SessionData>, saved: nat)

  /** A granted turn that has not released yet. */
  datatype Turn = Turn(key: Bytes, since: nat, phase: Phase)

  /** A /model command between its Get and its Save. */
  datatype Switch = Switch(key: Bytes, read: Option<SessionData>)

  /** `next` numbers lock attempts and /model commands; the attempt numbered i draws token(i). */
  datatype State = State(
    now: nat,
    db: Db<Value>,
    next: nat,
    turns: map<nat, Turn>,
    switches: map<nat, Switch>)

  const START := State(0, map[], 0, map[], map[])

  datatype Action =
    | Advance(d: nat)
    | TryAcquire(key: Bytes)
    | Load(id: nat)
    | Save(id: nat)
    | Release(id: nat, up: bool)   // `up`: the release reaches Redis
    | Clear(key: Bytes)
    | SwitchGet(key: Bytes)
    | SwitchPut(id: nat)

  function Stored(s: State, key: Bytes): Option<SessionData> {
    match Decoded(Get(s.db, s.now, SessKey(key)))
    case Some(r) => r
    case None => None
  }

  predicate Free(s: State, key: Bytes) { !Live(s.db, s.now, LockKey(key)) }

  predicate AllSaved(env: Env, id: nat, p: Phase) {
    p.Loaded? && p.saved == |env.writes(id, p.read)|
  }

  predicate Enabled(env: Env, s: State, a: Action) {
    match a
    case Load(id) => id in s.turns && s.turns[id].phase.Locked?
    case Save(id) =>
      id in s.turns && s.turns[id].phase.Loaded? &&
      s.turns[id].phase.saved < |env.writes(id, s.turns[id].phase.read)|
    case Release(id, _) => id in s.turns && AllSaved(env, id, s.turns[id].phase)
    case SwitchPut(id) => id in s.switches
    case _ => true
  }

  function Next(env: Env, s: State, a: Action): State
    requires Enabled(env, s, a)
  {
    match a
    case Advance(d) => s.(now := s.now + d)
    case TryAcquire(key) =>
      s.(next := s.next + 1,
         db := SetNX(s.db, s.now, LockKey(key), Token(env.token(s.next)), env.ttl),
         turns := if Free(s, key) then s.turns[s.next := Turn(key, s.now, Locked)] else s.turns)
    case Load(id) =>
      var t := s.turns[id];
      s.(turns := s.turns[id := t.(phase := Loaded(Stored(s, t.key), 0))])
    case Save(id) =>
      var t := s.turns[id];
      s.(db := Set(s.db, SessKey(t.key), Blob(env.writes(id, t.phase.read)[t.phase.saved])),
         turns := s.turns[id := t.(phase := t.phase.(saved := t.phase.saved + 1))])
    case Release(id, up) =>
      s.(db := if up then DelIfEquals(s.db, s.now, LockKey(s.turns[id].key), Token(env.token(id))) else s.db,
         turns := s.turns - {id})
    case Clear(key) => s.(db := Del(s.db, SessKey(key)))
    case SwitchGet(key) =>
      s.(next := s.next + 1, switches := s.switches[s.next := Switch(key, Stored(s, key))])
    case SwitchPut(id) =>
      var c := s.switches[id];
      s.(db := Set(s.db, SessKey(c.key), Blob(env.switched(id, c.read))), switches := s.switches - {id})
  }

  /** A trace is possible when every action is enabled where it happens. */
  predicate Possible(env: Env, trace: seq<Action>)
    decreases |trace|, 0
  {
    trace == [] ||
    (Possible(env, trace[..|trace| - 1]) && Enabled(env, After(env, trace[..|trace| - 1]), trace[|trace| - 1]))
  }

  function After(env: Env, trace: seq<Action>): State
    requires Possible(env, trace)
    decreases |trace|, 1
  {
    if trace == [] then START else Next(env, After(env, trace[..|trace| - 1]), trace[|trace| - 1])
  }

  // ---------------------------------------------------------------------------------
  // Timed mutual exclusion.
  // ---------------------------------------------------------------------------------

  /** The lock entry of a turn is in place. */
  predicate Holds(env: Env, s: State, id: nat, t: Turn) {
    var key := LockKey(t.key);
    key in s.db && s.db[key] == Entry(Token(env.token(id)), Some(t.since + env.ttl))
  }

  /** A turn within its time limit holds the lock. */
  predicate HoldsOrLate(env: Env, s: State, id: nat, t: Turn) {
    Holds(env, s, id, t) || t.since + env.ttl <= s.now
  }

  predicate Spaced(env: Env, a: nat, t: Turn, b: nat, u: Turn) {
    a < b && t.key == u.key ==> t.since + env.ttl <= u.since
  }

  ghost predicate Inv(env: Env, s: State) {
    && (forall id <- s.turns :: id < s.next && s.turns[id].since <= s.now)
    && (forall id <- s.switches :: id < s.next)
    && (forall id <- s.turns :: HoldsOrLate(env, s, id, s.turns[id]))
    && (forall a <- s.turns, b <- s.turns :: Spaced(env, a, s.turns[a], b, s.turns[b]))
  }

  lemma AcquireInv(env: Env, s: State, key: Bytes)
    requires FreshTokens(env) && Inv(env, s)
    ensures Inv(env, Next(env, s, TryAcquire(key)))
  {
    var s' := Next(env, s, TryAcquire(key));
    if Free(s, key) {
      forall id | id in s'.turns ensures HoldsOrLate(env, s', id, s'.turns[id]) {
        if id != s.next {
          assert HoldsOrLate(env, s, id, s.turns[id]);
          KeysApart(key, s.turns[id].key);
        }
      }
      forall a, b | a in s'.turns && b in s'.turns ensures Spaced(env, a, s'.turns[a], b, s'.turns[b]) {
        if a != s.next && b != s.next {
          assert Spaced(env, a, s.turns[a], b, s.turns[b]);
        } else if a != s.next {
          assert HoldsOrLate(env, s, a, s.turns[a]);
        }
      }
    }
  }

  lemma ReleaseInv(env: Env, s: State, id: nat, up: bool)
    requires FreshTokens(env) && Inv(env, s) && Enabled(env, s, Release(id, up))
    ensures Inv(env, Next(env, s, Release(id, up)))
  {
    var s' := Next(env, s, Release(id, up));
    forall other | other in s'.turns ensures HoldsOrLate(env, s', other, s'.turns[other]) {
      assert HoldsOrLate(env, s, other, s.turns[other]);
      KeysApart(s.turns[id].key, s.turns[other].key);
      assert env.token(id) != env.token(other);
    }
    forall a, b | a in s'.turns && b in s'.turns ensures Spaced(env, a, s'.turns[a], b, s'.turns[b]) {
      assert Spaced(env, a, s.turns[a], b, s.turns[b]);
    }
  }

  /** Keys and times of turns are fixed when they are granted. */
  lemma TurnsKeepKeys(env: Env, s: State, a: Action)
    requires Enabled(env, s, a) && !a.TryAcquire? && !a.Release?
    ensures var s' := Next(env, s, a);
      && s'.turns.Keys == s.turns.Keys && s.now <= s'.now && s.next <= s'.next
      && forall id <- s.turns :: s'.turns[id].key == s.turns[id].key && s'.turns[id].since == s.turns[id].since
  {
  }

  /** Changing sessions or phases does not touch locks. */
  lemma OtherInv(env: Env, s: State, a: Action)
    requires Inv(env, s) && Enabled(env, s, a)
    requires !a.TryAcquire? && !a.Release?
    ensures Inv(env, Next(env, s, a))
  {
    var s' := Next(env, s, a);
    TurnsKeepKeys(env, s, a);
    forall id | id in s'.turns ensures HoldsOrLate(env, s', id, s'.turns[id]) {
      assert HoldsOrLate(env, s, id, s.turns[id]);
      SessionWriteKeepsLocks(env, s, a, s.turns[id].key);
    }
    forall x, y | x in s'.turns && y in s'.turns ensures Spaced(env, x, s'.turns[x], y, s'.turns[y]) {
      assert Spaced(env, x, s.turns[x], y, s.turns[y]);
    }
  }

  lemma SessionWriteKeepsLocks(env: Env, s: State, a: Action, key: Bytes)
    requires Enabled(env, s, a) && !a.TryAcquire? && !a.Release?
    ensures var s' := Next(env, s, a); var k := LockKey(key);
      (k in s'.db <==> k in s.db) && (k in s.db ==> s'.db[k] == s.db[k])
  {
    match a
    case Save(id) => KeysApart(key, s.turns[id].key);
    case Clear(c) => KeysApart(key, c);
    case SwitchPut(id) => KeysApart(key, s.switches[id].key);
    case _ =>
  }

  lemma StepInv(env: Env, s: State, a: Action)
    requires FreshTokens(env) && Inv(env, s) && Enabled(env, s, a)
    ensures Inv(env, Next(env, s, a))
  {
    match a
    case TryAcquire(key) => AcquireInv(env, s, key);
    case Release(id, up) => ReleaseInv(env, s, id, up);
    case _ => OtherInv(env, s, a);
  }

  lemma {:induction false} TraceInv(env: Env, trace: seq<Action>)
    requires FreshTokens(env) && Possible(env, trace)
    ensures Inv(env, After(env, trace))
  {
    if trace != [] {
      var init := trace[..|trace| - 1];
      TraceInv(env, init);
      StepInv(env, After(env, init), trace[|trace| - 1]);
    }
  }

  /** In every reachable state, turns on one key that have not released yet were granted at least
      one time limit apart. */
  lemma TimedMutualExclusion(env: Env, trace: seq<Action>, a: nat, b: nat)
    requires FreshTokens(env) && Possible(env, trace)
    requires var turns := After(env, trace).turns;
      a in turns && b in turns && a != b && turns[a].key == turns[b].key
    ensures var turns := After(env, trace).turns;
      || turns[a].since + env.ttl <= turns[b].since
      || turns[b].since + env.ttl <= turns[a].since
  {
    TraceInv(env, trace);
    var s := After(env, trace);
    assert Spaced(env, a, s.turns[a], b, s.turns[b]) && Spaced(env, b, s.turns[b], a, s.turns[a]);
  }

  /** `ids` are active turns on one key, in the order of their grants. */
  predicate Queue(s: State, key: Bytes, ids: seq<nat>) {
    && (forall k :: 0 <= k < |ids| ==> ids[k] in s.turns && s.turns[ids[k]].key == key)
    && (forall j, k :: 0 <= j < k < |ids| ==> ids[j] < ids[k])
  }

  lemma {:induction false} QueueSpacing(env: Env, s: State, key: Bytes, ids: seq<nat>)
    requires Inv(env, s) && Queue(s, key, ids) && ids != []
    ensures s.turns[ids[0]].since + (|ids| - 1) * env.ttl <= s.turns[ids[|ids| - 1]].since
  {
    var n := |ids| - 1;
    if n > 0 {
      QueueSpacing(env, s, key, ids[..n]);
      var a, b := ids[n - 1], ids[n];
      assert ids[..n][n - 1] == a;
      assert Spaced(env, a, s.turns[a], b, s.turns[b]);
      assert n * env.ttl == (n - 1) * env.ttl + env.ttl;
    }
  }

  /** When turns are cut off after `cap`, at most the ceiling of cap / ttl of them overlap on a key. */
  lemma OverlapBound(env: Env, trace: seq<Action>, key: Bytes, ids: seq<nat>, cap: nat)
    requires FreshTokens(env) && Possible(env, trace)
    requires Queue(After(env, trace), key, ids)
    requires forall id <- ids :: After(env, trace).now < After(env, trace).turns[id].since + cap
    ensures |ids| <= (cap + env.ttl - 1) / env.ttl
  {
    TraceInv(env, trace);
    if ids != [] {
      assert env.ttl > 0 && ids[0] in ids;
      hide After, Possible, Inv, FreshTokens;
      QueueBound(env, After(env, trace), key, ids, cap);
    }
  }

  lemma QueueBound(env: Env, s: State, key: Bytes, ids: seq<nat>, cap: nat)
    requires Inv(env, s) && Queue(s, key, ids) && ids != [] && env.ttl > 0
    requires s.now < s.turns[ids[0]].since + cap
    ensures |ids| <= (cap + env.ttl - 1) / env.ttl
  {
    var last := ids[|ids| - 1];
    QueueSpacing(env, s, key, ids);
    SincePast(env, s, last);
    hide *;
    SpreadBound(|ids|, cap, env.ttl, s.turns[ids[0]].since, s.turns[last].since, s.now);
  }

  lemma SincePast(env: Env, s: State, id: nat)
    requires Inv(env, s) && id in s.turns
    ensures s.turns[id].since <= s.now
  {
  }

  lemma SpreadBound(n: nat, cap: nat, ttl: nat, first: nat, last: nat, now: nat)
    requires n > 0 && ttl > 0 && first + (n - 1) * ttl <= last <= now < first + cap
    ensures n <= (cap + ttl - 1) / ttl
  {
    QuotientBound(n, cap, ttl);
  }

  lemma QuotientBound(n: nat, cap: nat, ttl: nat)
    requires n > 0 && ttl > 0 && (n - 1) * ttl < cap
    ensures n <= (cap + ttl - 1) / ttl
  {
    var q := (cap + ttl - 1) / ttl;
    assert cap + ttl - 1 < (q + 1) * ttl;
    assert (q + 1) * ttl == q * ttl + ttl;
    if q < n { Monotone(q, n - 1, ttl); }
  }

  lemma Monotone(a: nat, b: nat, c: nat)
    requires a <= b
    ensures a * c <= b * c
  {
  }

  /** Attempts on one key, each made the moment the lock of the one before has run out. */
  function Pile(env: Env, key: Bytes, n: nat): seq<Action> {
    if n == 0 then []
    else if n == 1 then [TryAcquire(key)]
    else Pile(env, key, n - 1) + [Advance(env.ttl)] + [TryAcquire(key)]
  }

  /** All n turns are under way, and the lock is the last one's. */
  ghost predicate Piled(env: Env, key: Bytes, n: nat, s: State) {
    && n > 0 && s.next == n && s.now + env.ttl == n * env.ttl
    && (forall id: nat :: id in s.turns <==> id < n)
    && (forall id <- s.turns :: s.turns[id].key == key)
    && LockKey(key) in s.db && s.db[LockKey(key)].expires == Some(s.now + env.ttl)
  }

  lemma Extend(env: Env, trace: seq<Action>, a: Action)
    requires Possible(env, trace) && Enabled(env, After(env, trace), a)
    ensures Possible(env, trace + [a]) && After(env, trace + [a]) == Next(env, After(env, trace), a)
  {
    assert (trace + [a])[..|trace|] == trace;
  }

  lemma PileOn(env: Env, key: Bytes, n: nat, s: State)
    requires Piled(env, key, n, s)
    ensures Piled(env, key, n + 1, Next(env, Next(env, s, Advance(env.ttl)), TryAcquire(key)))
  {
    var later := Next(env, s, Advance(env.ttl));
    assert Free(later, key);
    assert (n + 1) * env.ttl == n * env.ttl + env.ttl;
  }

  lemma {:induction false} PileIsPossible(env: Env, key: Bytes, n: nat)
    requires n > 0
    ensures Possible(env, Pile(env, key, n)) && Piled(env, key, n, After(env, Pile(env, key, n)))
  {
    if n == 1 {
      Extend(env, [], TryAcquire(key));
      assert [] + [TryAcquire(key)] == Pile(env, key, 1);
    } else {
      var below := Pile(env, key, n - 1);
      PileIsPossible(env, key, n - 1);
      PileOn(env, key, n - 1, After(env, below));
      Extend(env, below, Advance(env.ttl));
      Extend(env, below + [Advance(env.ttl)], TryAcquire(key));
    }
  }

  function FirstIds(n: nat): (ids: seq<nat>)
    ensures |ids| == n && forall k :: 0 <= k < n ==> ids[k] == k
  {
    seq(n, k requires 0 <= k < n => k)
  }

  lemma PiledQueue(env: Env, key: Bytes, n: nat, s: State, cap: nat)
    requires Piled(env, key, n, s) && (n - 1) * env.ttl < cap
    ensures Queue(s, key, FirstIds(n))
    ensures forall id <- FirstIds(n) :: s.now < s.turns[id].since + cap
  {
    assert (n - 1) * env.ttl == n * env.ttl - env.ttl;
  }

  lemma CeilingBelow(cap: nat, ttl: nat)
    requires ttl > 0 && cap > 0
    ensures var n := (cap + ttl - 1) / ttl; n > 0 && (n - 1) * ttl < cap
  {
    var n := (cap + ttl - 1) / ttl;
    assert n * ttl <= cap + ttl - 1 < n * ttl + ttl;
    assert (n - 1) * ttl == n * ttl - ttl;
  }

  /** The bound is met: so many turns on one key can be under way at once. */
  lemma OverlapBoundIsTight(env: Env, key: Bytes, cap: nat) returns (trace: seq<Action>, ids: seq<nat>)
    requires env.ttl > 0 && cap > 0
    ensures Possible(env, trace) && Queue(After(env, trace), key, ids)
    ensures forall id <- ids :: After(env, trace).now < After(env, trace).turns[id].since + cap
    ensures |ids| == (cap + env.ttl - 1) / env.ttl
  {
    var n := (cap + env.ttl - 1) / env.ttl;
    CeilingBelow(cap, env.ttl);
    trace, ids := Pile(env, key, n), FirstIds(n);
    PileIsPossible(env, key, n);
    PiledQueue(env, key, n, After(env, trace), cap);
  }

  /** Five-minute turns under a one-minute lock: never more than five at once on a key, and five
      can happen. */
  lemma FiveTurnsAtMost(env: Env, trace: seq<Action>, key: Bytes, ids: seq<nat>)
    returns (worst: seq<Action>, five: seq<nat>)
    requires FreshTokens(env) && Possible(env, trace) && env.ttl == 60_000
    requires Queue(After(env, trace), key, ids)
    requires forall id <- ids :: After(env, trace).now < After(env, trace).turns[id].since + 300_000
    ensures |ids| <= 5
    ensures Possible(env, worst) && Queue(After(env, worst), key, five) && |five| == 5
    ensures forall id <- five :: After(env, worst).now < After(env, worst).turns[id].since + 300_000
  {
    OverlapBound(env, trace, key, ids, 300_000);
    worst, five := OverlapBoundIsTight(env, key, 300_000);
  }

  /** The release of one turn leaves the lock of any other turn, and all other locks, in place. */
  lemma ReleaseIsTokenMatched(env: Env, s: State, id: nat, up: bool, key: Bytes)
    requires Enabled(env, s, Release(id, up))
    requires key != s.turns[id].key || Get(s.db, s.now, LockKey(key)) != Some(Token(env.token(id)))
    ensures var s' := Next(env, s, Release(id, up)); var k := LockKey(key);
      (k in s'.db <==> k in s.db) && (k in s.db ==> s'.db[k] == s.db[k])
  {
    KeysApart(key, s.turns[id].key);
  }

  /** The release of a turn that is late, after another one has been granted the lock, does not
      free the lock for a third. */
  lemma StaleReleaseKeepsHolder(env: Env, trace: seq<Action>, stale: nat, holder: nat, up: bool)
    requires FreshTokens(env) && Possible(env, trace)
    requires var s := After(env, trace);
      && Enabled(env, s, Release(stale, up))
      && holder in s.turns && holder != stale && s.turns[holder].key == s.turns[stale].key
      && s.now < s.turns[holder].since + env.ttl
    ensures var s := After(env, trace); var s' := Next(env, s, Release(stale, up));
      && Holds(env, s', holder, s.turns[holder])
      && !Free(s', s.turns[holder].key)
  {
    TraceInv(env, trace);
    var s := After(env, trace);
    assert HoldsOrLate(env, s, holder, s.turns[holder]);
    StepInv(env, s, Release(stale, up));
    var s' := Next(env, s, Release(stale, up));
    assert HoldsOrLate(env, s', holder, s'.turns[holder]);
  }

  /** A refused attempt changes nothing but the numbering. */
  lemma RefusedChangesNothing(env: Env, s: State, key: Bytes)
    requires !Free(s, key)
    ensures Next(env, s, TryAcquire(key)) == s.(next := s.next + 1)
  {
  }
}
