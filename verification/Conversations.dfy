/** Agent runs inside the turn protocol: what the store holds of a conversation after any orderly
    interleaving of turns and commands. */
module Conversations {
  import opened Bytes
  import opened Llm
  import opened Sessions
  import opened Turns
  import opened Serial
  import A = AgentSpec
  import H = AgentHistory
  import U = Unanswered
  import T = Transcript
  import S = SessionStore

  /** One user turn: the session to start from when there is none, and, given the session, the
      world its run meets; None when no provider resolves or the initial card cannot be sent. */
  datatype Plan = Plan(blank: SessionData, world: SessionData -> Option<A.World>, maxSteps: int, input: Bytes)

  /** A /model command that gets as far as its Save. */
  datatype ModelCommand = ModelCommand(blank: SessionData, provider: Bytes)

  ghost predicate FairPlan(p: Plan) {
    forall s :: p.world(s).Some? ==> A.Fair(p.world(s).value)
  }

  function OrBlank(read: Option<SessionData>, blank: SessionData): SessionData {
    if read.Some? then read.value else blank
  }

  function Snapshots(s: SessionData, written: seq<seq<Message>>): (r: seq<SessionData>)
    ensures |r| == |written|
    ensures forall k :: 0 <= k < |written| ==> r[k] == s.(messages := written[k])
  {
    seq(|written|, k requires 0 <= k < |written| => s.(messages := written[k]))
  }

  /** The run of a turn on a session, if it gets that far. */
  function TurnRun(p: Plan, s: SessionData): Option<A.RunState>
    requires FairPlan(p)
  {
    var w := p.world(s);
    if w.None? then None else Some(A.Run(w.value, p.maxSteps, s.messages, p.input))
  }

  /** What a turn writes, one Save after another. */
  function TurnWrites(p: Plan, read: Option<SessionData>): seq<SessionData>
    requires FairPlan(p)
  {
    var s := OrBlank(read, p.blank);
    var r := TurnRun(p, s);
    if r.None? then [] else Snapshots(s, r.value.written)
  }

  /** /model saves the session it read, or a new one, under the chosen alias. */
  function ModelWrite(c: ModelCommand, read: Option<SessionData>): SessionData {
    var s := OrBlank(read, c.blank);
    s.(provider := c.provider, messages := S.Trim(s.messages))
  }

  /** The system whose turns are agent runs. */
  ghost predicate RunsAgents(env: Env, plans: nat -> Plan, models: nat -> ModelCommand) {
    && (forall id :: FairPlan(plans(id)) && plans(id).blank.messages == [] && models(id).blank.messages == [])
    && (forall id, read :: env.writes(id, read) == TurnWrites(plans(id), read))
    && (forall id, read :: env.switched(id, read) == ModelWrite(models(id), read))
  }

  /** The turn's Save of some tool results fails. */
  ghost predicate TurnStrands(p: Plan, read: Option<SessionData>)
    requires FairPlan(p)
  {
    var r := TurnRun(p, OrBlank(read, p.blank));
    r.Some? && r.value.outcome == Some(A.SaveFailed(A.AtTools))
  }

  /** Since the last /clear no turn has failed to save tool results. */
  ghost predicate NoneStrands(env: Env, plans: nat -> Plan, log: seq<Entry>)
    requires forall id :: FairPlan(plans(id))
  {
    log == [] ||
    var init, last := log[..|log| - 1], log[|log| - 1];
    match last
    case Cleared => true
    case Turned(id) => NoneStrands(env, plans, init) && !TurnStrands(plans(id), Replay(env, init))
    case Switched(_) => NoneStrands(env, plans, init)
  }

  ghost predicate SoundSession(v: Option<SessionData>) {
    v.Some? ==> H.Sound(v.value.messages)
  }

  ghost predicate WindowSession(v: Option<SessionData>) {
    v.Some? ==> T.Window(v.value.messages)
  }

  function LastOr(ws: seq<SessionData>, read: Option<SessionData>): Option<SessionData> {
    if ws == [] then read else Some(ws[|ws| - 1])
  }

  /** A turn takes a sound session to a sound session, whichever Saves fail, unless it is one of
      tool results; then what it leaves is no window. */
  lemma TurnKeepsSoundExactly(p: Plan, read: Option<SessionData>)
    requires FairPlan(p) && p.blank.messages == [] && SoundSession(read)
    ensures var after := LastOr(TurnWrites(p, read), read);
      && (SoundSession(after) <==> !TurnStrands(p, read))
      && (WindowSession(after) <==> !TurnStrands(p, read))
  {
    var s := OrBlank(read, p.blank);
    H.EmptyIsSound();
    if read.Some? { H.SoundIsWindow(read.value.messages); }
    RunIsSoundExactly(p, s);
    var r := TurnRun(p, s);
    if r.Some? { LastSnapshot(s, r.value); }
  }

  lemma RunIsSoundExactly(p: Plan, s: SessionData)
    requires FairPlan(p) && H.Sound(s.messages)
    ensures var r := TurnRun(p, s);
      r.Some? ==>
        var left := if A.Stored(r.value).Some? then A.Stored(r.value).value else s.messages;
        var strands := r.value.outcome == Some(A.SaveFailed(A.AtTools));
        && (H.Sound(left) <==> !strands) && (T.Window(left) <==> !strands)
        && (A.Stored(r.value).None? ==> !strands)
  {
    if p.world(s).Some? {
      H.RunLeavesSoundExactly(p.world(s).value, p.maxSteps, s.messages, p.input);
    }
  }

  lemma LastSnapshot(s: SessionData, r: A.RunState)
    ensures var ws := Snapshots(s, r.written);
      && (ws == [] <==> A.Stored(r).None?)
      && (ws != [] ==> ws[|ws| - 1].messages == A.Stored(r).value)
  {
  }

  /** Another Save keeps a sound history sound. */
  lemma TrimKeepsSound(history: seq<Message>)
    requires H.Sound(history)
    ensures H.Sound(S.Trim(history))
  {
    var ops :| H.ProducedBy(history, ops);
    H.TranscriptSnoc(ops, S.Op.Save);
    assert (ops + [S.Op.Save])[..|ops|] == ops;
    assert H.ProducedBy(S.Trim(history), ops + [S.Op.Save]);
  }

  lemma EntryKeepsSound(env: Env, plans: nat -> Plan, models: nat -> ModelCommand, e: Entry, v: Option<SessionData>)
    requires RunsAgents(env, plans, models) && SoundSession(v)
    ensures var after := Effect(env, e, v);
      && (SoundSession(after) <==> !(e.Turned? && TurnStrands(plans(e.id), v)))
      && (WindowSession(after) <==> !(e.Turned? && TurnStrands(plans(e.id), v)))
  {
    match e
    case Turned(id) => TurnKeepsSoundExactly(plans(id), v);
    case Cleared =>
    case Switched(id) =>
      H.EmptyIsSound();
      var s := OrBlank(v, models(id).blank);
      TrimKeepsSound(s.messages);
      H.SoundIsWindow(S.Trim(s.messages));
  }

  /** All entries but the last. */
  function Before(log: seq<Entry>): seq<Entry> {
    if log == [] then [] else log[..|log| - 1]
  }

  /** Turns, /clear and /model take sound sessions to sound sessions, up to the first turn that
      fails to save tool results; right after it the session is no window; /clear starts afresh. */
  lemma {:induction false} ReplayKeepsSound(env: Env, plans: nat -> Plan, models: nat -> ModelCommand, log: seq<Entry>)
    requires RunsAgents(env, plans, models)
    ensures NoneStrands(env, plans, log) ==> SoundSession(Replay(env, log)) && WindowSession(Replay(env, log))
    ensures NoneStrands(env, plans, Before(log)) ==>
      (WindowSession(Replay(env, log)) <==> NoneStrands(env, plans, log))
  {
    if log != [] {
      var n := |log| - 1;
      ReplayKeepsSound(env, plans, models, log[..n]);
      if NoneStrands(env, plans, log[..n]) { EntryKeepsSound(env, plans, models, log[n], Replay(env, log[..n])); }
    }
  }

  /** However turns and commands of all users interleave and whatever Saves fail: when no turn on
      a key overlaps another turn or command on it, then between turns the stored history is the
      trimmed form of a transcript that obeys the tool protocol, hence orphaned tool results
      followed by a conforming history, exactly as long as no Save of tool results has failed
      since the last /clear. */
  lemma StoredConversationIsSound(env: Env, plans: nat -> Plan, models: nat -> ModelCommand, trace: seq<Action>, key: Bytes)
    requires FreshTokens(env) && RunsAgents(env, plans, models)
    requires Possible(env, trace) && Orderly(env, trace, key) && NoTurn(After(env, trace), key)
    ensures var v, log := Stored(After(env, trace), key), Log(env, trace, key);
      && (NoneStrands(env, plans, log) ==> SoundSession(v) && WindowSession(v))
      && (NoneStrands(env, plans, Before(log)) ==> (WindowSession(v) <==> NoneStrands(env, plans, log)))
  {
    StoreIsSerial(env, trace, key);
    ReplayKeepsSound(env, plans, models, Log(env, trace, key));
  }

  /** The history a granted turn starts from is sound, too: providers only ever see windows. */
  lemma TurnReadsSound(env: Env, plans: nat -> Plan, models: nat -> ModelCommand, trace: seq<Action>, id: nat)
    requires FreshTokens(env) && RunsAgents(env, plans, models) && Possible(env, trace)
    requires var s := After(env, trace);
      && id in s.turns && s.turns[id].phase.Loaded?
      && Orderly(env, trace, s.turns[id].key)
      && NoneStrands(env, plans, Before(Log(env, trace, s.turns[id].key)))
    ensures WindowSession(After(env, trace).turns[id].phase.read)
  {
    var s := After(env, trace);
    var log := Log(env, trace, s.turns[id].key);
    TurnSeesSerialPrefix(env, trace, id);
    ReadIsReplay(env, s, id, s.turns[id], log);
    ReplayKeepsSound(env, plans, models, Before(log));
  }

  lemma ReadIsReplay(env: Env, s: State, id: nat, t: Turn, log: seq<Entry>)
    requires UnderWay(env, s, id, t, log) && t.phase.Loaded?
    ensures t.phase.read == Replay(env, Before(log))
  {
  }

  // ---------------------------------------------------------------------------------
  // Whichever Saves fail.
  // ---------------------------------------------------------------------------------

  ghost predicate TolerableSession(v: Option<SessionData>) {
    v.Some? ==> U.Tolerable(v.value.messages)
  }

  /** Every call in the session has its results. */
  predicate AnsweredSession(v: Option<SessionData>) {
    v.Some? ==> U.AllAnswered(v.value.messages)
  }

  lemma TurnKeepsTolerable(p: Plan, read: Option<SessionData>)
    requires FairPlan(p) && p.blank.messages == [] && TolerableSession(read)
    ensures TolerableSession(LastOr(TurnWrites(p, read), read))
  {
    var s := OrBlank(read, p.blank);
    U.EmptyIsTolerable();
    if p.world(s).Some? {
      U.RunKeepsTolerable(p.world(s).value, p.maxSteps, s.messages, p.input);
      LastSnapshot(s, TurnRun(p, s).value);
    }
  }

  lemma TrimKeepsTolerable(history: seq<Message>)
    requires U.Tolerable(history)
    ensures U.Tolerable(S.Trim(history))
  {
    var ops :| U.LeftBy(history, ops);
    H.TranscriptSnoc(ops, S.Op.Save);
    assert (ops + [S.Op.Save])[..|ops|] == ops;
    assert U.LeftBy(S.Trim(history), ops + [S.Op.Save]);
  }

  lemma EntryKeepsTolerable(env: Env, plans: nat -> Plan, models: nat -> ModelCommand, e: Entry, v: Option<SessionData>)
    requires RunsAgents(env, plans, models) && TolerableSession(v)
    ensures TolerableSession(Effect(env, e, v))
  {
    match e
    case Turned(id) => TurnKeepsTolerable(plans(id), v);
    case Cleared =>
    case Switched(id) =>
      U.EmptyIsTolerable();
      TrimKeepsTolerable(OrBlank(v, models(id).blank).messages);
  }

  lemma {:induction false} ReplayKeepsTolerable(env: Env, plans: nat -> Plan, models: nat -> ModelCommand, log: seq<Entry>)
    requires RunsAgents(env, plans, models)
    ensures TolerableSession(Replay(env, log))
  {
    if log != [] {
      var n := |log| - 1;
      ReplayKeepsTolerable(env, plans, models, log[..n]);
      EntryKeepsTolerable(env, plans, models, log[n], Replay(env, log[..n]));
    }
  }

  lemma TolerableExactly(v: Option<SessionData>)
    requires TolerableSession(v)
    ensures WindowSession(v) <==> AnsweredSession(v)
  {
    if v.Some? { U.WindowExactly(v.value.messages); }
  }

  /** Whichever Saves have failed, now or long ago: when no turn on a key overlaps another turn or
      command on it, then between turns the stored history is a window exactly when every call in
      it has its results; a conversation is out of order exactly as long as it keeps a message
      whose results were lost. */
  lemma ConversationIsWindowExactly(env: Env, plans: nat -> Plan, models: nat -> ModelCommand, trace: seq<Action>, key: Bytes)
    requires FreshTokens(env) && RunsAgents(env, plans, models)
    requires Possible(env, trace) && Orderly(env, trace, key) && NoTurn(After(env, trace), key)
    ensures var v := Stored(After(env, trace), key); WindowSession(v) <==> AnsweredSession(v)
  {
    StoreIsSerial(env, trace, key);
    ReplayKeepsTolerable(env, plans, models, Log(env, trace, key));
    TolerableExactly(Stored(After(env, trace), key));
  }

  /** The same for what a granted turn starts from. */
  lemma TurnReadsWindowExactly(env: Env, plans: nat -> Plan, models: nat -> ModelCommand, trace: seq<Action>, id: nat)
    requires FreshTokens(env) && RunsAgents(env, plans, models) && Possible(env, trace)
    requires var s := After(env, trace);
      id in s.turns && s.turns[id].phase.Loaded? && Orderly(env, trace, s.turns[id].key)
    ensures var read := After(env, trace).turns[id].phase.read; WindowSession(read) <==> AnsweredSession(read)
  {
    var s := After(env, trace);
    var log := Log(env, trace, s.turns[id].key);
    TurnSeesSerialPrefix(env, trace, id);
    ReadIsReplay(env, s, id, s.turns[id], log);
    ReplayKeepsTolerable(env, plans, models, Before(log));
    TolerableExactly(s.turns[id].phase.read);
  }
}
