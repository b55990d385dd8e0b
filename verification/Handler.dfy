/** `Handler.Handle` of internal/lark/handler.go and `dispatchCommand` of internal/lark/commands.go,
    one event at a time. */
module Handler {
  import opened Bytes
  import opened Llm
  import opened Redis
  import opened Sessions
  import A = AgentSpec
  import Loop = AgentLoop
  import C = Conversations
  import CS = CardState
  import LB = LongBody
  import R = Renderer
  import S = SessionStore
  import TE = TurnEnd

  const LOCK_TTL := 60_000

  // ---------------------------------------------------------------------------------
  // What goes out, and what comes from outside.
  // ---------------------------------------------------------------------------------

  datatype Reply =
    | Cleared | ClearFailed
    | Help | Models | UnknownModel(alias: Bytes) | SwitchFailed | SwitchedTo(alias: Bytes)
    | Tools | WhoAmI(key: Bytes, openID: Bytes, chatType: Bytes) | UnknownCommand(cmd: Bytes)

  datatype Sent =
    | PlainCard(reply: Reply)
    | LockTrouble | StillBusy | StoreTrouble | NoModelNotice
    | InitialCard
    | Patched(body: Bytes)
    | Threaded(chunk: Bytes)

  /** What becomes of a session once loaded: no provider resolves, the initial card cannot be
      sent, or the run can begin. */
  datatype Start = NoProvider | CardFails | Begins(w: A.World, model: Bytes)

  datatype Outside = Outside(
    commandGetUp: bool,       // whether each request to Redis gets through
    commandPutUp: bool,
    lockUp: bool,
    getUp: bool,
    releaseUp: bool,
    busy: nat,                // how long the turn takes from the grant of the lock to its release
    start: SessionData -> Start,
    pace: seq<StreamEvent> -> seq<R.Turn>,   // the turns of Feed, given what the run emits
    reached: nat,             // if Feed hangs: how many Saves the agent gets done before it blocks
    stopSent: bool,
    replyOk: nat -> bool,
    traceID: Bytes)

  datatype Result =
    | Ignored
    | Replied
    | LockFailed | Busy | StoreFailed | NoModel | NoCard
    | Ran(outcome: A.Outcome)
    | Hangs                   // Handle never returns

  /** The results of a turn that was granted the lock. */
  predicate HeldLock(r: Result) {
    r.StoreFailed? || r.NoModel? || r.NoCard? || r.Ran? || r.Hangs?
  }

  predicate IsCommand(text: Bytes) { HasPrefix(text, "/") }

  // ---------------------------------------------------------------------------------
  // Commands.
  // ---------------------------------------------------------------------------------

  const MODEL: Bytes := "/model"

  function ModelAlias(cmd: Bytes): Bytes { TrimSpace(TrimPrefix(cmd, MODEL)) }

  /** The session a turn or a command starts from when there is none. */
  function Blank(ev: MessageEvent, provider: Bytes): SessionData {
    SessionData(SessionKey(ev), ev.senderOpenID, ev.chatID, ev.chatType, provider, [])
  }

  /** What a command does to Redis: nothing but deleting or rewriting the sender's session. */
  function CommandDb(db: Db<Value>, now: nat, ev: MessageEvent, o: Outside, knows: Bytes -> bool, validJson: Bytes -> bool): Db<Value> {
    var cmd, key := TrimSpace(ev.text), SessionKey(ev);
    if cmd == "/clear" then
      if o.commandPutUp then Del(db, SessKey(key)) else db
    else if cmd != "/help" && HasPrefix(cmd, MODEL) && ModelAlias(cmd) != "" && knows(ModelAlias(cmd)) then
      SwitchDb(db, now, ev, ModelAlias(cmd), o, validJson)
    else db
  }

  /** /model with a known alias: the session is read and saved without the lock. */
  function SwitchDb(db: Db<Value>, now: nat, ev: MessageEvent, alias: Bytes, o: Outside, validJson: Bytes -> bool): Db<Value> {
    var read := if o.commandGetUp then Decoded(Get(db, now, SessKey(SessionKey(ev)))) else None;
    if read.None? then db
    else
      var s := C.ModelWrite(C.ModelCommand(Blank(ev, ""), alias), read.value);
      if Encodable(validJson, s.messages) && o.commandPutUp then Set(db, SessKey(s.key), Blob(s)) else db
  }

  /** Whether /model with a known alias gets its Save through. */
  predicate Switches(db: Db<Value>, now: nat, ev: MessageEvent, o: Outside, validJson: Bytes -> bool) {
    var read := if o.commandGetUp then Decoded(Get(db, now, SessKey(SessionKey(ev)))) else None;
    read.Some? && o.commandPutUp && Encodable(validJson, S.Trim(C.OrBlank(read.value, Blank(ev, "")).messages))
  }

  /** What a command answers. */
  function CommandReply(db: Db<Value>, now: nat, ev: MessageEvent, o: Outside, knows: Bytes -> bool, validJson: Bytes -> bool): Reply {
    var cmd := TrimSpace(ev.text);
    if cmd == "/clear" then if o.commandPutUp then Cleared else ClearFailed
    else if cmd == "/help" then Help
    else if HasPrefix(cmd, MODEL) then
      var alias := ModelAlias(cmd);
      if alias == "" then Models
      else if !knows(alias) then UnknownModel(alias)
      else if Switches(db, now, ev, o, validJson) then SwitchedTo(alias)
      else SwitchFailed
    else if cmd == "/tools" then Tools
    else if cmd == "/whoami" then WhoAmI(SessionKey(ev), ev.senderOpenID, ev.chatType)
    else UnknownCommand(cmd)
  }

  /** The stored sessions carry the key they are stored under. */
  ghost predicate WellKeyed(db: Db<Value>) {
    forall k :: SessKey(k) in db && db[SessKey(k)].value.Blob? ==> db[SessKey(k)].value.session.key == k
  }

  lemma SetWellKeyed(db: Db<Value>, s: SessionData)
    requires WellKeyed(db)
    ensures WellKeyed(Set(db, SessKey(s.key), Blob(s)))
  {
    var db' := Set(db, SessKey(s.key), Blob(s));
    forall k | SessKey(k) in db' && db'[SessKey(k)].value.Blob?
      ensures db'[SessKey(k)].value.session.key == k
    {
      KeysApart(k, s.key);
    }
  }

  /** Commands never touch a lock, so they never wait for a turn and never end one. */
  lemma CommandsIgnoreLocks(db: Db<Value>, now: nat, ev: MessageEvent, o: Outside, knows: Bytes -> bool, validJson: Bytes -> bool, key: Bytes)
    ensures var db' := CommandDb(db, now, ev, o, knows, validJson); var k := LockKey(key);
      (k in db' <==> k in db) && (k in db ==> db'[k] == db[k])
  {
    KeysApart(key, SessionKey(ev));
    var read := Decoded(Get(db, now, SessKey(SessionKey(ev))));
    if read.Some? && read.value.Some? { KeysApart(key, read.value.value.key); }
  }

  // ---------------------------------------------------------------------------------
  // Turns.
  // ---------------------------------------------------------------------------------

  ghost predicate FairStart(o: Outside) {
    forall s :: o.start(s).Begins? ==> A.Fair(o.start(s).w)
  }

  function WorldOf(o: Outside): SessionData -> Option<A.World> {
    s => if o.start(s).Begins? then Some(o.start(s).w) else None
  }

  /** The turn as the protocol sees it. */
  function PlanOf(ev: MessageEvent, o: Outside, defaultModel: Bytes): C.Plan {
    C.Plan(Blank(ev, defaultModel), WorldOf(o), A.DEFAULT_MAX_STEPS, ev.text)
  }

  /** The session a granted turn finds; None for an error. */
  function Read(db: Db<Value>, now: nat, ev: MessageEvent, o: Outside): Option<Option<SessionData>> {
    if o.getUp then Decoded(Get(db, now, SessKey(SessionKey(ev)))) else None
  }

  /** The renderer's side of a run. */
  function Fed(build: R.Builder, emitted: seq<StreamEvent>, model: Bytes, o: Outside): R.FeedState {
    R.Run(build, R.NewFeed(TE.Stamped(o.traceID, model)), o.pace(emitted))
  }

  /** The Saves of a run that take place: when Feed hangs, the agent may come to a stop on the full
      channel before it has done them all. */
  function DoneSaves(written: seq<seq<Message>>, hung: bool, reached: nat): (r: seq<seq<Message>>)
    ensures r <= written
  {
    if hung && reached < |written| then written[..reached] else written
  }

  /** Redis with the last of the sessions that a run on `sess` writes. */
  function SessionDb(db: Db<Value>, sess: SessionData, ev: MessageEvent, o: Outside, build: R.Builder): Db<Value>
    requires FairStart(o)
  {
    match o.start(sess)
    case Begins(w, model) =>
      var r := A.Run(w, A.DEFAULT_MAX_STEPS, sess.messages, ev.text);
      Loop.Put(db, sess, DoneSaves(r.written, Fed(build, r.emitted, model, o).hung, o.reached))
    case _ => db
  }

  function WrittenDb(db: Db<Value>, now: nat, ev: MessageEvent, o: Outside, defaultModel: Bytes, build: R.Builder): Db<Value>
    requires FairStart(o)
  {
    var read := Read(db, now, ev, o);
    if read.None? then db else SessionDb(db, C.OrBlank(read.value, Blank(ev, defaultModel)), ev, o, build)
  }

  /** Redis after a granted turn: the lock, the last session written, and, some time later, the
      release, unless Handle never gets there. */
  function TurnDb(db: Db<Value>, now: nat, token: Bytes, ev: MessageEvent, o: Outside, defaultModel: Bytes,
                  build: R.Builder): Db<Value>
    requires FairStart(o)
  {
    var key := LockKey(SessionKey(ev));
    var locked := SetNX(db, now, key, Token(token), LOCK_TTL);
    var written := WrittenDb(locked, now, ev, o, defaultModel, build);
    if o.releaseUp && TurnReport(locked, now, ev, o, defaultModel, build).0 != Hangs
    then DelIfEquals(written, now + o.busy, key, Token(token))
    else written
  }

  function AsPatches(bodies: seq<Bytes>): (r: seq<Sent>)
    ensures |r| == |bodies| && forall k :: 0 <= k < |bodies| ==> r[k] == Patched(bodies[k])
  {
    seq(|bodies|, k requires 0 <= k < |bodies| => Patched(bodies[k]))
  }

  function AsReplies(chunks: seq<Bytes>): (r: seq<Sent>)
    ensures |r| == |chunks| && forall k :: 0 <= k < |chunks| ==> r[k] == Threaded(chunks[k])
  {
    seq(|chunks|, k requires 0 <= k < |chunks| => Threaded(chunks[k]))
  }

  /** How many replies go out before one fails. */
  function Delivered(chunks: seq<Bytes>, ok: nat -> bool): (n: nat)
    ensures n <= |chunks| && (forall k :: 0 <= k < n ==> ok(k)) && (n < |chunks| ==> !ok(n))
  {
    if chunks == [] then 0
    else
      var m := Delivered(chunks[..|chunks| - 1], ok);
      if m == |chunks| - 1 && ok(m) then m + 1 else m
  }

  function LongChunks(text: Bytes): seq<Bytes> {
    if |text| <= LB.SOFT then [] else LB.Chunks(text[LB.SOFT..])
  }

  function StopPatch(build: R.Builder, card: CS.Card, outcome: A.Outcome, o: Outside): seq<Sent> {
    var final := build(TE.Closing(card, outcome));
    if final.Body? && o.stopSent then [Patched(final.body)] else []
  }

  function Continuation(text: Bytes, ok: nat -> bool): seq<Sent> {
    AsReplies(LongChunks(text)[..Delivered(LongChunks(text), ok)])
  }

  /** Handle never returns: Feed hangs, or the closing card never gets built. */
  predicate Stuck(build: R.Builder, f: R.FeedState, outcome: A.Outcome) {
    f.hung || build(TE.Closing(f.card, outcome)).NeverEnds?
  }

  /** Everything a run sends to the user once the initial card is there. */
  function TurnSends(build: R.Builder, f: R.FeedState, outcome: A.Outcome, o: Outside): seq<Sent> {
    AsPatches(f.sent) +
    if Stuck(build, f, outcome) then []
    else StopPatch(build, f.card, outcome, o) + if TE.Fails(outcome) then [] else Continuation(f.card.text, o.replyOk)
  }

  function RunSends(build: R.Builder, emitted: seq<StreamEvent>, outcome: A.Outcome, model: Bytes, o: Outside): seq<Sent> {
    TurnSends(build, Fed(build, emitted, model, o), outcome, o)
  }

  /** What the user is sent, and how Handle ends, once a session is there. */
  function SessionReport(sess: SessionData, ev: MessageEvent, o: Outside, build: R.Builder): (r: (Result, seq<Sent>))
    requires FairStart(o)
    ensures HeldLock(r.0)
  {
    match o.start(sess)
    case NoProvider => (NoModel, [NoModelNotice])
    case CardFails => (NoCard, [])
    case Begins(w, model) =>
      var r := A.Run(w, A.DEFAULT_MAX_STEPS, sess.messages, ev.text);
      TE.RunEnds(w, A.DEFAULT_MAX_STEPS, sess.messages, ev.text);
      (if Stuck(build, Fed(build, r.emitted, model, o), r.outcome.value) then Hangs else Ran(r.outcome.value),
       [InitialCard] + RunSends(build, r.emitted, r.outcome.value, model, o))
  }

  /** The same once the lock is granted. */
  function TurnReport(db: Db<Value>, now: nat, ev: MessageEvent, o: Outside, defaultModel: Bytes, build: R.Builder): (r: (Result, seq<Sent>))
    requires FairStart(o)
    ensures HeldLock(r.0)
  {
    var read := Read(db, now, ev, o);
    if read.None? then (StoreFailed, [StoreTrouble])
    else SessionReport(C.OrBlank(read.value, Blank(ev, defaultModel)), ev, o, build)
  }

  lemma ReadIsKeyed(db: Db<Value>, now: nat, ev: MessageEvent, o: Outside, provider: Bytes)
    requires WellKeyed(db)
    ensures Read(db, now, ev, o).Some? ==> C.OrBlank(Read(db, now, ev, o).value, Blank(ev, provider)).key == SessionKey(ev)
  {
  }

  lemma LocksKeepKeyed(db: Db<Value>, now: nat, key: Bytes, token: Bytes)
    requires WellKeyed(db)
    ensures WellKeyed(SetNX(db, now, LockKey(key), Token(token), LOCK_TTL))
    ensures WellKeyed(DelIfEquals(db, now, LockKey(key), Token(token)))
  {
    var db' := SetNX(db, now, LockKey(key), Token(token), LOCK_TTL);
    forall k | SessKey(k) in db' && db'[SessKey(k)].value.Blob?
      ensures db'[SessKey(k)].value.session.key == k
    {
      KeysApart(key, k);
    }
  }

  lemma RepliesSnoc(chunks: seq<Bytes>, k: nat)
    requires k < |chunks|
    ensures AsReplies(chunks[..k + 1]) == AsReplies(chunks[..k]) + [Threaded(chunks[k])]
  {
  }

  lemma Concat2<T>(s: seq<T>, a: seq<T>, b: seq<T>)
    ensures s + a + b == s + (a + b)
  {
  }

  lemma Concat3<T>(s: seq<T>, a: seq<T>, b: seq<T>, c: seq<T>)
    ensures s + a + b + c == s + (a + (b + c))
    ensures s + a + b == s + (a + (b + []))
    ensures s + a == s + (a + [])
  {
  }

  class Handler {
    const rdb: Server<Value>
    const locker: RedisLocker
    const store: RedisStore
    const knows: Bytes -> bool
    const defaultModel: Bytes
    const build: R.Builder
    var sends: seq<Sent>

    constructor (rdb: Server<Value>, random: nat -> Bytes, validJson: Bytes -> bool,
                 knows: Bytes -> bool, defaultModel: Bytes, build: R.Builder)
      requires WellKeyed(rdb.db) && forall i :: random(i) != ""
      ensures Valid() && this.rdb == rdb && sends == [] && fresh(locker) && locker.drawn == 0
    {
      this.rdb, this.knows, this.defaultModel, this.build := rdb, knows, defaultModel, build;
      locker := new RedisLocker(rdb, random);
      store := new RedisStore(rdb, validJson);
      sends := [];
    }

    ghost predicate Valid()
      reads this, rdb
    {
      && locker.rdb == rdb && store.rdb == rdb
      && (forall i :: locker.random(i) != "")
      && WellKeyed(rdb.db)
    }

    method Send(s: Sent)
      modifies `sends
      ensures sends == old(sends) + [s]
    {
      sends := sends + [s];
    }

    /** /model with a known alias. */
    method SwitchModel(ev: MessageEvent, alias: Bytes, o: Outside) returns (r: Reply)
      requires Valid() && knows(alias)
      modifies rdb`db
      ensures Valid() && rdb.db == SwitchDb(old(rdb.db), rdb.now, ev, alias, o, store.validJson)
      ensures r == if Switches(old(rdb.db), rdb.now, ev, o, store.validJson) then SwitchedTo(alias) else SwitchFailed
    {
      var key := SessionKey(ev);
      var fetched := store.Fetch(key, o.commandGetUp);
      if fetched.None? { return SwitchFailed; }
      var data := if fetched.value.Some? then fetched.value.value else Blank(ev, "");
      var sess := new Session(data);
      sess.provider := alias;
      var ok := store.Save(sess.key, sess, o.commandPutUp);
      if ok { SetWellKeyed(old(rdb.db), sess.View()); }
      return if ok then SwitchedTo(alias) else SwitchFailed;
    }

    /** `dispatchCommand`; None when the text is not a command. */
    method DispatchCommand(ev: MessageEvent, o: Outside) returns (r: Option<Reply>)
      requires Valid()
      modifies rdb`db
      ensures Valid()
      ensures r == if IsCommand(TrimSpace(ev.text))
        then Some(CommandReply(old(rdb.db), rdb.now, ev, o, knows, store.validJson)) else None
      ensures rdb.db == if r.Some? then CommandDb(old(rdb.db), rdb.now, ev, o, knows, store.validJson) else old(rdb.db)
    {
      var cmd := TrimSpace(ev.text);
      if !IsCommand(cmd) { return None; }
      if cmd == "/clear" {
        var ok := store.Delete(SessionKey(ev), o.commandPutUp);
        return Some(if ok then Cleared else ClearFailed);
      } else if cmd == "/help" {
        return Some(Help);
      } else if HasPrefix(cmd, MODEL) {
        var arg := TrimSpace(TrimPrefix(cmd, MODEL));
        if arg == "" { return Some(Models); }
        if !knows(arg) { return Some(UnknownModel(arg)); }
        var reply := SwitchModel(ev, arg, o);
        return Some(reply);
      } else if cmd == "/tools" {
        return Some(Tools);
      } else if cmd == "/whoami" {
        return Some(WhoAmI(SessionKey(ev), ev.senderOpenID, ev.chatType));
      } else {
        return Some(UnknownCommand(cmd));
      }
    }

    /** Thread replies for what does not fit the card, until one fails. */
    method ReplyInThread(text: Bytes, ok: nat -> bool)
      modifies `sends
      ensures sends == old(sends) + Continuation(text, ok)
    {
      hide Delivered, LB.Chunks, LB.CutAt;
      var inCard, chunks := LB.SplitLongBody(text);
      ghost var n := Delivered(chunks, ok);
      var k := 0;
      while k < |chunks| && ok(k)
        invariant k <= n
        invariant sends == old(sends) + AsReplies(chunks[..k])
      {
        Send(Threaded(chunks[k]));
        RepliesSnoc(chunks, k);
        k := k + 1;
      }
    }

    /** The agent's side of a turn. */
    method RunAgent(sess: Session, w: A.World, input: Bytes) returns (outcome: A.Outcome, emitted: seq<StreamEvent>)
      requires A.Fair(w) && store.validJson == w.validJson && store.rdb == rdb
      modifies sess`messages, rdb`db
      ensures var r := A.Run(w, A.DEFAULT_MAX_STEPS, old(sess.messages), input);
        && r.outcome == Some(outcome) && r.emitted == emitted
        && rdb.db == Loop.Put(old(rdb.db), old(sess.View()), r.written)
    {
      var ag := new Loop.Agent(w, sess, store, A.DEFAULT_MAX_STEPS);
      outcome := ag.Run(input);
      emitted := ag.emitted;
    }

    /** An agent that blocks after its n-th Save. */
    method StoppedAgent(sess: Session, written: seq<seq<Message>>, n: nat)
      requires store.rdb == rdb
      modifies rdb`db
      ensures rdb.db == Loop.Put(old(rdb.db), sess.View(), DoneSaves(written, true, n))
    {
      var done := DoneSaves(written, true, n);
      for k := 0 to |done|
        invariant rdb.db == Loop.Put(old(rdb.db), sess.View(), done[..k])
      {
        rdb.DoSet(SessKey(sess.key), Blob(sess.View().(messages := done[k])), true);
      }
      assert done[..|done|] == done;
    }

    /** The last patch: the error or done card.  `hangs` tells that it never gets built. */
    method Stop(state: CS.State, outcome: A.Outcome, o: Outside) returns (hangs: bool)
      modifies state, `sends
      ensures sends == old(sends) + StopPatch(build, old(state.Snapshot()), outcome, o)
      ensures hangs == build(TE.Closing(old(state.Snapshot()), outcome)).NeverEnds?
      ensures state.text == old(state.text)
    {
      if TE.Fails(outcome) { state.SetError(TE.UserFacing(outcome)); }
      state.SetDone();
      var last := build(state.Snapshot());
      if last.Body? && o.stopSent { Send(Patched(last.body)); }
      return last.NeverEnds?;
    }

    /** A new renderer, fed until the channel closes, or until it hangs. */
    method FeedAll(turns: seq<R.Turn>, model: Bytes, o: Outside)
      returns (state: CS.State, sent: seq<Bytes>, hung: bool)
      ensures fresh(state)
      ensures var f := R.Run(build, R.NewFeed(TE.Stamped(o.traceID, model)), turns);
        state.Snapshot() == f.card && sent == f.sent && hung == f.hung
    {
      state := new CS.State();
      state.traceID, state.model := o.traceID, model;
      assert state.Rows() == [];
      var renderer := new R.Loop(state, build);
      assert renderer.View() == R.NewFeed(TE.Stamped(o.traceID, model));
      renderer.Feed(turns);
      sent, hung := renderer.sent, renderer.hung;
    }

    /** Everything the renderer sends in a turn, and the thread replies. */
    method Render(turns: seq<R.Turn>, outcome: A.Outcome, model: Bytes, o: Outside) returns (hangs: bool)
      modifies `sends
      ensures var f := R.Run(build, R.NewFeed(TE.Stamped(o.traceID, model)), turns);
        hangs == Stuck(build, f, outcome) && sends == old(sends) + TurnSends(build, f, outcome, o)
    {
      hide R.Run, Continuation;
      var state, sent, hung := FeedAll(turns, model, o);
      ghost var f := R.Run(build, R.NewFeed(TE.Stamped(o.traceID, model)), turns);
      sends := sends + AsPatches(sent);
      Concat3(old(sends), AsPatches(sent), StopPatch(build, f.card, outcome, o), Continuation(f.card.text, o.replyOk));
      if hung { return true; }
      hangs := Stop(state, outcome, o);
      if hangs { return true; }
      if !TE.Fails(outcome) { ReplyInThread(state.text, o.replyOk); }
    }

    /** What Handle gets to once the initial card is there. */
    method RunTurn(sess: Session, w: A.World, model: Bytes, input: Bytes, o: Outside) returns (result: Result)
      requires A.Fair(w) && store.validJson == w.validJson && store.rdb == rdb
      modifies `sends, sess`messages, rdb`db
      ensures var r := A.Run(w, A.DEFAULT_MAX_STEPS, old(sess.messages), input); var f := Fed(build, r.emitted, model, o);
        && r.outcome.Some?
        && result == (if Stuck(build, f, r.outcome.value) then Hangs else Ran(r.outcome.value))
        && rdb.db == Loop.Put(old(rdb.db), old(sess.View()), DoneSaves(r.written, f.hung, o.reached))
        && sends == old(sends) + RunSends(build, r.emitted, r.outcome.value, model, o)
    {
      hide A.Run, R.Run;
      TE.RunEnds(w, A.DEFAULT_MAX_STEPS, sess.messages, input);
      var r := A.Run(w, A.DEFAULT_MAX_STEPS, sess.messages, input);
      if Fed(build, r.emitted, model, o).hung {
        StoppedAgent(sess, r.written, o.reached);
        var stuck := Render(o.pace(r.emitted), r.outcome.value, model, o);
        return Hangs;
      }
      var outcome, emitted := RunAgent(sess, w, input);
      var hangs := Render(o.pace(emitted), outcome, model, o);
      return if hangs then Hangs else Ran(outcome);
    }

    /** The initial card, then the run. */
    method BeginRun(sess: Session, w: A.World, model: Bytes, input: Bytes, o: Outside) returns (result: Result)
      requires A.Fair(w) && store.validJson == w.validJson && store.rdb == rdb
      modifies `sends, sess`messages, rdb`db
      ensures var r := A.Run(w, A.DEFAULT_MAX_STEPS, old(sess.messages), input); var f := Fed(build, r.emitted, model, o);
        && r.outcome.Some?
        && result == (if Stuck(build, f, r.outcome.value) then Hangs else Ran(r.outcome.value))
        && rdb.db == Loop.Put(old(rdb.db), old(sess.View()), DoneSaves(r.written, f.hung, o.reached))
        && sends == old(sends) + ([InitialCard] + RunSends(build, r.emitted, r.outcome.value, model, o))
    {
      hide A.Run, R.Run;
      Send(InitialCard);
      result := RunTurn(sess, w, model, input, o);
      ghost var r := A.Run(w, A.DEFAULT_MAX_STEPS, old(sess.messages), input);
      Concat2(old(sends), [InitialCard], RunSends(build, r.emitted, r.outcome.value, model, o));
    }

    method OnSession(sess: Session, ev: MessageEvent, o: Outside) returns (result: Result)
      requires Valid() && FairStart(o) && SameJson(o)
      modifies `sends, sess`messages, rdb`db
      ensures rdb.db == SessionDb(old(rdb.db), old(sess.View()), ev, o, build)
      ensures var (ended, sent) := SessionReport(old(sess.View()), ev, o, build);
        result == ended && sends == old(sends) + sent
    {
      match o.start(sess.View()) {
        case NoProvider =>
          Send(NoModelNotice);
          return NoModel;
        case CardFails =>
          return NoCard;
        case Begins(w, model) =>
          result := BeginRun(sess, w, model, ev.text, o);
      }
    }

    /** Everything between the grant of the lock and its release. */
    method UnderLock(ev: MessageEvent, o: Outside) returns (result: Result)
      requires Valid() && FairStart(o) && SameJson(o)
      modifies `sends, rdb`db
      ensures Valid()
      ensures rdb.db == WrittenDb(old(rdb.db), rdb.now, ev, o, defaultModel, build)
      ensures var (ended, sent) := TurnReport(old(rdb.db), rdb.now, ev, o, defaultModel, build);
        result == ended && sends == old(sends) + sent
    {
      var fetched := store.Fetch(SessionKey(ev), o.getUp);
      if fetched.None? {
        Send(StoreTrouble);
        return StoreFailed;
      }
      var data := if fetched.value.Some? then fetched.value.value else Blank(ev, defaultModel);
      var sess := new Session(data);
      SessionDbKeyed(rdb.db, data, ev, o, build);
      result := OnSession(sess, ev, o);
    }

    /** The worlds agree with the store on what is JSON. */
    ghost predicate SameJson(o: Outside) {
      forall s :: o.start(s).Begins? ==> o.start(s).w.validJson == store.validJson
    }

    /** From the lock attempt on. */
    method TakeTurn(ev: MessageEvent, o: Outside) returns (result: Result)
      requires Valid() && FairStart(o) && SameJson(o)
      modifies `sends, locker`drawn, rdb`db, rdb`now
      ensures Valid() && !result.Ignored? && !result.Replied?
      ensures !o.lockUp ==>
        result == LockFailed && rdb.db == old(rdb.db) && sends == old(sends) + [LockTrouble]
      ensures o.lockUp && Live(old(rdb.db), old(rdb.now), LockKey(SessionKey(ev))) ==>
        result == Busy && rdb.db == old(rdb.db) && sends == old(sends) + [StillBusy]
      ensures o.lockUp && !Live(old(rdb.db), old(rdb.now), LockKey(SessionKey(ev))) ==>
        var token := locker.random(old(locker.drawn));
        var locked := SetNX(old(rdb.db), old(rdb.now), LockKey(SessionKey(ev)), Token(token), LOCK_TTL);
        var (ended, sent) := TurnReport(locked, old(rdb.now), ev, o, defaultModel, build);
        && rdb.db == TurnDb(old(rdb.db), old(rdb.now), token, ev, o, defaultModel, build)
        && result == ended && sends == old(sends) + sent
      ensures rdb.now == old(rdb.now) + if HeldLock(result) then o.busy else 0
    {
      var key := SessionKey(ev);
      var grant := locker.TryAcquire(key, LOCK_TTL, o.lockUp);
      match grant {
        case LockError =>
          Send(LockTrouble);
          return LockFailed;
        case Refused =>
          Send(StillBusy);
          return Busy;
        case Granted(token) =>
          LocksKeepKeyed(old(rdb.db), rdb.now, key, token);
          result := UnderLock(ev, o);
          rdb.Wait(o.busy);
          LocksKeepKeyed(rdb.db, rdb.now, key, token);
          if result != Hangs { locker.Release(key, token, o.releaseUp); }
      }
    }

    /** `Handle`. */
    method Handle(ev: MessageEvent, o: Outside) returns (result: Result)
      requires Valid() && FairStart(o) && SameJson(o)
      modifies `sends, locker`drawn, rdb`db, rdb`now
      ensures Valid()
      // Only a message without text, or one from a group that does not mention the bot, is ignored.
      ensures result == Ignored <==> ev.text == "" || (ev.chatType != "p2p" && !ev.mentionedBot)
      ensures result == Ignored ==> rdb.db == old(rdb.db) && sends == old(sends)
      // A text that starts with a slash, behind white space, is a command.
      ensures result == Replied <==> result != Ignored && HasPrefix(TrimSpace(ev.text), "/")
      ensures result == Replied ==>
        && rdb.db == CommandDb(old(rdb.db), old(rdb.now), ev, o, knows, store.validJson)
        && sends == old(sends) + [PlainCard(CommandReply(old(rdb.db), old(rdb.now), ev, o, knows, store.validJson))]
      // Anything else is a turn, if it gets the lock.
      ensures result != Ignored && result != Replied && !o.lockUp ==>
        result == LockFailed && rdb.db == old(rdb.db) && sends == old(sends) + [LockTrouble]
      ensures result != Ignored && result != Replied && o.lockUp && Live(old(rdb.db), old(rdb.now), LockKey(SessionKey(ev))) ==>
        result == Busy && rdb.db == old(rdb.db) && sends == old(sends) + [StillBusy]
      ensures result != Ignored && result != Replied && o.lockUp && !Live(old(rdb.db), old(rdb.now), LockKey(SessionKey(ev))) ==>
        var token := locker.random(old(locker.drawn));
        var locked := SetNX(old(rdb.db), old(rdb.now), LockKey(SessionKey(ev)), Token(token), LOCK_TTL);
        var (ended, sent) := TurnReport(locked, old(rdb.now), ev, o, defaultModel, build);
        && rdb.db == TurnDb(old(rdb.db), old(rdb.now), token, ev, o, defaultModel, build)
        && result == ended && sends == old(sends) + sent
      ensures rdb.now == old(rdb.now) + if HeldLock(result) then o.busy else 0
    {
      if ev.chatType != "p2p" && !ev.mentionedBot { return Ignored; }
      if ev.text == "" { return Ignored; }
      var reply := DispatchCommand(ev, o);
      if reply.Some? {
        Send(PlainCard(reply.value));
        return Replied;
      }
      result := TakeTurn(ev, o);
    }
  }

  lemma SessionDbKeyed(db: Db<Value>, data: SessionData, ev: MessageEvent, o: Outside, build: R.Builder)
    requires FairStart(o) && WellKeyed(db)
    ensures WellKeyed(SessionDb(db, data, ev, o, build))
  {
    if o.start(data).Begins? {
      var r := A.Run(o.start(data).w, A.DEFAULT_MAX_STEPS, data.messages, ev.text);
      PutKeyed(db, data, DoneSaves(r.written, Fed(build, r.emitted, o.start(data).model, o).hung, o.reached));
    }
  }

  lemma PutKeyed(db: Db<Value>, data: SessionData, written: seq<seq<Message>>)
    requires WellKeyed(db)
    ensures WellKeyed(Loop.Put(db, data, written))
  {
    if written != [] { SetWellKeyed(db, data.(messages := written[|written| - 1])); }
  }
}
