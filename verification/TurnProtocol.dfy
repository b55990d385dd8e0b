/** What `Handle` does to Redis and to the user in a turn, in terms of the turn protocol, the agent
    run and the final card. */
module TurnProtocol {
  import opened Bytes
  import opened Llm
  import opened Redis
  import opened Sessions
  import opened Handler
  import opened Turns
  import A = AgentSpec
  import C = Conversations
  import CZ = CardSize
  import Channel
  import CS = CardState
  import E = EmissionProtocol
  import Hanging
  import LB = LongBody
  import H = AgentHistory
  import R = Renderer
  import Rt = RunTranscript
  import S = SessionStore
  import Serial
  import TE = TurnEnd

  // ---------------------------------------------------------------------------------
  // A turn of Handle is a turn of the protocol.
  // ---------------------------------------------------------------------------------

  /** The state after the first n Saves of a turn that has just loaded. */
  function AfterSaves(env: Env, s: State, id: nat, n: nat): (r: State)
    requires id in s.turns && s.turns[id].phase.Loaded? && s.turns[id].phase.saved == 0
    requires n <= |env.writes(id, s.turns[id].phase.read)|
    ensures r.turns == s.turns[id := s.turns[id].(phase := Loaded(s.turns[id].phase.read, n))]
    ensures r.now == s.now && r.next == s.next && r.switches == s.switches
    ensures r.db == if n == 0 then s.db
      else Set(s.db, SessKey(s.turns[id].key), Blob(env.writes(id, s.turns[id].phase.read)[n - 1]))
  {
    if n == 0 then
      assert s.turns == s.turns[id := s.turns[id].(phase := Loaded(s.turns[id].phase.read, 0))];
      s
    else Next(env, AfterSaves(env, s, id, n - 1), Save(id))
  }

  /** A granted turn that nobody interrupts, some time after its n-th Save: TryAcquire, Load, Save. */
  function Underway(env: Env, s: State, key: Bytes, busy: nat, n: nat): State
    requires Free(s, key)
    requires n <= |env.writes(s.next, Stored(Next(env, s, TryAcquire(key)), key))|
  {
    var loaded := Next(env, Next(env, s, TryAcquire(key)), Load(s.next));
    Next(env, AfterSaves(env, loaded, s.next, n), Advance(busy))
  }

  /** A granted turn that nobody interrupts, once all its Saves are done and it has released. */
  function Alone(env: Env, s: State, key: Bytes, busy: nat, up: bool): State
    requires Free(s, key)
  {
    var read := Stored(Next(env, s, TryAcquire(key)), key);
    Next(env, Underway(env, s, key, busy, |env.writes(s.next, read)|), Release(s.next, up))
  }

  /** What the turn loads is what Handle reads. */
  lemma LoadsWhatHandleReads(env: Env, s: State, ev: MessageEvent, o: Outside)
    requires o.getUp && env.ttl == LOCK_TTL && Free(s, SessionKey(ev)) && Serial.WellStored(s.db)
    ensures var locked := Next(env, s, TryAcquire(SessionKey(ev)));
      Read(locked.db, s.now, ev, o) == Some(Stored(locked, SessionKey(ev)))
  {
    var key := SessionKey(ev);
    Serial.StepWellStored(env, s, TryAcquire(key));
    var locked := Next(env, s, TryAcquire(key));
    assert SessKey(key) in locked.db ==> locked.db[SessKey(key)].value.Blob?;
  }

  /** The sessions a turn of Handle has to write, given what is stored: none when its Get fails. */
  function HandleWrites(ev: MessageEvent, o: Outside, defaultModel: Bytes, read: Option<SessionData>): seq<SessionData>
    requires FairStart(o)
  {
    if o.getUp then C.TurnWrites(PlanOf(ev, o, defaultModel), read) else []
  }

  /** The turn begins a run, and Feed hangs in it. */
  predicate FeedHangs(ev: MessageEvent, o: Outside, defaultModel: Bytes, build: R.Builder, read: Option<SessionData>)
    requires FairStart(o)
  {
    var s := C.OrBlank(read, Blank(ev, defaultModel));
    && o.getUp && o.start(s).Begins?
    && Fed(build, A.Run(o.start(s).w, A.DEFAULT_MAX_STEPS, s.messages, ev.text).emitted, o.start(s).model, o).hung
  }

  /** How many of them it gets written. */
  function SavesDone(ev: MessageEvent, o: Outside, defaultModel: Bytes, build: R.Builder, read: Option<SessionData>): (n: nat)
    requires FairStart(o)
    ensures n <= |HandleWrites(ev, o, defaultModel, read)|
    ensures n < |HandleWrites(ev, o, defaultModel, read)| ==> FeedHangs(ev, o, defaultModel, build, read)
  {
    var all := |HandleWrites(ev, o, defaultModel, read)|;
    if FeedHangs(ev, o, defaultModel, build, read) && o.reached < all then o.reached else all
  }

  function LastPut(db: Db<Value>, key: Bytes, ws: seq<SessionData>): Db<Value> {
    if ws == [] then db else Set(db, SessKey(key), Blob(ws[|ws| - 1]))
  }

  /** What Handle leaves in Redis is the last of the sessions it gets written. */
  lemma HandleWritesLast(db: Db<Value>, now: nat, ev: MessageEvent, o: Outside, defaultModel: Bytes, build: R.Builder)
    requires FairStart(o) && WellKeyed(db)
    ensures var read := Read(db, now, ev, o);
      WrittenDb(db, now, ev, o, defaultModel, build) ==
        if read.None? then db
        else LastPut(db, SessionKey(ev), HandleWrites(ev, o, defaultModel, read.value)[..SavesDone(ev, o, defaultModel, build, read.value)])
  {
    var p, read := PlanOf(ev, o, defaultModel), Read(db, now, ev, o);
    hide A.Run, R.Run;
    if read.Some? {
      var s := C.OrBlank(read.value, p.blank);
      ReadIsKeyed(db, now, ev, o, defaultModel);
      assert o.start(s).Begins? ==> C.TurnRun(p, s) == Some(A.Run(o.start(s).w, A.DEFAULT_MAX_STEPS, s.messages, ev.text));
    }
  }

  /** Whatever happens after the grant, an error at loading, a missing model, a failed card, a
      failed run, the deferred release frees the lock if it reaches Redis, and otherwise, or if
      Handle never gets to it, the time limit does; the entry itself is gone exactly when the
      release came through in time.  Nothing but the session of this very conversation has
      changed. */
  lemma TurnFreesLock(db: Db<Value>, now: nat, token: Bytes, ev: MessageEvent, o: Outside, defaultModel: Bytes,
                      build: R.Builder, later: nat, k: Bytes)
    requires FairStart(o) && WellKeyed(db) && !Live(db, now, LockKey(SessionKey(ev)))
    requires later >= now + o.busy
    ensures var lock := LockKey(SessionKey(ev));
      var db' := TurnDb(db, now, token, ev, o, defaultModel, build);
      var locked := SetNX(db, now, lock, Token(token), LOCK_TTL);
      var released := o.releaseUp && TurnReport(locked, now, ev, o, defaultModel, build).0 != Hangs;
      && (Live(db', later, lock) <==> !released && later < now + LOCK_TTL)
      && (lock !in db' <==> released && o.busy < LOCK_TTL)
      && (k != lock && k != SessKey(SessionKey(ev)) ==>
            (k in db' <==> k in db) && (k in db ==> db'[k] == db[k]))
  {
    hide TurnReport, HandleWrites, SavesDone;
    var key := SessionKey(ev);
    var locked := SetNX(db, now, LockKey(key), Token(token), LOCK_TTL);
    KeysApart(key, key);
    LocksKeepKeyed(db, now, key, token);
    HandleWritesLast(locked, now, ev, o, defaultModel, build);
    var written := WrittenDb(locked, now, ev, o, defaultModel, build);
    hide WrittenDb;
    assert LockKey(key) in written && written[LockKey(key)] == Entry(Token(token), Some(now + LOCK_TTL));
  }

  lemma UnderwayIs(env: Env, s: State, key: Bytes, busy: nat, n: nat)
    requires Free(s, key)
    requires n <= |env.writes(s.next, Stored(Next(env, s, TryAcquire(key)), key))|
    ensures var locked := Next(env, s, TryAcquire(key)); var read := Stored(locked, key);
      var s' := Underway(env, s, key, busy, n);
      && s'.db == LastPut(locked.db, key, env.writes(s.next, read)[..n])
      && s'.turns == s.turns[s.next := Turn(key, s.now, Loaded(read, n))] && s'.now == s.now + busy
  {
  }

  lemma AloneIs(env: Env, s: State, key: Bytes, busy: nat, up: bool)
    requires Free(s, key)
    ensures var locked := Next(env, s, TryAcquire(key));
      var ws := env.writes(s.next, Stored(locked, key));
      var s' := Alone(env, s, key, busy, up); var written := LastPut(locked.db, key, ws);
      && s'.db == (if up then DelIfEquals(written, s.now + busy, LockKey(key), Token(env.token(s.next))) else written)
      && s'.turns == s.turns - {s.next} && s'.now == s.now + busy
  {
    var ws := env.writes(s.next, Stored(Next(env, s, TryAcquire(key)), key));
    UnderwayIs(env, s, key, busy, |ws|);
    assert ws[..|ws|] == ws;
  }

  /** A granted turn of Handle ends, as far as Redis can tell, in this state of the protocol: after
      its release, or, if it hangs, after as many Saves as it got done. */
  function EndOf(env: Env, s: State, ev: MessageEvent, o: Outside, defaultModel: Bytes, build: R.Builder): State
    requires FairStart(o) && Free(s, SessionKey(ev))
    requires var read := Stored(Next(env, s, TryAcquire(SessionKey(ev))), SessionKey(ev));
      env.writes(s.next, read) == HandleWrites(ev, o, defaultModel, read)
  {
    var key := SessionKey(ev);
    var locked := Next(env, s, TryAcquire(key));
    if TurnReport(locked.db, s.now, ev, o, defaultModel, build).0 == Hangs
    then Underway(env, s, key, o.busy, SavesDone(ev, o, defaultModel, build, Stored(locked, key)))
    else Alone(env, s, key, o.busy, o.releaseUp)
  }

  /** Only a turn that hangs leaves a Save undone. */
  lemma AllSavedUnlessHanging(db: Db<Value>, now: nat, ev: MessageEvent, o: Outside, defaultModel: Bytes, build: R.Builder)
    requires FairStart(o) && TurnReport(db, now, ev, o, defaultModel, build).0 != Hangs && Read(db, now, ev, o).Some?
    ensures var read := Read(db, now, ev, o).value;
      SavesDone(ev, o, defaultModel, build, read) == |HandleWrites(ev, o, defaultModel, read)|
  {
    hide A.Run, R.Run;
    var read := Read(db, now, ev, o).value;
    assert !FeedHangs(ev, o, defaultModel, build, read);
  }

  /** Handle refines the protocol: run on a free lock, however long it takes, whether or not its
      Get succeeds, and even if it hangs, it leaves Redis exactly as the protocol's actions do, with
      the Saves of the agent run as the turn's writes.  A turn that hangs stays among the turns
      that have not released. */
  lemma HandleIsAProtocolTurn(env: Env, s: State, ev: MessageEvent, o: Outside, defaultModel: Bytes, build: R.Builder)
    requires FairStart(o) && env.ttl == LOCK_TTL
    requires Free(s, SessionKey(ev)) && Serial.WellStored(s.db) && WellKeyed(s.db)
    requires var read := Stored(Next(env, s, TryAcquire(SessionKey(ev))), SessionKey(ev));
      env.writes(s.next, read) == HandleWrites(ev, o, defaultModel, read)
    ensures var s' := EndOf(env, s, ev, o, defaultModel, build); var locked := Next(env, s, TryAcquire(SessionKey(ev)));
      && s'.db == TurnDb(s.db, s.now, env.token(s.next), ev, o, defaultModel, build)
      && s'.now == s.now + o.busy
      && (s.next in s'.turns <==> TurnReport(locked.db, s.now, ev, o, defaultModel, build).0 == Hangs)
      && s'.turns - {s.next} == s.turns - {s.next}
  {
    hide TurnReport, HandleWrites, SavesDone, Underway, Alone, WrittenDb;
    var key := SessionKey(ev);
    var locked := Next(env, s, TryAcquire(key));
    LocksKeepKeyed(s.db, s.now, key, env.token(s.next));
    HandleWritesLast(locked.db, s.now, ev, o, defaultModel, build);
    AloneIs(env, s, key, o.busy, o.releaseUp);
    var read := Stored(locked, key);
    UnderwayIs(env, s, key, o.busy, SavesDone(ev, o, defaultModel, build, read));
    ReadOrFail(env, s, ev, o, defaultModel, build);
    var ws := HandleWrites(ev, o, defaultModel, read);
    assert ws[..|ws|] == ws;
  }

  /** Handle loads what the turn of the protocol loads; or its Get fails, and nothing is written. */
  lemma ReadOrFail(env: Env, s: State, ev: MessageEvent, o: Outside, defaultModel: Bytes, build: R.Builder)
    requires FairStart(o) && env.ttl == LOCK_TTL
    requires Free(s, SessionKey(ev)) && Serial.WellStored(s.db)
    ensures var locked := Next(env, s, TryAcquire(SessionKey(ev)));
      var read := Stored(locked, SessionKey(ev)); var got := Read(locked.db, s.now, ev, o);
      && (o.getUp ==> got == Some(read))
      && (!o.getUp ==>
            && got == None && HandleWrites(ev, o, defaultModel, read) == []
            && TurnReport(locked.db, s.now, ev, o, defaultModel, build).0 != Hangs)
      && (TurnReport(locked.db, s.now, ev, o, defaultModel, build).0 != Hangs ==>
            SavesDone(ev, o, defaultModel, build, read) == |HandleWrites(ev, o, defaultModel, read)|)
  {
    var locked := Next(env, s, TryAcquire(SessionKey(ev)));
    if o.getUp {
      LoadsWhatHandleReads(env, s, ev, o);
      hide TurnReport, SavesDone, HandleWrites, Stored;
      if TurnReport(locked.db, s.now, ev, o, defaultModel, build).0 != Hangs {
        AllSavedUnlessHanging(locked.db, s.now, ev, o, defaultModel, build);
      }
    }
  }

  // ---------------------------------------------------------------------------------
  // Commands do what they say.
  // ---------------------------------------------------------------------------------

  /** The session of the sender at a time, as any later Get sees it. */
  function SessionAt(db: Db<Value>, t: nat, ev: MessageEvent): Option<Option<SessionData>> {
    Decoded(Get(db, t, SessKey(SessionKey(ev))))
  }

  /** What is stored, or else a new session of the sender in this chat. */
  function Found(read: Option<SessionData>, ev: MessageEvent, provider: Bytes): SessionData {
    match read
    case Some(s) => s
    case None => SessionData(SessionKey(ev), ev.senderOpenID, ev.chatID, ev.chatType, provider, [])
  }

  lemma SwitchIsTrue(db: Db<Value>, now: nat, ev: MessageEvent, alias: Bytes, o: Outside, validJson: Bytes -> bool,
                     later: nat, k: Bytes)
    requires WellKeyed(db)
    ensures var db' := SwitchDb(db, now, ev, alias, o, validJson); var before := SessionAt(db, now, ev);
      && (Switches(db, now, ev, o, validJson) ==>
            var base := Found(before.value, ev, "");
            SessionAt(db', later, ev) == Some(Some(base.(provider := alias, messages := S.Trim(base.messages)))))
      && (!Switches(db, now, ev, o, validJson) ==> db' == db)
      && (k != SessKey(SessionKey(ev)) ==> (k in db' <==> k in db) && (k in db ==> db'[k] == db[k]))
  {
  }

  /** "Cleared" means that from then on there is no session; "switched" means that from then on the
      session is the old one, or a blank one, with the new provider and a trimmed history; any other
      answer means that nothing has changed.  No command touches another key. */
  lemma CommandRepliesAreTrue(db: Db<Value>, now: nat, ev: MessageEvent, o: Outside, knows: Bytes -> bool,
                              validJson: Bytes -> bool, later: nat, k: Bytes)
    requires WellKeyed(db)
    ensures var r := CommandReply(db, now, ev, o, knows, validJson);
      var db' := CommandDb(db, now, ev, o, knows, validJson);
      var before := SessionAt(db, now, ev);
      && (r.Cleared? ==> SessionAt(db', later, ev) == Some(None))
      && (r.SwitchedTo? ==>
            && before.Some? && knows(r.alias)
            && var base := Found(before.value, ev, "");
            SessionAt(db', later, ev) == Some(Some(base.(provider := r.alias, messages := S.Trim(base.messages)))))
      && (!r.Cleared? && !r.SwitchedTo? ==> db' == db)
      && (k != SessKey(SessionKey(ev)) ==> (k in db' <==> k in db) && (k in db ==> db'[k] == db[k]))
  {
    hide SwitchDb, TrimSpace, HasPrefix, TrimPrefix;
    SwitchIsTrue(db, now, ev, ModelAlias(TrimSpace(ev.text)), o, validJson, later, k);
  }

  /** Which answer a command gets: /clear and /model with a known alias report a failure exactly
      when a request to Redis failed, what is stored is not a session, or the history holds a call
      whose arguments are not JSON. */
  lemma CommandFailsExactly(db: Db<Value>, now: nat, ev: MessageEvent, o: Outside, knows: Bytes -> bool, validJson: Bytes -> bool)
    ensures var r := CommandReply(db, now, ev, o, knows, validJson); var cmd := TrimSpace(ev.text);
      && (cmd == "/clear" ==> (r == Cleared <==> o.commandPutUp) && (r == ClearFailed <==> !o.commandPutUp))
      && (HasPrefix(cmd, MODEL) && ModelAlias(cmd) != "" && knows(ModelAlias(cmd)) ==>
            var before := SessionAt(db, now, ev);
            && (r == SwitchFailed || r == SwitchedTo(ModelAlias(cmd)))
            && (r == SwitchFailed <==>
                  || !o.commandGetUp || !o.commandPutUp || before.None?
                  || (before.value.Some? && !Encodable(validJson, S.Trim(before.value.value.messages)))))
  {
    assert S.Trim([]) == [];
  }

  /** Which answer goes with which text.  Everything that starts with /model is about models, and
      what follows, without white space around it, is the model meant. */
  lemma CommandAnswersExactly(db: Db<Value>, now: nat, ev: MessageEvent, o: Outside, knows: Bytes -> bool, validJson: Bytes -> bool)
    ensures var r := CommandReply(db, now, ev, o, knows, validJson); var cmd := TrimSpace(ev.text);
      && (cmd == "/clear" <==> r == Cleared || r == ClearFailed)
      && (cmd == "/help" <==> r == Help)
      && (cmd == "/tools" <==> r == Tools)
      && (cmd == "/whoami" <==> r == WhoAmI(SessionKey(ev), ev.senderOpenID, ev.chatType))
      && (HasPrefix(cmd, "/model") ==>
            var alias := TrimSpace(cmd[6..]);
            && (alias == "" <==> r == Models)
            && (alias != "" && !knows(alias) <==> r == UnknownModel(alias))
            && (alias != "" && knows(alias) <==> r == SwitchFailed || r == SwitchedTo(alias)))
      && (cmd != "/clear" && cmd != "/help" && cmd != "/tools" && cmd != "/whoami" && !HasPrefix(cmd, "/model") <==>
            r == UnknownCommand(cmd))
  {
    hide TrimSpace;
    var cmd := TrimSpace(ev.text);
    if HasPrefix(cmd, "/model") {
      assert cmd[1] == 'm';
      assert TrimPrefix(cmd, MODEL) == cmd[6..];
    }
  }

  // ---------------------------------------------------------------------------------
  // What a turn stores.
  // ---------------------------------------------------------------------------------

  /** Every session a turn has to write is the one it found, or a new one of this sender in this
      chat, with other messages; the first one ends in the text of the message, cut to size, behind
      the history found, trimmed once; and there is none exactly when the Get fails, no run begins,
      or the first Save of the run fails. */
  lemma TurnStoresQuestion(ev: MessageEvent, o: Outside, defaultModel: Bytes, read: Option<SessionData>)
    requires FairStart(o)
    ensures var ws := HandleWrites(ev, o, defaultModel, read); var base := Found(read, ev, defaultModel);
      var first := S.Trim(base.messages + [Message(User, ev.text, "", [], "", "", false)]);
      && (forall k :: 0 <= k < |ws| ==> ws[k] == base.(messages := ws[k].messages))
      && first != [] && Rt.IsUserInput(first[|first| - 1], S.TruncateContent(ev.text))
      && (ws != [] ==> ws[0].messages == first)
      && (ws != [] <==>
            o.getUp && o.start(base).Begins? && o.start(base).w.redisUp(0) && A.Encodable(o.start(base).w, first))
  {
    var p, base := PlanOf(ev, o, defaultModel), Found(read, ev, defaultModel);
    assert C.OrBlank(read, p.blank) == base;
    H.LastOfTrim(base.messages, Message(User, ev.text, "", [], "", "", false));
    if o.start(base).Begins? {
      Rt.InputIsStored(o.start(base).w, A.DEFAULT_MAX_STEPS, base.messages, ev.text);
      hide A.Run, S.Trim, A.Encodable;
      assert C.TurnRun(p, base) == Some(A.Run(o.start(base).w, A.DEFAULT_MAX_STEPS, base.messages, ev.text));
    }
  }

  // ---------------------------------------------------------------------------------
  // What the user gets to see.
  // ---------------------------------------------------------------------------------

  function RepliesIn(sent: seq<Sent>): seq<Bytes> {
    if sent == [] then []
    else
      var init, last := RepliesIn(sent[..|sent| - 1]), sent[|sent| - 1];
      if last.Threaded? then init + [last.chunk] else init
  }

  function PatchesIn(sent: seq<Sent>): seq<Bytes> {
    if sent == [] then []
    else
      var init, last := PatchesIn(sent[..|sent| - 1]), sent[|sent| - 1];
      if last.Patched? then init + [last.body] else init
  }

  lemma {:induction false} OnlyPatches(bodies: seq<Bytes>)
    ensures PatchesIn(AsPatches(bodies)) == bodies && RepliesIn(AsPatches(bodies)) == []
  {
    if bodies != [] {
      var n := |bodies| - 1;
      assert AsPatches(bodies)[..n] == AsPatches(bodies[..n]);
      OnlyPatches(bodies[..n]);
    }
  }

  lemma {:induction false} PatchesThenReplies(bodies: seq<Bytes>, chunks: seq<Bytes>)
    ensures PatchesIn(AsPatches(bodies) + AsReplies(chunks)) == bodies
    ensures RepliesIn(AsPatches(bodies) + AsReplies(chunks)) == chunks
    decreases |chunks|
  {
    var sent := AsPatches(bodies) + AsReplies(chunks);
    if chunks == [] {
      assert sent == AsPatches(bodies);
      OnlyPatches(bodies);
    } else {
      var n := |chunks| - 1;
      assert sent[..|sent| - 1] == AsPatches(bodies) + AsReplies(chunks[..n]);
      PatchesThenReplies(bodies, chunks[..n]);
    }
  }

  /** The closing patch goes out when the card can be encoded and the request gets through. */
  function LastBodies(build: R.Builder, final: CS.Card, o: Outside): seq<Bytes> {
    if build(final).Body? && o.stopSent then [build(final).body] else []
  }

  /** What is sent, in order: the patches of Feed, the closing patch, and then, if the run did not
      fail, the thread replies up to the first that fails.  When Feed hangs, or the build of the
      closing card does, nothing comes after the patches of Feed. */
  lemma TurnSendsAre(build: R.Builder, f: R.FeedState, outcome: A.Outcome, o: Outside)
    ensures var sent := TurnSends(build, f, outcome, o); var stuck := Stuck(build, f, outcome);
      && PatchesIn(sent) == f.sent + (if stuck then [] else LastBodies(build, TE.Closing(f.card, outcome), o))
      && RepliesIn(sent) ==
           (if stuck || TE.Fails(outcome) then [] else LongChunks(f.card.text)[..Delivered(LongChunks(f.card.text), o.replyOk)])
      && sent == AsPatches(PatchesIn(sent)) + AsReplies(RepliesIn(sent))
  {
    var stuck := Stuck(build, f, outcome);
    var last := if stuck then [] else LastBodies(build, TE.Closing(f.card, outcome), o);
    var replies :=
      if stuck || TE.Fails(outcome) then [] else LongChunks(f.card.text)[..Delivered(LongChunks(f.card.text), o.replyOk)];
    SendsInOrder(build, f, outcome, o);
    hide *;
    PatchesThenReplies(f.sent + last, replies);
  }

  lemma SendsInOrder(build: R.Builder, f: R.FeedState, outcome: A.Outcome, o: Outside)
    ensures var stuck := Stuck(build, f, outcome);
      var last := if stuck then [] else LastBodies(build, TE.Closing(f.card, outcome), o);
      var replies :=
        if stuck || TE.Fails(outcome) then [] else LongChunks(f.card.text)[..Delivered(LongChunks(f.card.text), o.replyOk)];
      TurnSends(build, f, outcome, o) == AsPatches(f.sent + last) + AsReplies(replies)
  {
    hide Stuck, LongChunks, Delivered, TE.Closing, TE.Fails;
    PatchesAppend(f.sent, LastBodies(build, TE.Closing(f.card, outcome), o));
  }

  lemma PatchesAppend(a: seq<Bytes>, b: seq<Bytes>)
    ensures AsPatches(a) + AsPatches(b) == AsPatches(a + b) && AsPatches(a) == AsPatches(a + []) && AsReplies([]) == []
  {
    assert a + [] == a;
  }

  lemma ConcatSplit(chunks: seq<Bytes>, n: nat)
    requires n <= |chunks|
    ensures Concat(chunks) == Concat(chunks[..n]) + Concat(chunks[n..])
    ensures n < |chunks| && chunks[n] != "" ==> Concat(chunks[n..]) != ""
    ensures n == |chunks| ==> Concat(chunks[n..]) == ""
  {
    assert chunks[..n] + chunks[n..] == chunks;
    assert n == |chunks| ==> chunks[n..] == [];
    hide Concat;
    ConcatAppend(chunks[..n], chunks[n..]);
    if n < |chunks| && chunks[n] != "" { FirstCounts(chunks[n], chunks[n + 1..], chunks[n..]); }
  }

  lemma FirstCounts(first: Bytes, rest: seq<Bytes>, all: seq<Bytes>)
    requires all == [first] + rest && first != ""
    ensures Concat(all) != ""
  {
    hide Concat;
    ConcatAppend([first], rest);
    ConcatOne(first);
  }

  lemma PrefixOfRest(head: Bytes, got: Bytes, missing: Bytes, text: Bytes)
    requires text == head + (got + missing)
    ensures head + got <= text && (head + got == text <==> missing == "")
  {
    assert text == head + got + missing;
    assert missing != "" ==> |head + got| < |text|;
  }

  /** The replies that get through are a stretch of the text behind its first 20000 bytes, and all
      of it exactly when none fails. */
  lemma RepliesCoverRest(text: Bytes, ok: nat -> bool)
    requires |text| > LB.SOFT
    ensures var chunks := LongChunks(text); var got := chunks[..Delivered(chunks, ok)];
      && text[..LB.SOFT] + Concat(got) <= text
      && (text[..LB.SOFT] + Concat(got) == text <==> forall k :: 0 <= k < |chunks| ==> ok(k))
  {
    var chunks, rest := LongChunks(text), text[LB.SOFT..];
    var n := Delivered(chunks, ok);
    LB.ChunksLossless(rest);
    assert text == text[..LB.SOFT] + rest;
    hide Concat, LB.Chunks, Delivered;
    MissingExactly(chunks, n);
    PrefixOfRest(text[..LB.SOFT], Concat(chunks[..n]), Concat(chunks[n..]), text);
  }

  lemma MissingExactly(chunks: seq<Bytes>, n: nat)
    requires n <= |chunks| && forall c <- chunks :: c != ""
    ensures Concat(chunks) == Concat(chunks[..n]) + Concat(chunks[n..])
    ensures Concat(chunks[n..]) == "" <==> n == |chunks|
  {
    assert n < |chunks| ==> chunks[n] in chunks;
    hide Concat;
    ConcatSplit(chunks, n);
  }

  /** Feed receives exactly what the run emits, and then the close; this is what the schedules of
      the channel come to (Channel.ScheduleIsComplete, Channel.CompleteIsScheduled). */
  predicate Paced(o: Outside, emitted: seq<StreamEvent>) {
    Channel.Complete(emitted, o.pace(emitted))
  }

  lemma InkStays(s: Bytes)
    requires s != "" && !IsSpaceByte(s[0])
    ensures TrimSpace(s) != ""
  {
    assert SpaceAt(s, 0) == 0 && SkipSpace(s, 0) == 0;
    assert SkipSpaceBack(s, 0, |s|) > 0;
  }

  /** The error that a failed run leaves on the card is never blank and never cut. */
  lemma ErrorIsWorded(o: A.Outcome)
    ensures TrimSpace(TE.UserFacing(o)) != "" && |TE.UserFacing(o)| <= 120
  {
    InkStays(TE.UserFacing(o));
  }

  /** The renderer of a run of Handle. */
  function RunFed(w: A.World, history: seq<Message>, input: Bytes, o: Outside, model: Bytes, encode: CS.Card -> Bytes): R.FeedState
    requires A.Fair(w)
  {
    Fed(CZ.BuilderOf(encode), A.Run(w, A.DEFAULT_MAX_STEPS, history, input).emitted, model, o)
  }

  /** The card the closing patch is built from. */
  function FinalOf(w: A.World, history: seq<Message>, input: Bytes, o: Outside, model: Bytes, encode: CS.Card -> Bytes): CS.Card
    requires A.Fair(w)
  {
    TE.RunEnds(w, A.DEFAULT_MAX_STEPS, history, input);
    TE.Closing(RunFed(w, history, input, o, model, encode).card, A.Run(w, A.DEFAULT_MAX_STEPS, history, input).outcome.value)
  }

  /** When Feed returns, and which card is left then. */
  lemma FedFinal(w: A.World, history: seq<Message>, input: Bytes, o: Outside, model: Bytes, encode: CS.Card -> Bytes)
    requires A.Fair(w) && Paced(o, A.Run(w, A.DEFAULT_MAX_STEPS, history, input).emitted)
    ensures var r := A.Run(w, A.DEFAULT_MAX_STEPS, history, input); var f := RunFed(w, history, input, o, model, encode);
      && r.outcome.Some?
      && (f.stopped <==> !f.hung)
      && (f.stopped ==>
            var final := FinalOf(w, history, input, o, model, encode);
            && f.card.text == final.text == TextOf(r.consumed)
            && E.NoPending(final) && CS.DistinctRows(final)
            && (final.phase == CS.PhaseError <==> r.outcome != Some(A.Finished))
            && (TE.Fails(r.outcome.value) ==>
                  CS.Layout(final) == [CS.Failure(TE.UserFacing(r.outcome.value), o.traceID)]))
  {
    var r := A.Run(w, A.DEFAULT_MAX_STEPS, history, input);
    var turns := o.pace(r.emitted);
    var build, f0 := CZ.BuilderOf(encode), R.NewFeed(TE.Stamped(o.traceID, model));
    var clock := Hanging.ClockOf(turns[..|turns| - 1]);
    TE.FinalCard(w, A.DEFAULT_MAX_STEPS, history, input, clock, o.traceID, model);
    ErrorIsWorded(r.outcome.value);
    FedCard(build, f0, turns, r.emitted, clock);
  }

  /** What the closing patch shows.  If Handle gets so far, the built card shows the answer exactly
      when Run finished: the whole text taken from the provider, or, when the card with the whole
      text is too large, its first 20000 bytes and the marker.  A failed run ends on a card with
      nothing but its error message. */
  lemma FinalCardShows(w: A.World, history: seq<Message>, input: Bytes, o: Outside, model: Bytes, encode: CS.Card -> Bytes)
    requires A.Fair(w) && Paced(o, A.Run(w, A.DEFAULT_MAX_STEPS, history, input).emitted)
    ensures var r := A.Run(w, A.DEFAULT_MAX_STEPS, history, input); var text := TextOf(r.consumed);
      var f, final := RunFed(w, history, input, o, model, encode), FinalOf(w, history, input, o, model, encode);
      && r.outcome.Some?
      && (Stuck(CZ.BuilderOf(encode), f, r.outcome.value) <==> f.hung || !CZ.Ends(encode, final))
      && (!f.hung && CZ.Ends(encode, final) ==>
            && var built := CZ.BuiltFrom(encode, final, 2);
            && built.Some? && E.NoPending(final) && CS.DistinctRows(final)
            && CS.AnswerIn(CS.Layout(built.value)) ==
                 (if r.outcome != Some(A.Finished) then ""
                  else if |encode(final)| <= CZ.MAX_CARD_JSON || |text| <= CZ.KEEP then text
                  else text[..CZ.KEEP] + CZ.MARKER)
            && (r.outcome != Some(A.Finished) && r.outcome != Some(A.ProviderError(None)) ==>
                  CS.Layout(built.value) == [CS.Failure(
                    if r.outcome == Some(A.MaxStepsReached) then TE.TOO_MANY_STEPS
                    else if r.outcome == Some(A.EmptyResponse) then TE.EMPTY_ANSWER
                    else TE.SOMETHING_WRONG, o.traceID)]))
  {
    FedFinal(w, history, input, o, model, encode);
    hide A.Run, R.Run, CZ.BuiltFrom, CZ.Ends, CS.Layout, CS.AnswerIn, FinalOf, RunFed, Stuck, TextOf, E.NoPending, CS.DistinctRows;
    var final := FinalOf(w, history, input, o, model, encode);
    StuckExactly(w, history, input, o, model, encode);
    CZ.BuiltCardShows(encode, final);
  }

  /** What a run sends to the user.  If Handle gets so far, the last patch, if it goes through, is
      the built card, and it shows at least the first 20000 bytes of a finished answer; replies are
      sent only behind a run that did not fail and only for what lies behind these bytes; together
      with them they give a prefix of the text, and the whole of it exactly when the run did not
      fail and no reply did.  If Feed hangs, or the closing card never gets built, there is neither
      a closing patch nor a reply. */
  lemma UserSeesWholeAnswer(w: A.World, history: seq<Message>, input: Bytes, o: Outside, model: Bytes, encode: CS.Card -> Bytes)
    requires A.Fair(w) && Paced(o, A.Run(w, A.DEFAULT_MAX_STEPS, history, input).emitted)
    ensures var r := A.Run(w, A.DEFAULT_MAX_STEPS, history, input);
      && r.outcome.Some?
      && var outcome, text := r.outcome.value, TextOf(r.consumed);
      var f, final := RunFed(w, history, input, o, model, encode), FinalOf(w, history, input, o, model, encode);
      var sent := RunSends(CZ.BuilderOf(encode), r.emitted, outcome, model, o);
      && (f.hung || !CZ.Ends(encode, final) ==> PatchesIn(sent) == f.sent && RepliesIn(sent) == [])
      && (!f.hung && CZ.Ends(encode, final) ==>
            && var built := CZ.BuiltFrom(encode, final, 2);
            && built.Some?
            && PatchesIn(sent) == f.sent + (if o.stopSent then [encode(built.value)] else [])
            && (TE.Fails(outcome) || |text| <= LB.SOFT ==> RepliesIn(sent) == [])
            && (outcome == A.Finished && |text| <= LB.SOFT ==> CS.AnswerIn(CS.Layout(built.value)) == text)
            && (|text| > LB.SOFT ==>
                  && (outcome == A.Finished ==> HasPrefix(CS.AnswerIn(CS.Layout(built.value)), text[..LB.SOFT]))
                  && text[..LB.SOFT] + Concat(RepliesIn(sent)) <= text
                  && (text[..LB.SOFT] + Concat(RepliesIn(sent)) == text <==>
                        !TE.Fails(outcome) && forall k :: 0 <= k < |LongChunks(text)| ==> o.replyOk(k))))
  {
    var r := A.Run(w, A.DEFAULT_MAX_STEPS, history, input);
    var f, text := RunFed(w, history, input, o, model, encode), TextOf(r.consumed);
    var final := FinalOf(w, history, input, o, model, encode);
    if CZ.BuiltFrom(encode, final, 2).Some? { ClosingBodies(encode, final, o); }
    if |text| > LB.SOFT { CutHasPrefix(text); }
    hide A.Run, R.Run, TextOf, CZ.BuiltFrom, CZ.Ends, CS.Layout, CS.AnswerIn, Delivered, LongChunks, Stuck, PatchesIn,
      RepliesIn, Concat, LastBodies, HasPrefix, TE.Fails, TurnSends;
    FedFinal(w, history, input, o, model, encode);
    FinalCardShows(w, history, input, o, model, encode);
    TurnSendsAre(CZ.BuilderOf(encode), f, r.outcome.value, o);
    if |text| > LB.SOFT {
      RepliesCoverRest(text, o.replyOk);
    }
  }

  lemma ClosingBodies(encode: CS.Card -> Bytes, final: CS.Card, o: Outside)
    requires CZ.BuiltFrom(encode, final, 2).Some?
    ensures LastBodies(CZ.BuilderOf(encode), final, o) ==
      if o.stopSent then [encode(CZ.BuiltFrom(encode, final, 2).value)] else []
  {
  }

  /** What a size cut keeps starts with what the replies leave out. */
  lemma CutHasPrefix(text: Bytes)
    requires |text| > LB.SOFT
    ensures HasPrefix(text, text[..LB.SOFT]) && HasPrefix(text[..CZ.KEEP] + CZ.MARKER, text[..LB.SOFT])
  {
  }

  lemma StuckExactly(w: A.World, history: seq<Message>, input: Bytes, o: Outside, model: Bytes, encode: CS.Card -> Bytes)
    requires A.Fair(w) && A.Run(w, A.DEFAULT_MAX_STEPS, history, input).outcome.Some?
    ensures var f, final := RunFed(w, history, input, o, model, encode), FinalOf(w, history, input, o, model, encode);
      Stuck(CZ.BuilderOf(encode), f, A.Run(w, A.DEFAULT_MAX_STEPS, history, input).outcome.value) <==>
        f.hung || !CZ.Ends(encode, final)
  {
    hide A.Run, R.Run;
    CZ.RetryEndsExactly(encode, FinalOf(w, history, input, o, model, encode), 2);
  }

  /** It does happen: whenever a finished answer has more than 20000 bytes and starts with 20000
      quotes, whatever the pace, Feed hangs; the user gets neither the answer nor an error. */
  lemma QuotedAnswerIsLost(w: A.World, history: seq<Message>, input: Bytes, o: Outside, model: Bytes, encode: CS.Card -> Bytes)
    requires A.Fair(w) && Paced(o, A.Run(w, A.DEFAULT_MAX_STEPS, history, input).emitted)
    requires A.Run(w, A.DEFAULT_MAX_STEPS, history, input).outcome == Some(A.Finished)
    requires CZ.Escapes(encode) && Hanging.Quoted(TextOf(A.Run(w, A.DEFAULT_MAX_STEPS, history, input).consumed))
    ensures var r := A.Run(w, A.DEFAULT_MAX_STEPS, history, input); var f := RunFed(w, history, input, o, model, encode);
      var sent := RunSends(CZ.BuilderOf(encode), r.emitted, A.Finished, model, o);
      f.hung && PatchesIn(sent) == f.sent && RepliesIn(sent) == []
  {
    var r := A.Run(w, A.DEFAULT_MAX_STEPS, history, input);
    var card := TE.Stamped(o.traceID, model);
    FedFinal(w, history, input, o, model, encode);
    UserSeesWholeAnswer(w, history, input, o, model, encode);
    TE.QuotedRunsHang(w, A.DEFAULT_MAX_STEPS, history, input, encode, o.traceID, model);
    var schedule := Channel.CompleteIsScheduled(CZ.BuilderOf(encode), r.emitted, R.NewFeed(card), o.pace(r.emitted));
    assert !Hanging.Returns(CZ.BuilderOf(encode), card, r.emitted, schedule);
  }

  lemma {:induction false} PatchesBehind(sent: seq<Sent>)
    ensures PatchesIn([InitialCard] + sent) == PatchesIn(sent)
  {
    if sent == [] {
      assert ([InitialCard] + sent)[..0] == [];
    } else {
      assert ([InitialCard] + sent)[..|sent|] == [InitialCard] + sent[..|sent| - 1];
      PatchesBehind(sent[..|sent| - 1]);
    }
  }

  lemma RunAnswers(build: R.Builder, f: R.FeedState, outcome: A.Outcome, o: Outside)
    requires !Stuck(build, f, outcome) && o.stopSent && forall c :: !build(c).EncodingFails?
    ensures PatchesIn([InitialCard] + TurnSends(build, f, outcome, o)) != []
  {
    TurnSendsAre(build, f, outcome, o);
    PatchesBehind(TurnSends(build, f, outcome, o));
    assert !build(TE.Closing(f.card, outcome)).EncodingFails?;
  }

  /** Every way out of a granted turn: the initial card goes out first exactly when a run begins,
      and when Handle returns, that card has been replaced, if the requests for it and the encoding
      succeed; if no run begins, nothing is written, and the notice tells the failed Get from the
      missing provider; there is none only if it is the initial card itself that failed. */
  lemma EveryTurnAnswers(db: Db<Value>, now: nat, ev: MessageEvent, o: Outside, defaultModel: Bytes, build: R.Builder)
    requires FairStart(o)
    ensures var (result, sent) := TurnReport(db, now, ev, o, defaultModel, build);
      var begun := result.Ran? || result.Hangs?;
      && HeldLock(result)
      && (begun <==> sent != [] && sent[0] == InitialCard)
      && (result.Ran? && o.stopSent && (forall c :: !build(c).EncodingFails?) ==> PatchesIn(sent) != [])
      && (!begun ==> WrittenDb(db, now, ev, o, defaultModel, build) == db)
      && var read := Read(db, now, ev, o);
      && (result == StoreFailed <==> read.None?)
      && (read.Some? ==>
            var base := Found(read.value, ev, defaultModel);
            && (result == NoModel <==> o.start(base).NoProvider?)
            && (result == NoCard <==> o.start(base).CardFails?))
      && (result == StoreFailed ==> sent == [StoreTrouble])
      && (result == NoModel ==> sent == [NoModelNotice])
      && (result == NoCard ==> sent == [])
  {
    WaysOut(db, now, ev, o, defaultModel, build);
    hide *;
    if TurnReport(db, now, ev, o, defaultModel, build).0.Ran? && o.stopSent && forall c :: !build(c).EncodingFails? {
      ReturnedTurnAnswers(db, now, ev, o, defaultModel, build);
    }
  }

  lemma WaysOut(db: Db<Value>, now: nat, ev: MessageEvent, o: Outside, defaultModel: Bytes, build: R.Builder)
    requires FairStart(o)
    ensures var (result, sent) := TurnReport(db, now, ev, o, defaultModel, build);
      var begun := result.Ran? || result.Hangs?;
      && HeldLock(result)
      && (begun <==> sent != [] && sent[0] == InitialCard)
      && (!begun ==> WrittenDb(db, now, ev, o, defaultModel, build) == db)
      && var read := Read(db, now, ev, o);
      && (result == StoreFailed <==> read.None?)
      && (read.Some? ==>
            var base := Found(read.value, ev, defaultModel);
            && (result == NoModel <==> o.start(base).NoProvider?)
            && (result == NoCard <==> o.start(base).CardFails?))
      && (result == StoreFailed ==> sent == [StoreTrouble])
      && (result == NoModel ==> sent == [NoModelNotice])
      && (result == NoCard ==> sent == [])
  {
  }

  lemma ReturnedTurnAnswers(db: Db<Value>, now: nat, ev: MessageEvent, o: Outside, defaultModel: Bytes, build: R.Builder)
    requires FairStart(o) && TurnReport(db, now, ev, o, defaultModel, build).0.Ran?
    requires o.stopSent && forall c :: !build(c).EncodingFails?
    ensures PatchesIn(TurnReport(db, now, ev, o, defaultModel, build).1) != []
  {
    hide A.Run, R.Run, PatchesIn, TurnSends;
    var sess := C.OrBlank(Read(db, now, ev, o).value, Blank(ev, defaultModel));
    var r := A.Run(o.start(sess).w, A.DEFAULT_MAX_STEPS, sess.messages, ev.text);
    TE.RunEnds(o.start(sess).w, A.DEFAULT_MAX_STEPS, sess.messages, ev.text);
    RunAnswers(build, Fed(build, r.emitted, o.start(sess).model, o), r.outcome.value, o);
  }

  /** Feed has returned or hangs; when it has returned, the card holds what was emitted. */
  lemma FedCard(build: R.Builder, f0: R.FeedState, turns: seq<R.Turn>, emitted: seq<StreamEvent>, clock: nat -> int)
    requires !R.Over(f0) && Channel.Complete(emitted, turns)
    requires forall k :: 0 <= k < |R.TimesOf(turns[..|turns| - 1])| ==> clock(k) == R.TimesOf(turns[..|turns| - 1])[k]
    ensures var f := R.Run(build, f0, turns);
      && (f.stopped <==> !f.hung)
      && (f.stopped ==> f.card == CS.ApplyAll(f0.card, emitted, clock))
  {
    var schedule := Channel.CompleteIsScheduled(build, emitted, f0, turns);
    R.OneEnd(build, f0, turns);
    if R.Run(build, f0, turns).stopped {
      Channel.FeedReceivesAll(build, emitted, f0, schedule, clock);
    }
  }
}
