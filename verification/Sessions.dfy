/** Sessions, their store and their locks: internal/session/redis.go and internal/session/lock.go,
    with the session keys of internal/lark/parser.go. */
module Sessions {
  import opened Bytes
  import opened Llm
  import opened Redis
  import SessionStore

  datatype SessionData = SessionData(
    key: Bytes,
    userOpenID: Bytes,
    chatID: Bytes,
    chatType: Bytes,
    provider: Bytes,
    messages: seq<Message>)

  /** What the bot keeps in Redis: lock tokens and sessions. */
  datatype Value = Token(token: Bytes) | Blob(session: SessionData)

  const LOCK_PREFIX: Bytes := "bot:lock:"
  const SESS_PREFIX: Bytes := "bot:sess:"

  function LockKey(key: Bytes): Bytes { LOCK_PREFIX + key }

  function SessKey(key: Bytes): Bytes { SESS_PREFIX + key }

  /** Locks and sessions never share a Redis key, and no two session keys do. */
  lemma KeysApart(a: Bytes, b: Bytes)
    ensures LockKey(a) != SessKey(b)
    ensures LockKey(a) == LockKey(b) <==> a == b
    ensures SessKey(a) == SessKey(b) <==> a == b
  {
    assert LockKey(a)[4] == 'l' && SessKey(b)[4] == 's';
    assert LockKey(a)[9..] == a && LockKey(b)[9..] == b;
    assert SessKey(a)[9..] == a && SessKey(b)[9..] == b;
  }

  /** json.Marshal refuses a RawMessage that is not JSON; a nil one is written as null. */
  predicate Encodable(validJson: Bytes -> bool, ms: seq<Message>) {
    forall m <- ms :: forall c <- m.toolCalls :: c.arguments == "" || validJson(c.arguments)
  }

  /** Decoding what Redis answered: None for an error, Some(None) for no session. */
  function Decoded(raw: Option<Value>): Option<Option<SessionData>> {
    if raw.None? then Some(None)
    else if raw.value.Blob? then Some(Some(raw.value.session))
    else None
  }

  // ---------------------------------------------------------------------------------
  // The classes.
  // ---------------------------------------------------------------------------------

  class Session {
    const key: Bytes
    const userOpenID: Bytes
    const chatID: Bytes
    const chatType: Bytes
    var provider: Bytes
    var messages: seq<Message>

    constructor (s: SessionData)
      ensures View() == s
    {
      key, userOpenID, chatID, chatType := s.key, s.userOpenID, s.chatID, s.chatType;
      provider, messages := s.provider, s.messages;
    }

    function View(): SessionData
      reads this
    {
      SessionData(key, userOpenID, chatID, chatType, provider, messages)
    }
  }

  class RedisStore {
    const rdb: Server<Value>
    const validJson: Bytes -> bool

    constructor (rdb: Server<Value>, validJson: Bytes -> bool)
      ensures this.rdb == rdb && this.validJson == validJson
    {
      this.rdb, this.validJson := rdb, validJson;
    }

    method Fetch(key: Bytes, up: bool) returns (r: Option<Option<SessionData>>)
      ensures r == if up then Decoded(Redis.Get(rdb.db, rdb.now, SessKey(key))) else None
      ensures var raw := Redis.Get(rdb.db, rdb.now, SessKey(key));
        && (r == None <==> !up || (raw.Some? && !raw.value.Blob?))
        && (r == Some(None) <==> up && raw.None?)
        && (forall s :: r == Some(Some(s)) <==> up && raw == Some(Blob(s)))
    {
      var raw := rdb.DoGet(SessKey(key), up);
      if raw.None? { return None; }
      if raw.value.None? { return Some(None); }
      var v := raw.value.value;
      return if v.Blob? then Some(Some(v.session)) else None;
    }

    /** Trims the session in place, then encodes and writes it; `ok` is false for an error. */
    method Save(key: Bytes, sess: Session, up: bool) returns (ok: bool)
      modifies sess`messages, rdb`db
      ensures sess.messages == SessionStore.Trim(old(sess.messages))
      ensures ok == (Encodable(validJson, sess.messages) && up)
      ensures rdb.db == if ok then Redis.Set(old(rdb.db), SessKey(key), Blob(sess.View())) else old(rdb.db)
    {
      sess.messages := SessionStore.TrimMessages(sess.messages);
      if !Encodable(validJson, sess.messages) { return false; }
      rdb.DoSet(SessKey(key), Blob(sess.View()), up);
      return up;
    }

    method Delete(key: Bytes, up: bool) returns (ok: bool)
      modifies rdb`db
      ensures ok == up
      ensures rdb.db == if up then Redis.Del(old(rdb.db), SessKey(key)) else old(rdb.db)
    {
      rdb.DoDel(SessKey(key), up);
      return up;
    }
  }

  const DEFAULT_LOCK_TTL := 60_000   // milliseconds

  datatype Acquired = Granted(token: Bytes) | Refused | LockError

  class RedisLocker {
    const rdb: Server<Value>
    const random: nat -> Bytes   // the tokens crypto/rand yields
    var drawn: nat

    constructor (rdb: Server<Value>, random: nat -> Bytes)
      ensures this.rdb == rdb && this.random == random && drawn == 0
    {
      this.rdb, this.random, drawn := rdb, random, 0;
    }

    method TryAcquire(key: Bytes, ttl: int, up: bool) returns (r: Acquired)
      modifies `drawn, rdb`db
      ensures drawn == old(drawn) + 1
      ensures r ==
        if !up then LockError
        else if Live(old(rdb.db), rdb.now, LockKey(key)) then Refused
        else Granted(random(old(drawn)))
      ensures rdb.db ==
        if up then SetNX(old(rdb.db), rdb.now, LockKey(key), Token(random(old(drawn))), if ttl <= 0 then 60_000 else ttl)
        else old(rdb.db)
    {
      var life := ttl;
      if life <= 0 { life := DEFAULT_LOCK_TTL; }
      var token := random(drawn);
      drawn := drawn + 1;
      var ok := rdb.DoSetNX(LockKey(key), Token(token), life, up);
      if ok.None? { return LockError; }
      if !ok.value { return Refused; }
      return Granted(token);
    }

    /** A token that does not match is a no-op; the empty token does not even ask. */
    method Release(key: Bytes, token: Bytes, up: bool)
      modifies rdb`db
      ensures rdb.db ==
        if up && token != "" then DelIfEquals(old(rdb.db), rdb.now, LockKey(key), Token(token)) else old(rdb.db)
    {
      if token == "" { return; }
      rdb.DoDelIfEquals(LockKey(key), Token(token), up);
    }
  }

  // ---------------------------------------------------------------------------------
  // Session keys.
  // ---------------------------------------------------------------------------------

  datatype MessageEvent = MessageEvent(
    chatID: Bytes,
    chatType: Bytes,
    senderOpenID: Bytes,
    text: Bytes,
    mentionedBot: bool)

  function SessionKey(ev: MessageEvent): Bytes {
    if ev.chatType == "p2p" then "p2p:" + ev.senderOpenID
    else "group:" + ev.chatID + ":" + ev.senderOpenID
  }

  /** The conversations a key is meant to tell apart. */
  predicate SameConversation(a: MessageEvent, b: MessageEvent) {
    && (a.chatType == "p2p" <==> b.chatType == "p2p")
    && a.senderOpenID == b.senderOpenID
    && (a.chatType != "p2p" ==> a.chatID == b.chatID)
  }

  predicate NoColon(s: Bytes) { ':' !in s }

  lemma GroupKey(ev: MessageEvent)
    requires ev.chatType != "p2p"
    ensures SessionKey(ev) == "group:" + (ev.chatID + ":" + ev.senderOpenID)
  {
  }

  /** The chat id of `b` is that of `a` with ":" and x behind it, and the sender id of `a` is that of
      `b` with x and ":" in front. */
  predicate Shifted(a: MessageEvent, b: MessageEvent, x: Bytes) {
    b.chatID == a.chatID + ":" + x && a.senderOpenID == x + ":" + b.senderOpenID
  }

  lemma ShiftedRunsTogether(a: MessageEvent, b: MessageEvent, x: Bytes)
    requires Shifted(a, b, x)
    ensures a.chatID + ":" + a.senderOpenID == b.chatID + ":" + b.senderOpenID
  {
  }

  /** Ids that run together the same way but differ are shifted. */
  lemma RunTogetherShifts(a: MessageEvent, b: MessageEvent) returns (x: Bytes)
    requires a.chatID + ":" + a.senderOpenID == b.chatID + ":" + b.senderOpenID && |a.chatID| < |b.chatID|
    ensures Shifted(a, b, x)
  {
    var k, n := a.chatID + ":" + a.senderOpenID, |a.chatID|;
    x := b.chatID[n + 1..];
    assert k[..n] == a.chatID && k[n] == ':' && k[n + 1..] == a.senderOpenID;
    assert k[..n] == b.chatID[..n] && k[n] == b.chatID[n];
    assert b.chatID == b.chatID[..n] + ":" + x;
    assert k == b.chatID[..n] + ":" + (x + ":" + b.senderOpenID);
    assert k[n + 1..] == x + ":" + b.senderOpenID;
  }

  lemma SameLengthSame(a: MessageEvent, b: MessageEvent)
    requires a.chatID + ":" + a.senderOpenID == b.chatID + ":" + b.senderOpenID && |a.chatID| == |b.chatID|
    ensures a.chatID == b.chatID && a.senderOpenID == b.senderOpenID
  {
    var k, n := a.chatID + ":" + a.senderOpenID, |a.chatID|;
    assert k[..n] == a.chatID && k[n + 1..] == a.senderOpenID;
    assert k[..n] == b.chatID && k[n + 1..] == b.senderOpenID;
  }

  lemma GroupCollisions(a: MessageEvent, b: MessageEvent)
    ensures a.chatID + ":" + a.senderOpenID == b.chatID + ":" + b.senderOpenID <==>
      || (a.chatID == b.chatID && a.senderOpenID == b.senderOpenID)
      || (exists x :: Shifted(a, b, x) || Shifted(b, a, x))
  {
    if a.chatID + ":" + a.senderOpenID == b.chatID + ":" + b.senderOpenID {
      if |a.chatID| == |b.chatID| {
        SameLengthSame(a, b);
      } else if |a.chatID| < |b.chatID| {
        var x := RunTogetherShifts(a, b);
      } else {
        var x := RunTogetherShifts(b, a);
      }
    }
    if x :| Shifted(a, b, x) || Shifted(b, a, x) {
      if Shifted(a, b, x) { ShiftedRunsTogether(a, b, x); } else { ShiftedRunsTogether(b, a, x); }
    }
  }

  /** Two events share a key exactly when they are of one conversation, or are group messages whose
      ids are shifted against each other by a stretch that ends in front of a colon. */
  lemma KeyCollisionsExactly(a: MessageEvent, b: MessageEvent)
    ensures SessionKey(a) == SessionKey(b) <==>
      || SameConversation(a, b)
      || (a.chatType != "p2p" && b.chatType != "p2p" && exists x :: Shifted(a, b, x) || Shifted(b, a, x))
  {
    var ka, kb := SessionKey(a), SessionKey(b);
    if a.chatType == "p2p" && b.chatType == "p2p" {
      assert ka[4..] == a.senderOpenID && kb[4..] == b.senderOpenID;
    } else if a.chatType != "p2p" && b.chatType != "p2p" {
      GroupKey(a);
      GroupKey(b);
      GroupCollisions(a, b);
      assert ka[6..] == a.chatID + ":" + a.senderOpenID && kb[6..] == b.chatID + ":" + b.senderOpenID;
    } else {
      assert ka[0] != kb[0];
    }
  }

  lemma ShiftHasColon(a: MessageEvent, b: MessageEvent, x: Bytes)
    requires Shifted(a, b, x)
    ensures !NoColon(a.senderOpenID)
  {
    assert a.senderOpenID[|x|] == ':';
  }

  /** Shifted ids have a colon in a sender id, so sender ids without one make keys unambiguous. */
  lemma KeysSeparateConversations(a: MessageEvent, b: MessageEvent)
    requires NoColon(a.senderOpenID) && NoColon(b.senderOpenID)
    ensures SessionKey(a) == SessionKey(b) <==> SameConversation(a, b)
  {
    KeyCollisionsExactly(a, b);
    forall x ensures !Shifted(a, b, x) && !Shifted(b, a, x) {
      if Shifted(a, b, x) { ShiftHasColon(a, b, x); }
      if Shifted(b, a, x) { ShiftHasColon(b, a, x); }
    }
  }

  /** With a colon in a sender id two conversations can share a session and a lock. */
  lemma ColonsCollide()
    ensures var a := MessageEvent("x", "group", "y:z", "", true);
      var b := MessageEvent("x:y", "group", "z", "", true);
      SessionKey(a) == SessionKey(b) && !SameConversation(a, b)
  {
    var a, b := MessageEvent("x", "group", "y:z", "", true), MessageEvent("x:y", "group", "z", "", true);
    assert Shifted(a, b, "y");
    KeyCollisionsExactly(a, b);
  }
}
