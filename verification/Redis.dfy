/** The part of a Redis server the bot uses: keys with values and optional expiry times. */
module Redis {
  import opened Bytes

  datatype Entry<V> = Entry(value: V, expires: Option<nat>)

  type Db<V> = map<Bytes, Entry<V>>

  /** An entry whose time has come is gone, whether or not it has been swept. */
  predicate Live<V>(db: Db<V>, now: nat, key: Bytes) {
    key in db && (db[key].expires.None? || now < db[key].expires.value)
  }

  function Get<V>(db: Db<V>, now: nat, key: Bytes): Option<V> {
    if Live(db, now, key) then Some(db[key].value) else None
  }

  function Set<V>(db: Db<V>, key: Bytes, v: V): Db<V> {
    db[key := Entry(v, None)]
  }

  /** SET NX with an expiry. */
  function SetNX<V>(db: Db<V>, now: nat, key: Bytes, v: V, ttl: nat): Db<V> {
    if Live(db, now, key) then db else db[key := Entry(v, Some(now + ttl))]
  }

  function Del<V>(db: Db<V>, key: Bytes): Db<V> {
    db - {key}
  }

  /** The release script: delete the key if it holds this value. */
  function DelIfEquals<V(==)>(db: Db<V>, now: nat, key: Bytes, v: V): Db<V> {
    if Get(db, now, key) == Some(v) then Del(db, key) else db
  }

  /** `up` says whether the request reaches the server. */
  class Server<V(==)> {
    var now: nat
    var db: Db<V>

    constructor ()
      ensures now == 0 && db == map[]
    {
      now, db := 0, map[];
    }

    /** Time passes. */
    method Wait(d: nat)
      modifies `now
      ensures now == old(now) + d
    {
      now := now + d;
    }

    method DoGet(key: Bytes, up: bool) returns (r: Option<Option<V>>)
      ensures r == if up then Some(Get(db, now, key)) else None
    {
      if !up { return None; }
      if key !in db { return Some(None); }
      var e := db[key];
      if e.expires.Some? && e.expires.value <= now { return Some(None); }
      return Some(Some(e.value));
    }

    method DoSet(key: Bytes, v: V, up: bool)
      modifies `db
      ensures db == if up then Set(old(db), key, v) else old(db)
    {
      if up { db := db[key := Entry(v, None)]; }
    }

    method DoSetNX(key: Bytes, v: V, ttl: nat, up: bool) returns (r: Option<bool>)
      modifies `db
      ensures r == if up then Some(!Live(old(db), now, key)) else None
      ensures db == if up then SetNX(old(db), now, key, v, ttl) else old(db)
    {
      if !up { return None; }
      var held := DoGet(key, true);
      if held.value.Some? { return Some(false); }
      db := db[key := Entry(v, Some(now + ttl))];
      return Some(true);
    }

    method DoDel(key: Bytes, up: bool)
      modifies `db
      ensures db == if up then Del(old(db), key) else old(db)
    {
      if up { db := db - {key}; }
    }

    method DoDelIfEquals(key: Bytes, v: V, up: bool)
      modifies `db
      ensures db == if up then DelIfEquals(old(db), now, key, v) else old(db)
    {
      if !up { return; }
      var held := DoGet(key, true);
      if held.value == Some(v) { db := db - {key}; }
    }
  }
}
