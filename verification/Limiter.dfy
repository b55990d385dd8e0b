/** The per-IP sliding-window limiter of internal/oauth/server.go.  The clock is read before the
    mutex is taken, so the readings can reach the limiter out of order. */
module Limiter {
  import opened Bytes

  /** Five minutes in nanoseconds: how often old buckets are collected. */
  const SCAN_INTERVAL := 300_000_000_000

  /** One callback and its clock reading. */
  datatype Call = Call(ip: Bytes, at: int)

  /** The entries later than `cutoff`, in order. */
  function KeepAfter(ts: seq<int>, cutoff: int): seq<int> {
    if ts == [] then []
    else
      var last := ts[|ts| - 1];
      var init := KeepAfter(ts[..|ts| - 1], cutoff);
      if last > cutoff then init + [last] else init
  }

  lemma KeepAppend(ts: seq<int>, t: int, c: int)
    ensures KeepAfter(ts + [t], c) == if t > c then KeepAfter(ts, c) + [t] else KeepAfter(ts, c)
  {
    assert (ts + [t])[..|ts|] == ts;
  }

  lemma {:induction false} KeepTwice(ts: seq<int>, c: int, d: int)
    ensures KeepAfter(KeepAfter(ts, c), d) == KeepAfter(ts, if c <= d then d else c)
  {
    if ts != [] {
      var init, last := ts[..|ts| - 1], ts[|ts| - 1];
      KeepTwice(init, c, d);
      if last > c { KeepAppend(KeepAfter(init, c), last, d); }
    }
  }

  // ---------------------------------------------------------------------------------
  // What the limiter holds after any calls, in the order in which they got the mutex.
  // ---------------------------------------------------------------------------------

  /** When the last collection pass took place. */
  function LastScan(calls: seq<Call>): Option<int> {
    if calls == [] then None
    else
      var init, now := calls[..|calls| - 1], calls[|calls| - 1].at;
      if ScanDue(LastScan(init), now) then Some(now) else LastScan(init)
  }

  predicate ScanDue(lastScan: Option<int>, now: int) {
    lastScan.None? || now - lastScan.value > SCAN_INTERVAL
  }

  /** A bucket that one more call finds and leaves behind. */
  function NextBucket(bucket: seq<int>, mine: bool, scan: bool, now: int, burst: int, window: int): seq<int> {
    var kept := KeepAfter(bucket, now - window);
    if mine then (if |kept| < burst then kept + [now] else kept)
    else if scan then kept
    else bucket
  }

  /** The bucket of an IP. */
  function Bucket(calls: seq<Call>, ip: Bytes, burst: int, window: int): seq<int> {
    if calls == [] then []
    else
      var init, last := calls[..|calls| - 1], calls[|calls| - 1];
      NextBucket(Bucket(init, ip, burst, window), last.ip == ip, ScanDue(LastScan(init), last.at), last.at, burst, window)
  }

  /** Whether the next call is allowed. */
  predicate Lets(calls: seq<Call>, c: Call, burst: int, window: int) {
    |KeepAfter(Bucket(calls, c.ip, burst, window), c.at - window)| < burst
  }

  /** The calls that were allowed. */
  function Admitted(calls: seq<Call>, burst: int, window: int): seq<Call> {
    if calls == [] then []
    else
      var init, last := calls[..|calls| - 1], calls[|calls| - 1];
      if Lets(init, last, burst, window) then Admitted(init, burst, window) + [last] else Admitted(init, burst, window)
  }

  lemma BucketSnoc(calls: seq<Call>, c: Call, ip: Bytes, burst: int, window: int)
    ensures Bucket(calls + [c], ip, burst, window) ==
      NextBucket(Bucket(calls, ip, burst, window), c.ip == ip, ScanDue(LastScan(calls), c.at), c.at, burst, window)
    ensures LastScan(calls + [c]) == if ScanDue(LastScan(calls), c.at) then Some(c.at) else LastScan(calls)
  {
    assert (calls + [c])[..|calls|] == calls;
  }

  lemma AdmittedSnoc(calls: seq<Call>, c: Call, burst: int, window: int)
    ensures Admitted(calls + [c], burst, window) ==
      if Lets(calls, c, burst, window) then Admitted(calls, burst, window) + [c] else Admitted(calls, burst, window)
  {
    assert (calls + [c])[..|calls|] == calls;
  }

  // ---------------------------------------------------------------------------------
  // The limiter as it is written.
  // ---------------------------------------------------------------------------------

  function BucketOf(byIP: map<Bytes, seq<int>>, ip: Bytes): seq<int> {
    if ip in byIP then byIP[ip] else []
  }

  class CallbackLimiter {
    const window: int
    const burst: int
    var byIP: map<Bytes, seq<int>>
    var lastScan: Option<int>       // None is the zero time

    ghost var calls: seq<Call>      // every call so far

    ghost predicate Valid()
      reads this
    {
      && lastScan == LastScan(calls)
      && forall ip :: BucketOf(byIP, ip) == Bucket(calls, ip, burst, window)
    }

    constructor (burst: int, window: int)
      ensures Valid() && calls == []
      ensures this.burst == burst && this.window == window
    {
      this.burst, this.window := burst, window;
      byIP, lastScan, calls := map[], None, [];
    }

    /** `nts := ts[:0]; for ... append`: the kept entries overwrite the front of the slice. */
    static method KeepRecent(ts: seq<int>, cutoff: int) returns (nts: seq<int>)
      ensures nts == KeepAfter(ts, cutoff)
    {
      var buf, w := ts, 0;
      for r := 0 to |ts|
        invariant w <= r && |buf| == |ts|
        invariant buf[..w] == KeepAfter(ts[..r], cutoff)
        invariant buf[r..] == ts[r..]
      {
        assert ts[..r + 1][..r] == ts[..r];
        assert buf[r] == buf[r..][0] == ts[r];
        var rest := buf[r..];
        if buf[r] > cutoff {
          buf := buf[w := buf[r]];
          assert buf[..w + 1] == buf[..w] + [ts[r]];
          w := w + 1;
        }
        assert buf[r + 1..] == rest[1..];
      }
      assert ts[..|ts|] == ts;
      nts := buf[..w];
    }

    /** The collection pass over all buckets, in whatever order the map yields them. */
    method Collect(cutoff: int)
      modifies `byIP
      ensures forall ip :: BucketOf(byIP, ip) == KeepAfter(BucketOf(old(byIP), ip), cutoff)
    {
      var todo := byIP.Keys;
      while todo != {}
        invariant todo <= byIP.Keys
        invariant forall ip ::
          BucketOf(byIP, ip) == (if ip in todo then BucketOf(old(byIP), ip) else KeepAfter(BucketOf(old(byIP), ip), cutoff))
        decreases |todo|
      {
        var k :| k in todo;
        CollectOne(k, cutoff);
        todo := todo - {k};
      }
    }

    /** One bucket: filtered, or deleted when nothing is left. */
    method CollectOne(k: Bytes, cutoff: int)
      requires k in byIP
      modifies `byIP
      ensures old(byIP).Keys - {k} <= byIP.Keys
      ensures forall ip :: BucketOf(byIP, ip) == if ip == k then KeepAfter(BucketOf(old(byIP), k), cutoff) else BucketOf(old(byIP), ip)
    {
      var nts := KeepRecent(byIP[k], cutoff);
      if |nts| == 0 {
        byIP := byIP - {k};
      } else {
        byIP := byIP[k := nts];
      }
    }

    /** The first half of `allow`: now and then, drop what no window can see any more. */
    method CollectIfDue(now: int)
      modifies `byIP, `lastScan
      ensures lastScan == if ScanDue(old(lastScan), now) then Some(now) else old(lastScan)
      ensures forall ip ::
        BucketOf(byIP, ip) == NextBucket(BucketOf(old(byIP), ip), false, ScanDue(old(lastScan), now), now, burst, window)
    {
      if lastScan.None? || now - lastScan.value > SCAN_INTERVAL {
        Collect(now - window);
        lastScan := Some(now);
      }
    }

    /** The second half: filter the caller's bucket, and decide. */
    method Decide(ip: Bytes, now: int) returns (ok: bool)
      modifies `byIP
      ensures ok == (|KeepAfter(BucketOf(old(byIP), ip), now - window)| < burst)
      ensures BucketOf(byIP, ip) == NextBucket(BucketOf(old(byIP), ip), true, false, now, burst, window)
      ensures forall x :: x != ip ==> BucketOf(byIP, x) == BucketOf(old(byIP), x)
    {
      var nts := KeepRecent(if ip in byIP then byIP[ip] else [], now - window);
      if |nts| >= burst {
        byIP := byIP[ip := nts];
        return false;
      }
      nts := nts + [now];
      byIP := byIP[ip := nts];
      return true;
    }

    /** Everything `allow` does under the mutex: a collection pass just before does not show in the
        caller's own bucket. */
    method Serve(ip: Bytes, now: int) returns (ok: bool)
      modifies `byIP, `lastScan
      ensures ok == (|KeepAfter(BucketOf(old(byIP), ip), now - window)| < burst)
      ensures lastScan == if ScanDue(old(lastScan), now) then Some(now) else old(lastScan)
      ensures forall x ::
        BucketOf(byIP, x) == NextBucket(BucketOf(old(byIP), x), ip == x, ScanDue(old(lastScan), now), now, burst, window)
    {
      KeepTwice(BucketOf(byIP, ip), now - window, now - window);
      CollectIfDue(now);
      ok := Decide(ip, now);
    }

    /** `allow`. */
    method Allow(ip: Bytes, now: int) returns (ok: bool)
      requires Valid()
      modifies this
      ensures Valid() && calls == old(calls) + [Call(ip, now)]
      ensures ok == Lets(old(calls), Call(ip, now), burst, window)
      ensures Admitted(calls, burst, window) ==
        Admitted(old(calls), burst, window) + if ok then [Call(ip, now)] else []
    {
      AdmittedSnoc(calls, Call(ip, now), burst, window);
      forall x ensures Bucket(calls + [Call(ip, now)], x, burst, window) ==
        NextBucket(BucketOf(byIP, x), ip == x, ScanDue(lastScan, now), now, burst, window)
      {
        BucketSnoc(calls, Call(ip, now), x, burst, window);
      }
      BucketSnoc(calls, Call(ip, now), ip, burst, window);
      ok := Serve(ip, now);
      calls := calls + [Call(ip, now)];
    }
  }

  // ---------------------------------------------------------------------------------
  // What the buckets know of the full log.
  // ---------------------------------------------------------------------------------

  /** All times of one IP. */
  function TimesOf(log: seq<Call>, ip: Bytes): seq<int> {
    if log == [] then []
    else
      var last := log[|log| - 1];
      var init := TimesOf(log[..|log| - 1], ip);
      if last.ip == ip then init + [last.at] else init
  }

  /** How many calls of `ip` lie in the half-open interval (lo, hi]. */
  function CountIn(log: seq<Call>, ip: Bytes, lo: int, hi: int): nat {
    if log == [] then 0
    else
      var last := log[|log| - 1];
      CountIn(log[..|log| - 1], ip, lo, hi) + if last.ip == ip && lo < last.at <= hi then 1 else 0
  }

  /** The greatest reading so far, and by how much a reading was ever behind it. */
  function Latest(calls: seq<Call>): int
    requires calls != []
  {
    var last := calls[|calls| - 1].at;
    if |calls| == 1 || Latest(calls[..|calls| - 1]) < last then last else Latest(calls[..|calls| - 1])
  }

  function Lateness(calls: seq<Call>): nat {
    if calls == [] then 0
    else
      var before, behind := Lateness(calls[..|calls| - 1]), Latest(calls) - calls[|calls| - 1].at;
      if behind > before then behind else before
  }

  /** A bucket agrees with the complete list of times on every cutoff from `floor` on, and never
      holds more than it. */
  ghost predicate Follows(bucket: seq<int>, times: seq<int>, floor: int) {
    && (forall c :: c >= floor ==> KeepAfter(bucket, c) == KeepAfter(times, c))
    && (forall c :: |KeepAfter(bucket, c)| <= |KeepAfter(times, c)|)
  }

  lemma {:induction false} KeepLess(ts: seq<int>, c: int, d: int)
    requires c <= d
    ensures |KeepAfter(ts, d)| <= |KeepAfter(ts, c)|
  {
    if ts != [] { KeepLess(ts[..|ts| - 1], c, d); }
  }

  lemma FollowsKept(bucket: seq<int>, times: seq<int>, floor: int, cutoff: int)
    requires Follows(bucket, times, floor) && cutoff <= floor
    ensures Follows(KeepAfter(bucket, cutoff), times, floor)
  {
    forall c ensures |KeepAfter(KeepAfter(bucket, cutoff), c)| <= |KeepAfter(times, c)| {
      KeepTwice(bucket, cutoff, c);
      if c < cutoff { KeepLess(times, c, cutoff); }
    }
    forall c | c >= floor ensures KeepAfter(KeepAfter(bucket, cutoff), c) == KeepAfter(times, c) {
      KeepTwice(bucket, cutoff, c);
    }
  }

  lemma FollowsAppend(bucket: seq<int>, times: seq<int>, floor: int, t: int)
    requires Follows(bucket, times, floor)
    ensures Follows(bucket + [t], times + [t], floor)
  {
    forall c ensures |KeepAfter(bucket + [t], c)| <= |KeepAfter(times + [t], c)| {
      KeepAppend(bucket, t, c);
      KeepAppend(times, t, c);
    }
    forall c | c >= floor ensures KeepAfter(bucket + [t], c) == KeepAfter(times + [t], c) {
      KeepAppend(bucket, t, c);
      KeepAppend(times, t, c);
    }
  }

  lemma NextFollows(bucket: seq<int>, times: seq<int>, mine: bool, scan: bool, now: int, burst: int, window: int, floor: int)
    requires Follows(bucket, times, floor) && now - window <= floor
    ensures var allowed := |KeepAfter(bucket, now - window)| < burst;
      Follows(NextBucket(bucket, mine, scan, now, burst, window), if mine && allowed then times + [now] else times, floor)
  {
    FollowsKept(bucket, times, floor, now - window);
    FollowsAppend(KeepAfter(bucket, now - window), times, floor, now);
  }

  lemma TimesSnoc(log: seq<Call>, c: Call, ip: Bytes)
    ensures TimesOf(log + [c], ip) == if c.ip == ip then TimesOf(log, ip) + [c.at] else TimesOf(log, ip)
  {
    assert (log + [c])[..|log|] == log;
  }

  /** No reading is later than this. */
  predicate UpTo(calls: seq<Call>, latest: int) {
    forall c <- calls :: c.at <= latest
  }

  lemma FollowStep(bucket: seq<int>, log: seq<Call>, c: Call, ip: Bytes, scan: bool, lets: bool,
                   burst: int, window: int, floor: int)
    requires Follows(bucket, TimesOf(log, ip), floor) && c.at - window <= floor
    requires c.ip == ip ==> (lets <==> |KeepAfter(bucket, c.at - window)| < burst)
    ensures Follows(NextBucket(bucket, c.ip == ip, scan, c.at, burst, window),
                    TimesOf(if lets then log + [c] else log, ip), floor)
  {
    TimesSnoc(log, c, ip);
    NextFollows(bucket, TimesOf(log, ip), c.ip == ip, scan, c.at, burst, window, floor);
  }

  /** Every bucket follows the full log as far as the latest reading can see. */
  lemma {:induction false} BucketsFollow(calls: seq<Call>, burst: int, window: int, ip: Bytes, latest: int)
    requires UpTo(calls, latest)
    ensures Follows(Bucket(calls, ip, burst, window), TimesOf(Admitted(calls, burst, window), ip), latest - window)
  {
    if calls != [] {
      var init, last := calls[..|calls| - 1], calls[|calls| - 1];
      assert last in calls;
      BucketsFollow(init, burst, window, ip, latest);
      FollowStep(Bucket(init, ip, burst, window), Admitted(init, burst, window), last, ip,
                 ScanDue(LastScan(init), last.at), Lets(init, last, burst, window), burst, window, latest - window);
    }
  }

  // ---------------------------------------------------------------------------------
  // What the limiter is for.
  // ---------------------------------------------------------------------------------

  lemma SeenBetween(bucket: seq<int>, times: seq<int>, cutoff: int, floor: int)
    requires Follows(bucket, times, floor) && cutoff <= floor
    ensures |KeepAfter(times, floor)| <= |KeepAfter(bucket, cutoff)| <= |KeepAfter(times, cutoff)|
  {
    KeepLess(bucket, cutoff, floor);
  }

  lemma KeptBetween(calls: seq<Call>, burst: int, window: int, ip: Bytes, cutoff: int, latest: int)
    requires UpTo(calls, latest) && cutoff <= latest - window
    ensures var times, bucket := TimesOf(Admitted(calls, burst, window), ip), Bucket(calls, ip, burst, window);
      |KeepAfter(times, latest - window)| <= |KeepAfter(bucket, cutoff)| <= |KeepAfter(times, cutoff)|
  {
    hide Bucket, Admitted, KeepAfter;
    BucketsFollow(calls, burst, window, ip, latest);
    SeenBetween(Bucket(calls, ip, burst, window), TimesOf(Admitted(calls, burst, window), ip), cutoff, latest - window);
  }

  /** A call is decided by how many of the calls allowed before are later than some moment between
      the start of its own window and the start of the window that ends with the latest reading. */
  lemma DecidedBetween(calls: seq<Call>, burst: int, window: int, c: Call, latest: int)
    requires UpTo(calls, latest) && c.at <= latest
    ensures var times := TimesOf(Admitted(calls, burst, window), c.ip);
      && (Lets(calls, c, burst, window) ==> |KeepAfter(times, latest - window)| < burst)
      && (!Lets(calls, c, burst, window) ==> |KeepAfter(times, c.at - window)| >= burst)
  {
    KeptBetween(calls, burst, window, c.ip, c.at - window, latest);
  }

  lemma {:induction false} CountAtMost(log: seq<Call>, ip: Bytes, lo: int, hi: int)
    ensures CountIn(log, ip, lo, hi) <= |KeepAfter(TimesOf(log, ip), lo)|
    ensures UpTo(log, hi) ==> CountIn(log, ip, lo, hi) == |KeepAfter(TimesOf(log, ip), lo)|
  {
    if log != [] {
      var init, last := log[..|log| - 1], log[|log| - 1];
      CountAtMost(init, ip, lo, hi);
      assert last in log;
      if last.ip == ip { KeepAppend(TimesOf(init, ip), last.at, lo); }
    }
  }

  lemma {:induction false} AdmittedUpTo(calls: seq<Call>, burst: int, window: int, latest: int)
    requires UpTo(calls, latest)
    ensures UpTo(Admitted(calls, burst, window), latest)
  {
    if calls != [] { AdmittedUpTo(calls[..|calls| - 1], burst, window, latest); }
  }

  /** A call whose reading is not behind any other is allowed exactly when fewer than `burst` calls
      of that IP were allowed in the last window. */
  lemma AllowedExactly(calls: seq<Call>, burst: int, window: int, c: Call)
    requires UpTo(calls, c.at)
    ensures Lets(calls, c, burst, window) <==>
      CountIn(Admitted(calls, burst, window), c.ip, c.at - window, c.at) < burst
  {
    DecidedBetween(calls, burst, window, c, c.at);
    AdmittedUpTo(calls, burst, window, c.at);
    CountAtMost(Admitted(calls, burst, window), c.ip, c.at - window, c.at);
  }

  lemma {:induction false} LatestBounds(calls: seq<Call>)
    requires calls != []
    ensures UpTo(calls, Latest(calls))
  {
    if |calls| > 1 {
      var init := calls[..|calls| - 1];
      LatestBounds(init);
      forall c | c in calls ensures c.at <= Latest(calls) {
        assert c in init || c == calls[|calls| - 1];
      }
    }
  }

  lemma LastAllowedFits(log: seq<Call>, c: Call, burst: int, window: int, late: nat, ip: Bytes, t: int)
    requires |KeepAfter(TimesOf(log, c.ip), c.at + late - window)| < burst
    requires CountIn(log, ip, t - (window - late), t) <= if burst > 0 then burst else 0
    ensures CountIn(log + [c], ip, t - (window - late), t) <= if burst > 0 then burst else 0
  {
    var lo := t - (window - late);
    assert (log + [c])[..|log|] == log;
    if c.ip == ip && lo < c.at <= t {
      CountAtMost(log, ip, lo, t);
      KeepLess(TimesOf(log, ip), c.at + late - window, lo);
    }
  }

  lemma BurstStep(calls: seq<Call>, c: Call, burst: int, window: int, ip: Bytes, t: int, late: nat)
    requires UpTo(calls, c.at + late)
    requires CountIn(Admitted(calls, burst, window), ip, t - (window - late), t) <= if burst > 0 then burst else 0
    ensures var log := Admitted(calls, burst, window);
      CountIn(if Lets(calls, c, burst, window) then log + [c] else log, ip, t - (window - late), t) <= if burst > 0 then burst else 0
  {
    DecidedBetween(calls, burst, window, c, c.at + late);
    if Lets(calls, c, burst, window) {
      LastAllowedFits(Admitted(calls, burst, window), c, burst, window, late, ip, t);
    }
  }

  lemma {:induction false} BurstBound(calls: seq<Call>, burst: int, window: int, ip: Bytes, t: int, late: nat)
    requires Lateness(calls) <= late
    ensures CountIn(Admitted(calls, burst, window), ip, t - (window - late), t) <= if burst > 0 then burst else 0
  {
    if calls != [] {
      var init, last := calls[..|calls| - 1], calls[|calls| - 1];
      BurstBound(init, burst, window, ip, t, late);
      LatestBounds(calls);
      BurstStep(init, last, burst, window, ip, t, late);
    }
  }

  /** Whatever the readings: no interval as long as the window less the greatest lateness of a
      reading, wherever it lies, holds more than `burst` allowed calls of one IP.  With readings in
      order that is the full window. */
  lemma NeverMoreThanBurst(calls: seq<Call>, burst: int, window: int, ip: Bytes, t: int)
    ensures CountIn(Admitted(calls, burst, window), ip, t - (window - Lateness(calls)), t) <= if burst > 0 then burst else 0
  {
    BurstBound(calls, burst, window, ip, t, Lateness(calls));
  }

  // ---------------------------------------------------------------------------------
  // No longer interval will do.
  // ---------------------------------------------------------------------------------

  function Zeros(n: nat): seq<int> {
    if n == 0 then [] else Zeros(n - 1) + [0]
  }

  lemma {:induction false} ZerosKept(n: nat, cutoff: int)
    ensures |Zeros(n)| == n
    ensures KeepAfter(Zeros(n), cutoff) == if cutoff < 0 then Zeros(n) else []
  {
    if n > 0 {
      ZerosKept(n - 1, cutoff);
      KeepAppend(Zeros(n - 1), 0, cutoff);
    }
  }

  lemma CountSnoc(log: seq<Call>, c: Call, lo: int, hi: int)
    ensures CountIn(log + [c], c.ip, lo, hi) == CountIn(log, c.ip, lo, hi) + if lo < c.at <= hi then 1 else 0
  {
    assert (log + [c])[..|log|] == log;
  }

  lemma ReadingsSnoc(calls: seq<Call>, c: Call)
    ensures Latest(calls + [c]) == if calls == [] || Latest(calls) < c.at then c.at else Latest(calls)
    ensures Lateness(calls + [c]) ==
      var behind := Latest(calls + [c]) - c.at; if behind > Lateness(calls) then behind else Lateness(calls)
  {
    assert (calls + [c])[..|calls|] == calls;
  }

  /** Somebody else came one scan interval before time 0, and `n` calls at time 0 were allowed. */
  predicate Volley(calls: seq<Call>, ip: Bytes, n: nat, burst: int, window: int) {
    && calls != [] && Latest(calls) <= 0 && Lateness(calls) == 0 && LastScan(calls) == Some(-SCAN_INTERVAL)
    && Bucket(calls, ip, burst, window) == Zeros(n)
    && CountIn(Admitted(calls, burst, window), ip, -1, 0) == n
  }

  lemma VolleyBucket(calls: seq<Call>, ip: Bytes, n: nat, burst: int, window: int)
    requires Bucket(calls, ip, burst, window) == Zeros(n) && LastScan(calls) == Some(-SCAN_INTERVAL)
    requires n < burst && window > 0
    ensures Bucket(calls + [Call(ip, 0)], ip, burst, window) == Zeros(n + 1)
    ensures LastScan(calls + [Call(ip, 0)]) == LastScan(calls)
    ensures Lets(calls, Call(ip, 0), burst, window)
  {
    ZerosKept(n, 0 - window);
    BucketSnoc(calls, Call(ip, 0), ip, burst, window);
    hide Bucket, LastScan, KeepAfter;
  }

  lemma VolleyCount(calls: seq<Call>, ip: Bytes, burst: int, window: int)
    requires Lets(calls, Call(ip, 0), burst, window)
    ensures CountIn(Admitted(calls + [Call(ip, 0)], burst, window), ip, -1, 0) ==
      CountIn(Admitted(calls, burst, window), ip, -1, 0) + 1
  {
    hide Lets, CountIn;
    AdmittedSnoc(calls, Call(ip, 0), burst, window);
    CountSnoc(Admitted(calls, burst, window), Call(ip, 0), -1, 0);
  }

  lemma OneMore(calls: seq<Call>, ip: Bytes, n: nat, burst: int, window: int)
    requires Volley(calls, ip, n, burst, window) && n < burst && window > 0
    ensures Volley(calls + [Call(ip, 0)], ip, n + 1, burst, window)
  {
    hide Bucket, LastScan, Lets, CountIn, Admitted, Latest, Lateness, Zeros;
    VolleyBucket(calls, ip, n, burst, window);
    VolleyCount(calls, ip, burst, window);
    ReadingsSnoc(calls, Call(ip, 0));
  }

  lemma {:induction false} SomeVolley(ip: Bytes, other: Bytes, n: nat, burst: int, window: int) returns (calls: seq<Call>)
    requires n <= burst && window > 0 && other != ip
    ensures Volley(calls, ip, n, burst, window)
  {
    if n == 0 {
      calls := [Call(other, -SCAN_INTERVAL)];
      assert calls[..0] == [];
    } else {
      calls := SomeVolley(ip, other, n - 1, burst, window);
      OneMore(calls, ip, n - 1, burst, window);
      calls := calls + [Call(ip, 0)];
    }
  }

  lemma {:induction false} CountWider(log: seq<Call>, ip: Bytes, lo: int, hi: int, hi': int)
    requires hi <= hi'
    ensures CountIn(log, ip, lo, hi) <= CountIn(log, ip, lo, hi')
  {
    if log != [] { CountWider(log[..|log| - 1], ip, lo, hi, hi'); }
  }

  /** Somebody else one window after the volley makes the limiter drop it, so that a call with a
      late reading gets through as well. */
  lemma DroppedVolley(volley: seq<Call>, ip: Bytes, other: Bytes, burst: nat, window: nat, late: nat)
    requires Volley(volley, ip, burst, burst, window) && burst >= 1 && 0 < late <= window && other != ip
    ensures var next, behind := Call(other, window), Call(ip, window - late);
      var before, calls := volley + [next], volley + [next] + [behind];
      && Admitted(volley, burst, window) <= Admitted(before, burst, window)
      && |Admitted(before, burst, window)| <= |Admitted(volley, burst, window)| + 1
      && Admitted(calls, burst, window) == Admitted(before, burst, window) + [behind]
  {
    var next, behind := Call(other, window), Call(ip, window - late);
    ZerosKept(burst, 0);
    BucketSnoc(volley, next, ip, burst, window);
    AdmittedSnoc(volley, next, burst, window);
    AdmittedSnoc(volley + [next], behind, burst, window);
  }

  lemma CountMore(log: seq<Call>, more: seq<Call>, ip: Bytes, lo: int, hi: int)
    requires log <= more && |more| <= |log| + 1
    ensures CountIn(log, ip, lo, hi) <= CountIn(more, ip, lo, hi)
  {
    if |more| > |log| {
      assert more[..|log|] == log;
    } else {
      assert more == log;
    }
  }

  /** One unit longer and the bound fails, whatever burst lets anything through at all. */
  lemma LateReadingBreaksWindow(ip: Bytes, burst: nat, window: nat, late: nat) returns (calls: seq<Call>)
    requires burst >= 1 && 0 < late <= window
    ensures Lateness(calls) == late
    ensures CountIn(Admitted(calls, burst, window), ip, -1, window - late) > burst
  {
    var other := ip + "x";
    var volley := SomeVolley(ip, other, burst, burst, window);
    var next, behind := Call(other, window), Call(ip, window - late);
    DroppedVolley(volley, ip, other, burst, window, late);
    ReadingsSnoc(volley, next);
    ReadingsSnoc(volley + [next], behind);
    calls := volley + [next] + [behind];
    var log, more := Admitted(volley, burst, window), Admitted(volley + [next], burst, window);
    CountWider(log, ip, -1, 0, behind.at);
    CountMore(log, more, ip, -1, behind.at);
    CountSnoc(more, behind, -1, behind.at);
  }
}
