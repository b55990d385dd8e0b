/** Length caps on stored histories: `TrimMessages` of internal/session/store.go and what
    happens when it runs again on every Save. */
module SessionStore {
  import opened Bytes
  import opened Digits
  import opened Llm

  const MAX_MESSAGES := 40
  const MAX_CONTENT := 20480

  /** The two halves of the truncation marker, around the number of bytes cut. */
  const CUT_OPEN: Bytes := "\n[\U{E2}\U{80}\U{A6} truncated "
  const CUT_CLOSE: Bytes := " chars]"

  function LastN<T>(s: seq<T>, n: nat): seq<T> {
    if |s| > n then s[|s| - n..] else s
  }

  function CutTo(head: Bytes, cut: nat): Bytes {
    head + CUT_OPEN + Decimal(cut) + CUT_CLOSE
  }

  function TruncateContent(c: Bytes): Bytes {
    if |c| > MAX_CONTENT then CutTo(c[..MAX_CONTENT], |c| - MAX_CONTENT) else c
  }

  function TruncateMessage(m: Message): Message {
    m.(content := TruncateContent(m.content))
  }

  function TruncateAll(ms: seq<Message>): (r: seq<Message>)
    ensures |r| == |ms|
    ensures forall i :: 0 <= i < |ms| ==> r[i] == TruncateMessage(ms[i])
  {
    seq(|ms|, i requires 0 <= i < |ms| => TruncateMessage(ms[i]))
  }

  function Trim(ms: seq<Message>): seq<Message> {
    LastN(TruncateAll(ms), MAX_MESSAGES)
  }

  /** `TrimMessages`: cut over-long contents in place, then drop the oldest messages. */
  method TrimMessages(input: seq<Message>) returns (msgs: seq<Message>)
    ensures msgs == Trim(input)
  {
    msgs := input;
    for i := 0 to |msgs|
      invariant |msgs| == |input|
      invariant forall k :: 0 <= k < i ==> msgs[k] == TruncateMessage(input[k])
      invariant forall k :: i <= k < |msgs| ==> msgs[k] == input[k]
    {
      var c := msgs[i].content;
      if |c| > MAX_CONTENT {
        var digits := Itoa(|c| - MAX_CONTENT);
        msgs := msgs[i := msgs[i].(content := c[..MAX_CONTENT] + CUT_OPEN + digits + CUT_CLOSE)];
      }
    }
    assert msgs == TruncateAll(input);
    if |msgs| > MAX_MESSAGES {
      msgs := msgs[|msgs| - MAX_MESSAGES..];
    }
  }

  // ---------------------------------------------------------------------------------
  // Repeated truncation of one content.
  // ---------------------------------------------------------------------------------

  function Truncations(c: Bytes, k: nat): Bytes {
    if k == 0 then c else TruncateContent(Truncations(c, k - 1))
  }

  /** Lengths of Go strings are non-negative 64-bit integers. */
  predicate GoString(c: Bytes) { |c| < 0x8000_0000_0000_0000 }

  lemma CutLength(head: Bytes, cut: nat)
    ensures |CutTo(head, cut)| == |head| + 23 + |Decimal(cut)|
    ensures CutTo(head, cut)[..|head|] == head
  {
    assert |CUT_OPEN| == 16 && |CUT_CLOSE| == 7;
  }

  lemma TwoDigits(n: nat)
    requires 10 <= n <= 99
    ensures |Decimal(n)| == 2
  {
    assert |Decimal(n / 10)| == 1;
  }

  lemma NineteenDigits(n: nat)
    requires n < 0x8000_0000_0000_0000
    ensures |Decimal(n)| <= 19
  {
    assert Pow10(10) == 10000000000;
    assert Pow10(19) == 10000000000000000000;
    DecimalLength(n, 19);
  }

  /** The exact contents of an over-long message after one, two, and three or more Saves. */
  lemma {:induction false} TruncationStages(c: Bytes, k: nat)
    requires GoString(c) && |c| > MAX_CONTENT
    ensures var head := c[..MAX_CONTENT]; var cut := |c| - MAX_CONTENT;
      Truncations(c, k) ==
        if k == 0 then c
        else if k == 1 then CutTo(head, cut)
        else if k == 2 then CutTo(head, 23 + |Decimal(cut)|)
        else CutTo(head, 25)
  {
    hide CutTo, Decimal;
    var head, cut := c[..MAX_CONTENT], |c| - MAX_CONTENT;
    NineteenDigits(cut);
    CutLength(head, cut);
    CutLength(head, 23 + |Decimal(cut)|);
    TwoDigits(23 + |Decimal(cut)|);
    TwoDigits(25);
    CutLength(head, 25);
    if k > 0 {
      TruncationStages(c, k - 1);
    }
  }

  /** The first 20480 bytes survive any number of Saves; the rest never grows past the marker. */
  lemma TruncationKeepsHead(c: Bytes, k: nat)
    requires GoString(c) && |c| > MAX_CONTENT
    ensures |Truncations(c, k)| > MAX_CONTENT
    ensures Truncations(c, k)[..MAX_CONTENT] == c[..MAX_CONTENT]
    ensures k == 1 ==> |Truncations(c, k)| == MAX_CONTENT + 23 + |Decimal(|c| - MAX_CONTENT)|
    ensures k >= 2 ==> |Truncations(c, k)| == MAX_CONTENT + 25
  {
    TruncationStages(c, k);
    var head, cut := c[..MAX_CONTENT], |c| - MAX_CONTENT;
    NineteenDigits(cut);
    CutLength(head, cut);
    CutLength(head, 23 + |Decimal(cut)|);
    TwoDigits(23 + |Decimal(cut)|);
    TwoDigits(25);
    CutLength(head, 25);
  }

  /** From the third Save on a content no longer changes. */
  lemma TruncationStabilises(c: Bytes, k: nat)
    requires GoString(c) && k >= 3
    ensures Truncations(c, k) == Truncations(c, 3)
  {
    if |c| > MAX_CONTENT {
      TruncationStages(c, k);
      TruncationStages(c, 3);
    } else {
      ShortIsFixed(c, k);
      ShortIsFixed(c, 3);
    }
  }

  lemma {:induction false} ShortIsFixed(c: Bytes, k: nat)
    requires |c| <= MAX_CONTENT
    ensures Truncations(c, k) == c
  {
    if k > 0 { ShortIsFixed(c, k - 1); }
  }

  /** Which contents a Save leaves alone, exactly. */
  lemma TruncationFixedPoints(c: Bytes)
    ensures TruncateContent(c) == c <==>
      |c| <= MAX_CONTENT || c == CutTo(c[..MAX_CONTENT], 25)
  {
    if |c| > MAX_CONTENT {
      var head, cut := c[..MAX_CONTENT], |c| - MAX_CONTENT;
      CutLength(head, cut);
      CutLength(head, 25);
      TwoDigits(25);
      if c == TruncateContent(c) {
        assert cut == 23 + |Decimal(cut)|;
        OnlyTwentyFive(cut);
      }
    }
  }

  /** 25 is the only number equal to 23 plus the number of its digits. */
  lemma OnlyTwentyFive(n: nat)
    requires n == 23 + |Decimal(n)|
    ensures n == 25
  {
    if n >= 100 {
      DigitsBound(n);
    } else {
      TwoDigits(n);
    }
  }

  lemma {:induction false} DigitsBound(n: nat)
    requires n >= 100
    ensures |Decimal(n)| <= n / 10
  {
    if n >= 1000 {
      DigitsBound(n / 10);
    } else {
      TwoDigits(n / 10);
    }
  }

  /** Two Saves are not enough in general: an overflow of 5 bytes settles only at the third. */
  lemma TwoSavesAreNotEnough(c: Bytes)
    requires |c| == MAX_CONTENT + 5
    ensures Truncations(c, 2) != Truncations(c, 3)
  {
    TruncationStages(c, 2);
    TruncationStages(c, 3);
    assert |Decimal(5)| == 1;
    var head := c[..MAX_CONTENT];
    assert Value(Decimal(24)) != Value(Decimal(25));
    TwoDigits(24);
    TwoDigits(25);
    assert CutTo(head, 24)[MAX_CONTENT + 16..MAX_CONTENT + 18] == Decimal(24);
    assert CutTo(head, 25)[MAX_CONTENT + 16..MAX_CONTENT + 18] == Decimal(25);
  }

  // ---------------------------------------------------------------------------------
  // Whole histories: appends and Saves in any order.
  // ---------------------------------------------------------------------------------

  datatype Op = Append(m: Message) | Save

  /** `sess.Messages` after the operations. */
  function Kept(ops: seq<Op>): seq<Message> {
    if ops == [] then []
    else
      var before := Kept(ops[..|ops| - 1]);
      match ops[|ops| - 1]
      case Append(m) => before + [m]
      case Save => Trim(before)
  }

  /** Every message ever appended, as it was appended. */
  function Transcript(ops: seq<Op>): seq<Message> {
    if ops == [] then []
    else
      var before := Transcript(ops[..|ops| - 1]);
      match ops[|ops| - 1]
      case Append(m) => before + [m]
      case Save => before
  }

  function Older(ages: seq<nat>): (r: seq<nat>)
    ensures |r| == |ages| && forall i :: 0 <= i < |ages| ==> r[i] == ages[i] + 1
  {
    seq(|ages|, i requires 0 <= i < |ages| => ages[i] + 1)
  }

  /** For each appended message, the number of Saves it has been through. */
  function Ages(ops: seq<Op>): (r: seq<nat>)
    ensures |r| == |Transcript(ops)|
  {
    if ops == [] then []
    else
      var before := Ages(ops[..|ops| - 1]);
      match ops[|ops| - 1]
      case Append(m) => before + [0]
      case Save => Older(before)
  }

  function TruncatedBy(m: Message, k: nat): Message {
    m.(content := Truncations(m.content, k))
  }

  /** `kept` is a suffix of `full` whose messages have been cut as often as `ages` says. */
  ghost predicate AgedSuffix(kept: seq<Message>, full: seq<Message>, ages: seq<nat>) {
    && |kept| <= |full| == |ages|
    && var d := |full| - |kept|;
       forall i :: 0 <= i < |kept| ==> kept[i] == TruncatedBy(full[d + i], ages[d + i])
  }

  lemma AgedAppend(kept: seq<Message>, full: seq<Message>, ages: seq<nat>, m: Message)
    requires AgedSuffix(kept, full, ages)
    ensures AgedSuffix(kept + [m], full + [m], ages + [0])
  {
    assert m == TruncatedBy(m, 0);
  }

  lemma TrimAt(ms: seq<Message>, i: nat)
    requires i < |Trim(ms)|
    ensures |Trim(ms)| == if |ms| < 40 then |ms| else 40
    ensures Trim(ms)[i] == TruncateMessage(ms[|ms| - |Trim(ms)| + i])
  {
    var all := TruncateAll(ms);
    assert all[|ms| - |Trim(ms)| + i] == TruncateMessage(ms[|ms| - |Trim(ms)| + i]);
  }

  lemma OnceMore(m: Message, k: nat)
    ensures TruncateMessage(TruncatedBy(m, k)) == TruncatedBy(m, k + 1)
  {
  }

  lemma AgedSave(kept: seq<Message>, full: seq<Message>, ages: seq<nat>)
    requires AgedSuffix(kept, full, ages)
    ensures AgedSuffix(Trim(kept), full, Older(ages))
  {
    var r, older := Trim(kept), Older(ages);
    var d := |full| - |r|;
    forall i | 0 <= i < |r| ensures r[i] == TruncatedBy(full[d + i], older[d + i]) {
      AgedSaveAt(kept, full, ages, i);
    }
  }

  lemma AgedSaveAt(kept: seq<Message>, full: seq<Message>, ages: seq<nat>, i: nat)
    requires AgedSuffix(kept, full, ages) && i < |Trim(kept)|
    ensures |Trim(kept)| <= |kept|
    ensures var d := |full| - |Trim(kept)|; Trim(kept)[i] == TruncatedBy(full[d + i], ages[d + i] + 1)
  {
    hide Trim, TruncatedBy;
    TrimAt(kept, i);
    var j, d := |kept| - |Trim(kept)| + i, |full| - |kept|;
    assert kept[j] == TruncatedBy(full[d + j], ages[d + j]);
    OnceMore(full[d + j], ages[d + j]);
  }

  /** Trimming again and again keeps a suffix of the full transcript, each message cut once per
      Save it has seen, and right after a Save that suffix is exactly the last 40. */
  lemma {:induction false} IteratedTrimIsOneWindow(ops: seq<Op>)
    ensures AgedSuffix(Kept(ops), Transcript(ops), Ages(ops))
    ensures |Kept(ops)| >= 40 || |Kept(ops)| == |Transcript(ops)|
    ensures ops != [] && ops[|ops| - 1].Save? ==>
      |Kept(ops)| == if |Transcript(ops)| < 40 then |Transcript(ops)| else 40
  {
    if ops != [] {
      var init := ops[..|ops| - 1];
      IteratedTrimIsOneWindow(init);
      match ops[|ops| - 1]
      case Append(m) => AgedAppend(Kept(init), Transcript(init), Ages(init), m);
      case Save => AgedSave(Kept(init), Transcript(init), Ages(init));
    }
  }

  /** Everything of a message but its content. */
  function Skeleton(m: Message): Message { m.(content := "") }

  ghost predicate SameSkeletons(a: seq<Message>, b: seq<Message>) {
    |a| == |b| && forall i :: 0 <= i < |a| ==> Skeleton(a[i]) == Skeleton(b[i])
  }

  lemma AgedSkeletons(kept: seq<Message>, full: seq<Message>, ages: seq<nat>)
    requires AgedSuffix(kept, full, ages)
    ensures SameSkeletons(kept, full[|full| - |kept|..])
  {
    var d := |full| - |kept|;
    forall i | 0 <= i < |kept| ensures Skeleton(kept[i]) == Skeleton(full[d..][i]) {
      assert kept[i] == TruncatedBy(full[d + i], ages[d + i]);
    }
  }

  lemma TrimSkeletons(full: seq<Message>)
    ensures SameSkeletons(LastN(full, MAX_MESSAGES), Trim(full))
  {
    var all := TruncateAll(full);
    forall i | 0 <= i < |full| ensures Skeleton(all[i]) == Skeleton(full[i]) {
      assert all[i] == TruncateMessage(full[i]);
    }
  }

  lemma SkeletonsTransitive(a: seq<Message>, b: seq<Message>, c: seq<Message>)
    requires SameSkeletons(a, b) && SameSkeletons(b, c)
    ensures SameSkeletons(a, c)
  {
  }

  lemma FullWindowSkeletons(kept: seq<Message>, full: seq<Message>, ages: seq<nat>)
    requires AgedSuffix(kept, full, ages)
    requires |kept| == if |full| < 40 then |full| else 40
    ensures SameSkeletons(kept, Trim(full))
  {
    AgedSkeletons(kept, full, ages);
    assert full[|full| - |kept|..] == LastN(full, MAX_MESSAGES);
    TrimSkeletons(full);
    SkeletonsTransitive(kept, LastN(full, MAX_MESSAGES), Trim(full));
  }

  /** After a Save the history has the roles, ids, names and calls of one trim of the transcript. */
  lemma SaveEqualsOneTrim(ops: seq<Op>)
    requires ops != [] && ops[|ops| - 1].Save?
    ensures SameSkeletons(Kept(ops), Trim(Transcript(ops)))
  {
    IteratedTrimIsOneWindow(ops);
    FullWindowSkeletons(Kept(ops), Transcript(ops), Ages(ops));
  }

  function Trims(ms: seq<Message>, k: nat): seq<Message> {
    if k == 0 then ms else Trim(Trims(ms, k - 1))
  }

  lemma {:induction false} TrimsLength(ms: seq<Message>, k: nat)
    requires k > 0
    ensures |Trims(ms, k)| == if |ms| < 40 then |ms| else 40
  {
    if k > 1 { TrimsLength(ms, k - 1); }
  }

  /** Everything cut k times. */
  function Same(n: nat, k: nat): (r: seq<nat>)
    ensures |r| == n && forall i :: 0 <= i < n ==> r[i] == k
  {
    seq(n, i => k)
  }

  lemma {:induction false} TrimsAreAged(ms: seq<Message>, k: nat)
    ensures AgedSuffix(Trims(ms, k), ms, Same(|ms|, k))
  {
    if k == 0 {
      assert forall m: Message :: TruncatedBy(m, 0) == m;
    } else {
      TrimsAreAged(ms, k - 1);
      AgedSave(Trims(ms, k - 1), ms, Same(|ms|, k - 1));
      assert Older(Same(|ms|, k - 1)) == Same(|ms|, k);
    }
  }

  lemma AgedAt(kept: seq<Message>, ms: seq<Message>, k: nat, i: nat)
    requires AgedSuffix(kept, ms, Same(|ms|, k)) && i < |kept|
    ensures kept[i] == TruncatedBy(ms[|ms| - |kept| + i], k)
  {
    assert Same(|ms|, k)[|ms| - |kept| + i] == k;
  }

  /** From the third application on, `TrimMessages` changes nothing any more. */
  lemma TrimStabilises(ms: seq<Message>, k: nat)
    requires k >= 3
    requires forall m <- ms :: GoString(m.content)
    ensures Trims(ms, k) == Trims(ms, 3)
  {
    TrimsLength(ms, k);
    TrimsLength(ms, 3);
    TrimsAreAged(ms, k);
    TrimsAreAged(ms, 3);
    forall i | 0 <= i < |Trims(ms, 3)|
      ensures Trims(ms, k)[i] == Trims(ms, 3)[i]
    {
      AgedAt(Trims(ms, k), ms, k, i);
      AgedAt(Trims(ms, 3), ms, 3, i);
      TruncationStabilises(ms[|ms| - |Trims(ms, 3)| + i].content, k);
    }
  }
}
