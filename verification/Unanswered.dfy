/** What becomes of a history once calls are left without results (internal/agent/loop.go:166-191):
    exactly as long as the message that asks for them is kept, it is no window. */
module Unanswered {
  import opened Bytes
  import opened Llm
  import opened AgentSpec
  import H = AgentHistory
  import S = SessionStore
  import T = Transcript

  // ---------------------------------------------------------------------------------
  // Histories that obey the tool protocol but for calls left unanswered.
  // ---------------------------------------------------------------------------------

  /** The i-th message asks for calls, and no result follows. */
  predicate LeavesOpen(ms: seq<Message>, i: nat) {
    && i < |ms| && ms[i].role == Assistant && ms[i].toolCalls != []
    && (i + 1 < |ms| ==> ms[i + 1].role != Tool)
  }

  predicate AllAnswered(ms: seq<Message>) {
    forall i: nat | i < |ms| :: !LeavesOpen(ms, i)
  }

  /** Conforms, but with messages in between whose calls have no results at all. */
  predicate Loose(ms: seq<Message>) {
    ms == [] ||
    match ms[0].role
    case User => ms[0].toolCalls == [] && Loose(ms[1..])
    case Tool => false
    case Assistant =>
      if LeavesOpen(ms, 0) then Loose(ms[1..])
      else
        var n := |ms[0].toolCalls|;
        && n < |ms|
        && T.Answers(ms[0].toolCalls, ms[1..n + 1])
        && Loose(ms[n + 1..])
  }

  /** How many messages the first one takes along. */
  function Group(ms: seq<Message>): nat
    requires ms != []
  {
    if ms[0].role == User || LeavesOpen(ms, 0) then 0 else |ms[0].toolCalls|
  }

  /** The first message and those it takes along are in order. */
  predicate GroupFits(ms: seq<Message>)
    requires ms != []
  {
    && ms[0].role != Tool && Group(ms) < |ms|
    && (ms[0].role == User ==> ms[0].toolCalls == [])
    && (ms[0].role == Assistant && !LeavesOpen(ms, 0) ==> T.Answers(ms[0].toolCalls, ms[1..Group(ms) + 1]))
  }

  lemma LooseStep(ms: seq<Message>)
    requires ms != []
    ensures Loose(ms) <==> GroupFits(ms) && Loose(ms[Group(ms) + 1..])
  {
  }

  lemma OpenAppend(a: seq<Message>, b: seq<Message>)
    requires a != [] && Loose(b)
    ensures LeavesOpen(a + b, 0) <==> LeavesOpen(a, 0)
  {
    if b != [] { LooseStep(b); }
    hide Loose;
    assert (a + b)[0] == a[0];
    if |a| > 1 {
      assert (a + b)[1] == a[1];
    } else if b != [] {
      assert (a + b)[1] == b[0];
    }
  }

  lemma Slices(a: seq<Message>, b: seq<Message>, n: nat)
    ensures a != [] ==> (a + b)[0] == a[0]
    ensures n < |a| ==> (a + b)[1..n + 1] == a[1..n + 1] && (a + b)[n + 1..] == a[n + 1..] + b
  {
  }

  lemma GroupAppend(a: seq<Message>, b: seq<Message>)
    requires a != [] && Loose(a) && Loose(b)
    ensures Group(a) < |a| && Loose(a[Group(a) + 1..])
    ensures Loose(a[Group(a) + 1..] + b) ==> Loose(a + b)
  {
    LooseStep(a);
    LooseStep(a + b);
    OpenAppend(a, b);
    Slices(a, b, Group(a));
    hide Loose, T.Answers, LeavesOpen;
  }

  lemma {:induction false} LooseAppend(a: seq<Message>, b: seq<Message>)
    requires Loose(a) && Loose(b)
    ensures Loose(a + b)
    decreases |a|
  {
    if a == [] {
      assert a + b == b;
    } else {
      LooseAppend(a[Group(a) + 1..], b);
      GroupAppend(a, b);
    }
  }

  /** An open message behind the first is open in the rest, and the other way round. */
  lemma OpenBehind(ms: seq<Message>, n: nat)
    requires n <= |ms|
    ensures AllAnswered(ms) ==> AllAnswered(ms[n..])
    ensures (forall i: nat | i < n :: !LeavesOpen(ms, i)) && AllAnswered(ms[n..]) ==> AllAnswered(ms)
  {
    forall i: nat | i < |ms| - n ensures LeavesOpen(ms, n + i) <==> LeavesOpen(ms[n..], i) {
      assert i + 1 < |ms| - n ==> ms[n..][i + 1] == ms[n + i + 1];
    }
    if (forall i: nat | i < n :: !LeavesOpen(ms, i)) && AllAnswered(ms[n..]) {
      forall i: nat | i < |ms| ensures !LeavesOpen(ms, i) {
        if i >= n { assert LeavesOpen(ms, n + (i - n)) <==> LeavesOpen(ms[n..], i - n); }
      }
    }
  }

  /** Nothing in the first group is open, unless the first message is. */
  lemma GroupClosed(ms: seq<Message>)
    requires Loose(ms) && ms != [] && !LeavesOpen(ms, 0)
    ensures forall i: nat | i < Group(ms) + 1 :: !LeavesOpen(ms, i)
  {
    var n := Group(ms);
    forall i: nat | 0 < i < n + 1 ensures !LeavesOpen(ms, i) {
      assert ms[1..n + 1][i - 1] == ms[i];
    }
  }

  lemma OpenBreaks(ms: seq<Message>)
    requires LeavesOpen(ms, 0)
    ensures !T.Conforms(ms) && !AllAnswered(ms)
  {
    var n := |ms[0].toolCalls|;
    if n < |ms| { assert ms[1..n + 1][0] == ms[1]; }
  }

  /** Conforming is being loose with every call answered. */
  lemma {:induction false} ConformsExactly(ms: seq<Message>)
    ensures T.Conforms(ms) <==> Loose(ms) && AllAnswered(ms)
    decreases |ms|
  {
    if ms != [] && ms[0].role != Tool && !LeavesOpen(ms, 0) {
      var n := Group(ms);
      if n < |ms| {
        ConformsExactly(ms[n + 1..]);
        OpenBehind(ms, n + 1);
        if Loose(ms) { GroupClosed(ms); }
      }
    } else if LeavesOpen(ms, 0) {
      OpenBreaks(ms);
    }
  }

  /** A leading run of tool messages whose calls have been dropped, then a loose history. */
  ghost predicate LooseWindow(ms: seq<Message>) {
    exists k :: LooseFrom(ms, k)
  }

  predicate LooseFrom(ms: seq<Message>, k: nat) {
    k <= |ms| && T.AllTool(ms[..k]) && Loose(ms[k..])
  }

  lemma {:induction false} LooseSuffix(ms: seq<Message>, k: nat)
    requires Loose(ms) && k <= |ms|
    ensures LooseWindow(ms[k..])
    decreases |ms|
  {
    if k == 0 {
      assert ms[0..] == ms;
      assert LooseFrom(ms, 0);
    } else {
      var n := Group(ms);
      if n + 1 <= k {
        assert ms[k..] == ms[n + 1..][k - (n + 1)..];
        LooseSuffix(ms[n + 1..], k - (n + 1));
      } else {
        var j := n + 1 - k;
        forall m | m in ms[k..][..j] ensures m.role == Tool {
          var i :| 0 <= i < j && ms[k..][..j][i] == m;
          assert m == ms[1..n + 1][k + i - 1];
        }
        assert ms[k..][j..] == ms[n + 1..];
        assert LooseFrom(ms[k..], j);
      }
    }
  }

  lemma {:induction false} LooseSkeletons(a: seq<Message>, b: seq<Message>)
    requires S.SameSkeletons(a, b) && Loose(a)
    ensures Loose(b)
    decreases |a|
  {
    if a != [] {
      SameShape(a, b, 0);
      if |a| > 1 { SameShape(a, b, 1); }
      var n := Group(a);
      T.AnswersSkeletons(a[0].toolCalls, a, b, 1);
      assert S.SameSkeletons(a[n + 1..], b[n + 1..]);
      LooseSkeletons(a[n + 1..], b[n + 1..]);
    }
  }

  lemma SameShape(a: seq<Message>, b: seq<Message>, i: nat)
    requires S.SameSkeletons(a, b) && i < |a|
    ensures a[i].role == b[i].role && a[i].toolCalls == b[i].toolCalls
  {
    assert S.Skeleton(a[i]) == S.Skeleton(b[i]);
  }

  lemma LooseWindowSkeletons(a: seq<Message>, b: seq<Message>)
    requires S.SameSkeletons(a, b) && LooseWindow(a)
    ensures LooseWindow(b)
  {
    var j: nat :| LooseFrom(a, j);
    assert S.SameSkeletons(a[j..], b[j..]);
    LooseSkeletons(a[j..], b[j..]);
    forall m | m in b[..j] ensures m.role == Tool {
      var i :| 0 <= i < j && b[i] == m;
      SameShape(a, b, i);
      assert a[i] in a[..j];
    }
    assert LooseFrom(b, j);
  }

  /** What trimming leaves of a loose transcript is a window exactly when it holds no message whose
      calls are unanswered. */
  lemma LooseWindowExactly(ms: seq<Message>)
    requires LooseWindow(ms)
    ensures T.Window(ms) <==> AllAnswered(ms)
  {
    if k: nat :| T.SplitsAt(ms, k) {
      ConformsExactly(ms[k..]);
      ToolsClosed(ms, k);
    }
    var k: nat :| LooseFrom(ms, k);
    ConformsExactly(ms[k..]);
    OpenBehind(ms, k);
    if AllAnswered(ms) { assert T.SplitsAt(ms, k); }
  }

  lemma ToolsClosed(ms: seq<Message>, k: nat)
    requires k <= |ms| && T.AllTool(ms[..k])
    ensures AllAnswered(ms) <==> AllAnswered(ms[k..])
  {
    forall i: nat | i < k ensures !LeavesOpen(ms, i) {
      assert ms[i] in ms[..k];
    }
    OpenBehind(ms, k);
  }

  // ---------------------------------------------------------------------------------
  // Any number of runs, whichever of their Saves fail.
  // ---------------------------------------------------------------------------------

  /** A history some sequence of appends and Saves left of a loose transcript. */
  ghost predicate Tolerable(history: seq<Message>) {
    exists ops :: LeftBy(history, ops)
  }

  ghost predicate LeftBy(history: seq<Message>, ops: seq<S.Op>) {
    history == S.Kept(ops) && Loose(S.Transcript(ops))
  }

  lemma EmptyIsTolerable()
    ensures Tolerable([])
  {
    assert LeftBy([], []);
  }

  /** Such a history is a window exactly when it holds no message whose calls are unanswered. */
  lemma WindowExactly(history: seq<Message>)
    requires Tolerable(history)
    ensures T.Window(history) <==> AllAnswered(history)
  {
    var ops :| LeftBy(history, ops);
    var full := S.Transcript(ops);
    S.IteratedTrimIsOneWindow(ops);
    var d := |full| - |history|;
    LooseSuffix(full, d);
    S.AgedSkeletons(history, full, S.Ages(ops));
    T.SkeletonsSymmetric(history, full[d..]);
    LooseWindowSkeletons(full[d..], history);
    LooseWindowExactly(history);
  }

  lemma UnansweredIsLoose(ms: seq<Message>)
    requires H.EndsUnanswered(ms)
    ensures Loose(ms)
  {
    var n := |ms| - 1;
    ConformsExactly(ms[..n]);
    assert [ms[n]][1..] == [] && Loose([ms[n]]);
    assert ms == ms[..n] + [ms[n]];
    LooseAppend(ms[..n], [ms[n]]);
  }

  /** The operations up to some point of a run continue a loose transcript. */
  lemma ContinuedIsTolerable(before: seq<S.Op>, ops: seq<S.Op>)
    requires Loose(S.Transcript(before)) && Loose(S.Transcript(ops))
    ensures Tolerable(S.Kept(before + ops))
  {
    H.TranscriptAppend(before, ops);
    LooseAppend(S.Transcript(before), S.Transcript(ops));
    assert LeftBy(S.Kept(before + ops), before + ops);
  }

  /** Whatever a run has stored is such a history. */
  lemma StoredIsTolerable(before: seq<S.Op>, r: RunState)
    requires Loose(S.Transcript(before)) && Stored(r).Some?
    requires if SaveLost(r.outcome) then H.LeftBehind(before, r, r.outcome.value.at)
      else Stored(r) == Some(r.msgs) && r.msgs == S.Kept(before + r.ops) && T.Conforms(S.Transcript(r.ops))
    ensures Tolerable(Stored(r).value)
  {
    hide Tolerable, Loose, T.Conforms, H.EndsUnanswered, H.Stranded, S.Kept, S.Transcript;
    if !SaveLost(r.outcome) {
      ConformsExactly(S.Transcript(r.ops));
      ContinuedIsTolerable(before, r.ops);
    } else if r.outcome.value.at == AtAnswer {
      var k: nat :| H.StoredEarlier(before, r, k);
      ConformsExactly(S.Transcript(r.ops[..k]));
      ContinuedIsTolerable(before, r.ops[..k]);
    } else if r.outcome.value.at == AtTools {
      var k: nat :| H.StoredUnanswered(before, r, k);
      UnansweredIsLoose(S.Transcript(r.ops[..k]));
      ContinuedIsTolerable(before, r.ops[..k]);
    }
  }

  /** Every run takes such a history to such a history, whichever of its Saves fail. */
  lemma RunKeepsTolerable(w: World, maxSteps: int, history: seq<Message>, input: Bytes)
    requires Fair(w) && Tolerable(history)
    ensures Tolerable(H.Leaves(w, maxSteps, history, input))
  {
    var before :| LeftBy(history, before);
    H.RunKeepsProtocol(before, w, maxSteps, input);
    var r := Run(w, maxSteps, history, input);
    hide Run, Loose, Tolerable, H.LeftBehind;
    if Stored(r).Some? { StoredIsTolerable(before, r); }
  }

  /** Over any number of turns, whichever Saves fail, what is stored is a window exactly when no
      message is kept whose calls were left without results: a history recovers as soon as the last
      such message has been trimmed away, and not before. */
  lemma {:induction false} ReplayIsWindowExactly(turns: seq<H.Turn>)
    requires H.AllFair(turns)
    ensures Tolerable(H.Replay(turns))
    ensures T.Window(H.Replay(turns)) <==> AllAnswered(H.Replay(turns))
  {
    if turns == [] {
      EmptyIsTolerable();
    } else {
      var init, t := turns[..|turns| - 1], turns[|turns| - 1];
      ReplayIsWindowExactly(init);
      RunKeepsTolerable(t.w, t.maxSteps, H.Replay(init), t.input);
    }
    WindowExactly(H.Replay(turns));
  }

  /** The same for what a provider is sent, at any Stream call of any run on such a history. */
  lemma RequestsAreWindowsExactly(w: World, history: seq<Message>, input: Bytes, k: nat)
    requires Fair(w) && Tolerable(history)
    ensures var r := H.AfterSteps(w, Opening(w, history, input), k);
      r.outcome.None? ==> (T.Window(r.msgs) <==> AllAnswered(r.msgs))
  {
    var before :| LeftBy(history, before);
    var r0 := Opening(w, history, input);
    H.FirstSave(before, w, input);
    H.AfterStepsGood(before, w, r0, k);
    var r := H.AfterSteps(w, r0, k);
    if r.outcome.None? {
      ConformsExactly(S.Transcript(r.ops));
      ContinuedIsTolerable(before, r.ops);
      WindowExactly(r.msgs);
    }
  }
}
