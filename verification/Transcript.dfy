/** The shape of a history that a provider accepts, and of the windows trimming leaves of it. */
module Transcript {
  import opened Llm
  import SessionStore

  /** `results` answer `calls` one by one, with matching ids and names. */
  predicate Answers(calls: seq<ToolCall>, results: seq<Message>) {
    && |results| == |calls|
    && forall i :: 0 <= i < |calls| ==>
         && results[i].role == Tool
         && results[i].toolCallID == calls[i].id
         && results[i].name == calls[i].name
         && results[i].toolCalls == []
  }

  /** Every assistant message with calls is immediately followed by exactly its results, and
      tool messages occur nowhere else. */
  predicate Conforms(ms: seq<Message>) {
    ms == [] ||
    match ms[0].role
    case User => ms[0].toolCalls == [] && Conforms(ms[1..])
    case Tool => false
    case Assistant =>
      var n := |ms[0].toolCalls|;
      && n < |ms|
      && Answers(ms[0].toolCalls, ms[1..n + 1])
      && Conforms(ms[n + 1..])
  }

  predicate AllTool(ms: seq<Message>) {
    forall m <- ms :: m.role == Tool
  }

  /** A leading run of tool messages whose calls have been dropped, then a conforming history. */
  ghost predicate Window(ms: seq<Message>) {
    exists k :: SplitsAt(ms, k)
  }

  predicate SplitsAt(ms: seq<Message>, k: nat) {
    k <= |ms| && AllTool(ms[..k]) && Conforms(ms[k..])
  }

  lemma {:induction false} ConformsAppend(a: seq<Message>, b: seq<Message>)
    requires Conforms(a) && Conforms(b)
    ensures Conforms(a + b)
    decreases |a|
  {
    if a == [] {
      assert a + b == b;
    } else {
      var n := if a[0].role == User then 0 else |a[0].toolCalls|;
      assert (a + b)[1..n + 1] == a[1..n + 1];
      assert (a + b)[n + 1..] == a[n + 1..] + b;
      ConformsAppend(a[n + 1..], b);
    }
  }

  /** Dropping the oldest messages one by one, as trimming does, leaves a window. */
  lemma {:induction false} ConformsSuffix(ms: seq<Message>, k: nat)
    requires Conforms(ms) && k <= |ms|
    ensures Window(ms[k..])
    decreases |ms|
  {
    if k == 0 {
      assert ms[0..] == ms;
      assert SplitsAt(ms, 0);
    } else {
      var n := if ms[0].role == User then 0 else |ms[0].toolCalls|;
      if n + 1 <= k {
        assert ms[k..] == ms[n + 1..][k - (n + 1)..];
        ConformsSuffix(ms[n + 1..], k - (n + 1));
      } else {
        var j := n + 1 - k;
        forall m | m in ms[k..][..j] ensures m.role == Tool {
          var i :| 0 <= i < j && ms[k..][..j][i] == m;
          assert m == ms[1..n + 1][k + i - 1];
        }
        assert ms[k..][j..] == ms[n + 1..];
        assert SplitsAt(ms[k..], j);
      }
    }
  }

  lemma WindowSuffix(ms: seq<Message>, k: nat)
    requires Window(ms) && k <= |ms|
    ensures Window(ms[k..])
  {
    var j: nat :| SplitsAt(ms, j);
    if k <= j {
      assert ms[k..][..j - k] == ms[..j][k..];
      assert ms[k..][j - k..] == ms[j..];
      assert SplitsAt(ms[k..], j - k);
    } else {
      assert ms[k..] == ms[j..][k - j..];
      ConformsSuffix(ms[j..], k - j);
    }
  }

  /** Conformance does not look at contents. */
  lemma {:induction false} ConformsSkeletons(a: seq<Message>, b: seq<Message>)
    requires SessionStore.SameSkeletons(a, b) && Conforms(a)
    ensures Conforms(b)
    decreases |a|
  {
    if a != [] {
      assert SessionStore.Skeleton(a[0]) == SessionStore.Skeleton(b[0]);
      assert b[0].role == a[0].role && b[0].toolCalls == a[0].toolCalls;
      var n := if a[0].role == User then 0 else |a[0].toolCalls|;
      AnswersSkeletons(a[0].toolCalls, a, b, 1);
      assert SessionStore.SameSkeletons(a[n + 1..], b[n + 1..]);
      ConformsSkeletons(a[n + 1..], b[n + 1..]);
    }
  }

  lemma AnswersSkeletons(calls: seq<ToolCall>, a: seq<Message>, b: seq<Message>, from: nat)
    requires SessionStore.SameSkeletons(a, b)
    ensures from + |calls| <= |a| && Answers(calls, a[from..from + |calls|]) ==>
      Answers(calls, b[from..from + |calls|])
  {
    if from + |calls| <= |a| && Answers(calls, a[from..from + |calls|]) {
      var x, y := a[from..from + |calls|], b[from..from + |calls|];
      forall i | 0 <= i < |calls|
        ensures
          && y[i].role == Tool && y[i].toolCallID == calls[i].id
          && y[i].name == calls[i].name && y[i].toolCalls == []
      {
        assert SessionStore.Skeleton(a[from + i]) == SessionStore.Skeleton(b[from + i]);
        assert x[i] == a[from + i] && y[i] == b[from + i];
        assert x[i].role == Tool && x[i].toolCallID == calls[i].id;
      }
    }
  }

  lemma WindowSkeletons(a: seq<Message>, b: seq<Message>)
    requires SessionStore.SameSkeletons(a, b) && Window(a)
    ensures Window(b)
  {
    var j: nat :| SplitsAt(a, j);
    assert SessionStore.SameSkeletons(a[j..], b[j..]);
    ConformsSkeletons(a[j..], b[j..]);
    forall m | m in b[..j] ensures m.role == Tool {
      var i :| 0 <= i < j && b[i] == m;
      assert SessionStore.Skeleton(a[i]) == SessionStore.Skeleton(b[i]);
      assert a[i] in a[..j];
    }
    assert SplitsAt(b, j);
  }

  lemma TrimKeepsWindow(ms: seq<Message>)
    requires Window(ms)
    ensures Window(SessionStore.Trim(ms))
  {
    var kept := SessionStore.LastN(ms, SessionStore.MAX_MESSAGES);
    if |ms| > SessionStore.MAX_MESSAGES {
      WindowSuffix(ms, |ms| - SessionStore.MAX_MESSAGES);
    }
    SessionStore.TrimSkeletons(ms);
    WindowSkeletons(kept, SessionStore.Trim(ms));
  }

  /** Whatever appends and Saves produced it, the kept history of a conforming transcript is
      orphaned tool results followed by a conforming history. */
  lemma TrimmedHistoryIsWindow(ops: seq<SessionStore.Op>)
    requires Conforms(SessionStore.Transcript(ops))
    ensures Window(SessionStore.Kept(ops))
  {
    var kept, full := SessionStore.Kept(ops), SessionStore.Transcript(ops);
    SessionStore.IteratedTrimIsOneWindow(ops);
    var d := |full| - |kept|;
    ConformsSuffix(full, d);
    SessionStore.AgedSkeletons(kept, full, SessionStore.Ages(ops));
    SkeletonsSymmetric(kept, full[d..]);
    WindowSkeletons(full[d..], kept);
  }

  lemma SkeletonsSymmetric(a: seq<Message>, b: seq<Message>)
    requires SessionStore.SameSkeletons(a, b)
    ensures SessionStore.SameSkeletons(b, a)
  {
  }
}
