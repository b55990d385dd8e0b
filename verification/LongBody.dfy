/** Long answers: `SplitLongBody` of internal/render/renderer.go. */
module LongBody {
  import opened Bytes

  const SOFT := 20_000
  const CHUNK := 18_000

  /** `k` is where the last `b` of `s` is, or -1. */
  predicate IsLastIndex(s: Bytes, b: char, k: int) {
    && -1 <= k < |s|
    && (k >= 0 ==> s[k] == b)
    && forall i :: k < i < |s| ==> s[i] != b
  }

  method IndexByteFromEnd(s: Bytes, b: char) returns (k: int)
    ensures IsLastIndex(s, b, k)
  {
    k := |s| - 1;
    while k >= 0
      invariant -1 <= k < |s|
      invariant forall i :: k < i < |s| ==> s[i] != b
    {
      if s[k] == b { return; }
      k := k - 1;
    }
  }

  function LastIndex(s: Bytes, b: char): (k: int)
    ensures IsLastIndex(s, b, k)
  {
    if s == "" then -1
    else if s[|s| - 1] == b then |s| - 1
    else LastIndex(s[..|s| - 1], b)
  }

  /** Where the next chunk ends: before the last newline that leaves it non-empty, else at 18000. */
  function CutAt(rest: Bytes): (cut: nat)
    requires |rest| > CHUNK
    ensures 0 < cut <= CHUNK
  {
    var nl := LastIndex(rest[..CHUNK], '\n');
    if nl > 0 then nl else CHUNK
  }

  function Chunks(rest: Bytes): seq<Bytes>
    decreases |rest|
  {
    if |rest| > CHUNK then
      var cut := CutAt(rest);
      [rest[..cut]] + Chunks(rest[cut..])
    else if rest != "" then [rest]
    else []
  }

  lemma FirstChunk(rest: Bytes, cut: nat)
    requires |rest| > CHUNK && cut == CutAt(rest)
    ensures Chunks(rest) == [rest[..cut]] + Chunks(rest[cut..])
  {
  }

  lemma LastChunk(rest: Bytes)
    requires |rest| <= CHUNK
    ensures Chunks(rest) == if rest != "" then [rest] else []
  {
  }

  lemma Regroup(a: seq<Bytes>, b: Bytes, c: seq<Bytes>)
    ensures a + [b] + c == a + ([b] + c)
  {
  }

  method SplitLongBody(full: Bytes) returns (inCard: Bytes, threaded: seq<Bytes>)
    ensures |full| <= SOFT ==> inCard == full && threaded == []
    ensures |full| > SOFT ==> inCard == full[..SOFT] && threaded == Chunks(full[SOFT..])
  {
    hide Chunks;
    threaded := [];
    if |full| <= SOFT { return full, []; }
    inCard := full[..SOFT];
    var rest := full[SOFT..];
    while |rest| > CHUNK
      invariant threaded + Chunks(rest) == Chunks(full[SOFT..])
      decreases |rest|
    {
      var cut := CHUNK;
      var nl := IndexByteFromEnd(rest[..CHUNK], '\n');
      LastIndexUnique(rest[..CHUNK], '\n', nl);
      if nl > 0 { cut := nl; }
      FirstChunk(rest, cut);
      Regroup(threaded, rest[..cut], Chunks(rest[cut..]));
      threaded := threaded + [rest[..cut]];
      rest := rest[cut..];
    }
    LastChunk(rest);
    if rest != "" {
      threaded := threaded + [rest];
    }
  }

  lemma LastIndexUnique(s: Bytes, b: char, k: int)
    requires IsLastIndex(s, b, k)
    ensures k == LastIndex(s, b)
  {
  }

  /** Nothing is lost: the chunks are the rest of the text, each non-empty and at most 18000. */
  lemma {:induction false} ChunksLossless(rest: Bytes)
    ensures Concat(Chunks(rest)) == rest
    ensures forall c <- Chunks(rest) :: 0 < |c| <= CHUNK
    decreases |rest|
  {
    if |rest| > CHUNK {
      var cut := CutAt(rest);
      FirstChunk(rest, cut);
      hide Chunks, Concat, CutAt;
      ChunksLossless(rest[cut..]);
      ConcatAppend([rest[..cut]], Chunks(rest[cut..]));
      ConcatOne(rest[..cut]);
    } else if rest != "" {
      ConcatOne(rest);
    }
  }

  /** A chunk that is followed by another ends where the source says: in front of the last
      newline among its first 18000 bytes, or at 18000 when there is none to cut at. */
  lemma ChunkEndsAtNewline(rest: Bytes)
    requires |rest| > CHUNK
    ensures var c := Chunks(rest)[0];
      && (|c| == CHUNK || rest[|c|] == '\n')
      && (forall i :: |c| < i < CHUNK ==> rest[i] != '\n')
      && (|c| == CHUNK ==> forall i :: 0 < i < CHUNK ==> rest[i] != '\n')
  {
    var head := rest[..CHUNK];
    var nl := LastIndex(head, '\n');
    forall i | nl < i < CHUNK ensures rest[i] != '\n' { assert head[i] == rest[i]; }
    assert nl > 0 ==> head[nl] == rest[nl];
  }

  /** Two chunks in a row that are both followed by another hold at least 18000 bytes. */
  lemma TwoCutsCoverChunk(rest: Bytes)
    requires |rest| > CHUNK && |rest[CutAt(rest)..]| > CHUNK
    ensures CutAt(rest) + CutAt(rest[CutAt(rest)..]) >= CHUNK
  {
    var cut := CutAt(rest);
    var next := rest[cut..];
    var nl := LastIndex(next[..CHUNK], '\n');
    forall i | cut < i < CHUNK ensures rest[i] != '\n' {
      assert rest[..CHUNK][i] == rest[i];
    }
    assert nl >= 0 ==> next[..CHUNK][nl] == rest[cut + nl];
  }

  /** The non-obvious bound: although chunks may be cut short at newlines, at most two replies
      per further 18000 bytes are needed.  NaiveReplyBoundFails meets it exactly. */
  lemma {:induction false} ReplyBound(rest: Bytes)
    requires rest != ""
    ensures |Chunks(rest)| <= 2 * ((|rest| - 1) / CHUNK) + 1
    ensures |rest| > CHUNK && |rest[CutAt(rest)..]| <= CHUNK ==> |Chunks(rest)| <= 2
    decreases |rest|
  {
    if |rest| > CHUNK {
      var cut := CutAt(rest);
      var next := rest[cut..];
      if |next| > CHUNK {
        var cut' := CutAt(next);
        TwoCutsCoverChunk(rest);
        var after := next[cut'..];
        ReplyBound(after);
        assert |after| + CHUNK <= |rest|;
        assert (|after| - 1) / CHUNK + 1 == (|after| - 1 + CHUNK) / CHUNK <= (|rest| - 1) / CHUNK;
      }
    }
  }

  /** `SplitLongBody` as a whole: card part and replies together are the full text, and a body
      of L > 20000 bytes takes at most 2*((L-20001)/18000)+1 replies. */
  lemma SplitIsLosslessAndShort(full: Bytes)
    requires |full| > SOFT
    ensures full[..SOFT] + Concat(Chunks(full[SOFT..])) == full
    ensures 0 < |Chunks(full[SOFT..])| <= 2 * ((|full| - SOFT - 1) / CHUNK) + 1
  {
    ChunksLossless(full[SOFT..]);
    ReplyBound(full[SOFT..]);
  }

  /** One reply per 18000 bytes would be too few: 18002 bytes can take three. */
  lemma NaiveReplyBoundFails(rest: Bytes)
    requires |rest| == CHUNK + 2
    requires rest[1] == '\n' && forall i :: 1 < i < CHUNK + 2 ==> rest[i] != '\n'
    ensures |Chunks(rest)| == 3
  {
    var head := rest[..CHUNK];
    assert head[1] == '\n';
    LastIndexUnique(head, '\n', 1);
    var next := rest[1..];
    forall i | 0 < i < CHUNK ensures next[..CHUNK][i] != '\n' { assert next[i] == rest[i + 1]; }
    assert next[..CHUNK][0] == rest[1];
    LastIndexUnique(next[..CHUNK], '\n', 0);
    assert CutAt(next) == CHUNK;
    var last := next[CHUNK..];
    assert Chunks(last) == [last];
    assert Chunks(next) == [next[..CHUNK]] + Chunks(last);
    assert Chunks(rest) == [rest[..1]] + Chunks(next);
  }
}
