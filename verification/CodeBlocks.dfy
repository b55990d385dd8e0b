/** What `cleanupRenderedMarkdown` does to the code blocks of a downgraded text
    (internal/render/markdown.go:97,118-129): the clean-up line by line, and exactly which code
    blocks survive it. */
module CodeBlocks {
  import opened Bytes
  import opened Markdown
  import opened Fallback

  // ---------------------------------------------------------------------------------
  // The clean-up, line by line.
  // ---------------------------------------------------------------------------------

  predicate NewlineFree(ls: seq<Bytes>) {
    forall l <- ls :: '\n' !in l
  }

  /** Two empty lines in a row between other lines become one. */
  function CollapseLines(ls: seq<Bytes>): (r: seq<Bytes>)
    ensures ls != [] ==> r != []
    ensures NewlineFree(ls) ==> NewlineFree(r)
    decreases |ls|
  {
    if |ls| <= 1 then ls
    else if |ls| >= 4 && ls[1] == "" && ls[2] == "" then CollapseLines([ls[0]] + ls[2..])
    else [ls[0]] + CollapseLines(ls[1..])
  }

  predicate White(l: Bytes) { SkipSpace(l, 0) == |l| }

  /** Leading white space goes: whole lines, and the indentation of the line behind them. */
  function TrimLead(ls: seq<Bytes>): (r: seq<Bytes>)
    requires ls != []
    ensures r != []
  {
    if |ls| > 1 && White(ls[0]) then TrimLead(ls[1..])
    else [ls[0][SkipSpace(ls[0], 0)..]] + ls[1..]
  }

  /** How much of a line is left without the white space at its end. */
  function InkEnd(l: Bytes): (m: nat)
    ensures m <= |l| && forall k :: m <= k < |l| ==> IsSpaceByte(l[k])
  {
    SkipSpaceBack(l, 0, |l|)
  }

  /** Trailing white space goes. */
  function TrimTail(ls: seq<Bytes>): (r: seq<Bytes>)
    requires ls != []
    ensures r != []
  {
    var init, last := ls[..|ls| - 1], ls[|ls| - 1];
    if |ls| > 1 && InkEnd(last) == 0 then TrimTail(init) else init + [last[..InkEnd(last)]]
  }

  function CleanLines(ls: seq<Bytes>): seq<Bytes>
    requires ls != []
  {
    TrimTail(TrimLead(CollapseLines(TrimLines(ls))))
  }

  lemma {:induction false} LeadFree(ls: seq<Bytes>)
    requires ls != [] && NewlineFree(ls)
    ensures NewlineFree(TrimLead(ls))
  {
    if |ls| > 1 && White(ls[0]) {
      LeadFree(ls[1..]);
    } else {
      var head := ls[0][SkipSpace(ls[0], 0)..];
      assert ls[0] in ls;
      assert '\n' !in head;
      forall l | l in TrimLead(ls) ensures '\n' !in l { assert l == head || l in ls[1..]; }
    }
  }

  lemma {:induction false} TailFree(ls: seq<Bytes>)
    requires ls != [] && NewlineFree(ls)
    ensures NewlineFree(TrimTail(ls))
  {
    var init, last := ls[..|ls| - 1], ls[|ls| - 1];
    if |ls| > 1 && InkEnd(last) == 0 {
      TailFree(init);
    } else {
      assert last in ls;
      assert '\n' !in last[..InkEnd(last)];
      forall l | l in TrimTail(ls) ensures '\n' !in l { assert l == last[..InkEnd(last)] || l in init; }
    }
  }

  lemma {:induction false} SplitOfJoin(ls: seq<Bytes>)
    requires ls != [] && NewlineFree(ls)
    ensures Split(Join(ls)) == ls
  {
    assert ls[0] in ls;
    if |ls| == 1 {
      assert FirstNewline(ls[0]) == |ls[0]|;
    } else {
      SplitOfJoin(ls[1..]);
      var s := Join(ls);
      var rest := Join(ls[1..]);
      assert s == ls[0] + "\n" + rest;
      assert s[|ls[0]|] == '\n' && s[..|ls[0]|] == ls[0] && s[|ls[0]| + 1..] == rest;
      assert forall i :: 0 <= i < |ls[0]| ==> s[i] == ls[0][i];
      assert FirstNewline(s) == |ls[0]|;
    }
  }

  lemma {:induction false} CollapseHead(head: Bytes, tail: Bytes)
    requires '\n' !in head
    ensures Collapse(head + tail) == head + Collapse(tail)
  {
    var s := head + tail;
    if head == "" {
      assert s == tail;
    } else {
      assert s[0] == head[0] && s[1..] == head[1..] + tail;
      assert !HasPrefix(s, "\n\n\n");
      CollapseHead(head[1..], tail);
    }
  }

  lemma JoinTail(ls: seq<Bytes>)
    requires |ls| > 1
    ensures Join(ls) == ls[0] + ("\n" + Join(ls[1..]))
  {
    assert ls[0] + "\n" + Join(ls[1..]) == ls[0] + ("\n" + Join(ls[1..]));
  }

  lemma StartsWithNewline(ls: seq<Bytes>)
    requires ls != [] && NewlineFree(ls)
    ensures HasPrefix(Join(ls), "\n") <==> |ls| > 1 && ls[0] == ""
    ensures |ls| > 1 && ls[0] == "" ==> Join(ls) == "\n" + Join(ls[1..])
  {
    var s := Join(ls);
    assert ls[0] in ls;
    if |ls| > 1 { JoinTail(ls); }
    assert ls[0] != "" ==> s[0] == ls[0][0];
  }

  lemma StartsWithTwo(ls: seq<Bytes>)
    requires |ls| > 1 && NewlineFree(ls)
    ensures HasPrefix("\n" + Join(ls[1..]), "\n\n\n") <==> |ls| >= 4 && ls[1] == "" && ls[2] == ""
  {
    var j := Join(ls[1..]);
    StartsWithNewline(ls[1..]);
    var t := "\n" + j;
    assert HasPrefix(t, "\n\n\n") <==> |j| >= 2 && j[0] == '\n' && j[1] == '\n' by {
      assert |t| >= 3 ==> t[..3] == ['\n', j[0], j[1]];
    }
    assert HasPrefix(j, "\n") <==> |j| >= 1 && j[0] == '\n';
    if |ls| > 2 && ls[1] == "" {
      StartsWithNewline(ls[2..]);
      assert ls[1..][1..] == ls[2..];
      assert j == "\n" + Join(ls[2..]);
      assert HasPrefix(Join(ls[2..]), "\n") <==> |Join(ls[2..])| >= 1 && j[1] == '\n';
    }
  }

  lemma {:induction false} CollapseOfJoin(ls: seq<Bytes>)
    requires ls != [] && NewlineFree(ls)
    ensures Collapse(Join(ls)) == Join(CollapseLines(ls))
    decreases |ls|
  {
    assert ls[0] in ls;
    if |ls| == 1 {
      CollapseHead(ls[0], "");
      assert ls[0] + "" == ls[0];
    } else {
      var j := Join(ls[1..]);
      JoinTail(ls);
      CollapseHead(ls[0], "\n" + j);
      StartsWithTwo(ls);
      assert ("\n" + j)[1..] == j;
      if |ls| >= 4 && ls[1] == "" && ls[2] == "" {
        var fewer := [ls[0]] + ls[2..];
        CollapseOfJoin(fewer);
        JoinTail(fewer);
        StartsWithNewline(ls[1..]);
        assert ls[1..][1..] == ls[2..] && fewer[1..] == ls[2..];
        CollapseHead(ls[0], j);
      } else {
        CollapseOfJoin(ls[1..]);
        JoinCons(ls[0], CollapseLines(ls[1..]));
        assert ls[0] + ("\n" + Collapse(j)) == ls[0] + "\n" + Collapse(j);
      }
    }
  }

  // ---------------------------------------------------------------------------------
  // TrimSpace, line by line.
  // ---------------------------------------------------------------------------------

  /** Skipping white space from `p` on is skipping it in what begins there. */
  lemma {:induction false} SkipShift(t: Bytes, p: nat, b: Bytes, i: nat)
    requires p <= |t| && t[p..] == b && i <= |b|
    ensures SkipSpace(t, p + i) == p + SkipSpace(b, i)
    decreases |b| - i
  {
    hide SpaceAt;
    SpaceAtShift(t, p, b, i);
    if SpaceAt(b, i) > 0 { SkipShift(t, p, b, i + SpaceAt(b, i)); }
  }

  lemma SpaceAtShift(t: Bytes, p: nat, b: Bytes, i: nat)
    requires p <= |t| && t[p..] == b && i <= |b|
    ensures SpaceAt(t, p + i) == SpaceAt(b, i)
  {
    assert i < |b| ==> b[i] == t[p + i];
    assert i + 1 < |b| ==> b[i + 1] == t[p + i + 1];
    assert i + 2 < |b| ==> b[i + 2] == t[p + i + 2];
  }

  /** `t` begins with `l`, and then comes a newline, space or tab. */
  predicate BreaksAfter(t: Bytes, l: Bytes) {
    |l| < |t| && t[..|l|] == l && IsAsciiSpace(t[|l|])
  }

  lemma SpaceAtWithin(t: Bytes, l: Bytes, i: nat)
    requires BreaksAfter(t, l) && i < |l|
    ensures SpaceAt(t, i) == SpaceAt(l, i)
  {
    assert t[i] == l[i];
    assert i + 1 < |l| ==> t[i + 1] == l[i + 1];
    assert i + 2 < |l| ==> t[i + 2] == l[i + 2];
  }

  /** Skipping white space does not jump over the start of a newline, space or tab. */
  lemma {:induction false} SkipWithin(t: Bytes, l: Bytes, i: nat)
    requires BreaksAfter(t, l) && i <= |l|
    ensures SkipSpace(t, i) == if SkipSpace(l, i) < |l| then SkipSpace(l, i) else SkipSpace(t, |l|)
    decreases |l| - i
  {
    hide SpaceAt;
    if i < |l| {
      SpaceAtWithin(t, l, i);
      if SpaceAt(l, i) > 0 { SkipWithin(t, l, i + SpaceAt(l, i)); }
    }
  }

  lemma LineParts(l: Bytes, rest: Bytes)
    ensures var t := l + "\n" + rest;
      t[..|l|] == l && t[|l| + 1..] == rest && BreaksAfter(t, l) && SpaceAt(t, |l|) == 1
  {
    var t := l + "\n" + rest;
    assert t[|l|] == '\n';
  }

  lemma SkipOfLine(l: Bytes, rest: Bytes)
    ensures var t := l + "\n" + rest;
      SkipSpace(t, 0) == if White(l) then |l| + 1 + SkipSpace(rest, 0) else SkipSpace(l, 0)
  {
    var t := l + "\n" + rest;
    LineParts(l, rest);
    hide SpaceAt;
    SkipWithin(t, l, 0);
    SkipShift(t, |l| + 1, rest, 0);
  }

  lemma {:induction false} LeadOfJoin(ls: seq<Bytes>)
    requires ls != []
    ensures Join(ls)[SkipSpace(Join(ls), 0)..] == Join(TrimLead(ls))
  {
    if |ls| > 1 {
      var rest := Join(ls[1..]);
      SkipOfLine(ls[0], rest);
      hide SkipSpace;
      if White(ls[0]) {
        LeadOfJoin(ls[1..]);
        DropLine(ls[0], rest, SkipSpace(rest, 0));
      } else {
        var i := SkipSpace(ls[0], 0);
        JoinCons(ls[0][i..], ls[1..]);
        DropIndent(ls[0], rest, i);
      }
    }
  }

  lemma DropLine(l: Bytes, rest: Bytes, i: nat)
    requires i <= |rest|
    ensures (l + "\n" + rest)[|l| + 1 + i..] == rest[i..]
  {
  }

  lemma DropIndent(l: Bytes, rest: Bytes, i: nat)
    requires i <= |l|
    ensures (l + "\n" + rest)[i..] == l[i..] + "\n" + rest
  {
  }

  lemma SpaceBeforeShift(s: Bytes, i: nat, j: nat)
    requires i <= j <= |s|
    ensures SpaceBefore(s[i..], 0, j - i) == SpaceBefore(s, i, j)
  {
    var u := s[i..];
    assert i + 1 <= j ==> u[j - i - 1] == s[j - 1];
    assert i + 2 <= j ==> u[j - i - 2] == s[j - 2];
    assert i + 3 <= j ==> u[j - i - 3] == s[j - 3];
  }

  lemma {:induction false} BackShift(s: Bytes, i: nat, j: nat)
    requires i <= j <= |s|
    ensures SkipSpaceBack(s, i, j) == i + SkipSpaceBack(s[i..], 0, j - i)
    decreases j
  {
    hide SpaceBefore;
    SpaceBeforeShift(s, i, j);
    var n := SpaceBefore(s, i, j);
    if n > 0 { BackShift(s, i, j - n); }
  }

  lemma SpaceBeforePrefix(t: Bytes, pre: Bytes, j: nat)
    requires |pre| <= |t| && t[..|pre|] == pre && j <= |pre|
    ensures SpaceBefore(t, 0, j) == SpaceBefore(pre, 0, j)
  {
    assert j >= 1 ==> t[j - 1] == pre[j - 1];
    assert j >= 2 ==> t[j - 2] == pre[j - 2];
    assert j >= 3 ==> t[j - 3] == pre[j - 3];
  }

  lemma {:induction false} BackOfPrefix(t: Bytes, pre: Bytes, j: nat)
    requires |pre| <= |t| && t[..|pre|] == pre && j <= |pre|
    ensures SkipSpaceBack(t, 0, j) == SkipSpaceBack(pre, 0, j)
    decreases j
  {
    hide SpaceBefore;
    SpaceBeforePrefix(t, pre, j);
    var n := SpaceBefore(pre, 0, j);
    if n > 0 { BackOfPrefix(t, pre, j - n); }
  }

  /** `t` ends with `l`, which starts at `p` behind a newline. */
  predicate BreaksBefore(t: Bytes, p: nat, l: Bytes) {
    0 < p <= |t| && t[p..] == l && t[p - 1] == '\n'
  }

  lemma SpaceBeforeWithin(t: Bytes, p: nat, l: Bytes, j: nat)
    requires BreaksBefore(t, p, l) && 0 < j <= |l|
    ensures SpaceBefore(t, 0, p + j) == SpaceBefore(l, 0, j)
  {
    assert t[p + j - 1] == l[j - 1];
    assert j >= 2 ==> t[p + j - 2] == l[j - 2];
    assert j >= 3 ==> t[p + j - 3] == l[j - 3];
  }

  lemma {:induction false} BackWithin(t: Bytes, p: nat, l: Bytes, j: nat)
    requires BreaksBefore(t, p, l) && j <= |l|
    ensures var m := SkipSpaceBack(l, 0, j);
      SkipSpaceBack(t, 0, p + j) == if m > 0 then p + m else SkipSpaceBack(t, 0, p)
    decreases j
  {
    hide SpaceBefore;
    if j > 0 {
      SpaceBeforeWithin(t, p, l, j);
      var n := SpaceBefore(l, 0, j);
      if n > 0 { BackWithin(t, p, l, j - n); }
    }
  }

  lemma BackOverNewline(t: Bytes, p: nat)
    requires 0 < p <= |t| && t[p - 1] == '\n'
    ensures SkipSpaceBack(t, 0, p) == SkipSpaceBack(t, 0, p - 1)
  {
    assert SpaceBefore(t, 0, p) == 1;
    hide SpaceBefore;
  }

  lemma BackFrom(t: Bytes, p: nat, pre: Bytes, l: Bytes)
    requires BreaksBefore(t, p, l) && t[..p - 1] == pre
    ensures SkipSpaceBack(t, 0, p + |l|) == if InkEnd(l) > 0 then p + InkEnd(l) else SkipSpaceBack(pre, 0, |pre|)
  {
    hide SpaceBefore;
    BackWithin(t, p, l, |l|);
    BackOverNewline(t, p);
    BackOfPrefix(t, pre, |pre|);
  }

  lemma BackOfLine(pre: Bytes, l: Bytes)
    ensures var t := pre + "\n" + l;
      SkipSpaceBack(t, 0, |t|) == if InkEnd(l) > 0 then |pre| + 1 + InkEnd(l) else SkipSpaceBack(pre, 0, |pre|)
  {
    hide SkipSpaceBack, InkEnd;
    var t, p := pre + "\n" + l, |pre| + 1;
    assert t[p..] == l && t[p - 1] == '\n' && t[..|pre|] == pre;
    BackFrom(t, p, pre, l);
  }

  lemma {:induction false} JoinSnoc(init: seq<Bytes>, l: Bytes)
    requires init != []
    ensures Join(init + [l]) == Join(init) + "\n" + l
  {
    var ls := init + [l];
    if |init| == 1 {
      assert ls[1..] == [l];
    } else {
      assert ls[1..] == init[1..] + [l];
      JoinSnoc(init[1..], l);
      assert Join(ls) == init[0] + "\n" + (Join(init[1..]) + "\n" + l);
      assert init[0] + "\n" + (Join(init[1..]) + "\n" + l) == init[0] + "\n" + Join(init[1..]) + "\n" + l;
    }
  }

  lemma CutLine(pre: Bytes, last: Bytes, m: nat, k: nat)
    requires m <= |last| && k <= |pre|
    ensures (pre + "\n" + last)[..|pre| + 1 + m] == pre + "\n" + last[..m]
    ensures (pre + "\n" + last)[..k] == pre[..k]
  {
  }

  lemma {:induction false} TailOfJoin(ls: seq<Bytes>)
    requires ls != []
    ensures Join(ls)[..SkipSpaceBack(Join(ls), 0, |Join(ls)|)] == Join(TrimTail(ls))
  {
    var init, last := ls[..|ls| - 1], ls[|ls| - 1];
    if |ls| > 1 {
      hide InkEnd, SkipSpaceBack;
      assert ls == init + [last];
      var pre := Join(init);
      JoinSnoc(init, last);
      BackOfLine(pre, last);
      CutLine(pre, last, InkEnd(last), SkipSpaceBack(pre, 0, |pre|));
      if InkEnd(last) == 0 {
        TailOfJoin(init);
      } else {
        JoinSnoc(init, last[..InkEnd(last)]);
      }
    }
  }

  lemma TrimSpaceTwice(s: Bytes, i: nat, u: Bytes)
    requires i == SkipSpace(s, 0) && u == s[i..]
    ensures TrimSpace(s) == u[..SkipSpaceBack(u, 0, |u|)]
  {
    hide SkipSpace, SkipSpaceBack;
    BackShift(s, i, |s|);
    SliceTwice(s, i, SkipSpaceBack(u, 0, |u|));
  }

  lemma SliceTwice(s: Bytes, i: nat, m: nat)
    requires i + m <= |s|
    ensures s[i..i + m] == s[i..][..m]
  {
  }

  lemma TrimSpaceOfJoin(ls: seq<Bytes>)
    requires ls != []
    ensures TrimSpace(Join(ls)) == Join(TrimTail(TrimLead(ls)))
  {
    TrimSpaceTwice(Join(ls), SkipSpace(Join(ls), 0), Join(ls)[SkipSpace(Join(ls), 0)..]);
    LeadOfJoin(ls);
    TailOfJoin(TrimLead(ls));
  }

  /** The whole clean-up of a text, line by line. */
  lemma CleanupByLines(ls: seq<Bytes>)
    requires ls != [] && NewlineFree(ls)
    ensures Split(Cleanup(Join(ls))) == CleanLines(ls)
  {
    SplitOfJoin(ls);
    var trimmed := TrimLines(ls);
    forall l | l in trimmed ensures '\n' !in l {
      var i :| 0 <= i < |trimmed| && trimmed[i] == l;
      assert ls[i] in ls;
    }
    CollapseOfJoin(trimmed);
    TrimSpaceOfJoin(CollapseLines(trimmed));
    LeadFree(CollapseLines(trimmed));
    TailFree(TrimLead(CollapseLines(trimmed)));
    SplitOfJoin(CleanLines(ls));
  }

  // ---------------------------------------------------------------------------------
  // Which lines are fences, before and after.
  // ---------------------------------------------------------------------------------

  predicate Ticks(l: Bytes, i: nat) {
    i + 3 <= |l| && l[i] == l[i + 1] == l[i + 2] == '`'
  }

  lemma FenceIff(l: Bytes)
    ensures IsFence(l) <==> Ticks(l, SkipSpace(l, 0))
  {
    var i := SkipSpace(l, 0);
    var t := TrimSpace(l);
    assert t == l[i..SkipSpaceBack(l, i, |l|)];
    assert HasPrefix(t, FENCE) ==> t[0] == t[..3][0] && t[1] == t[..3][1] && t[2] == t[..3][2];
    if Ticks(l, i) { FenceAt(l, i); }
  }

  lemma FenceWithoutIndent(l: Bytes)
    ensures IsFence(l[SkipSpace(l, 0)..]) <==> IsFence(l)
  {
    var i := SkipSpace(l, 0);
    SkipShift(l, i, l[i..], 0);
    assert SkipSpace(l, i) == i;
    FenceIff(l);
    FenceIff(l[i..]);
    assert i + 3 <= |l| ==> l[i..][0] == l[i] && l[i..][1] == l[i + 1] && l[i..][2] == l[i + 2];
  }

  /** Skipping white space stays the same when a text is cut behind the byte it stops at. */
  lemma {:induction false} SkipOfPrefix(l: Bytes, m: nat, i: nat)
    requires i <= m <= |l| && SkipSpace(l, i) < m && l[SkipSpace(l, i)] == '`'
    ensures SkipSpace(l[..m], i) == SkipSpace(l, i)
    decreases m - i
  {
    var n := SpaceAt(l, i);
    assert forall k :: 0 <= k < m ==> l[..m][k] == l[k];
    if n > 0 {
      assert SpaceAt(l[..m], i) == n;
      SkipOfPrefix(l, m, i + n);
    }
  }

  /** White space at the end of a line does not matter. */
  lemma FenceWithoutTail(l: Bytes, m: nat)
    requires m <= |l| && forall k :: m <= k < |l| ==> IsSpaceByte(l[k])
    ensures IsFence(l[..m]) <==> IsFence(l)
  {
    var t := l[..m];
    FenceIff(l);
    FenceIff(t);
    assert !IsSpaceByte('`');
    if Ticks(l, SkipSpace(l, 0)) { SkipOfPrefix(l, m, 0); }
    if Ticks(t, SkipSpace(t, 0)) { SkipsAlike(t, l, 0); }
  }

  lemma WhiteIsNoFence(l: Bytes)
    requires White(l) || InkEnd(l) == 0
    ensures !IsFence(l)
  {
    FenceIff(l);
    assert !IsSpaceByte('`');
  }

  lemma BlankTailIsWhite(l: Bytes)
    ensures forall k :: |TrimEnd(l)| <= k < |l| ==> IsSpaceByte(l[k])
    ensures IsFence(TrimEnd(l)) <==> IsFence(l)
  {
    FenceWithoutTail(l, |TrimEnd(l)|);
  }

  // ---------------------------------------------------------------------------------
  // Fenced lines, read from the front.
  // ---------------------------------------------------------------------------------

  function Flip(open: bool, l: Bytes): bool { if IsFence(l) then !open else open }

  function OpenAfter(open: bool, ls: seq<Bytes>): bool
    decreases |ls|
  {
    if ls == [] then open else OpenAfter(Flip(open, ls[0]), ls[1..])
  }

  function FencedFrom(open: bool, ls: seq<Bytes>): seq<Bytes>
    decreases |ls|
  {
    if ls == [] then []
    else (if IsFence(ls[0]) || open then [ls[0]] else []) + FencedFrom(Flip(open, ls[0]), ls[1..])
  }

  lemma {:induction false} FromSnoc(open: bool, ls: seq<Bytes>, l: Bytes)
    ensures OpenAfter(open, ls + [l]) == Flip(OpenAfter(open, ls), l)
    ensures FencedFrom(open, ls + [l]) ==
      if IsFence(l) || OpenAfter(open, ls) then FencedFrom(open, ls) + [l] else FencedFrom(open, ls)
    decreases |ls|
  {
    hide IsFence;
    if ls == [] {
      assert ([] + [l])[1..] == [];
    } else {
      assert (ls + [l])[1..] == ls[1..] + [l];
      FromSnoc(Flip(open, ls[0]), ls[1..], l);
    }
  }

  lemma {:induction false} FencedIsFrom(ls: seq<Bytes>)
    ensures OpenAfter(false, ls) == InFence(ls) && FencedFrom(false, ls) == Fenced(ls)
  {
    if ls != [] {
      var init, last := ls[..|ls| - 1], ls[|ls| - 1];
      assert init + [last] == ls;
      FromSnoc(false, init, last);
      FencedSnoc(init, last);
      assert Flip(InFence(init), last) == if IsFence(last) then !InFence(init) else InFence(init);
      hide *;
      FencedIsFrom(init);
    }
  }

  // ---------------------------------------------------------------------------------
  // Each step of the clean-up keeps the fenced lines or makes them lighter.
  // ---------------------------------------------------------------------------------

  function Weight(ls: seq<Bytes>): nat {
    if ls == [] then 0 else |ls[0]| + 1 + Weight(ls[1..])
  }

  lemma {:induction false} WeightAppend(a: seq<Bytes>, b: seq<Bytes>)
    ensures Weight(a + b) == Weight(a) + Weight(b)
  {
    if a == [] {
      assert a + b == b;
    } else {
      assert (a + b)[1..] == a[1..] + b;
      WeightAppend(a[1..], b);
    }
  }

  /** The later lines are the earlier ones if `kept`, and lighter otherwise. */
  predicate Lightens(before: seq<Bytes>, later: seq<Bytes>, kept: bool) {
    if kept then later == before else Weight(later) < Weight(before)
  }

  lemma LightensPrefix(x: seq<Bytes>, before: seq<Bytes>, later: seq<Bytes>, kept: bool)
    requires Lightens(before, later, kept)
    ensures Lightens(x + before, x + later, kept)
  {
    WeightAppend(x, before);
    WeightAppend(x, later);
  }

  lemma LightensSuffix(x: seq<Bytes>, before: seq<Bytes>, later: seq<Bytes>, kept: bool)
    requires Lightens(before, later, kept)
    ensures Lightens(before + x, later + x, kept)
  {
    WeightAppend(before, x);
    WeightAppend(later, x);
  }

  lemma LightensTwice(a: seq<Bytes>, b: seq<Bytes>, c: seq<Bytes>, p: bool, q: bool)
    requires Lightens(a, b, p) && Lightens(b, c, q)
    ensures Lightens(a, c, p && q)
  {
  }

  lemma LightensOne(before: Bytes, later: Bytes, kept: bool)
    requires if kept then later == before else |later| < |before|
    ensures Lightens([before], [later], kept)
  {
  }

  /** First step: blanks at the ends of lines. */
  predicate BlanksKept(ls: seq<Bytes>) {
    forall l <- Fenced(ls) :: TrimEnd(l) == l
  }

  lemma {:induction false} TrimLightens(ls: seq<Bytes>)
    ensures InFence(TrimLines(ls)) == InFence(ls)
    ensures Lightens(Fenced(ls), Fenced(TrimLines(ls)), BlanksKept(ls))
  {
    if ls != [] {
      var n := |ls| - 1;
      var init, last := ls[..n], ls[n];
      TrimLightens(init);
      assert TrimLines(ls)[..n] == TrimLines(init);
      BlankTailIsWhite(last);
      if IsFence(last) || InFence(init) {
        var kept := TrimEnd(last) == last;
        LightensSuffix([last], Fenced(init), Fenced(TrimLines(init)), BlanksKept(init));
        LightensOne(last, TrimEnd(last), kept);
        LightensPrefix(Fenced(TrimLines(init)), [last], [TrimEnd(last)], kept);
        LightensTwice(Fenced(ls), Fenced(TrimLines(init)) + [last], Fenced(TrimLines(ls)), BlanksKept(init), kept);
        assert BlanksKept(ls) <==> BlanksKept(init) && kept;
      }
    }
  }

  /** Second step: runs of empty lines. */
  predicate NotSqueezed(open: bool, ls: seq<Bytes>)
    decreases |ls|
  {
    |ls| <= 1 ||
    var next := Flip(open, ls[0]);
    if |ls| >= 4 && ls[1] == "" && ls[2] == "" then !next && NotSqueezed(open, [ls[0]] + ls[2..])
    else NotSqueezed(next, ls[1..])
  }

  lemma EmptyIsNoFence()
    ensures !IsFence("")
  {
    FenceIff("");
  }

  /** Dropping the second of the lines drops it from the fenced ones if the first leaves the flag on. */
  lemma DropSecond(open: bool, ls: seq<Bytes>)
    requires |ls| >= 2 && ls[1] == ""
    ensures var fewer := [ls[0]] + ls[2..]; var next := Flip(open, ls[0]);
      && OpenAfter(open, fewer) == OpenAfter(open, ls)
      && Lightens(FencedFrom(open, ls), FencedFrom(open, fewer), !next)
  {
    hide IsFence;
    var fewer, next := [ls[0]] + ls[2..], Flip(open, ls[0]);
    EmptyIsNoFence();
    assert fewer[1..] == ls[2..] && ls[1..][1..] == ls[2..];
    var head := if IsFence(ls[0]) || open then [ls[0]] else [];
    var rest := FencedFrom(next, ls[2..]);
    assert FencedFrom(open, fewer) == head + rest;
    assert FencedFrom(next, ls[1..]) == (if next then [""] else []) + rest;
    assert [] + rest == rest;
    WeightAppend([""], rest);
    LightensPrefix(head, FencedFrom(next, ls[1..]), rest, !next);
  }

  lemma {:induction false} CollapseLightens(open: bool, ls: seq<Bytes>)
    ensures OpenAfter(open, CollapseLines(ls)) == OpenAfter(open, ls)
    ensures Lightens(FencedFrom(open, ls), FencedFrom(open, CollapseLines(ls)), NotSqueezed(open, ls))
    decreases |ls|
  {
    hide IsFence;
    if |ls| > 1 {
      var next := Flip(open, ls[0]);
      if |ls| >= 4 && ls[1] == "" && ls[2] == "" {
        var fewer := [ls[0]] + ls[2..];
        CollapseLightens(open, fewer);
        DropSecond(open, ls);
        LightensTwice(FencedFrom(open, ls), FencedFrom(open, fewer), FencedFrom(open, CollapseLines(ls)),
                      !next, NotSqueezed(open, fewer));
      } else {
        CollapseLightens(next, ls[1..]);
        var head := if IsFence(ls[0]) || open then [ls[0]] else [];
        var rest := CollapseLines(ls[1..]);
        assert ([ls[0]] + rest)[1..] == rest;
        LightensPrefix(head, FencedFrom(next, ls[1..]), FencedFrom(next, rest), NotSqueezed(next, ls[1..]));
      }
    }
  }

  /** Third step: leading white space.  The first line with anything else on it is not an indented
      fence. */
  predicate LeadKept(ls: seq<Bytes>)
    requires ls != []
  {
    if |ls| > 1 && White(ls[0]) then LeadKept(ls[1..])
    else IsFence(ls[0]) ==> SkipSpace(ls[0], 0) == 0
  }

  lemma {:induction false} LeadLightens(ls: seq<Bytes>)
    requires ls != []
    ensures OpenAfter(false, TrimLead(ls)) == OpenAfter(false, ls)
    ensures Lightens(FencedFrom(false, ls), FencedFrom(false, TrimLead(ls)), LeadKept(ls))
  {
    hide IsFence;
    if |ls| > 1 && White(ls[0]) {
      WhiteIsNoFence(ls[0]);
      LeadLightens(ls[1..]);
      assert [] + FencedFrom(false, ls[1..]) == FencedFrom(false, ls[1..]);
    } else {
      var head := ls[0][SkipSpace(ls[0], 0)..];
      FenceWithoutIndent(ls[0]);
      assert ([head] + ls[1..])[1..] == ls[1..];
      if IsFence(ls[0]) {
        LightensOne(ls[0], head, SkipSpace(ls[0], 0) == 0);
        LightensSuffix(FencedFrom(true, ls[1..]), [ls[0]], [head], LeadKept(ls));
      }
    }
  }

  /** The last line with anything on it but white space. */
  predicate IsLastInk(ls: seq<Bytes>, m: nat) {
    m < |ls| && InkEnd(ls[m]) > 0 && forall k :: m < k < |ls| ==> InkEnd(ls[k]) == 0
  }

  predicate NoInk(ls: seq<Bytes>) {
    forall k :: 0 <= k < |ls| ==> InkEnd(ls[k]) == 0
  }

  /** Fourth step: trailing white space.  The last line with anything else on it, if it is fenced,
      has no white space behind it, and if the flag stays on, no line either. */
  ghost predicate TailFrom(open: bool, ls: seq<Bytes>) {
    forall m: nat | IsLastInk(ls, m) ::
      && (IsFence(ls[m]) || OpenAfter(open, ls[..m]) ==> InkEnd(ls[m]) == |ls[m]|)
      && (m < |ls| - 1 ==> !OpenAfter(open, ls))
  }

  lemma {:induction false} NoInkNoFence(open: bool, ls: seq<Bytes>)
    requires NoInk(ls)
    ensures OpenAfter(open, ls) == open
    decreases |ls|
  {
    hide IsFence, InkEnd;
    if ls != [] {
      WhiteIsNoFence(ls[0]);
      NoInkNoFence(open, ls[1..]);
    }
  }

  lemma {:induction false} LastInk(ls: seq<Bytes>) returns (m: nat)
    requires !NoInk(ls)
    ensures IsLastInk(ls, m)
  {
    hide InkEnd;
    var n := |ls| - 1;
    if InkEnd(ls[n]) > 0 {
      m := n;
    } else {
      assert !NoInk(ls[..n]);
      m := LastInk(ls[..n]);
    }
  }

  /** There is only one such line, so the tail is kept or not as it says. */
  lemma TailAt(open: bool, ls: seq<Bytes>, m: nat)
    requires IsLastInk(ls, m)
    ensures TailFrom(open, ls) <==>
      && (IsFence(ls[m]) || OpenAfter(open, ls[..m]) ==> InkEnd(ls[m]) == |ls[m]|)
      && (m < |ls| - 1 ==> !OpenAfter(open, ls))
  {
    hide IsFence, InkEnd, OpenAfter;
    forall k: nat | IsLastInk(ls, k) ensures k == m {}
  }

  lemma TailWhite(open: bool, ls: seq<Bytes>)
    requires NoInk(ls)
    ensures TailFrom(open, ls)
  {
    hide IsFence, InkEnd, OpenAfter;
  }

  /** A line of white space at the end. */
  lemma TailSnoc(init: seq<Bytes>, last: Bytes)
    requires InkEnd(last) == 0
    ensures TailFrom(false, init + [last]) <==> !OpenAfter(false, init) && TailFrom(false, init)
  {
    hide IsFence, InkEnd, OpenAfter, TailFrom;
    var ls := init + [last];
    WhiteIsNoFence(last);
    FromSnoc(false, init, last);
    if NoInk(init) {
      NoInkNoFence(false, init);
      assert NoInk(ls);
      TailWhite(false, ls);
      TailWhite(false, init);
    } else {
      var m := LastInk(init);
      assert IsLastInk(ls, m) && ls[..m] == init[..m];
      TailAt(false, ls, m);
      TailAt(false, init, m);
    }
  }

  lemma {:induction false} TailLightens(ls: seq<Bytes>)
    requires ls != []
    ensures Lightens(Fenced(ls), Fenced(TrimTail(ls)), TailFrom(false, ls))
  {
    var init, last := ls[..|ls| - 1], ls[|ls| - 1];
    assert ls == init + [last];
    FencedIsFrom(init);
    if InkEnd(last) == 0 {
      TailSnoc(init, last);
      WhiteIsNoFence(last);
      if |ls| > 1 {
        TailLightens(init);
        if InFence(init) { WeightAppend(Fenced(init), [last]); }
      } else {
        assert last[..0] == "";
        EmptyIsNoFence();
        assert TrimTail(ls) == [""];
      }
    } else {
      assert IsLastInk(ls, |ls| - 1);
      TailAt(false, ls, |ls| - 1);
      CutLightens(init, last);
    }
  }

  lemma CutLightens(init: seq<Bytes>, last: Bytes)
    ensures Lightens(Fenced(init + [last]), Fenced(init + [last[..InkEnd(last)]]),
                     IsFence(last) || InFence(init) ==> InkEnd(last) == |last|)
  {
    var cut := last[..InkEnd(last)];
    FenceWithoutTail(last, InkEnd(last));
    FencedSnoc(init, last);
    FencedSnoc(init, cut);
    if IsFence(last) || InFence(init) {
      LightensOne(last, cut, InkEnd(last) == |last|);
      LightensPrefix(Fenced(init), [last], [cut], InkEnd(last) == |last|);
    }
  }

  // ---------------------------------------------------------------------------------
  // The four conditions, read off the lines that go in.
  // ---------------------------------------------------------------------------------

  /** Two empty lines in a row, with a line on either side. */
  predicate EmptyPair(ls: seq<Bytes>, k: nat) {
    k + 3 < |ls| && ls[k + 1] == "" && ls[k + 2] == ""
  }

  ghost predicate NoOpenPair(open: bool, ls: seq<Bytes>) {
    forall k: nat | EmptyPair(ls, k) :: !OpenAfter(open, ls[..k + 1])
  }

  lemma OpenAfterOne(open: bool, l: Bytes)
    ensures OpenAfter(open, [l]) == Flip(open, l)
  {
    hide IsFence;
    assert [l][1..] == [];
  }

  lemma OpenAfterCons(open: bool, ls: seq<Bytes>, k: nat)
    requires 0 < k <= |ls|
    ensures OpenAfter(open, ls[..k]) == OpenAfter(Flip(open, ls[0]), ls[1..][..k - 1])
  {
    hide IsFence;
    assert ls[..k][1..] == ls[1..][..k - 1];
  }

  lemma {:induction false} NotSqueezedIff(open: bool, ls: seq<Bytes>)
    ensures NotSqueezed(open, ls) <==> NoOpenPair(open, ls)
    decreases |ls|
  {
    hide IsFence;
    if |ls| > 1 {
      var next := Flip(open, ls[0]);
      if |ls| >= 4 && ls[1] == "" && ls[2] == "" {
        var fewer := [ls[0]] + ls[2..];
        NotSqueezedIff(open, fewer);
        PairsOfFewer(open, ls);
      } else {
        NotSqueezedIff(next, ls[1..]);
        PairsOfTail(open, ls);
      }
    }
  }

  lemma PairsOfTail(open: bool, ls: seq<Bytes>)
    requires ls != []
    ensures NoOpenPair(open, ls) <==>
      (EmptyPair(ls, 0) ==> !Flip(open, ls[0])) && NoOpenPair(Flip(open, ls[0]), ls[1..])
  {
    hide IsFence;
    var rest := ls[1..];
    OpenAfterCons(open, ls, 1);
    assert rest[..0] == [];
    forall k: nat | EmptyPair(rest, k)
      ensures EmptyPair(ls, k + 1) && OpenAfter(open, ls[..k + 2]) == OpenAfter(Flip(open, ls[0]), rest[..k + 1])
    {
      OpenAfterCons(open, ls, k + 2);
    }
    forall k: nat | EmptyPair(ls, k) && k > 0
      ensures EmptyPair(rest, k - 1) && OpenAfter(open, ls[..k + 1]) == OpenAfter(Flip(open, ls[0]), rest[..k])
    {
      OpenAfterCons(open, ls, k + 1);
    }
  }

  /** Behind an open fence the next line is fenced. */
  lemma OpenTakesNext(ls: seq<Bytes>)
    requires ls != []
    ensures FencedFrom(true, ls) == [ls[0]] + FencedFrom(Flip(true, ls[0]), ls[1..])
  {
  }

  lemma PairIsFenced(x: Bytes, rest: seq<Bytes>)
    ensures EmptyPair([x] + rest, 0) <==> EmptyPair([x] + FencedFrom(true, rest), 0)
  {
    hide IsFence;
    EmptyIsNoFence();
    if rest != [] {
      OpenTakesNext(rest);
      if rest[0] == "" && |rest| > 1 {
        OpenTakesNext(rest[1..]);
        if rest[1] == "" && |rest| > 2 {
          OpenTakesNext(rest[2..]);
          assert rest[1..][1..] == rest[2..];
        }
      }
    }
  }

  /** Empty lines that a fence holds open are fenced, so the fenced lines tell about them. */
  lemma {:induction false} PairsAreFenced(open: bool, ls: seq<Bytes>)
    ensures NoOpenPair(open, ls) <==> NoOpenPair(open, FencedFrom(open, ls))
    decreases |ls|
  {
    hide IsFence;
    if ls != [] {
      hide NoOpenPair;
      var x, rest, next := ls[0], ls[1..], Flip(open, ls[0]);
      PairsAreFenced(next, rest);
      PairsOfTail(open, ls);
      if IsFence(x) || open {
        var fenced := [x] + FencedFrom(next, rest);
        assert FencedFrom(open, ls) == fenced && fenced[1..] == FencedFrom(next, rest);
        PairsOfTail(open, fenced);
        if next {
          PairIsFenced(x, rest);
          assert ls == [x] + rest;
        }
      } else {
        assert FencedFrom(open, ls) == FencedFrom(next, rest);
      }
    }
  }

  /** Leaving out an empty second line does not change the flag behind any later line. */
  lemma OpenOfFewer(open: bool, ls: seq<Bytes>, k: nat)
    requires |ls| >= 2 && ls[1] == "" && k + 2 <= |ls|
    ensures OpenAfter(open, ls[..k + 2]) == OpenAfter(open, ([ls[0]] + ls[2..])[..k + 1])
  {
    hide IsFence;
    EmptyIsNoFence();
    OpenAfterCons(open, ls, k + 2);
    OpenAfterCons(Flip(open, ls[0]), ls[1..], k + 1);
    var fewer := [ls[0]] + ls[2..];
    OpenAfterCons(open, fewer, k + 1);
    assert ls[1..][1..] == ls[2..] == fewer[1..];
  }

  lemma PairsOfFewer(open: bool, ls: seq<Bytes>)
    requires EmptyPair(ls, 0)
    ensures var fewer := [ls[0]] + ls[2..];
      NoOpenPair(open, ls) <==> !Flip(open, ls[0]) && NoOpenPair(open, fewer)
  {
    hide IsFence;
    var fewer := [ls[0]] + ls[2..];
    OpenAfterOne(open, ls[0]);
    assert ls[..1] == [ls[0]];
    forall k: nat | EmptyPair(fewer, k)
      ensures EmptyPair(ls, k + 1) && OpenAfter(open, ls[..k + 2]) == OpenAfter(open, fewer[..k + 1])
    {
      assert fewer[k + 1] == ls[k + 2] && fewer[k + 2] == ls[k + 3];
      OpenOfFewer(open, ls, k);
    }
    forall k: nat | EmptyPair(ls, k) && k > 0
      ensures EmptyPair(fewer, k - 1) && OpenAfter(open, ls[..k + 1]) == OpenAfter(open, fewer[..k])
    {
      assert fewer[k] == ls[k + 1] && fewer[k + 1] == ls[k + 2];
      OpenOfFewer(open, ls, k - 1);
    }
  }

  lemma {:induction false} FencedHas(ls: seq<Bytes>, k: nat)
    requires k < |ls| && (IsFence(ls[k]) || InFence(ls[..k]))
    ensures ls[k] in Fenced(ls)
  {
    hide IsFence;
    var n := |ls| - 1;
    if k < n {
      assert ls[..n][..k] == ls[..k];
      FencedHas(ls[..n], k);
      FencedSnoc(ls[..n], ls[n]);
      assert ls[..n] + [ls[n]] == ls;
    }
  }

  lemma TrimPrefix2(ls: seq<Bytes>, k: nat)
    requires k <= |ls|
    ensures OpenAfter(false, TrimLines(ls)[..k]) == InFence(ls[..k])
  {
    assert TrimLines(ls)[..k] == TrimLines(ls[..k]);
    TrimLightens(ls[..k]);
    FencedIsFrom(TrimLines(ls[..k]));
  }

  lemma PairOfTrim(ls: seq<Bytes>, k: nat)
    requires BlanksKept(ls) && EmptyPair(TrimLines(ls), k) && InFence(ls[..k + 1])
    ensures EmptyPair(ls, k)
  {
    FencedHas(ls, k + 1);
    EmptyIsNoFence();
    assert ls[..k + 2][..k + 1] == ls[..k + 1];
    FencedHas(ls, k + 2);
  }

  /** If code lines end without blanks, the empty lines inside a fence are those that become so. */
  lemma PairsOfTrim(ls: seq<Bytes>)
    requires BlanksKept(ls)
    ensures NoOpenPair(false, TrimLines(ls)) <==> NoOpenPair(false, ls)
  {
    var ts := TrimLines(ls);
    forall n: nat | n <= |ls|
      ensures OpenAfter(false, ts[..n]) == InFence(ls[..n])
      ensures OpenAfter(false, ls[..n]) == InFence(ls[..n])
    {
      TrimPrefix2(ls, n);
      FencedIsFrom(ls[..n]);
    }
    forall k: nat | EmptyPair(ts, k) && InFence(ls[..k + 1]) ensures EmptyPair(ls, k) {
      PairOfTrim(ls, k);
    }
    forall k: nat | EmptyPair(ls, k) ensures EmptyPair(ts, k) {}
  }

  lemma {:induction false} BlanksSkipped(b: Bytes, i: nat)
    requires i <= |b| && forall k :: i <= k < |b| ==> IsBlank(b[k])
    ensures SkipSpace(b, i) == |b|
    decreases |b| - i
  {
    if i < |b| { BlanksSkipped(b, i + 1); }
  }

  lemma WhiteOfTrim(l: Bytes)
    ensures White(TrimEnd(l)) <==> White(l)
    ensures IsFence(l) ==> SkipSpace(TrimEnd(l), 0) == SkipSpace(l, 0)
  {
    var t := TrimEnd(l);
    var b := l[|t|..];
    if b != "" {
      SkipWithin(l, t, 0);
      BlanksSkipped(l, |t|);
      if IsFence(l) { WhiteIsNoFence2(l); }
    }
  }

  lemma WhiteIsNoFence2(l: Bytes)
    requires IsFence(l)
    ensures SkipSpace(l, 0) < |l|
  {
    FenceIff(l);
  }

  lemma {:induction false} LeadOfTrim(ls: seq<Bytes>)
    requires ls != []
    ensures LeadKept(TrimLines(ls)) <==> LeadKept(ls)
  {
    WhiteOfTrim(ls[0]);
    BlankTailIsWhite(ls[0]);
    if |ls| > 1 && White(ls[0]) {
      assert TrimLines(ls)[1..] == TrimLines(ls[1..]);
      LeadOfTrim(ls[1..]);
    }
  }

  lemma {:induction false} LeadOfCollapse(ls: seq<Bytes>)
    requires ls != []
    ensures LeadKept(CollapseLines(ls)) <==> LeadKept(ls)
    decreases |ls|
  {
    if |ls| > 1 {
      if |ls| >= 4 && ls[1] == "" && ls[2] == "" {
        var fewer := [ls[0]] + ls[2..];
        LeadOfCollapse(fewer);
        assert fewer[1..] == ls[2..] && ls[1..][1..] == ls[2..];
        assert White(ls[1]);
      } else {
        LeadOfCollapse(ls[1..]);
        assert ([ls[0]] + CollapseLines(ls[1..]))[1..] == CollapseLines(ls[1..]);
      }
    }
  }

  lemma {:induction false} InkOfTrim(l: Bytes)
    ensures InkEnd(TrimEnd(l)) == InkEnd(l)
  {
    if l != "" && IsBlank(l[|l| - 1]) {
      var init := l[..|l| - 1];
      InkOfTrim(init);
      BackOfPrefix(l, init, |init|);
    }
  }

  lemma InkOfTrims(ls: seq<Bytes>)
    ensures NoInk(TrimLines(ls)) <==> NoInk(ls)
    ensures forall m: nat | m < |ls| :: IsLastInk(TrimLines(ls), m) <==> IsLastInk(ls, m)
  {
    hide InkEnd;
    var ts := TrimLines(ls);
    forall k | 0 <= k < |ls| ensures InkEnd(ts[k]) == InkEnd(ls[k]) { InkOfTrim(ls[k]); }
  }

  lemma LineOfTrim(ls: seq<Bytes>, m: nat)
    requires BlanksKept(ls) && m < |ls|
    ensures var ts := TrimLines(ls);
      && OpenAfter(false, ts[..m]) == OpenAfter(false, ls[..m])
      && (IsFence(ts[m]) <==> IsFence(ls[m]))
      && (IsFence(ls[m]) || OpenAfter(false, ls[..m]) ==> ts[m] == ls[m])
      && InkEnd(ts[m]) == InkEnd(ls[m])
  {
    TrimPrefix2(ls, m);
    FencedIsFrom(ls[..m]);
    BlankTailIsWhite(ls[m]);
    InkOfTrim(ls[m]);
    if IsFence(ls[m]) || InFence(ls[..m]) { FencedHas(ls, m); }
  }

  lemma TailOfTrim(ls: seq<Bytes>)
    requires BlanksKept(ls)
    ensures TailFrom(false, TrimLines(ls)) <==> TailFrom(false, ls)
  {
    TrimPrefix2(ls, |ls|);
    assert TrimLines(ls)[..|ls|] == TrimLines(ls) && ls[..|ls|] == ls;
    FencedIsFrom(ls);
    InkOfTrims(ls);
    if NoInk(ls) {
      TailWhite(false, ls);
      TailWhite(false, TrimLines(ls));
    } else {
      hide IsFence, InkEnd, OpenAfter, TailFrom;
      var m := LastInk(ls);
      LineOfTrim(ls, m);
      TailAt(false, ls, m);
      TailAt(false, TrimLines(ls), m);
    }
  }

  lemma NoInkCons(x: Bytes, rest: seq<Bytes>)
    ensures NoInk([x] + rest) <==> InkEnd(x) == 0 && NoInk(rest)
  {
    var ls := [x] + rest;
    if NoInk(ls) {
      assert InkEnd(ls[0]) == 0;
      forall k | 0 <= k < |rest| ensures InkEnd(rest[k]) == 0 { assert InkEnd(ls[k + 1]) == 0; }
    }
  }

  lemma InkCons(x: Bytes, rest: seq<Bytes>)
    ensures NoInk(rest) && InkEnd(x) > 0 ==> IsLastInk([x] + rest, 0)
    ensures forall m: nat | IsLastInk(rest, m) :: IsLastInk([x] + rest, m + 1)
  {
    hide InkEnd;
    var ls := [x] + rest;
    assert forall k | 0 < k < |ls| :: ls[k] == rest[k - 1];
  }

  /** One more line in front of lines with nothing but white space, */
  lemma TailConsWhite(open: bool, x: Bytes, rest: seq<Bytes>)
    requires rest != [] && NoInk(rest)
    ensures TailFrom(open, [x] + rest) <==>
      (InkEnd(x) > 0 ==> (IsFence(x) || open ==> InkEnd(x) == |x|) && !OpenAfter(Flip(open, x), rest))
  {
    var ls := [x] + rest;
    assert ls[1..] == rest && ls[..0] == [];
    assert OpenAfter(open, ls) == OpenAfter(Flip(open, x), rest) && OpenAfter(open, ls[..0]) == open;
    hide IsFence, InkEnd, OpenAfter, TailFrom;
    InkCons(x, rest);
    NoInkCons(x, rest);
    if InkEnd(x) > 0 { TailAt(open, ls, 0); } else { TailWhite(open, ls); }
  }

  /** and in front of others. */
  lemma TailConsInk(open: bool, x: Bytes, rest: seq<Bytes>)
    requires !NoInk(rest)
    ensures TailFrom(open, [x] + rest) <==> TailFrom(Flip(open, x), rest)
  {
    var ls := [x] + rest;
    assert ls[1..] == rest;
    assert OpenAfter(open, ls) == OpenAfter(Flip(open, x), rest);
    hide IsFence, InkEnd, OpenAfter, TailFrom, IsLastInk;
    var m := LastInk(rest);
    InkCons(x, rest);
    OpenAfterCons(open, ls, m + 1);
    TailAt(open, ls, m + 1);
    TailAt(Flip(open, x), rest, m);
  }

  /** Whether the tail is kept behind one more line depends on the rest only through this. */
  lemma TailConsAlike(open: bool, x: Bytes, a: seq<Bytes>, b: seq<Bytes>)
    requires a != [] && b != [] && (NoInk(a) <==> NoInk(b))
    requires var next := Flip(open, x);
      OpenAfter(next, a) == OpenAfter(next, b) && (TailFrom(next, a) <==> TailFrom(next, b))
    ensures TailFrom(open, [x] + a) <==> TailFrom(open, [x] + b)
  {
    if NoInk(a) {
      TailConsWhite(open, x, a);
      TailConsWhite(open, x, b);
    } else {
      TailConsInk(open, x, a);
      TailConsInk(open, x, b);
    }
  }

  lemma {:induction false} CollapseKeepsInk(ls: seq<Bytes>)
    ensures NoInk(CollapseLines(ls)) <==> NoInk(ls)
    decreases |ls|
  {
    assert InkEnd("") == 0;
    hide InkEnd;
    if |ls| > 1 {
      assert ls == [ls[0]] + ls[1..];
      NoInkCons(ls[0], ls[1..]);
      if |ls| >= 4 && ls[1] == "" && ls[2] == "" {
        CollapseKeepsInk([ls[0]] + ls[2..]);
        NoInkCons(ls[0], ls[2..]);
        assert ls[1..] == [""] + ls[2..];
        NoInkCons("", ls[2..]);
      } else {
        CollapseKeepsInk(ls[1..]);
        NoInkCons(ls[0], CollapseLines(ls[1..]));
      }
    }
  }

  lemma TailOfEmpty(open: bool, rest: seq<Bytes>)
    requires rest != []
    ensures NoInk([""] + rest) <==> NoInk(rest)
    ensures OpenAfter(open, [""] + rest) == OpenAfter(open, rest)
    ensures TailFrom(open, [""] + rest) <==> TailFrom(open, rest)
  {
    hide IsFence;
    EmptyIsNoFence();
    assert ([""] + rest)[1..] == rest;
    NoInkCons("", rest);
    if NoInk(rest) { TailConsWhite(open, "", rest); } else { TailConsInk(open, "", rest); }
  }

  lemma TailOfFewer(open: bool, ls: seq<Bytes>)
    requires EmptyPair(ls, 0)
    ensures TailFrom(open, [ls[0]] + ls[2..]) <==> TailFrom(open, ls)
  {
    hide IsFence, InkEnd;
    var rest := ls[2..];
    assert ls == [ls[0]] + ([""] + rest);
    TailOfEmpty(Flip(open, ls[0]), rest);
    TailConsAlike(open, ls[0], rest, [""] + rest);
  }

  lemma {:induction false} TailOfCollapse(open: bool, ls: seq<Bytes>)
    requires ls != []
    ensures TailFrom(open, CollapseLines(ls)) <==> TailFrom(open, ls)
    decreases |ls|
  {
    hide IsFence, InkEnd;
    if |ls| > 1 {
      if |ls| >= 4 && ls[1] == "" && ls[2] == "" {
        TailOfCollapse(open, [ls[0]] + ls[2..]);
        TailOfFewer(open, ls);
      } else {
        var next, rest := Flip(open, ls[0]), ls[1..];
        assert ls == [ls[0]] + rest;
        TailOfCollapse(next, rest);
        CollapseKeepsInk(rest);
        CollapseLightens(next, rest);
        TailConsAlike(open, ls[0], rest, CollapseLines(rest));
      }
    }
  }

  /** Behind a first line that is no fence nothing depends on that line. */
  lemma TailBehindPlain(x: Bytes, y: Bytes, rest: seq<Bytes>)
    requires !IsFence(x) && !IsFence(y)
    ensures TailFrom(false, [x] + rest) <==> TailFrom(false, [y] + rest)
    ensures rest != [] ==> (TailFrom(false, [x] + rest) <==> TailFrom(false, rest))
  {
    hide IsFence, InkEnd;
    if rest == [] {
      assert [x][..0] == [] && [y][..0] == [];
      assert [x] + rest == [x] && [y] + rest == [y];
      OpenAfterOne(false, x);
      OpenAfterOne(false, y);
    } else if NoInk(rest) {
      TailConsWhite(false, x, rest);
      TailConsWhite(false, y, rest);
      NoInkNoFence(false, rest);
      assert TailFrom(false, rest);
    } else {
      TailConsInk(false, x, rest);
      TailConsInk(false, y, rest);
    }
  }

  lemma {:induction false} TailOfLead(ls: seq<Bytes>)
    requires ls != [] && LeadKept(ls)
    ensures TailFrom(false, TrimLead(ls)) <==> TailFrom(false, ls)
  {
    assert ls == [ls[0]] + ls[1..];
    if |ls| > 1 && White(ls[0]) {
      TailOfLead(ls[1..]);
      WhiteIsNoFence(ls[0]);
      TailBehindPlain(ls[0], ls[0], ls[1..]);
    } else {
      var i := SkipSpace(ls[0], 0);
      if i == 0 {
        assert ls[0][0..] == ls[0];
      } else {
        FenceWithoutIndent(ls[0]);
        TailBehindPlain(ls[0], ls[0][i..], ls[1..]);
      }
    }
  }

  // ---------------------------------------------------------------------------------
  // The main theorem.
  // ---------------------------------------------------------------------------------

  /** No code line ends in a blank; no two empty lines in a row stand inside a fence (with a line
      behind them); a fence that comes first is not indented; and the last line with anything on it,
      if it is fenced, is not followed by white space on it, nor, in an open block, by further
      lines. */
  ghost predicate CodeKept(ls: seq<Bytes>)
    requires ls != []
  {
    BlanksKept(ls) && NoOpenPair(false, ls) && LeadKept(ls) && TailFrom(false, ls)
  }

  lemma CleanLightens(ls: seq<Bytes>)
    requires ls != []
    ensures var ts := TrimLines(ls); var cs := CollapseLines(ts);
      Lightens(Fenced(ls), Fenced(CleanLines(ls)),
               BlanksKept(ls) && NotSqueezed(false, ts) && LeadKept(cs) && TailFrom(false, TrimLead(cs)))
  {
    var ts := TrimLines(ls);
    var cs := CollapseLines(ts);
    var us := TrimLead(cs);
    TrimLightens(ls);
    CollapseLightens(false, ts);
    LeadLightens(cs);
    TailLightens(us);
    FencedIsFrom(ts);
    FencedIsFrom(cs);
    FencedIsFrom(us);
    LightensTwice(Fenced(ls), Fenced(ts), Fenced(cs), BlanksKept(ls), NotSqueezed(false, ts));
    LightensTwice(Fenced(ls), Fenced(cs), Fenced(us), BlanksKept(ls) && NotSqueezed(false, ts), LeadKept(cs));
    LightensTwice(Fenced(ls), Fenced(us), Fenced(TrimTail(us)),
                  BlanksKept(ls) && NotSqueezed(false, ts) && LeadKept(cs), TailFrom(false, us));
  }

  lemma KeptAlike(ls: seq<Bytes>)
    requires ls != []
    ensures var ts := TrimLines(ls); var cs := CollapseLines(ts);
      CodeKept(ls) <==> BlanksKept(ls) && NotSqueezed(false, ts) && LeadKept(cs) && TailFrom(false, TrimLead(cs))
  {
    var ts := TrimLines(ls);
    var cs := CollapseLines(ts);
    LeadOfTrim(ls);
    LeadOfCollapse(ts);
    NotSqueezedIff(false, ts);
    if BlanksKept(ls) && LeadKept(cs) {
      PairsOfTrim(ls);
      TailOfTrim(ls);
      TailOfCollapse(false, ts);
      TailOfLead(cs);
    }
  }

  /** The code blocks of a text survive the clean-up, fences and all, exactly when these conditions
      hold of its lines; otherwise they lose something. */
  lemma CodeSurvivesExactly(ls: seq<Bytes>)
    requires ls != [] && NewlineFree(ls)
    ensures Fenced(Split(Cleanup(Join(ls)))) == Fenced(ls) <==> CodeKept(ls)
  {
    CleanupByLines(ls);
    CleanLightens(ls);
    KeptAlike(ls);
  }

  lemma {:induction false} DowngradedFree(isRule: Bytes -> bool, heading: Bytes -> Option<Bytes>, lines: seq<Bytes>)
    requires NewlineFree(lines) && forall l <- lines :: heading(l).Some? ==> '\n' !in heading(l).value
    ensures NewlineFree(Downgraded(isRule, heading, lines))
  {
    if lines != [] {
      var init, last := lines[..|lines| - 1], lines[|lines| - 1];
      assert last in lines;
      DowngradedFree(isRule, heading, init);
      forall l | l in Plain(isRule, heading, last) ensures '\n' !in l {
        if heading(last).Some? {
          var a, b := TrimSpaceMiddle(heading(last).value);
          assert forall c <- TrimSpace(heading(last).value) :: c in heading(last).value;
        }
      }
    }
  }

  lemma PairsAlike(a: seq<Bytes>, b: seq<Bytes>)
    requires Fenced(a) == Fenced(b)
    ensures NoOpenPair(false, a) <==> NoOpenPair(false, b)
  {
    FencedIsFrom(a);
    FencedIsFrom(b);
    PairsAreFenced(false, a);
    PairsAreFenced(false, b);
  }

  lemma NothingKept(lines: seq<Bytes>)
    requires Fenced(lines) == []
    ensures Fenced(Split(Cleanup(Join([])))) == [] && BlanksKept(lines) && NoOpenPair(false, lines)
  {
    NormalIsFixed("");
    FencedSnoc([], "");
    EmptyIsNoFence();
    assert Split("") == [] + [""];
    PairsAlike([], lines);
  }

  /** The code blocks of a message come out of the whole line-based downgrade as they went in exactly
      when no code line of the message ends in a blank, no two empty lines of it stand inside a
      fence (with a line behind them), and what the line loop leaves neither starts with an indented
      fence nor ends in white space that belongs to a block. */
  lemma MessageCodeSurvivesExactly(isRule: Bytes -> bool, heading: Bytes -> Option<Bytes>, lines: seq<Bytes>)
    requires NewlineFree(lines) && forall l <- lines :: heading(l).Some? ==> '\n' !in heading(l).value
    ensures var out := Downgraded(isRule, heading, lines);
      Fenced(Split(Cleanup(Join(out)))) == Fenced(lines) <==>
        BlanksKept(lines) && NoOpenPair(false, lines) && (out == [] || (LeadKept(out) && TailFrom(false, out)))
  {
    var out := Downgraded(isRule, heading, lines);
    CodeBlocksSurvive(isRule, heading, lines);
    DowngradedFree(isRule, heading, lines);
    hide Split, Cleanup, Join, NoOpenPair, LeadKept, TailFrom, Downgraded, NewlineFree;
    if out == [] {
      NothingKept(lines);
    } else {
      hide Fenced;
      PairsAlike(out, lines);
      CodeSurvivesExactly(out);
    }
  }

  lemma {:induction false} InsideFence(body: seq<Bytes>)
    requires forall l <- body :: !IsFence(l)
    ensures OpenAfter(true, body) && FencedFrom(true, body) == body
  {
    if body != [] {
      assert body[0] in body;
      InsideFence(body[1..]);
    }
  }

  /** Lines between two fences are fenced. */
  lemma FencedBlock(body: seq<Bytes>)
    requires forall l <- body :: !IsFence(l)
    ensures var ls := [FENCE] + body + [FENCE]; Fenced(ls) == ls
    ensures Flip(false, FENCE)
  {
    FenceIff(FENCE);
    assert Ticks(FENCE, 0);
    InsideFence(body);
    var open := [FENCE] + body;
    assert open[1..] == body;
    FromSnoc(false, open, FENCE);
    FencedIsFrom(open + [FENCE]);
  }

  /** The clean-up does not know about fences: it takes the blank off the end of a code line, */
  lemma CleanupCutsCodeLine(code: Bytes)
    requires '\n' !in code && !IsFence(code + " ")
    ensures var ls := [FENCE] + [code + " "] + [FENCE];
      Fenced(ls) == ls && Fenced(Split(Cleanup(Join(ls)))) != ls
  {
    var ls := [FENCE] + [code + " "] + [FENCE];
    FencedBlock([code + " "]);
    assert ls[1] in Fenced(ls) && TrimEnd(ls[1]) != ls[1];
    CodeSurvivesExactly(ls);
  }

  /** and one of two empty lines out of a code block. */
  lemma CleanupSqueezesCode()
    ensures var ls := [FENCE] + ["", ""] + [FENCE];
      Fenced(ls) == ls && Fenced(Split(Cleanup(Join(ls)))) != ls
  {
    var ls := [FENCE] + ["", ""] + [FENCE];
    EmptyIsNoFence();
    FencedBlock(["", ""]);
    OpenAfterOne(false, FENCE);
    assert EmptyPair(ls, 0) && ls[..1] == [FENCE];
    CodeSurvivesExactly(ls);
  }
}
