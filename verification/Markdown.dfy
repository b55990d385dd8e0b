/** `cleanupRenderedMarkdown` of internal/render/markdown.go. */
module Markdown {
  import opened Bytes

  predicate IsBlank(c: char) { c == ' ' || c == '\t' }

  /** `strings.TrimRight(line, " \t")`. */
  function TrimEnd(s: Bytes): (r: Bytes)
    ensures |r| <= |s| && r == s[..|r|]
    ensures r != "" ==> !IsBlank(r[|r| - 1])
    ensures forall i :: |r| <= i < |s| ==> IsBlank(s[i])
  {
    if s != "" && IsBlank(s[|s| - 1]) then TrimEnd(s[..|s| - 1]) else s
  }

  /** Index of the first newline, or the length. */
  function FirstNewline(s: Bytes): (k: nat)
    ensures k <= |s| && (k < |s| ==> s[k] == '\n')
    ensures forall i :: 0 <= i < k ==> s[i] != '\n'
  {
    if s == "" || s[0] == '\n' then 0 else 1 + FirstNewline(s[1..])
  }

  /** `strings.Split(s, "\n")`. */
  function Split(s: Bytes): (lines: seq<Bytes>)
    ensures lines != []
  {
    var k := FirstNewline(s);
    if k == |s| then [s] else [s[..k]] + Split(s[k + 1..])
  }

  /** `strings.Join(lines, "\n")`. */
  function Join(lines: seq<Bytes>): Bytes {
    if lines == [] then ""
    else if |lines| == 1 then lines[0]
    else lines[0] + "\n" + Join(lines[1..])
  }

  function TrimLines(lines: seq<Bytes>): (r: seq<Bytes>)
    ensures |r| == |lines|
    ensures forall i :: 0 <= i < |r| ==> r[i] == TrimEnd(lines[i])
  {
    seq(|lines|, i requires 0 <= i < |lines| => TrimEnd(lines[i]))
  }

  /** Replacing every match of `\n{3,}` by two newlines, one surplus newline at a time. */
  function Collapse(s: Bytes): Bytes {
    if s == "" then ""
    else if HasPrefix(s, "\n\n\n") then Collapse(s[1..])
    else [s[0]] + Collapse(s[1..])
  }

  function Cleanup(s: Bytes): Bytes {
    TrimSpace(Collapse(Join(TrimLines(Split(s)))))
  }

  /** `cleanupRenderedMarkdown`, with its loop over the lines in place. */
  method CleanupRenderedMarkdown(input: Bytes) returns (r: Bytes)
    ensures r == Cleanup(input)
  {
    if input == "" {
      assert Split(input) == [""] && TrimLines([""]) == [""];
      return "";
    }
    var lines := Split(input);
    ghost var before := lines;
    for i := 0 to |lines|
      invariant |lines| == |before|
      invariant forall k :: 0 <= k < i ==> lines[k] == TrimEnd(before[k])
      invariant forall k :: i <= k < |lines| ==> lines[k] == before[k]
    {
      lines := lines[i := TrimEnd(lines[i])];
    }
    assert lines == TrimLines(before);
    r := TrimSpace(Collapse(Join(lines)));
  }

  // ---------------------------------------------------------------------------------
  // The normal form.
  // ---------------------------------------------------------------------------------

  /** No line ends in a space or tab. */
  predicate CleanEnds(s: Bytes) {
    && (forall i :: 0 < i < |s| && s[i] == '\n' ==> !IsBlank(s[i - 1]))
    && (s != "" ==> !IsBlank(s[|s| - 1]))
  }

  predicate NoTriple(s: Bytes) {
    forall i :: 0 <= i <= |s| - 3 ==> !(s[i] == s[i + 1] == s[i + 2] == '\n')
  }

  predicate NormalForm(s: Bytes) {
    CleanEnds(s) && NoTriple(s) && NoOuterSpace(s)
  }

  lemma {:induction false} JoinClean(lines: seq<Bytes>)
    requires forall l <- lines :: l == "" || !IsBlank(l[|l| - 1])
    requires forall l <- lines :: '\n' !in l
    ensures CleanEnds(Join(lines))
  {
    if |lines| == 1 {
      assert lines[0] in lines;
    } else if |lines| > 1 {
      var head, rest := lines[0], Join(lines[1..]);
      JoinClean(lines[1..]);
      var s := head + "\n" + rest;
      assert Join(lines) == s;
      assert head in lines;
      assert forall i :: 0 <= i < |head| ==> s[i] == head[i] && head[i] in head;
      forall i | 0 < i < |s| && s[i] == '\n' ensures !IsBlank(s[i - 1]) {
        if i == |head| {
          assert s[i - 1] == head[i - 1];
        } else if i > |head| + 1 {
          assert s[i] == rest[i - |head| - 1] && s[i - 1] == rest[i - |head| - 2];
        }
      }
    }
  }

  lemma {:induction false} SplitHasNoNewline(s: Bytes)
    ensures forall l <- Split(s) :: '\n' !in l
    decreases |s|
  {
    var k := FirstNewline(s);
    if k < |s| { SplitHasNoNewline(s[k + 1..]); }
  }

  /** A leading newline, or two, survive `Collapse`; nothing else starts with them. */
  lemma {:induction false} CollapseLead(s: Bytes)
    ensures Collapse(s) == "" <==> s == ""
    ensures s != "" ==> Collapse(s)[0] == s[0]
    ensures HasPrefix(Collapse(s), "\n\n") ==> HasPrefix(s, "\n\n")
  {
    if s != "" {
      CollapseLead(s[1..]);
    }
  }

  lemma {:induction false} CollapseNoTriple(s: Bytes)
    ensures NoTriple(Collapse(s))
  {
    if s != "" {
      CollapseNoTriple(s[1..]);
      CollapseLead(s[1..]);
      var t, r := Collapse(s[1..]), Collapse(s);
      if |t| >= 2 && t[0] == t[1] == s[0] == '\n' {
        assert t[..2] == "\n\n";
        assert s[1..][..2] == "\n\n" && s[..3] == "\n\n\n";
      }
      if !HasPrefix(s, "\n\n\n") {
        forall i | 0 <= i <= |r| - 3 ensures !(r[i] == r[i + 1] == r[i + 2] == '\n') {
          if i > 0 { assert r[i] == t[i - 1] && r[i + 1] == t[i] && r[i + 2] == t[i + 1]; }
        }
      }
    }
  }

  lemma {:induction false} CollapseClean(s: Bytes)
    requires CleanEnds(s)
    ensures CleanEnds(Collapse(s))
  {
    if s != "" {
      var tail := s[1..];
      assert forall i :: 0 <= i < |tail| ==> tail[i] == s[i + 1];
      CollapseClean(tail);
      CollapseLead(tail);
    }
  }

  lemma {:induction false} CollapseIdentity(s: Bytes)
    requires NoTriple(s)
    ensures Collapse(s) == s
  {
    if s != "" {
      assert s[..|s|] == s;
      assert |s| >= 3 ==> s[..3][0] == s[0] && s[..3][1] == s[1] && s[..3][2] == s[2];
      assert forall i :: 0 <= i < |s| - 1 ==> s[1..][i] == s[i + 1];
      CollapseIdentity(s[1..]);
    }
  }

  /** `Collapse` does what the regular expression does: a maximal run of newlines is cut to two. */
  lemma {:induction false} CollapseRun(k: nat, rest: Bytes)
    requires rest != "" ==> rest[0] != '\n'
    ensures Collapse(Newlines(k) + rest) == Newlines(if k < 2 then k else 2) + Collapse(rest)
  {
    var s := Newlines(k) + rest;
    if k == 0 {
      assert s == rest;
    } else {
      assert s[1..] == Newlines(k - 1) + rest;
      CollapseRun(k - 1, rest);
      if k >= 3 {
        assert s[..3] == "\n\n\n";
      } else {
        assert |s| >= 3 ==> s[..3][k] == rest[0];
      }
    }
  }

  function Newlines(k: nat): (s: Bytes)
    ensures |s| == k && forall i :: 0 <= i < k ==> s[i] == '\n'
  {
    seq(k, _ => '\n')
  }

  lemma MiddleKeepsForm(s: Bytes, a: Bytes, m: Bytes, b: Bytes)
    requires s == a + m + b && CleanEnds(s) && NoTriple(s)
    requires NoOuterSpace(m)
    ensures NormalForm(m)
  {
    assert forall i :: 0 <= i < |m| ==> m[i] == s[|a| + i];
  }

  /** Whatever goes in, the result is in normal form. */
  lemma CleanupNormalForm(s: Bytes)
    ensures NormalForm(Cleanup(s))
  {
    var lines := TrimLines(Split(s));
    SplitHasNoNewline(s);
    forall l | l in lines ensures '\n' !in l && (l == "" || !IsBlank(l[|l| - 1])) {
      var i :| 0 <= i < |lines| && lines[i] == l;
      assert Split(s)[i] in Split(s);
    }
    JoinClean(lines);
    var x := Join(lines);
    CollapseNoTriple(x);
    CollapseClean(x);
    var a, b := TrimSpaceMiddle(Collapse(x));
    MiddleKeepsForm(Collapse(x), a, Cleanup(s), b);
  }

  lemma TrimLinesCons(head: Bytes, rest: seq<Bytes>)
    ensures TrimLines([head] + rest) == [TrimEnd(head)] + TrimLines(rest)
  {
  }

  lemma JoinCons(head: Bytes, rest: seq<Bytes>)
    requires rest != []
    ensures Join([head] + rest) == head + "\n" + Join(rest)
  {
    assert ([head] + rest)[1..] == rest;
  }

  lemma CutAtNewline(s: Bytes, k: nat)
    requires k < |s| && s[k] == '\n'
    ensures s == s[..k] + "\n" + s[k + 1..]
  {
  }

  lemma {:induction false} JoinOfSplit(s: Bytes)
    ensures Join(Split(s)) == s
    decreases |s|
  {
    var k := FirstNewline(s);
    if k < |s| {
      var lines := Split(s[k + 1..]);
      JoinOfSplit(s[k + 1..]);
      assert Split(s) == [s[..k]] + lines;
      JoinCons(s[..k], lines);
      CutAtNewline(s, k);
    }
  }

  lemma {:induction false} TrimLinesIdentity(s: Bytes)
    requires CleanEnds(s)
    ensures TrimLines(Split(s)) == Split(s)
    decreases |s|
  {
    var k := FirstNewline(s);
    if k == |s| {
      assert TrimEnd(s) == s;
    } else {
      var head, rest := s[..k], s[k + 1..];
      CleanTail(s, k);
      TrimLinesIdentity(rest);
      TrimLinesCons(head, Split(rest));
    }
  }

  lemma CleanTail(s: Bytes, k: nat)
    requires CleanEnds(s) && k < |s| && s[k] == '\n'
    ensures CleanEnds(s[k + 1..]) && TrimEnd(s[..k]) == s[..k]
  {
    var head, rest := s[..k], s[k + 1..];
    assert forall i :: 0 <= i < |rest| ==> rest[i] == s[k + 1 + i];
    assert head != "" ==> head[k - 1] == s[k - 1];
  }

  /** A second clean-up changes nothing; the normal forms are exactly the fixed points. */
  lemma CleanupFixedPoints(s: Bytes)
    ensures Cleanup(s) == s <==> NormalForm(s)
    ensures Cleanup(Cleanup(s)) == Cleanup(s)
  {
    CleanupNormalForm(s);
    NormalIsFixed(Cleanup(s));
    if NormalForm(s) { NormalIsFixed(s); }
  }

  lemma NormalIsFixed(s: Bytes)
    requires NormalForm(s)
    ensures Cleanup(s) == s
  {
    TrimLinesIdentity(s);
    JoinOfSplit(s);
    CollapseIdentity(s);
    TrimSpaceIdentity(s);
  }

  /** What remains of a text without spaces, tabs and newlines. */
  function Ink(s: Bytes): Bytes {
    if s == "" then ""
    else if IsBlank(s[0]) || s[0] == '\n' then Ink(s[1..])
    else [s[0]] + Ink(s[1..])
  }

  lemma {:induction false} InkAppend(a: Bytes, b: Bytes)
    ensures Ink(a + b) == Ink(a) + Ink(b)
  {
    if a == "" {
      assert a + b == b;
    } else {
      assert (a + b)[1..] == a[1..] + b;
      InkAppend(a[1..], b);
    }
  }

  lemma {:induction false} InkOfTrimEnd(s: Bytes)
    ensures Ink(TrimEnd(s)) == Ink(s)
  {
    if s != "" && IsBlank(s[|s| - 1]) {
      InkOfTrimEnd(s[..|s| - 1]);
      InkAppend(s[..|s| - 1], [s[|s| - 1]]);
      assert s == s[..|s| - 1] + [s[|s| - 1]];
    }
  }

  lemma {:induction false} InkOfLines(s: Bytes)
    ensures Ink(Join(TrimLines(Split(s)))) == Ink(s)
    decreases |s|
  {
    var k := FirstNewline(s);
    if k == |s| {
      InkOfTrimEnd(s);
    } else {
      var head, rest := s[..k], s[k + 1..];
      InkOfLines(rest);
      InkOfTrimEnd(head);
      TrimLinesCons(head, Split(rest));
      JoinCons(TrimEnd(head), TrimLines(Split(rest)));
      InkOfLine(TrimEnd(head), Join(TrimLines(Split(rest))));
      InkOfLine(head, rest);
      CutAtNewline(s, k);
    }
  }

  lemma InkOfLine(head: Bytes, rest: Bytes)
    ensures Ink(head + "\n" + rest) == Ink(head) + Ink(rest)
  {
    InkAppend(head + "\n", rest);
    InkOfNewline(head);
  }

  lemma InkOfNewline(head: Bytes)
    ensures Ink(head + "\n") == Ink(head)
  {
    InkAppend(head, "\n");
    assert Ink("\n") == "" by { assert "\n"[1..] == ""; }
  }

  lemma {:induction false} InkOfCollapse(s: Bytes)
    ensures Ink(Collapse(s)) == Ink(s)
  {
    if s != "" {
      InkOfCollapse(s[1..]);
      if HasPrefix(s, "\n\n\n") {
        assert s[..3][0] == '\n';
      }
    }
  }

  /** Nothing visible is lost: up to white space at the two ends, the result shows every byte of
      the input that is not a space, tab or newline, in order. */
  lemma CleanupKeepsInk(s: Bytes) returns (a: Bytes, b: Bytes)
    ensures Ink(s) == Ink(a) + Ink(Cleanup(s)) + Ink(b)
    ensures AllSpaceBytes(a) && AllSpaceBytes(b)
  {
    var x := Collapse(Join(TrimLines(Split(s))));
    InkOfLines(s);
    InkOfCollapse(Join(TrimLines(Split(s))));
    a, b := TrimSpaceMiddle(x);
    InkAppend(a + Cleanup(s), b);
    InkAppend(a, Cleanup(s));
  }
}
