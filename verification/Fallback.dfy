/** The line-based downgrade of internal/render/markdown.go: newline normalisation and the loop
    with its fence flag.  The regular expressions for table separators and headings are left open:
    `isRule` and `heading` stand for whatever they match. */
module Fallback {
  import opened Bytes
  import opened Markdown

  // ---------------------------------------------------------------------------------
  // `normalizeNewlines`.
  // ---------------------------------------------------------------------------------

  /** strings.ReplaceAll with "\r\n" and "\n". */
  function ReplaceCrLf(s: Bytes): Bytes {
    if HasPrefix(s, "\r\n") then "\n" + ReplaceCrLf(s[2..])
    else if s == "" then ""
    else [s[0]] + ReplaceCrLf(s[1..])
  }

  /** strings.ReplaceAll with "\r" and "\n". */
  function ReplaceCr(s: Bytes): Bytes {
    if s == "" then "" else [if s[0] == '\r' then '\n' else s[0]] + ReplaceCr(s[1..])
  }

  function NormalizeNewlines(s: Bytes): Bytes { ReplaceCr(ReplaceCrLf(s)) }

  /** Where lines end, in any of the three conventions. */
  function Lines(s: Bytes): (r: seq<Bytes>)
    ensures r != []
  {
    if s == "" then [""]
    else if HasPrefix(s, "\r\n") then [""] + Lines(s[2..])
    else if s[0] == '\r' || s[0] == '\n' then [""] + Lines(s[1..])
    else
      var rest := Lines(s[1..]);
      [[s[0]] + rest[0]] + rest[1..]
  }

  lemma SplitCons(c: char, s: Bytes)
    ensures c == '\n' ==> Split([c] + s) == [""] + Split(s)
    ensures c != '\n' ==> Split(s) != [] && Split([c] + s) == [[c] + Split(s)[0]] + Split(s)[1..]
  {
    var t := [c] + s;
    assert t[1..] == s;
    var k := FirstNewline(s);
    if c != '\n' {
      assert FirstNewline(t) == k + 1;
      assert t[..k + 1] == [c] + s[..k];
      if k < |s| { assert t[k + 2..] == s[k + 1..]; }
    }
  }

  /** After normalisation splitting at newlines yields the lines of the input, whichever of the
      three conventions ends them, even mixed. */
  lemma {:induction false} NormalizedLines(s: Bytes)
    ensures Split(NormalizeNewlines(s)) == Lines(s)
    decreases |s|
  {
    if HasPrefix(s, "\r\n") {
      NormalizedLines(s[2..]);
      var rest := ReplaceCrLf(s[2..]);
      assert ("\n" + rest)[1..] == rest;
      SplitCons('\n', ReplaceCr(rest));
    } else if s != "" {
      NormalizedLines(s[1..]);
      var rest := ReplaceCrLf(s[1..]);
      assert ([s[0]] + rest)[1..] == rest;
      SplitCons(if s[0] == '\r' then '\n' else s[0], ReplaceCr(rest));
    }
  }

  // ---------------------------------------------------------------------------------
  // The line loop.
  // ---------------------------------------------------------------------------------

  const FENCE: Bytes := "```"
  const BOLD: Bytes := "**"

  predicate IsFence(line: Bytes) { HasPrefix(TrimSpace(line), FENCE) }

  /** Whether the flag is set behind these lines. */
  predicate InFence(lines: seq<Bytes>) {
    lines != [] &&
    if IsFence(lines[|lines| - 1]) then !InFence(lines[..|lines| - 1]) else InFence(lines[..|lines| - 1])
  }

  /** What becomes of a line outside fences. */
  function Plain(isRule: Bytes -> bool, heading: Bytes -> Option<Bytes>, line: Bytes): seq<Bytes> {
    if isRule(line) then []
    else match heading(line)
      case Some(h) =>
        var text := TrimSpace(h);
        if text == "" then [""] else [BOLD + text + BOLD]
      case None => [TrimEnd(line)]
  }

  function Downgraded(isRule: Bytes -> bool, heading: Bytes -> Option<Bytes>, lines: seq<Bytes>): seq<Bytes> {
    if lines == [] then []
    else
      var init, last := lines[..|lines| - 1], lines[|lines| - 1];
      Downgraded(isRule, heading, init) +
      if IsFence(last) || InFence(init) then [last] else Plain(isRule, heading, last)
  }

  lemma NoLines(isRule: Bytes -> bool, heading: Bytes -> Option<Bytes>)
    ensures Downgraded(isRule, heading, []) == [] && !InFence([])
  {
  }

  lemma OneMoreLine(isRule: Bytes -> bool, heading: Bytes -> Option<Bytes>, init: seq<Bytes>, line: Bytes)
    ensures InFence(init + [line]) == if IsFence(line) then !InFence(init) else InFence(init)
    ensures Downgraded(isRule, heading, init + [line]) == Downgraded(isRule, heading, init) +
      if IsFence(line) || InFence(init) then [line] else Plain(isRule, heading, line)
    ensures Plain(isRule, heading, line) ==
      if isRule(line) then []
      else if heading(line).None? then [TrimEnd(line)]
      else [if TrimSpace(heading(line).value) == "" then "" else BOLD + TrimSpace(heading(line).value) + BOLD]
  {
    assert (init + [line])[..|init|] == init;
  }

  method Downgrade(isRule: Bytes -> bool, heading: Bytes -> Option<Bytes>, lines: seq<Bytes>) returns (out: seq<Bytes>)
    ensures out == Downgraded(isRule, heading, lines)
  {
    hide Downgraded, InFence, Plain, TrimSpace, HasPrefix;
    NoLines(isRule, heading);
    out := [];
    var inFence := false;
    for k := 0 to |lines|
      invariant out == Downgraded(isRule, heading, lines[..k])
      invariant inFence == InFence(lines[..k])
    {
      var line := lines[k];
      assert lines[..k + 1] == lines[..k] + [line];
      OneMoreLine(isRule, heading, lines[..k], line);
      var trimmed := TrimSpace(line);
      if HasPrefix(trimmed, FENCE) {
        inFence := !inFence;
        out := out + [line];
        continue;
      }
      if inFence {
        out := out + [line];
        continue;
      }
      if isRule(line) {
        assert out + [] == out;
        continue;
      }
      var m := heading(line);
      if m.Some? {
        var text := TrimSpace(m.value);
        if text == "" {
          out := out + [""];
        } else {
          out := out + [BOLD + text + BOLD];
        }
        continue;
      }
      out := out + [TrimEnd(line)];
    }
    assert lines[..|lines|] == lines;
  }

  /** Line by line: fences and fenced lines come out as they are; of the others a table rule goes, a
      heading becomes its text between double stars, or an empty line if it has none, and any other
      line loses the spaces and tabs at its end and nothing else. */
  lemma DowngradeLineByLine(isRule: Bytes -> bool, heading: Bytes -> Option<Bytes>, init: seq<Bytes>, line: Bytes)
    ensures var before, out := Downgraded(isRule, heading, init), Downgraded(isRule, heading, init + [line]);
      && before <= out
      && var added := out[|before|..];
      if IsFence(line) || InFence(init) then added == [line]
      else if isRule(line) then added == []
      else
        && |added| == 1
        && match heading(line)
           case Some(h) => added[0] == if TrimSpace(h) == "" then "" else "**" + TrimSpace(h) + "**"
           case None =>
             && added[0] <= line
             && (added[0] != "" ==> added[0][|added[0]| - 1] !in " \t")
             && forall k :: |added[0]| <= k < |line| ==> line[k] in " \t"
  {
    assert (init + [line])[..|init|] == init;
    TrimEndIsPrefix(line);
  }

  lemma {:induction false} TrimEndIsPrefix(line: Bytes)
    ensures TrimEnd(line) <= line
  {
    if line != "" { TrimEndIsPrefix(line[..|line| - 1]); }
  }

  // ---------------------------------------------------------------------------------
  // Code blocks survive.
  // ---------------------------------------------------------------------------------

  /** The fence lines and the lines inside fences. */
  function Fenced(lines: seq<Bytes>): seq<Bytes> {
    if lines == [] then []
    else
      var init, last := lines[..|lines| - 1], lines[|lines| - 1];
      if IsFence(last) || InFence(init) then Fenced(init) + [last] else Fenced(init)
  }

  /** Skipping white space does not look behind the first byte that is none. */
  lemma {:induction false} SkipsAlike(a: Bytes, b: Bytes, i: nat)
    requires |a| <= |b| && b[..|a|] == a && i <= |a|
    requires SkipSpace(a, i) < |a| && a[SkipSpace(a, i)] == '`'
    ensures SkipSpace(b, i) == SkipSpace(a, i)
    decreases |a| - i
  {
    var n := SpaceAt(a, i);
    assert forall k :: 0 <= k < |a| ==> b[k] == a[k];
    if n > 0 {
      assert SpaceAt(b, i) == n;
      SkipsAlike(a, b, i + n);
    }
  }

  /** Cutting trailing blanks does not make a fence. */
  lemma TrimEndKeepsFence(line: Bytes)
    ensures IsFence(TrimEnd(line)) ==> IsFence(line)
  {
    var t := TrimEnd(line);
    if IsFence(t) {
      var i := SkipSpace(t, 0);
      var m := SkipSpaceBack(t, i, |t|);
      assert t[i..m][..3] == FENCE;
      assert t[i] == FENCE[0] && t[i + 1] == FENCE[1] && t[i + 2] == FENCE[2];
      SkipsAlike(t, line, 0);
      FenceAt(line, i);
    }
  }

  lemma FenceAt(line: Bytes, i: nat)
    requires i + 3 <= |line| && SkipSpace(line, 0) == i
    requires line[i] == line[i + 1] == line[i + 2] == '`'
    ensures IsFence(line)
  {
    var m := SkipSpaceBack(line, i, |line|);
    assert !IsSpaceByte('`');
    assert m >= i + 3;
    var t := TrimSpace(line);
    assert t == line[i..m];
    hide SkipSpace, SkipSpaceBack, TrimSpace, IsSpaceByte;
    assert t[0] == t[1] == t[2] == '`';
    assert t[..3] == FENCE;
  }

  lemma BoldIsNoFence(text: Bytes)
    ensures !IsFence(BOLD + text + BOLD) && !IsFence("")
  {
    var s := BOLD + text + BOLD;
    assert s[0] == '*' && SkipSpace(s, 0) == 0;
    var t := TrimSpace(s);
    assert |t| >= 3 ==> t[0] == '*' && t[..3][0] == '*';
    assert FENCE[0] == '`';
  }

  lemma PlainIsNoFence(isRule: Bytes -> bool, heading: Bytes -> Option<Bytes>, line: Bytes)
    requires !IsFence(line)
    ensures |Plain(isRule, heading, line)| <= 1
    ensures forall l <- Plain(isRule, heading, line) :: !IsFence(l)
  {
    TrimEndKeepsFence(line);
    if heading(line).Some? { BoldIsNoFence(TrimSpace(heading(line).value)); }
  }

  lemma FencedSnoc(lines: seq<Bytes>, l: Bytes)
    ensures Fenced(lines + [l]) == if IsFence(l) || InFence(lines) then Fenced(lines) + [l] else Fenced(lines)
    ensures InFence(lines + [l]) <==> (if IsFence(l) then !InFence(lines) else InFence(lines))
  {
    assert (lines + [l])[..|lines|] == lines;
  }

  /** The downgrade passes code blocks on verbatim, fences included, and neither opens nor closes
      one: the fenced part of the output is the fenced part of the input, and the flag ends up the
      same. */
  lemma {:induction false} CodeBlocksSurvive(isRule: Bytes -> bool, heading: Bytes -> Option<Bytes>, lines: seq<Bytes>)
    ensures var out := Downgraded(isRule, heading, lines);
      Fenced(out) == Fenced(lines) && (InFence(out) <==> InFence(lines))
  {
    if lines != [] {
      var init, last := lines[..|lines| - 1], lines[|lines| - 1];
      var out := Downgraded(isRule, heading, init);
      CodeBlocksSurvive(isRule, heading, init);
      if IsFence(last) || InFence(init) {
        FencedSnoc(out, last);
      } else {
        PlainIsNoFence(isRule, heading, last);
        var added := Plain(isRule, heading, last);
        if |added| == 1 {
          assert added == [added[0]];
          FencedSnoc(out, added[0]);
        } else {
          assert out + added == out;
        }
      }
    }
  }
}
