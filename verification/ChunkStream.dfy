/** What the events of translateStream (internal/llm/eino_adapter.go:77-172) say of the chunks they
    come from, with no mention of how the translation goes about it. */
module ChunkStream {
  import opened Bytes
  import opened Llm
  import opened EinoAdapter
  import opened StreamShape

  // ---------------------------------------------------------------------------------
  // The chunks, read directly.
  // ---------------------------------------------------------------------------------

  /** The content of all chunks, one after the other. */
  function ContentOf(chunks: seq<Option<Chunk>>): Bytes {
    if chunks == [] then ""
    else
      var before, last := ContentOf(chunks[..|chunks| - 1]), chunks[|chunks| - 1];
      if last.Some? then before + last.value.content else before
  }

  function ReasoningOf(chunks: seq<Option<Chunk>>): Bytes {
    if chunks == [] then ""
    else
      var before, last := ReasoningOf(chunks[..|chunks| - 1]), chunks[|chunks| - 1];
      if last.Some? then before + last.value.reasoning else before
  }

  /** The tool-call fragments of all chunks, one after the other. */
  function FragmentsOf(chunks: seq<Option<Chunk>>): seq<Fragment> {
    if chunks == [] then []
    else
      var before, last := FragmentsOf(chunks[..|chunks| - 1]), chunks[|chunks| - 1];
      if last.Some? then before + last.value.toolCalls else before
  }

  function UsageIn(chunk: Option<Chunk>): Option<Usage> {
    if chunk.Some? && chunk.value.meta.Some? then chunk.value.meta.value.usage else None
  }

  function ReasonIn(chunk: Option<Chunk>): Bytes {
    if chunk.Some? && chunk.value.meta.Some? then chunk.value.meta.value.finishReason else ""
  }

  /** The k-th chunk reports a usage, and no later one does. */
  predicate LastToReport(chunks: seq<Option<Chunk>>, k: nat) {
    k < |chunks| && UsageIn(chunks[k]).Some? && forall j :: k < j < |chunks| ==> UsageIn(chunks[j]).None?
  }

  predicate LastToGiveReason(chunks: seq<Option<Chunk>>, k: nat) {
    k < |chunks| && ReasonIn(chunks[k]) != "" && forall j :: k < j < |chunks| ==> ReasonIn(chunks[j]) == ""
  }

  /** The usage reported last; none at all counts as zero. */
  ghost predicate IsFinalUsage(chunks: seq<Option<Chunk>>, u: Usage) {
    || (exists k: nat :: LastToReport(chunks, k) && UsageIn(chunks[k]) == Some(u))
    || ((forall c <- chunks :: UsageIn(c).None?) && u == Usage(0, 0))
  }

  ghost predicate IsFinalReason(chunks: seq<Option<Chunk>>, reason: Bytes) {
    || (exists k: nat :: LastToGiveReason(chunks, k) && ReasonIn(chunks[k]) == reason)
    || ((forall c <- chunks :: ReasonIn(c) == "") && reason == "")
  }

  // ---------------------------------------------------------------------------------
  // The events, read directly.
  // ---------------------------------------------------------------------------------

  function ThinkingOf(evs: seq<StreamEvent>): Bytes {
    if evs == [] then ""
    else
      var last := evs[|evs| - 1];
      ThinkingOf(evs[..|evs| - 1]) + if last.ThinkingDelta? then last.text else ""
  }

  predicate IsToolEvent(e: StreamEvent) { e.ToolCallStart? || e.ToolCallArgs? }

  predicate IsClosing(e: StreamEvent) { e.ToolCallEnd? || IsTerminator(e) }

  /** The Starts and Args of a stream. */
  function ToolEvents(evs: seq<StreamEvent>): seq<StreamEvent> {
    if evs == [] then []
    else
      var init, last := ToolEvents(evs[..|evs| - 1]), evs[|evs| - 1];
      if IsToolEvent(last) then init + [last] else init
  }

  /** Everything but Ends and terminators. */
  function Body(evs: seq<StreamEvent>): seq<StreamEvent> {
    if evs == [] then []
    else
      var init, last := Body(evs[..|evs| - 1]), evs[|evs| - 1];
      if IsClosing(last) then init else init + [last]
  }

  function EndsIn(evs: seq<StreamEvent>): seq<StreamEvent> {
    if evs == [] then []
    else
      var init, last := EndsIn(evs[..|evs| - 1]), evs[|evs| - 1];
      if last.ToolCallEnd? then init + [last] else init
  }

  lemma EventSnoc(evs: seq<StreamEvent>, e: StreamEvent)
    ensures TextOf(evs + [e]) == TextOf(evs) + if e.TextDelta? then e.text else ""
    ensures ThinkingOf(evs + [e]) == ThinkingOf(evs) + if e.ThinkingDelta? then e.text else ""
    ensures ToolEvents(evs + [e]) == ToolEvents(evs) + if IsToolEvent(e) then [e] else []
    ensures Body(evs + [e]) == Body(evs) + if IsClosing(e) then [] else [e]
    ensures EndsIn(evs + [e]) == EndsIn(evs) + if e.ToolCallEnd? then [e] else []
  {
    assert (evs + [e])[..|evs|] == evs;
  }

  lemma LastApart(a: seq<StreamEvent>, b: seq<StreamEvent>)
    requires b != []
    ensures a + b == a + b[..|b| - 1] + [b[|b| - 1]]
  {
  }

  lemma {:induction false} ClosingAdds(a: seq<StreamEvent>, b: seq<StreamEvent>)
    requires forall e <- b :: IsClosing(e)
    ensures TextOf(a + b) == TextOf(a) && ThinkingOf(a + b) == ThinkingOf(a)
    ensures ToolEvents(a + b) == ToolEvents(a) && Body(a + b) == Body(a)
    ensures (forall e <- b :: e.ToolCallEnd?) ==> EndsIn(a + b) == EndsIn(a) + b
  {
    if b == [] {
      assert a + b == a;
    } else {
      hide TextOf, ThinkingOf, ToolEvents, Body, EndsIn;
      var n := |b| - 1;
      assert b[n] in b;
      assert forall e <- b[..n] :: e in b;
      ClosingAdds(a, b[..n]);
      LastApart(a, b);
      hide IsClosing;
      assert !IsToolEvent(b[n]) && !b[n].TextDelta? && !b[n].ThinkingDelta?;
      EventSnoc(a + b[..n], b[n]);
      LastApart(EndsIn(a), b);
    }
  }

  lemma {:induction false} ToolsAdd(a: seq<StreamEvent>, b: seq<StreamEvent>)
    requires forall e <- b :: IsToolEvent(e)
    ensures TextOf(a + b) == TextOf(a) && ThinkingOf(a + b) == ThinkingOf(a)
    ensures ToolEvents(a + b) == ToolEvents(a) + b
  {
    if b == [] {
      assert a + b == a;
    } else {
      hide TextOf, ThinkingOf, ToolEvents, Body, EndsIn;
      var n := |b| - 1;
      assert b[n] in b;
      assert forall e <- b[..n] :: e in b;
      ToolsAdd(a, b[..n]);
      LastApart(a, b);
      EventSnoc(a + b[..n], b[n]);
      LastApart(ToolEvents(a), b);
    }
  }

  lemma {:induction false} NothingClosing(evs: seq<StreamEvent>)
    requires forall e <- evs :: !IsClosing(e)
    ensures Body(evs) == evs && EndsIn(evs) == []
  {
    if evs != [] {
      var n := |evs| - 1;
      assert evs[n] in evs;
      NothingClosing(evs[..n]);
    }
  }

  // ---------------------------------------------------------------------------------
  // The fragments among the items.
  // ---------------------------------------------------------------------------------

  function FragmentsIn(items: seq<Item>): seq<Fragment> {
    if items == [] then []
    else
      var init, last := FragmentsIn(items[..|items| - 1]), items[|items| - 1];
      if last.Piece? then init + [last.f] else init
  }

  function WordsIn(items: seq<Item>): Bytes {
    if items == [] then ""
    else
      var before, last := WordsIn(items[..|items| - 1]), items[|items| - 1];
      if last.Words? then before + last.text else before
  }

  function ThoughtsIn(items: seq<Item>): Bytes {
    if items == [] then ""
    else
      var before, last := ThoughtsIn(items[..|items| - 1]), items[|items| - 1];
      if last.Thought? then before + last.text else before
  }

  lemma ItemSnoc(items: seq<Item>, x: Item)
    ensures FragmentsIn(items + [x]) == FragmentsIn(items) + if x.Piece? then [x.f] else []
    ensures WordsIn(items + [x]) == WordsIn(items) + if x.Words? then x.text else ""
    ensures ThoughtsIn(items + [x]) == ThoughtsIn(items) + if x.Thought? then x.text else ""
  {
    assert (items + [x])[..|items|] == items;
  }

  lemma {:induction false} PiecesAdd(items: seq<Item>, fs: seq<Fragment>)
    ensures FragmentsIn(items + Pieces(fs)) == FragmentsIn(items) + fs
    ensures WordsIn(items + Pieces(fs)) == WordsIn(items) && ThoughtsIn(items + Pieces(fs)) == ThoughtsIn(items)
    decreases |fs|
  {
    if fs == [] {
      assert items + Pieces(fs) == items;
    } else {
      hide FragmentsIn, WordsIn, ThoughtsIn;
      var n := |fs| - 1;
      PiecesAdd(items, fs[..n]);
      OneMorePiece(items, fs, n);
      assert fs[..n + 1] == fs && fs[..n] + [fs[n]] == fs;
      ItemSnoc(items + Pieces(fs[..n]), Piece(fs[n]));
    }
  }

  /** A delta without text is left out. */
  function IfAny(x: Item): seq<Item>
    requires !x.Piece?
  {
    if x.text != "" then [x] else []
  }

  lemma ChunkParts(items: seq<Item>, c: Chunk)
    ensures items + ItemsOf(Some(c)) == items + IfAny(Thought(c.reasoning)) + IfAny(Words(c.content)) + Pieces(c.toolCalls)
  {
    ItemsAre(c);
    hide ItemsOf, IfAny, Pieces;
    ConcatFour(items, IfAny(Thought(c.reasoning)), IfAny(Words(c.content)), Pieces(c.toolCalls));
  }

  lemma ItemsAre(c: Chunk)
    ensures ItemsOf(Some(c)) == IfAny(Thought(c.reasoning)) + IfAny(Words(c.content)) + Pieces(c.toolCalls)
  {
  }

  lemma DeltaAdds(items: seq<Item>, x: Item)
    requires !x.Piece?
    ensures var more := items + IfAny(x);
      && FragmentsIn(more) == FragmentsIn(items)
      && WordsIn(more) == WordsIn(items) + (if x.Words? then x.text else "")
      && ThoughtsIn(more) == ThoughtsIn(items) + (if x.Thought? then x.text else "")
  {
    if x.text != "" { ItemSnoc(items, x); } else { assert items + [] == items; }
  }

  /** What one chunk adds: its reasoning, its content, its fragments. */
  lemma ChunkAdds(items: seq<Item>, c: Chunk)
    ensures var more := items + ItemsOf(Some(c));
      && FragmentsIn(more) == FragmentsIn(items) + c.toolCalls
      && WordsIn(more) == WordsIn(items) + c.content
      && ThoughtsIn(more) == ThoughtsIn(items) + c.reasoning
  {
    hide FragmentsIn, WordsIn, ThoughtsIn, IfAny, ItemsOf;
    var a := items + IfAny(Thought(c.reasoning));
    var b := a + IfAny(Words(c.content));
    DeltaAdds(items, Thought(c.reasoning));
    DeltaAdds(a, Words(c.content));
    PiecesAdd(b, c.toolCalls);
    ChunkParts(items, c);
  }

  lemma {:induction false} ItemsCarryChunks(chunks: seq<Option<Chunk>>)
    ensures var items := Items(chunks);
      FragmentsIn(items) == FragmentsOf(chunks) && WordsIn(items) == ContentOf(chunks) && ThoughtsIn(items) == ReasoningOf(chunks)
  {
    if chunks != [] {
      var n := |chunks| - 1;
      ItemsCarryChunks(chunks[..n]);
      if chunks[n].Some? {
        ChunkAdds(Items(chunks[..n]), chunks[n].value);
      } else {
        assert Items(chunks) == Items(chunks[..n]);
      }
    }
  }

  // ---------------------------------------------------------------------------------
  // The tool events, from the fragments alone.
  // ---------------------------------------------------------------------------------

  /** An index with this id has got a name. */
  ghost predicate IsNamed(items: seq<Item>, id: Bytes) {
    exists j :: NamedCall(items, id, j)
  }

  /** What the last item, a fragment, gives rise to: a Start if its id is now named and was not
      before, and its arguments if its id is known. */
  ghost function DirectPiece(items: seq<Item>): seq<StreamEvent>
    requires items != [] && items[|items| - 1].Piece?
  {
    var init, f := items[..|items| - 1], items[|items| - 1].f;
    var id, name := FirstId(items, IndexOf(f)), FirstName(items, IndexOf(f));
    (if id != "" && name != "" && !IsNamed(init, id) then [ToolCallStart(id, name, "")] else []) +
    (if id != "" && f.arguments != "" then [ToolCallArgs(id, name, f.arguments)] else [])
  }

  ghost function DirectEvents(items: seq<Item>): seq<StreamEvent> {
    if items == [] then []
    else DirectEvents(items[..|items| - 1]) + if items[|items| - 1].Piece? then DirectPiece(items) else []
  }

  lemma PieceIsDirect(items: seq<Item>)
    requires items != [] && items[|items| - 1].Piece?
    ensures Emits(State(items[..|items| - 1]), items[|items| - 1]) == DirectPiece(items)
  {
    var init, f := items[..|items| - 1], items[|items| - 1].f;
    var i := IndexOf(f);
    KnownIsDirect(init, i);
    KnownIsDirect(items, i);
    var id := FirstId(items, i);
    if id != "" { SeenMeansNamed(init, id); }
    assert Populated(Known(State(init), i), f) == Known(State(items), i);
  }

  lemma {:induction false} EventsAreDirect(items: seq<Item>)
    ensures TextOf(Events(items)) == WordsIn(items) && ThinkingOf(Events(items)) == ThoughtsIn(items)
    ensures ToolEvents(Events(items)) == DirectEvents(items)
  {
    if items != [] {
      var init, x := items[..|items| - 1], items[|items| - 1];
      assert init + [x] == items;
      Snoc(init, x);
      EventsAreDirect(init);
      ItemSnoc(init, x);
      if x.Piece? { PieceIsDirect(items); }
      hide TextOf, ThinkingOf, ToolEvents, Events, State, WordsIn, ThoughtsIn, DirectPiece;
      if x.Piece? {
        PieceIsTools(State(init), x.f);
        ToolsAdd(Events(init), DirectPiece(items));
      } else {
        EventSnoc(Events(init), if x.Thought? then ThinkingDelta(x.text) else TextDelta(x.text));
      }
    }
  }

  // ---------------------------------------------------------------------------------
  // Only the fragments among the items matter to the calls.
  // ---------------------------------------------------------------------------------

  /** The items without text and thoughts. */
  function Calling(items: seq<Item>): seq<Item> { Pieces(FragmentsIn(items)) }

  lemma CallingSnoc(items: seq<Item>)
    requires items != []
    ensures var init, x := items[..|items| - 1], items[|items| - 1];
      Calling(items) == Calling(init) + if x.Piece? then [x] else []
    ensures items[|items| - 1].Piece? ==>
      Calling(items) != [] && Calling(items)[..|Calling(items)| - 1] == Calling(items[..|items| - 1])
      && Calling(items)[|Calling(items)| - 1] == items[|items| - 1]
  {
  }

  lemma {:induction false} SameCalls(items: seq<Item>, i: int)
    ensures Indices(Calling(items)) == Indices(items)
    ensures FirstId(Calling(items), i) == FirstId(items, i) && FirstName(Calling(items), i) == FirstName(items, i)
    ensures ArgsOf(Calling(items), i) == ArgsOf(items, i) && EarlyArgs(Calling(items), i) == EarlyArgs(items, i)
  {
    if items != [] {
      SameCalls(items[..|items| - 1], i);
      CallingSnoc(items);
      hide Calling;
    }
  }

  lemma SameNamed(items: seq<Item>, id: Bytes)
    ensures IsNamed(Calling(items), id) <==> IsNamed(items, id)
  {
    forall j ensures NamedCall(Calling(items), id, j) <==> NamedCall(items, id, j) { SameCalls(items, j); }
  }

  lemma SamePiece(items: seq<Item>)
    requires items != [] && items[|items| - 1].Piece?
    requires Calling(items) != [] && Calling(items)[..|Calling(items)| - 1] == Calling(items[..|items| - 1])
    requires Calling(items)[|Calling(items)| - 1] == items[|items| - 1]
    ensures DirectPiece(Calling(items)) == DirectPiece(items)
  {
    var i := IndexOf(items[|items| - 1].f);
    SameCalls(items, i);
    SameNamed(items[..|items| - 1], FirstId(items, i));
  }

  lemma {:induction false} SameEvents(items: seq<Item>)
    ensures DirectEvents(Calling(items)) == DirectEvents(items)
    ensures NamedInTime(Calling(items)) <==> NamedInTime(items)
  {
    if items != [] {
      SameEvents(items[..|items| - 1]);
      CallingSnoc(items);
      if items[|items| - 1].Piece? {
        SamePiece(items);
        var i := IndexOf(items[|items| - 1].f);
        SameCalls(items, i);
        SameNamed(items, FirstId(items, i));
        hide Calling, DirectPiece, FirstId;
        assert IsNamed(items, FirstId(items, i)) <==> IsNamed(Calling(items), FirstId(items, i));
      }
    }
  }

  lemma SameDirectEnds(items: seq<Item>)
    ensures DirectEnds(Calling(items)) == DirectEnds(items)
  {
    SameCalls(items, 0);
    forall k | 0 <= k < |Indices(items)| ensures DirectEnds(Calling(items))[k] == DirectEnds(items)[k] {
      SameCalls(items, Indices(items)[k]);
    }
  }

  // ---------------------------------------------------------------------------------
  // Every output.
  // ---------------------------------------------------------------------------------

  /** The fragments of all chunks, as items. */
  function CallsOf(chunks: seq<Option<Chunk>>): seq<Item> { Pieces(FragmentsOf(chunks)) }

  lemma OutputParts(chunks: seq<Option<Chunk>>, end: End, out: seq<StreamEvent>)
    requires IsOutput(chunks, end, out)
    ensures var body := Events(Items(chunks));
      && TextOf(out) == TextOf(body) && ThinkingOf(out) == ThinkingOf(body)
      && ToolEvents(out) == ToolEvents(body) && Body(out) == body
      && (end.Eof? ==> multiset(EndsIn(out)) == multiset(DirectEnds(Items(chunks))))
      && (end.Fail? ==> EndsIn(out) == [])
  {
    var body, ends := OutputShape(chunks, end, out);
    var last := out[|out| - 1];
    NothingClosing(body);
    ClosingAdds(body, ends);
    EventSnoc(body + ends, last);
    assert [] + ends == ends;
  }

  /** For all chunks, however the stream ends: the text is their content, the thinking is their
      reasoning, and the Starts and Args are what their fragments call for, all in order. */
  lemma OutputCarriesChunks(chunks: seq<Option<Chunk>>, end: End, out: seq<StreamEvent>)
    requires IsOutput(chunks, end, out)
    ensures TextOf(out) == ContentOf(chunks) && ThinkingOf(out) == ReasoningOf(chunks)
    ensures ToolEvents(out) == DirectEvents(CallsOf(chunks))
  {
    hide *;
    OutputParts(chunks, end, out);
    EventsAreDirect(Items(chunks));
    SameEvents(Items(chunks));
    CallsOfItems(chunks);
    ItemsCarryChunks(chunks);
  }

  lemma CallsOfItems(chunks: seq<Option<Chunk>>)
    ensures Calling(Items(chunks)) == CallsOf(chunks)
  {
    ItemsCarryChunks(chunks);
  }

  /** The closing Ends: one for every index the fragments mention, with the first id and name. */
  lemma OneEndPerIndex(chunks: seq<Option<Chunk>>, end: End, out: seq<StreamEvent>)
    requires IsOutput(chunks, end, out)
    ensures end.Eof? ==> multiset(EndsIn(out)) == multiset(DirectEnds(CallsOf(chunks)))
    ensures end.Fail? ==> EndsIn(out) == []
  {
    hide *;
    OutputParts(chunks, end, out);
    SameDirectEnds(Items(chunks));
    CallsOfItems(chunks);
  }

  /** Start before Args, as promised, exactly when the fragments name their calls in time. */
  lemma StartBeforeArgsExactly(chunks: seq<Option<Chunk>>, end: End, out: seq<StreamEvent>)
    requires IsOutput(chunks, end, out)
    ensures StartsFirst(out) <==> NamedInTime(CallsOf(chunks))
  {
    hide *;
    StartBeforeArgsIff(chunks, end, out);
    SameEvents(Items(chunks));
    CallsOfItems(chunks);
  }

  /** The first k events of the body are those of the first chunks, and each further chunk adds a
      thinking delta if it has reasoning, then a text delta if it has content, then Starts and Args;
      a nil chunk adds nothing. */
  lemma ChunkByChunk(chunks: seq<Option<Chunk>>, c: Option<Chunk>, end: End, end': End,
                     out: seq<StreamEvent>, out': seq<StreamEvent>) returns (tools: seq<StreamEvent>)
    requires IsOutput(chunks, end, out) && IsOutput(chunks + [c], end', out')
    ensures forall e <- tools :: IsToolEvent(e)
    ensures Body(out') == Body(out) + (
      if c.None? then []
      else
        (if c.value.reasoning != "" then [ThinkingDelta(c.value.reasoning)] else []) +
        (if c.value.content != "" then [TextDelta(c.value.content)] else []) +
        tools)
  {
    OutputParts(chunks, end, out);
    OutputParts(chunks + [c], end', out');
    assert (chunks + [c])[..|chunks|] == chunks;
    var items := Items(chunks);
    assert Items(chunks + [c]) == items + ItemsOf(c);
    if c.None? {
      assert items + [] == items;
      tools := [];
    } else {
      hide Items, Events, IsOutput, Body;
      tools := ChunkEvents(items, c.value);
    }
  }

  function EventIfAny(x: Item): seq<StreamEvent>
    requires !x.Piece?
  {
    if x.text == "" then [] else [if x.Thought? then ThinkingDelta(x.text) else TextDelta(x.text)]
  }

  lemma ChunkEvents(items: seq<Item>, c: Chunk) returns (tools: seq<StreamEvent>)
    ensures forall e <- tools :: IsToolEvent(e)
    ensures Events(items + ItemsOf(Some(c))) ==
      Events(items) + (EventIfAny(Thought(c.reasoning)) + EventIfAny(Words(c.content)) + tools)
  {
    hide Events, IfAny, EventIfAny, ItemsOf;
    var a := items + IfAny(Thought(c.reasoning));
    var b := a + IfAny(Words(c.content));
    DeltaEvents(items, Thought(c.reasoning));
    DeltaEvents(a, Words(c.content));
    tools := PieceEvents(b, c.toolCalls);
    ChunkParts(items, c);
    Regroup(Events(items), EventIfAny(Thought(c.reasoning)), EventIfAny(Words(c.content)), tools);
  }

  lemma Regroup(a: seq<StreamEvent>, b: seq<StreamEvent>, c: seq<StreamEvent>, d: seq<StreamEvent>)
    ensures a + b + c + d == a + (b + c + d)
    ensures a + b + c == a + (b + c)
  {
  }

  lemma DeltaEvents(items: seq<Item>, x: Item)
    requires !x.Piece?
    ensures Events(items + IfAny(x)) == Events(items) + EventIfAny(x)
  {
    if x.text != "" { Snoc(items, x); } else { assert items + [] == items; }
  }

  lemma PieceIsTools(t: Translator, f: Fragment)
    ensures forall e <- Emits(t, Piece(f)) :: IsToolEvent(e)
  {
  }

  lemma {:induction false} PieceEvents(items: seq<Item>, fs: seq<Fragment>) returns (tools: seq<StreamEvent>)
    ensures forall e <- tools :: IsToolEvent(e)
    ensures Events(items + Pieces(fs)) == Events(items) + tools
    decreases |fs|
  {
    if fs == [] {
      assert items + Pieces(fs) == items;
      tools := [];
    } else {
      hide Events, State;
      var n := |fs| - 1;
      var init := items + Pieces(fs[..n]);
      var before := PieceEvents(items, fs[..n]);
      OneMorePiece(items, fs, n);
      assert fs[..n + 1] == fs;
      Snoc(init, Piece(fs[n]));
      PieceIsTools(State(init), fs[n]);
      var more := Emits(State(init), Piece(fs[n]));
      tools := before + more;
      hide Emits;
      Regroup(Events(items), before, more, []);
    }
  }

  // ---------------------------------------------------------------------------------
  // Thinking before text.
  // ---------------------------------------------------------------------------------

  predicate Speaks(c: Option<Chunk>) { c.Some? && c.value.content != "" }

  predicate Reasons(c: Option<Chunk>) { c.Some? && c.value.reasoning != "" }

  /** No chunk with reasoning comes after one with content. */
  predicate ReasoningFirst(chunks: seq<Option<Chunk>>) {
    forall j, k :: 0 <= j < k < |chunks| ==> !(Speaks(chunks[j]) && Reasons(chunks[k]))
  }

  lemma ThoughtsSnoc(items: seq<Item>, x: Item)
    ensures ThoughtsFirst(items + [x]) <==> ThoughtsFirst(items) && (x.Thought? ==> !HasWords(items))
    ensures HasWords(items + [x]) <==> HasWords(items) || x.Words?
  {
    assert (items + [x])[..|items|] == items;
    WordsSnoc(items + [x]);
  }

  lemma {:induction false} PiecesKeepOrder(items: seq<Item>, fs: seq<Fragment>)
    ensures ThoughtsFirst(items + Pieces(fs)) <==> ThoughtsFirst(items)
    ensures HasWords(items + Pieces(fs)) <==> HasWords(items)
    decreases |fs|
  {
    if fs == [] {
      assert items + Pieces(fs) == items;
    } else {
      hide ThoughtsFirst, HasWords;
      var n := |fs| - 1;
      PiecesKeepOrder(items, fs[..n]);
      OneMorePiece(items, fs, n);
      assert fs[..n + 1] == fs;
      ThoughtsSnoc(items + Pieces(fs[..n]), Piece(fs[n]));
    }
  }

  lemma ChunkOrder(items: seq<Item>, c: Chunk)
    ensures var more := items + ItemsOf(Some(c));
      && (ThoughtsFirst(more) <==> ThoughtsFirst(items) && (c.reasoning != "" ==> !HasWords(items)))
      && (HasWords(more) <==> HasWords(items) || c.content != "")
  {
    hide ThoughtsFirst, HasWords;
    var a := items + IfAny(Thought(c.reasoning));
    ThoughtsSnoc(items, Thought(c.reasoning));
    ThoughtsSnoc(a, Words(c.content));
    assert items + [] == items && a + [] == a;
    PiecesKeepOrder(a + IfAny(Words(c.content)), c.toolCalls);
    ChunkParts(items, c);
  }

  lemma OneMoreChunk(chunks: seq<Option<Chunk>>)
    requires chunks != []
    ensures var init, c := Items(chunks[..|chunks| - 1]), chunks[|chunks| - 1];
      && (ThoughtsFirst(Items(chunks)) <==> ThoughtsFirst(init) && (Reasons(c) ==> !HasWords(init)))
      && (HasWords(Items(chunks)) <==> HasWords(init) || Speaks(c))
  {
    var n := |chunks| - 1;
    hide ThoughtsFirst, HasWords;
    if chunks[n].Some? {
      ChunkOrder(Items(chunks[..n]), chunks[n].value);
    } else {
      assert Items(chunks) == Items(chunks[..n]);
    }
  }

  lemma {:induction false} OrderOfChunks(chunks: seq<Option<Chunk>>)
    ensures ThoughtsFirst(Items(chunks)) <==> ReasoningFirst(chunks)
    ensures HasWords(Items(chunks)) <==> exists c <- chunks :: Speaks(c)
  {
    if chunks != [] {
      var n := |chunks| - 1;
      assert chunks == chunks[..n] + [chunks[n]];
      OrderOfChunks(chunks[..n]);
      OneMoreChunk(chunks);
      hide *;
      ReasoningSnoc(chunks[..n], chunks[n]);
    }
  }

  lemma ReasoningSnoc(init: seq<Option<Chunk>>, c: Option<Chunk>)
    ensures ReasoningFirst(init + [c]) <==> ReasoningFirst(init) && (Reasons(c) ==> !exists d <- init :: Speaks(d))
    ensures (exists d <- init + [c] :: Speaks(d)) <==> (exists d <- init :: Speaks(d)) || Speaks(c)
  {
    var all := init + [c];
    if ReasoningFirst(all) {
      forall j, k | 0 <= j < k < |init| ensures !(Speaks(init[j]) && Reasons(init[k])) {
        assert all[j] == init[j] && all[k] == init[k];
      }
      if Reasons(c) {
        forall d | d in init ensures !Speaks(d) {
          var j :| 0 <= j < |init| && init[j] == d;
          assert all[j] == d && all[|init|] == c;
        }
      }
    }
    if Speaks(c) { assert c in all; }
    if d :| d in init && Speaks(d) { assert d in all; }
  }

  /** The adapter does not reorder: thinking precedes text in its output exactly when no chunk with
      reasoning comes after one with content. */
  lemma ThinkingBeforeTextExactly(chunks: seq<Option<Chunk>>, end: End, out: seq<StreamEvent>)
    requires IsOutput(chunks, end, out)
    ensures ThinkingFirst(out) <==> ReasoningFirst(chunks)
  {
    hide *;
    ThinkingBeforeTextIff(chunks, end, out);
    OrderOfChunks(chunks);
  }

  // ---------------------------------------------------------------------------------
  // The terminator.
  // ---------------------------------------------------------------------------------

  lemma {:induction false} UsageIsFinal(chunks: seq<Option<Chunk>>)
    ensures IsFinalUsage(chunks, LastUsage(chunks))
  {
    if chunks != [] {
      var n := |chunks| - 1;
      var init := chunks[..n];
      UsageIsFinal(init);
      assert chunks == init + [chunks[n]];
      if UsageIn(chunks[n]).Some? {
        assert LastToReport(chunks, n);
      } else if k: nat :| LastToReport(init, k) && UsageIn(init[k]) == Some(LastUsage(init)) {
        assert LastToReport(chunks, k);
      }
    }
  }

  lemma {:induction false} ReasonIsFinal(chunks: seq<Option<Chunk>>)
    ensures IsFinalReason(chunks, LastReason(chunks))
  {
    if chunks != [] {
      var n := |chunks| - 1;
      var init := chunks[..n];
      ReasonIsFinal(init);
      assert chunks == init + [chunks[n]];
      if ReasonIn(chunks[n]) != "" {
        assert LastToGiveReason(chunks, n);
      } else if k: nat :| LastToGiveReason(init, k) && ReasonIn(init[k]) == LastReason(init) {
        assert LastToGiveReason(chunks, k);
      }
    }
  }

  /** The last event: on EOF a MessageEnd with the usage and the finish reason reported last, and
      after another error that error. */
  lemma TerminatorTells(chunks: seq<Option<Chunk>>, end: End, out: seq<StreamEvent>)
    requires IsOutput(chunks, end, out)
    ensures out != []
    ensures var last := out[|out| - 1];
      && (end.Eof? ==> last.MessageEnd? && IsFinalUsage(chunks, last.usage) && IsFinalReason(chunks, last.stopReason))
      && (end.Fail? ==> last == Error(Some(end.err)))
  {
    UsageIsFinal(chunks);
    ReasonIsFinal(chunks);
  }
}
