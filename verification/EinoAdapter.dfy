/** `translateStream` of internal/llm/eino_adapter.go: provider chunks to stream events. */
module EinoAdapter {
  import opened Bytes
  import opened Llm

  /** One tool-call fragment of a chunk; providers identify the call by index. */
  datatype Fragment = Fragment(index: Option<int>, id: Bytes, name: Bytes, arguments: Bytes)

  datatype Meta = Meta(usage: Option<Usage>, finishReason: Bytes)

  datatype Chunk = Chunk(reasoning: Bytes, content: Bytes, toolCalls: seq<Fragment>, meta: Option<Meta>)

  /** How the reader ends: io.EOF, or another error. */
  datatype End = Eof | Fail(err: Bytes)

  /** What is known about the call at one index. */
  datatype PartialCall = PartialCall(id: Bytes, name: Bytes, argsSeen: Bytes)

  const UNKNOWN := PartialCall("", "", "")

  datatype Translator = Translator(seenTool: set<Bytes>, byIndex: map<int, PartialCall>)

  const START := Translator({}, map[])

  function IndexOf(f: Fragment): int {
    if f.index.None? then 0 else f.index.value
  }

  function Known(t: Translator, i: int): PartialCall {
    if i in t.byIndex then t.byIndex[i] else UNKNOWN
  }

  function Populated(p: PartialCall, f: Fragment): PartialCall {
    PartialCall(
      if f.id != "" && p.id == "" then f.id else p.id,
      if f.name != "" && p.name == "" then f.name else p.name,
      p.argsSeen + f.arguments)
  }

  predicate Starts(t: Translator, p: PartialCall) {
    p.id != "" && p.name != "" && p.id !in t.seenTool
  }

  /** The pieces of a chunk in the order they are translated. */
  datatype Item = Thought(text: Bytes) | Words(text: Bytes) | Piece(f: Fragment)

  function Next(t: Translator, x: Item): Translator {
    match x
    case Piece(f) =>
      var p := Populated(Known(t, IndexOf(f)), f);
      Translator(if Starts(t, p) then t.seenTool + {p.id} else t.seenTool, t.byIndex[IndexOf(f) := p])
    case _ => t
  }

  function Emits(t: Translator, x: Item): seq<StreamEvent> {
    match x
    case Thought(s) => [ThinkingDelta(s)]
    case Words(s) => [TextDelta(s)]
    case Piece(f) =>
      var p := Populated(Known(t, IndexOf(f)), f);
      (if Starts(t, p) then [ToolCallStart(p.id, p.name, "")] else []) +
      (if f.arguments != "" && p.id != "" then [ToolCallArgs(p.id, p.name, f.arguments)] else [])
  }

  function State(items: seq<Item>): Translator {
    if items == [] then START else Next(State(items[..|items| - 1]), items[|items| - 1])
  }

  /** Everything emitted before the end of the stream. */
  function Events(items: seq<Item>): seq<StreamEvent> {
    if items == [] then []
    else
      var init := items[..|items| - 1];
      Events(init) + Emits(State(init), items[|items| - 1])
  }

  function Pieces(fs: seq<Fragment>): (r: seq<Item>)
    ensures |r| == |fs| && forall k :: 0 <= k < |fs| ==> r[k] == Piece(fs[k])
  {
    seq(|fs|, k requires 0 <= k < |fs| => Piece(fs[k]))
  }

  function ItemsOf(chunk: Option<Chunk>): seq<Item> {
    match chunk
    case None => []
    case Some(c) =>
      (if c.reasoning != "" then [Thought(c.reasoning)] else []) +
      (if c.content != "" then [Words(c.content)] else []) +
      Pieces(c.toolCalls)
  }

  function Items(chunks: seq<Option<Chunk>>): seq<Item> {
    if chunks == [] then [] else Items(chunks[..|chunks| - 1]) + ItemsOf(chunks[|chunks| - 1])
  }

  /** The usage and the finish reason reported last. */
  function LastUsage(chunks: seq<Option<Chunk>>): Usage {
    if chunks == [] then Usage(0, 0)
    else match chunks[|chunks| - 1]
      case Some(Chunk(_, _, _, Some(Meta(Some(u), _)))) => u
      case _ => LastUsage(chunks[..|chunks| - 1])
  }

  function LastReason(chunks: seq<Option<Chunk>>): Bytes {
    if chunks == [] then ""
    else match chunks[|chunks| - 1]
      case Some(Chunk(_, _, _, Some(m))) =>
        if m.finishReason != "" then m.finishReason else LastReason(chunks[..|chunks| - 1])
      case _ => LastReason(chunks[..|chunks| - 1])
  }

  /** An order in which ranging over a map can yield its keys. */
  predicate IsEnumeration(order: seq<int>, keys: set<int>) {
    && (forall i, j :: 0 <= i < j < |order| ==> order[i] != order[j])
    && (forall i :: 0 <= i < |order| ==> order[i] in keys)
    && |order| == |keys|
  }

  function EndEvents(t: Translator, order: seq<int>): (evs: seq<StreamEvent>)
    ensures |evs| == |order|
    ensures forall k :: 0 <= k < |order| ==>
      evs[k] == ToolCallEnd(Known(t, order[k]).id, Known(t, order[k]).name, "", "")
  {
    seq(|order|, k requires 0 <= k < |order| =>
      ToolCallEnd(Known(t, order[k]).id, Known(t, order[k]).name, "", ""))
  }

  function Terminated(chunks: seq<Option<Chunk>>, end: End, order: seq<int>): seq<StreamEvent> {
    var items := Items(chunks);
    match end
    case Eof => Events(items) + EndEvents(State(items), order) + [MessageEnd(LastUsage(chunks), LastReason(chunks))]
    case Fail(err) => Events(items) + [Error(Some(err))]
  }

  /** `out` is a possible output of translateStream; only the map order is left open. */
  ghost predicate IsOutput(chunks: seq<Option<Chunk>>, end: End, out: seq<StreamEvent>) {
    exists order :: IsEnumeration(order, State(Items(chunks)).byIndex.Keys) && out == Terminated(chunks, end, order)
  }

  // ---------------------------------------------------------------------------------
  // The translator's loop.
  // ---------------------------------------------------------------------------------

  class Translation {
    var seenTool: set<Bytes>
    var byIndex: map<int, PartialCall>
    var finalUsage: Usage
    var finalReason: Bytes
    var out: seq<StreamEvent>

    ghost var done: seq<Item>   // what has been translated so far

    ghost predicate Valid()
      reads this
    {
      View() == State(done) && out == Events(done)
    }

    constructor ()
      ensures Valid() && done == []
      ensures finalUsage == Usage(0, 0) && finalReason == ""
    {
      seenTool, byIndex, finalUsage, finalReason, out := {}, map[], Usage(0, 0), "", [];
      done := [];
    }

    function View(): Translator
      reads this
    {
      Translator(seenTool, byIndex)
    }

    method Emit(ev: StreamEvent)
      modifies `out
      ensures out == old(out) + [ev]
    {
      out := out + [ev];
    }

    ghost method Done(x: Item, t: Translator, sent: seq<StreamEvent>)
      requires t == State(done) && sent == Events(done)
      requires View() == Next(t, x) && out == sent + Emits(t, x)
      modifies `done
      ensures Valid() && done == old(done) + [x]
    {
      Snoc(done, x);
      done := done + [x];
    }

    /** Populate the partial call of a fragment's index. */
    method Populate(tc: Fragment) returns (cur: PartialCall)
      modifies `byIndex
      ensures cur == Populated(Known(old(View()), IndexOf(tc)), tc)
      ensures byIndex == old(byIndex)[IndexOf(tc) := cur]
    {
      var idx := 0;
      if tc.index.Some? { idx := tc.index.value; }
      cur := if idx in byIndex then byIndex[idx] else PartialCall("", "", "");
      if tc.id != "" && cur.id == "" { cur := cur.(id := tc.id); }
      if tc.name != "" && cur.name == "" { cur := cur.(name := tc.name); }
      assert tc.arguments == "" ==> cur.argsSeen + tc.arguments == cur.argsSeen;
      if tc.arguments != "" { cur := cur.(argsSeen := cur.argsSeen + tc.arguments); }
      byIndex := byIndex[idx := cur];
    }

    /** The body of the loop over a chunk's tool-call fragments. */
    method OnFragment(tc: Fragment)
      requires Valid()
      modifies `seenTool, `byIndex, `out, `done
      ensures Valid() && done == old(done) + [Piece(tc)]
    {
      ghost var t, sent := View(), out;
      var cur := Populate(tc);
      ghost var start: seq<StreamEvent> := [];
      if cur.id != "" && cur.name != "" && cur.id !in seenTool {
        seenTool := seenTool + {cur.id};
        Emit(ToolCallStart(cur.id, cur.name, ""));
        start := [ToolCallStart(cur.id, cur.name, "")];
      }
      assert out == sent + start;
      if tc.arguments != "" && cur.id != "" {
        Emit(ToolCallArgs(cur.id, cur.name, tc.arguments));
        assert out == sent + (start + [ToolCallArgs(cur.id, cur.name, tc.arguments)]);
      }
      Done(Piece(tc), t, sent);
    }

    method OnFragments(fs: seq<Fragment>)
      requires Valid()
      modifies `seenTool, `byIndex, `out, `done
      ensures Valid() && done == old(done) + Pieces(fs)
    {
      for k := 0 to |fs|
        invariant Valid() && done == old(done) + Pieces(fs[..k])
      {
        OnFragment(fs[k]);
        OneMorePiece(old(done), fs, k);
      }
      assert fs[..|fs|] == fs;
    }

    method OnDelta(x: Item)
      requires Valid() && !x.Piece?
      modifies `out, `done
      ensures Valid() && done == old(done) + if x.text != "" then [x] else []
    {
      if x.text != "" {
        Emit(if x.Thought? then ThinkingDelta(x.text) else TextDelta(x.text));
        Done(x, View(), old(out));
      }
    }

    /** The loop body for one non-nil chunk. */
    method OnChunk(chunk: Chunk)
      requires Valid()
      modifies `seenTool, `byIndex, `out, `done
      ensures Valid() && done == old(done) + ItemsOf(Some(chunk))
    {
      ghost var thoughts := if chunk.reasoning != "" then [Thought(chunk.reasoning)] else [];
      ghost var words := if chunk.content != "" then [Words(chunk.content)] else [];
      OnDelta(Thought(chunk.reasoning));
      OnDelta(Words(chunk.content));
      OnFragments(chunk.toolCalls);
      assert done == old(done) + thoughts + words + Pieces(chunk.toolCalls);
      ConcatFour(old(done), thoughts, words, Pieces(chunk.toolCalls));
    }

    method OnMeta(meta: Option<Meta>)
      modifies `finalUsage, `finalReason
      ensures finalUsage == if meta.Some? && meta.value.usage.Some? then meta.value.usage.value else old(finalUsage)
      ensures finalReason == if meta.Some? && meta.value.finishReason != "" then meta.value.finishReason else old(finalReason)
    {
      if meta.Some? {
        if meta.value.usage.Some? { finalUsage := meta.value.usage.value; }
        if meta.value.finishReason != "" { finalReason := meta.value.finishReason; }
      }
    }

    /** The closing range over `byIndex`, in whatever order the map yields its keys. */
    method CloseCalls() returns (ghost order: seq<int>)
      modifies `out
      ensures IsEnumeration(order, byIndex.Keys)
      ensures out == old(out) + EndEvents(View(), order)
    {
      order := [];
      var todo := byIndex.Keys;
      while todo != {}
        invariant todo <= byIndex.Keys
        invariant forall i :: 0 <= i < |order| ==> order[i] in byIndex.Keys && order[i] !in todo
        invariant forall i, j :: 0 <= i < j < |order| ==> order[i] != order[j]
        invariant |order| + |todo| == |byIndex.Keys|
        invariant out == old(out) + EndEvents(View(), order)
        decreases |todo|
      {
        Inhabited(todo);
        var k :| k in todo;
        var tc := byIndex[k];
        assert EndEvents(View(), order + [k]) == EndEvents(View(), order) + [ToolCallEnd(tc.id, tc.name, "", "")];
        out := out + [ToolCallEnd(tc.id, tc.name, "", "")];
        order := order + [k];
        todo := todo - {k};
      }
    }
  }

  lemma OneMorePiece(before: seq<Item>, fs: seq<Fragment>, k: nat)
    requires k < |fs|
    ensures before + Pieces(fs[..k]) + [Piece(fs[k])] == before + Pieces(fs[..k + 1])
  {
  }

  lemma ConcatFour(a: seq<Item>, b: seq<Item>, c: seq<Item>, d: seq<Item>)
    ensures a + b + c + d == a + (b + c + d)
  {
  }

  lemma Snoc(items: seq<Item>, x: Item)
    ensures State(items + [x]) == Next(State(items), x)
    ensures Events(items + [x]) == Events(items) + Emits(State(items), x)
  {
    assert (items + [x])[..|items|] == items;
  }

  method TranslateStream(reader: seq<Option<Chunk>>, end: End) returns (out: seq<StreamEvent>)
    ensures IsOutput(reader, end, out)
  {
    var t := new Translation();
    for k := 0 to |reader|
      invariant fresh(t)
      invariant t.Valid() && t.done == Items(reader[..k])
      invariant t.finalUsage == LastUsage(reader[..k]) && t.finalReason == LastReason(reader[..k])
    {
      assert reader[..k + 1][..k] == reader[..k] && reader[..k + 1][k] == reader[k];
      assert Items(reader[..k + 1]) == t.done + ItemsOf(reader[k]);
      if reader[k].Some? {
        t.OnChunk(reader[k].value);
        t.OnMeta(reader[k].value.meta);
      }
    }
    assert reader[..|reader|] == reader;
    if end.Eof? {
      ghost var order := t.CloseCalls();
      out := t.out + [MessageEnd(t.finalUsage, t.finalReason)];
      assert out == Terminated(reader, end, order);
    } else {
      out := t.out + [Error(Some(end.err))];
      ghost var order := AnyOrder(t.byIndex.Keys);
      assert out == Terminated(reader, end, order);
    }
  }

  lemma Inhabited(keys: set<int>)
    ensures keys == {} || exists k :: k in keys
  {
    if !exists k :: k in keys { assert keys == {}; }
  }

  lemma AnyOrder(keys: set<int>) returns (order: seq<int>)
    ensures IsEnumeration(order, keys)
  {
    if keys == {} {
      order := [];
    } else {
      Inhabited(keys);
      var k :| k in keys;
      var rest := AnyOrder(keys - {k});
      order := [k] + rest;
    }
  }
}
