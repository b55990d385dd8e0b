/** The two-stage pipeline translateStream → Run reassembles interleaved tool calls: it equals a
    direct fold that never mentions ids as keys, events or maps. */
module Demux {
  import opened Bytes
  import opened Llm
  import opened EinoAdapter
  import opened StreamShape
  import opened ChunkStream
  import A = AgentSpec

  /** The first fragment of every index carries the id and the name. */
  predicate Announced(items: seq<Item>) {
    items == [] ||
    var init, last := items[..|items| - 1], items[|items| - 1];
    && Announced(init)
    && (last.Piece? && IndexOf(last.f) !in Indices(init) ==> last.f.id != "" && last.f.name != "")
  }

  predicate DistinctIds(items: seq<Item>) {
    forall i <- Indices(items), j <- Indices(items) :: i != j ==> FirstId(items, i) != FirstId(items, j)
  }

  function DirectCall(items: seq<Item>, i: int): ToolCall {
    ToolCall(FirstId(items, i), FirstName(items, i), ArgsOf(items, i))
  }

  /** One call per index, in order of first appearance, with all of its argument text. */
  function DirectCalls(items: seq<Item>): (r: seq<ToolCall>)
    ensures |r| == |Indices(items)|
  {
    seq(|Indices(items)|, k requires 0 <= k < |Indices(items)| => DirectCall(items, Indices(items)[k]))
  }

  predicate Oversized(items: seq<Item>, i: int) {
    |ArgsOf(items, i)| > A.MAX_ARGUMENTS
  }

  predicate AnyOversized(items: seq<Item>) {
    exists i <- Indices(items) :: Oversized(items, i)
  }

  // ---------------------------------------------------------------------------------

  lemma {:induction false} AnnouncedKnown(items: seq<Item>, i: int)
    requires Announced(items) && i in Indices(items)
    ensures FirstId(items, i) != "" && FirstName(items, i) != ""
  {
    var init, last := items[..|items| - 1], items[|items| - 1];
    if i in Indices(init) {
      AnnouncedKnown(init, i);
    } else {
      Unseen(init, i);
    }
  }

  lemma {:induction false} Unseen(items: seq<Item>, i: int)
    requires i !in Indices(items)
    ensures FirstId(items, i) == "" && FirstName(items, i) == "" && ArgsOf(items, i) == ""
  {
    if items != [] { Unseen(items[..|items| - 1], i); }
  }

  /** Once an announced index is there, later fragments only add arguments. */
  lemma LaterPiece(items: seq<Item>, i: int)
    requires items != [] && Announced(items)
    requires i in Indices(items[..|items| - 1])
    ensures FirstId(items, i) == FirstId(items[..|items| - 1], i)
    ensures FirstName(items, i) == FirstName(items[..|items| - 1], i)
  {
    AnnouncedKnown(items[..|items| - 1], i);
  }

  lemma DistinctInit(items: seq<Item>)
    requires items != [] && Announced(items) && DistinctIds(items)
    ensures DistinctIds(items[..|items| - 1])
  {
    var init := items[..|items| - 1];
    forall i, j | i in Indices(init) && j in Indices(init) && i != j
      ensures FirstId(init, i) != FirstId(init, j)
    {
      LaterPiece(items, i);
      LaterPiece(items, j);
      assert i in Indices(items) && j in Indices(items);
    }
  }

  // ---------------------------------------------------------------------------------
  // Run's accumulators after the events of some items.
  // ---------------------------------------------------------------------------------

  ghost predicate Holds(acc: A.Acc, items: seq<Item>, i: int) {
    var id := FirstId(items, i);
    id in acc.partials && acc.partials[id] == A.Partial(FirstName(items, i), ArgsOf(items, i))
  }

  ghost predicate Matches(acc: A.Acc, items: seq<Item>) {
    && acc.thinking == ThoughtsIn(items)
    && acc.text == WordsIn(items)
    && |acc.order| == |Indices(items)|
    && (forall k :: 0 <= k < |acc.order| ==> acc.order[k] == FirstId(items, Indices(items)[k]))
    && (forall i <- Indices(items) :: Holds(acc, items, i))
    && (forall id :: id in acc.partials ==> id in acc.order)
  }

  /** What one fragment does to the accumulators, seen through the translator. */
  function Absorb(acc: A.Acc, id: Bytes, name: Bytes, args: Bytes): Option<A.Acc> {
    var a := A.Opened(acc, id, name);
    if args == "" then Some(a) else A.Accumulate(a, ToolCallArgs(id, name, args))
  }

  lemma AccSnoc(evs: seq<StreamEvent>, e: StreamEvent)
    ensures A.AccumulateAll(evs + [e]) ==
      var before := A.AccumulateAll(evs);
      if before.None? then None else A.Accumulate(before.value, e)
  {
    assert (evs + [e])[..|evs|] == evs;
  }

  /** An announced call is started by its first fragment and by no other. */
  lemma StartExactlyFirst(items: seq<Item>)
    requires items != [] && items[|items| - 1].Piece?
    requires Announced(items) && DistinctIds(items)
    ensures var init, f := items[..|items| - 1], items[|items| - 1].f; var i := IndexOf(f);
      var p := Populated(Known(State(init), i), f);
      && p.id == FirstId(items, i) != ""
      && p.name == FirstName(items, i) != ""
      && (Starts(State(init), p) <==> i !in Indices(init))
  {
    var init, f := items[..|items| - 1], items[|items| - 1].f;
    var i := IndexOf(f);
    KnownIsDirect(init, i);
    var id := FirstId(items, i);
    AnnouncedKnown(items, i);
    SeenMeansNamed(init, id);
    if i in Indices(init) {
      LaterPiece(items, i);
      AnnouncedKnown(init, i);
      assert NamedCall(init, id, i);
    } else {
      assert i in Indices(items);
      forall j ensures !NamedCall(init, id, j) {
        if j in Indices(init) {
          LaterPiece(items, j);
          assert j in Indices(items);
        } else {
          Unseen(init, j);
        }
      }
    }
  }

  lemma PieceAbsorbed(items: seq<Item>, acc: A.Acc)
    requires items != [] && items[|items| - 1].Piece?
    requires Announced(items) && DistinctIds(items)
    requires A.AccumulateAll(Events(items[..|items| - 1])) == Some(acc)
    requires Matches(acc, items[..|items| - 1])
    ensures var f := items[|items| - 1].f; var i := IndexOf(f);
      A.AccumulateAll(Events(items)) == Absorb(acc, FirstId(items, i), FirstName(items, i), f.arguments)
  {
    var init, f := items[..|items| - 1], items[|items| - 1].f;
    var i := IndexOf(f);
    var id, name := FirstId(items, i), FirstName(items, i);
    var evs := Events(init);
    StartExactlyFirst(items);
    var start, args := ToolCallStart(id, name, ""), ToolCallArgs(id, name, f.arguments);
    if i in Indices(init) {
      LaterPiece(items, i);
      assert Holds(acc, init, i);
    }
    AccPair(evs, acc, i !in Indices(init), start, f.arguments != "", args);
    assert Emits(State(init), items[|items| - 1]) ==
      (if i !in Indices(init) then [start] else []) + (if f.arguments != "" then [args] else []);
    hide FirstId, FirstName, Indices, State, A.AccumulateAll, Announced, DistinctIds, Populated, Starts, Known;
  }

  /** Accumulating up to two more events, each of which may be missing. */
  lemma AccPair(evs: seq<StreamEvent>, acc: A.Acc, hasA: bool, a: StreamEvent, hasB: bool, b: StreamEvent)
    requires A.AccumulateAll(evs) == Some(acc)
    requires a.ToolCallStart?
    ensures A.AccumulateAll(evs + ((if hasA then [a] else []) + (if hasB then [b] else []))) ==
      var mid := if hasA then A.Opened(acc, a.id, a.name) else acc;
      if hasB then A.Accumulate(mid, b) else Some(mid)
  {
    var mid := if hasA then evs + [a] else evs;
    if hasA { AccSnoc(evs, a); }
    if hasB { AccSnoc(mid, b); }
    assert evs + ((if hasA then [a] else []) + (if hasB then [b] else [])) == if hasB then mid + [b] else mid;
  }

  /** The call of the fragment itself. */
  lemma OwnHolds(items: seq<Item>, acc: A.Acc)
    requires items != [] && items[|items| - 1].Piece?
    requires Announced(items) && DistinctIds(items)
    requires Matches(acc, items[..|items| - 1])
    requires |ArgsOf(items[..|items| - 1], IndexOf(items[|items| - 1].f))| <= A.MAX_ARGUMENTS
    ensures var f := items[|items| - 1].f; var i := IndexOf(f);
      var r := Absorb(acc, FirstId(items, i), FirstName(items, i), f.arguments);
      && (r.None? <==> Oversized(items, i))
      && (r.Some? ==> Holds(r.value, items, i))
      && (r.Some? ==> r.value.order == A.Opened(acc, FirstId(items, i), FirstName(items, i)).order)
  {
    var init, f := items[..|items| - 1], items[|items| - 1].f;
    var i := IndexOf(f);
    OpenedHolds(items, acc);
    assert ArgsOf(items, i) == ArgsOf(init, i) + f.arguments;
    assert f.arguments == "" ==> ArgsOf(items, i) == ArgsOf(init, i);
  }

  /** Absorbing a fragment keeps the accumulators in step, unless its call grows too large. */
  lemma AbsorbMatches(items: seq<Item>, acc: A.Acc)
    requires items != [] && items[|items| - 1].Piece?
    requires Announced(items) && DistinctIds(items)
    requires Matches(acc, items[..|items| - 1])
    requires |ArgsOf(items[..|items| - 1], IndexOf(items[|items| - 1].f))| <= A.MAX_ARGUMENTS
    ensures var f := items[|items| - 1].f; var i := IndexOf(f);
      var r := Absorb(acc, FirstId(items, i), FirstName(items, i), f.arguments);
      && (r.None? <==> Oversized(items, i))
      && (r.Some? ==> Matches(r.value, items))
  {
    var init, f := items[..|items| - 1], items[|items| - 1].f;
    var i := IndexOf(f);
    var id, name := FirstId(items, i), FirstName(items, i);
    var r := Absorb(acc, id, name, f.arguments);
    hide Absorb, Announced, DistinctIds, FirstId, FirstName, ArgsOf;
    OpenedHolds(items, acc);
    OwnHolds(items, acc);
    if r.Some? {
      AbsorbKeepsOthers(acc, id, name, f.arguments);
      OrderMatches(items, acc, r.value);
      forall j | j in Indices(items) ensures Holds(r.value, items, j) {
        if j != i { OtherHolds(items, acc, j); }
      }
    }
  }

  /** A fragment changes nothing but its own call. */
  lemma AbsorbKeepsOthers(acc: A.Acc, id: Bytes, name: Bytes, args: Bytes)
    ensures var r := Absorb(acc, id, name, args);
      r.Some? ==>
        && r.value.thinking == acc.thinking && r.value.text == acc.text
        && r.value.partials.Keys == acc.partials.Keys + {id}
        && (id in acc.partials ==> r.value.order == acc.order)
        && (id !in acc.partials ==> r.value.order == acc.order + [id])
        && forall x <- acc.partials :: x != id ==> r.value.partials[x] == acc.partials[x]
  {
  }

  lemma OrderMatches(items: seq<Item>, acc: A.Acc, b: A.Acc)
    requires items != [] && items[|items| - 1].Piece?
    requires Announced(items) && DistinctIds(items)
    requires Matches(acc, items[..|items| - 1])
    requires var i := IndexOf(items[|items| - 1].f);
      b.order == if i in Indices(items[..|items| - 1]) then acc.order else acc.order + [FirstId(items, i)]
    ensures |b.order| == |Indices(items)|
    ensures forall k :: 0 <= k < |b.order| ==> b.order[k] == FirstId(items, Indices(items)[k])
  {
    var init := items[..|items| - 1];
    forall k | 0 <= k < |b.order| ensures b.order[k] == FirstId(items, Indices(items)[k]) {
      var j := Indices(items)[k];
      if j in Indices(init) { LaterPiece(items, j); }
    }
  }

  /** A fragment of one index leaves the calls of the others alone. */
  lemma OtherHolds(items: seq<Item>, acc: A.Acc, j: int)
    requires items != [] && items[|items| - 1].Piece?
    requires Announced(items) && DistinctIds(items)
    requires Matches(acc, items[..|items| - 1])
    requires j in Indices(items) && j != IndexOf(items[|items| - 1].f)
    ensures Holds(acc, items, j) && FirstId(items, j) != FirstId(items, IndexOf(items[|items| - 1].f))
  {
    LaterPiece(items, j);
    assert Holds(acc, items[..|items| - 1], j);
    assert IndexOf(items[|items| - 1].f) in Indices(items);
  }

  /** After the Start, if there is one, the call is open with the arguments so far. */
  lemma OpenedHolds(items: seq<Item>, acc: A.Acc)
    requires items != [] && items[|items| - 1].Piece?
    requires Announced(items) && DistinctIds(items)
    requires Matches(acc, items[..|items| - 1])
    ensures var init, i := items[..|items| - 1], IndexOf(items[|items| - 1].f);
      var id := FirstId(items, i);
      var a := A.Opened(acc, id, FirstName(items, i));
      && id in a.partials && a.partials[id] == A.Partial(FirstName(items, i), ArgsOf(init, i))
      && a.order == (if i in Indices(init) then acc.order else acc.order + [id])
  {
    var init, i := items[..|items| - 1], IndexOf(items[|items| - 1].f);
    if i in Indices(init) {
      LaterPiece(items, i);
      assert Holds(acc, init, i);
    } else {
      Unseen(init, i);
      NewIdUnknown(items, acc);
    }
  }

  /** The id of an index seen for the first time has not been seen either. */
  lemma NewIdUnknown(items: seq<Item>, acc: A.Acc)
    requires items != [] && items[|items| - 1].Piece?
    requires Announced(items) && DistinctIds(items)
    requires Matches(acc, items[..|items| - 1])
    requires IndexOf(items[|items| - 1].f) !in Indices(items[..|items| - 1])
    ensures FirstId(items, IndexOf(items[|items| - 1].f)) !in acc.partials
  {
    var init, i := items[..|items| - 1], IndexOf(items[|items| - 1].f);
    assert i in Indices(items);
    forall k | 0 <= k < |acc.order| ensures acc.order[k] != FirstId(items, i) {
      var j := Indices(init)[k];
      LaterPiece(items, j);
      assert j in Indices(items);
    }
  }

  lemma {:induction false} Accumulated(items: seq<Item>)
    requires Announced(items) && DistinctIds(items)
    ensures var r := A.AccumulateAll(Events(items));
      && (r.None? <==> AnyOversized(items))
      && (r.Some? ==> Matches(r.value, items))
  {
    if items != [] {
      var init, last := items[..|items| - 1], items[|items| - 1];
      DistinctInit(items);
      Accumulated(init);
      if last.Piece? {
        PieceAccumulated(items);
      } else {
        DeltaAccumulated(items);
      }
    }
  }

  lemma DeltaAccumulated(items: seq<Item>)
    requires items != [] && !items[|items| - 1].Piece?
    requires var init := items[..|items| - 1]; var r := A.AccumulateAll(Events(init));
      && (r.None? <==> AnyOversized(init))
      && (r.Some? ==> Matches(r.value, init))
    ensures var r := A.AccumulateAll(Events(items));
      && (r.None? <==> AnyOversized(items))
      && (r.Some? ==> Matches(r.value, items))
  {
    var init, last := items[..|items| - 1], items[|items| - 1];
    var before := A.AccumulateAll(Events(init));
    var e := if last.Thought? then ThinkingDelta(last.text) else TextDelta(last.text);
    AccSnoc(Events(init), e);
    assert Events(items) == Events(init) + [e];
    assert forall i :: Oversized(items, i) <==> Oversized(init, i);
    if before.Some? { DeltaMatches(items, before.value, e); }
  }

  lemma DeltaMatches(items: seq<Item>, acc: A.Acc, e: StreamEvent)
    requires items != [] && !items[|items| - 1].Piece?
    requires Emits(State(items[..|items| - 1]), items[|items| - 1]) == [e]
    requires Matches(acc, items[..|items| - 1])
    ensures A.Accumulate(acc, e).Some? && Matches(A.Accumulate(acc, e).value, items)
  {
    var init := items[..|items| - 1];
    var after := A.Accumulate(acc, e).value;
    forall i | i in Indices(items) ensures Holds(after, items, i) {
      assert Holds(acc, init, i);
    }
  }

  lemma PieceAccumulated(items: seq<Item>)
    requires items != [] && items[|items| - 1].Piece?
    requires Announced(items) && DistinctIds(items)
    requires var init := items[..|items| - 1]; var r := A.AccumulateAll(Events(init));
      && (r.None? <==> AnyOversized(init))
      && (r.Some? ==> Matches(r.value, init))
    ensures var r := A.AccumulateAll(Events(items));
      && (r.None? <==> AnyOversized(items))
      && (r.Some? ==> Matches(r.value, items))
  {
    var init, f := items[..|items| - 1], items[|items| - 1].f;
    var i := IndexOf(f);
    var before := A.AccumulateAll(Events(init));
    if before.None? {
      NoneStays(Events(init), Emits(State(init), items[|items| - 1]));
      var j :| j in Indices(init) && Oversized(init, j);
      assert j in Indices(items) && Oversized(items, j);
    } else {
      if i !in Indices(init) { Unseen(init, i); }
      assert !Oversized(init, i);
      PieceAbsorbed(items, before.value);
      AbsorbMatches(items, before.value);
      forall j | j in Indices(items) && j != i ensures !Oversized(items, j) {
        assert j in Indices(init) && !Oversized(init, j);
      }
      assert i in Indices(items);
    }
  }

  lemma {:induction false} NoneStays(a: seq<StreamEvent>, b: seq<StreamEvent>)
    requires A.AccumulateAll(a).None?
    ensures A.AccumulateAll(a + b).None?
  {
    if b == [] {
      assert a + b == a;
    } else {
      NoneStays(a, b[..|b| - 1]);
      assert (a + b)[..|a + b| - 1] == a + b[..|b| - 1];
    }
  }

  /** End and terminator events do not touch the accumulators, in whatever order they come. */
  lemma {:induction false} ClosingIgnored(a: seq<StreamEvent>, b: seq<StreamEvent>)
    requires forall e <- b :: e.ToolCallEnd? || IsTerminator(e)
    ensures A.AccumulateAll(a + b) == A.AccumulateAll(a)
  {
    if b == [] {
      assert a + b == a;
    } else {
      var n := |b| - 1;
      ClosingIgnored(a, b[..n]);
      assert b[n] in b;
      assert a + b == a + b[..n] + [b[n]];
      AccSnoc(a + b[..n], b[n]);
    }
  }

  lemma {:induction false} CallingAnnounced(items: seq<Item>)
    ensures Announced(Calling(items)) <==> Announced(items)
  {
    if items != [] {
      CallingAnnounced(items[..|items| - 1]);
      CallingSnoc(items);
      SameCalls(items[..|items| - 1], 0);
      hide Calling;
    }
  }

  /** Only the fragments matter to the calls. */
  lemma CallingFolds(items: seq<Item>)
    ensures DistinctIds(Calling(items)) <==> DistinctIds(items)
    ensures AnyOversized(Calling(items)) <==> AnyOversized(items)
    ensures DirectCalls(Calling(items)) == DirectCalls(items)
  {
    forall i
      ensures Indices(Calling(items)) == Indices(items)
      ensures FirstId(Calling(items), i) == FirstId(items, i)
      ensures DirectCall(Calling(items), i) == DirectCall(items, i)
      ensures Oversized(Calling(items), i) == Oversized(items, i)
    {
      SameCalls(items, i);
    }
    hide Calling, Indices, FirstId, DirectCall, Oversized;
  }

  /** For any chunks whose fragments announce their calls under distinct ids, however these are
      interleaved with each other and with text, and for any order of the closing Ends, the
      reassembled message is the direct fold over the chunks: their content, their reasoning, and
      one call per index with all of its arguments; it is given up exactly when some call's
      arguments exceed the cap in total. */
  lemma DemuxEqualsDirectFold(chunks: seq<Option<Chunk>>, end: End, out: seq<StreamEvent>)
    requires IsOutput(chunks, end, out)
    requires Announced(CallsOf(chunks)) && DistinctIds(CallsOf(chunks))
    ensures var r := A.AccumulateAll(out);
      && (r.None? <==> AnyOversized(CallsOf(chunks)))
      && (r.Some? ==>
            && A.Calls(r.value) == DirectCalls(CallsOf(chunks))
            && r.value.thinking == ReasoningOf(chunks)
            && r.value.text == ContentOf(chunks))
  {
    hide Items, Events, Announced, DistinctIds, DirectCalls, Calling, CallsOf, AnyOversized;
    var items := Items(chunks);
    CallsOfItems(chunks);
    ItemsCarryChunks(chunks);
    CallingAnnounced(items);
    CallingFolds(items);
    var body, ends := OutputShape(chunks, end, out);
    var closing := ends + [out[|out| - 1]];
    assert out == body + closing;
    ClosingIgnored(body, closing);
    Accumulated(items);
    var r := A.AccumulateAll(body);
    if r.Some? { MatchingCalls(r.value, items); }
  }

  lemma MatchingCalls(acc: A.Acc, items: seq<Item>)
    requires Matches(acc, items)
    ensures A.Calls(acc) == DirectCalls(items)
  {
    forall k | 0 <= k < |Indices(items)| ensures A.Calls(acc)[k] == DirectCalls(items)[k] {
      assert Holds(acc, items, Indices(items)[k]);
    }
  }
}
