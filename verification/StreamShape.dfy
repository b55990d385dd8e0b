/** What the event stream of translateStream looks like for arbitrary chunks: the invariants
    promised in internal/llm/types.go:83-89, with the exact condition where one can fail. */
module StreamShape {
  import opened Bytes
  import opened Llm
  import opened EinoAdapter

  // ---------------------------------------------------------------------------------
  // What the fragments say, read directly.
  // ---------------------------------------------------------------------------------

  /** A fragment of this index; one without an index belongs to index 0. */
  predicate IsPieceOf(x: Item, i: int) {
    x.Piece? && (x.f.index == Some(i) || (x.f.index.None? && i == 0))
  }

  /** The call indices in order of first appearance. */
  function Indices(items: seq<Item>): seq<int> {
    if items == [] then []
    else
      var init, last := Indices(items[..|items| - 1]), items[|items| - 1];
      if last.Piece? && IndexOf(last.f) !in init then init + [IndexOf(last.f)] else init
  }

  /** The first non-empty id, and the first non-empty name, among the fragments of an index. */
  function FirstId(items: seq<Item>, i: int): Bytes {
    if items == [] then ""
    else
      var before, last := FirstId(items[..|items| - 1], i), items[|items| - 1];
      if before == "" && IsPieceOf(last, i) then last.f.id else before
  }

  function FirstName(items: seq<Item>, i: int): Bytes {
    if items == [] then ""
    else
      var before, last := FirstName(items[..|items| - 1], i), items[|items| - 1];
      if before == "" && IsPieceOf(last, i) then last.f.name else before
  }

  /** All argument text of an index, in order. */
  function ArgsOf(items: seq<Item>, i: int): Bytes {
    if items == [] then ""
    else
      var before, last := ArgsOf(items[..|items| - 1], i), items[|items| - 1];
      if IsPieceOf(last, i) then before + last.f.arguments else before
  }

  /** The argument text that arrives before the id of the index is known. */
  function EarlyArgs(items: seq<Item>, i: int): Bytes {
    if items == [] then ""
    else
      var before, last := EarlyArgs(items[..|items| - 1], i), items[|items| - 1];
      if IsPieceOf(last, i) && FirstId(items, i) == "" then before + last.f.arguments else before
  }

  // ---------------------------------------------------------------------------------
  // The translator knows exactly that.
  // ---------------------------------------------------------------------------------

  lemma {:induction false} KnownIsDirect(items: seq<Item>, i: int)
    ensures Known(State(items), i) == PartialCall(FirstId(items, i), FirstName(items, i), ArgsOf(items, i))
    ensures i in State(items).byIndex <==> i in Indices(items)
  {
    if items != [] {
      KnownIsDirect(items[..|items| - 1], i);
    }
  }

  lemma {:induction false} IndicesDistinct(items: seq<Item>)
    ensures forall j, k :: 0 <= j < k < |Indices(items)| ==> Indices(items)[j] != Indices(items)[k]
  {
    if items != [] { IndicesDistinct(items[..|items| - 1]); }
  }

  lemma IndicesAreKeys(items: seq<Item>)
    ensures IsEnumeration(Indices(items), State(items).byIndex.Keys)
  {
    var order, keys := Indices(items), State(items).byIndex.Keys;
    IndicesDistinct(items);
    forall i ensures i in keys <==> i in order { KnownIsDirect(items, i); }
    EnumerationLength(order, keys);
  }

  lemma {:induction false} EnumerationLength(order: seq<int>, keys: set<int>)
    requires forall j, k :: 0 <= j < k < |order| ==> order[j] != order[k]
    requires forall i :: i in keys <==> i in order
    ensures |order| == |keys|
  {
    if order == [] {
      Inhabited(keys);
    } else {
      var n := |order| - 1;
      forall i ensures i in keys - {order[n]} <==> i in order[..n] {
        assert i in order <==> i == order[n] || i in order[..n];
      }
      EnumerationLength(order[..n], keys - {order[n]});
    }
  }

  // ---------------------------------------------------------------------------------
  // Exactly one terminator, and it is last; one End per index, behind all Starts and Args.
  // ---------------------------------------------------------------------------------

  lemma {:induction false} BodyHasNoEnd(items: seq<Item>)
    ensures forall e <- Events(items) :: !IsTerminator(e) && !e.ToolCallEnd?
  {
    if items != [] { BodyHasNoEnd(items[..|items| - 1]); }
  }

  /** One End per index seen, with what the fragments say its id and name are. */
  function DirectEnds(items: seq<Item>): (r: seq<StreamEvent>)
    ensures |r| == |Indices(items)|
    ensures forall k :: 0 <= k < |r| ==>
      r[k] == ToolCallEnd(FirstId(items, Indices(items)[k]), FirstName(items, Indices(items)[k]), "", "")
  {
    seq(|Indices(items)|, k requires 0 <= k < |Indices(items)| =>
      ToolCallEnd(FirstId(items, Indices(items)[k]), FirstName(items, Indices(items)[k]), "", ""))
  }

  /** How an output is put together: a body of deltas, Starts and Args; on EOF the closing
      Ends, one per index seen, in any order and also where indices share an id; one terminator. */
  lemma OutputShape(chunks: seq<Option<Chunk>>, end: End, out: seq<StreamEvent>) returns (body: seq<StreamEvent>, ends: seq<StreamEvent>)
    requires IsOutput(chunks, end, out)
    ensures |out| == |body| + |ends| + 1 && out == body + ends + [out[|out| - 1]]
    ensures body == Events(Items(chunks))
    ensures forall e <- body :: !IsTerminator(e) && !e.ToolCallEnd?
    ensures forall e <- ends :: e.ToolCallEnd?
    ensures out[|out| - 1].MessageEnd? <==> end.Eof?
    ensures out[|out| - 1].Error? <==> end.Fail?
    ensures end.Eof? ==> multiset(ends) == multiset(DirectEnds(Items(chunks)))
    ensures end.Fail? ==> ends == []
  {
    var items := Items(chunks);
    var order :| IsEnumeration(order, State(items).byIndex.Keys) && out == Terminated(chunks, end, order);
    body := Events(items);
    ends := if end.Eof? then EndEvents(State(items), order) else [];
    BodyHasNoEnd(items);
    IndicesAreKeys(items);
    if end.Eof? { EndsCover(items, order); }
  }

  lemma EndsCover(items: seq<Item>, order: seq<int>)
    requires IsEnumeration(order, State(items).byIndex.Keys)
    ensures multiset(EndEvents(State(items), order)) == multiset(DirectEnds(items))
  {
    IndicesAreKeys(items);
    SameEnds(State(items), order, Indices(items), State(items).byIndex.Keys);
    forall k | 0 <= k < |Indices(items)| ensures EndEvents(State(items), Indices(items))[k] == DirectEnds(items)[k] {
      KnownIsDirect(items, Indices(items)[k]);
    }
    assert EndEvents(State(items), Indices(items)) == DirectEnds(items);
  }

  /** The order in which the map yields the indices does not matter to the Ends as a whole. */
  lemma {:induction false} SameEnds(t: Translator, a: seq<int>, b: seq<int>, keys: set<int>)
    requires IsEnumeration(a, keys) && IsEnumeration(b, keys)
    ensures multiset(EndEvents(t, a)) == multiset(EndEvents(t, b))
    decreases |a|
  {
    if a != [] {
      var n := |a| - 1;
      EnumerationCovers(b, keys, a[n]);
      var k :| 0 <= k < |b| && b[k] == a[n];
      var b' := b[..k] + b[k + 1..];
      WithoutOne(a, n, keys);
      WithoutOne(b, k, keys);
      assert a[..n] + a[n + 1..] == a[..n];
      SameEnds(t, a[..n], b', keys - {a[n]});
      EndsWithout(t, a, n);
      EndsWithout(t, b, k);
    }
  }

  lemma WithoutOne(a: seq<int>, k: nat, keys: set<int>)
    requires IsEnumeration(a, keys) && k < |a|
    ensures IsEnumeration(a[..k] + a[k + 1..], keys - {a[k]})
  {
  }

  lemma EndsWithout(t: Translator, a: seq<int>, k: nat)
    requires k < |a|
    ensures multiset(EndEvents(t, a)) == multiset(EndEvents(t, a[..k] + a[k + 1..])) + multiset{EndEvents(t, a)[k]}
    ensures EndEvents(t, a)[k] == ToolCallEnd(Known(t, a[k]).id, Known(t, a[k]).name, "", "")
  {
    hide Known;
    var ends := EndEvents(t, a);
    assert ends == ends[..k] + [ends[k]] + ends[k + 1..];
    assert EndEvents(t, a[..k] + a[k + 1..]) == ends[..k] + ends[k + 1..];
  }

  lemma {:induction false} EnumerationCovers(order: seq<int>, keys: set<int>, i: int)
    requires IsEnumeration(order, keys) && i in keys
    ensures i in order
  {
    if i !in order {
      assert IsEnumeration(order, keys) && |keys - {i}| == |keys| - 1;
      EnumerationFits(order, keys - {i});
    }
  }

  lemma {:induction false} EnumerationFits(order: seq<int>, keys: set<int>)
    requires forall j, k :: 0 <= j < k < |order| ==> order[j] != order[k]
    requires forall j :: 0 <= j < |order| ==> order[j] in keys
    ensures |order| <= |keys|
  {
    if order != [] {
      var n := |order| - 1;
      EnumerationFits(order[..n], keys - {order[n]});
    }
  }

  // ---------------------------------------------------------------------------------
  // At most one Start per id.
  // ---------------------------------------------------------------------------------

  function CountStarts(evs: seq<StreamEvent>, id: Bytes): nat {
    if evs == [] then 0
    else
      var last := evs[|evs| - 1];
      CountStarts(evs[..|evs| - 1], id) + if last.ToolCallStart? && last.id == id then 1 else 0
  }

  lemma {:induction false} CountStartsAppend(a: seq<StreamEvent>, b: seq<StreamEvent>, id: Bytes)
    ensures CountStarts(a + b, id) == CountStarts(a, id) + CountStarts(b, id)
  {
    if b == [] {
      assert a + b == a;
    } else {
      assert (a + b)[..|a + b| - 1] == a + b[..|b| - 1];
      CountStartsAppend(a, b[..|b| - 1], id);
    }
  }

  lemma StartsOfItem(t: Translator, x: Item, id: Bytes)
    ensures CountStarts(Emits(t, x), id) ==
      if id in Next(t, x).seenTool && id !in t.seenTool then 1 else 0
  {
    var evs := Emits(t, x);
    if |evs| == 1 {
      CountOne(evs[0], id);
      assert evs == [evs[0]];
    } else if |evs| == 2 {
      CountOne(evs[0], id);
      CountOne(evs[1], id);
      CountStartsAppend([evs[0]], [evs[1]], id);
      assert evs == [evs[0]] + [evs[1]];
    }
  }

  lemma CountOne(e: StreamEvent, id: Bytes)
    ensures CountStarts([e], id) == if e.ToolCallStart? && e.id == id then 1 else 0
  {
    assert [e][..0] == [];
  }

  /** An id gets its Start once: as soon as it has been seen complete. */
  lemma {:induction false} OneStartPerId(items: seq<Item>, id: Bytes)
    ensures CountStarts(Events(items), id) == if id in State(items).seenTool then 1 else 0
  {
    if items != [] {
      var init, last := items[..|items| - 1], items[|items| - 1];
      OneStartPerId(init, id);
      CountStartsAppend(Events(init), Emits(State(init), last), id);
      StartsOfItem(State(init), last, id);
    }
  }

  lemma {:induction false} NoStarts(evs: seq<StreamEvent>, id: Bytes)
    requires forall e <- evs :: !e.ToolCallStart?
    ensures CountStarts(evs, id) == 0
  {
    if evs != [] { NoStarts(evs[..|evs| - 1], id); }
  }

  lemma OnlyClosing(ends: seq<StreamEvent>, last: StreamEvent)
    requires (forall e <- ends :: e.ToolCallEnd?) && IsTerminator(last)
    ensures forall e <- ends + [last] :: e.ToolCallEnd? || IsTerminator(e)
  {
  }

  lemma AtMostOneStartPerId(chunks: seq<Option<Chunk>>, end: End, out: seq<StreamEvent>, id: Bytes)
    requires IsOutput(chunks, end, out)
    ensures CountStarts(out, id) <= 1
  {
    var body, ends := OutputShape(chunks, end, out);
    var closing := ends + [out[|out| - 1]];
    assert out == body + closing;
    OneStartPerId(Items(chunks), id);
    OnlyClosing(ends, out[|out| - 1]);
    NoStarts(closing, id);
    CountStartsAppend(body, closing, id);
  }

  // ---------------------------------------------------------------------------------
  // Which argument text comes through.
  // ---------------------------------------------------------------------------------

  function DeltasOf(evs: seq<StreamEvent>): Bytes {
    if evs == [] then ""
    else
      var last := evs[|evs| - 1];
      DeltasOf(evs[..|evs| - 1]) + if last.ToolCallArgs? then last.delta else ""
  }

  /** The Args deltas emitted while fragments of index `i` are translated. */
  function EmittedArgs(items: seq<Item>, i: int): Bytes {
    if items == [] then ""
    else
      var init, last := items[..|items| - 1], items[|items| - 1];
      EmittedArgs(init, i) + if IsPieceOf(last, i) then DeltasOf(Emits(State(init), last)) else ""
  }

  lemma DeltasSnoc(evs: seq<StreamEvent>, e: StreamEvent)
    ensures DeltasOf(evs + [e]) == DeltasOf(evs) + if e.ToolCallArgs? then e.delta else ""
  {
    assert (evs + [e])[..|evs|] == evs;
  }

  /** A Start and an Args event, each of which may be missing. */
  lemma DeltasOfPair(hasStart: bool, start: StreamEvent, hasArgs: bool, args: StreamEvent)
    requires start.ToolCallStart? && args.ToolCallArgs?
    ensures DeltasOf((if hasStart then [start] else []) + (if hasArgs then [args] else [])) ==
      if hasArgs then args.delta else ""
  {
    var one := if hasStart then [start] else [];
    if hasStart { DeltasSnoc([], start); assert [] + [start] == [start]; }
    assert DeltasOf(one) == "";
    if hasArgs { DeltasSnoc(one, args); } else { assert one + [] == one; }
  }

  lemma DeltasOfPiece(t: Translator, f: Fragment)
    ensures DeltasOf(Emits(t, Piece(f))) ==
      if Populated(Known(t, IndexOf(f)), f).id == "" then "" else f.arguments
  {
    var p := Populated(Known(t, IndexOf(f)), f);
    DeltasOfPair(Starts(t, p), ToolCallStart(p.id, p.name, ""),
                 f.arguments != "" && p.id != "", ToolCallArgs(p.id, p.name, f.arguments));
  }

  lemma OneMorePart(early: Bytes, late: Bytes, part: Bytes)
    ensures early + late + part == early + (late + part)
    ensures late == "" ==> early + late + part == early + part
    ensures late + "" == late
  {
  }

  /** Only what precedes the fragment that brings the id is lost. */
  lemma {:induction false} ArgsFromIdOn(items: seq<Item>, i: int)
    ensures ArgsOf(items, i) == EarlyArgs(items, i) + EmittedArgs(items, i)
    ensures FirstId(items, i) == "" ==> EmittedArgs(items, i) == ""
  {
    if items != [] {
      var init, last := items[..|items| - 1], items[|items| - 1];
      ArgsFromIdOn(init, i);
      if IsPieceOf(last, i) {
        KnownIsDirect(init, i);
        DeltasOfPiece(State(init), last.f);
        assert Populated(Known(State(init), i), last.f).id == FirstId(items, i);
        OneMorePart(EarlyArgs(init, i), EmittedArgs(init, i), last.f.arguments);
      } else {
        assert EmittedArgs(items, i) == EmittedArgs(init, i);
      }
    }
  }

  // ---------------------------------------------------------------------------------
  // Start before Args: promised, but only true when names arrive in time.
  // ---------------------------------------------------------------------------------

  /** Every Args event comes after the Start of its id. */
  predicate StartsFirst(evs: seq<StreamEvent>) {
    evs == [] ||
    var init, last := evs[..|evs| - 1], evs[|evs| - 1];
    StartsFirst(init) && (last.ToolCallArgs? ==> CountStarts(init, last.id) > 0)
  }

  predicate NamedCall(items: seq<Item>, id: Bytes, i: int) {
    FirstId(items, i) == id && FirstName(items, i) != ""
  }

  /** No argument text arrives for an id that is known while no name is known for it. */
  ghost predicate NamedInTime(items: seq<Item>) {
    items == [] ||
    var init, last := items[..|items| - 1], items[|items| - 1];
    && NamedInTime(init)
    && (last.Piece? && last.f.arguments != "" ==>
          var id := FirstId(items, IndexOf(last.f));
          id != "" ==> exists j :: NamedCall(items, id, j))
  }

  lemma {:induction false} SeenMeansNamed(items: seq<Item>, id: Bytes)
    requires id != ""
    ensures id in State(items).seenTool <==> exists i :: NamedCall(items, id, i)
  {
    if items != [] {
      var init, last := items[..|items| - 1], items[|items| - 1];
      SeenMeansNamed(init, id);
      if last.Piece? {
        var i := IndexOf(last.f);
        KnownIsDirect(items, i);
        KnownIsDirect(init, i);
        if exists j :: NamedCall(init, id, j) {
          var j :| NamedCall(init, id, j);
          assert NamedCall(items, id, j);
        }
        if id in State(items).seenTool && id !in State(init).seenTool {
          assert NamedCall(items, id, i);
        }
        forall j | NamedCall(items, id, j) ensures id in State(items).seenTool {
          if j != i { assert NamedCall(init, id, j); }
        }
      } else {
        forall j ensures NamedCall(items, id, j) <==> NamedCall(init, id, j) {}
      }
    }
  }

  lemma StartsFirstSnoc(evs: seq<StreamEvent>, e: StreamEvent)
    ensures StartsFirst(evs + [e]) <==> StartsFirst(evs) && (e.ToolCallArgs? ==> CountStarts(evs, e.id) > 0)
  {
    assert (evs + [e])[..|evs|] == evs;
  }

  /** Emitting one item keeps the order right exactly when its id is seen by then. */
  lemma StartsFirstItem(items: seq<Item>, x: Item)
    ensures StartsFirst(Events(items) + Emits(State(items), x)) <==>
      && StartsFirst(Events(items))
      && (forall e <- Emits(State(items), x) :: e.ToolCallArgs? ==> e.id in Next(State(items), x).seenTool)
  {
    var evs, new_ := Events(items), Emits(State(items), x);
    hide StartsFirst, Events, State;
    if |new_| == 0 {
      assert evs + new_ == evs;
    } else if |new_| == 1 {
      assert new_ == [new_[0]];
      StartsFirstSnoc(evs, new_[0]);
      if new_[0].ToolCallArgs? { OneStartPerId(items, new_[0].id); }
    } else {
      var a, b := new_[0], new_[1];
      assert new_ == [a, b];
      assert evs + new_ == evs + [a] + [b];
      StartsFirstSnoc(evs, a);
      StartsFirstSnoc(evs + [a], b);
      CountStartsAppend(evs, [a], b.id);
      assert [a][..0] == [];
    }
  }

  lemma ArgsSeen(t: Translator, f: Fragment)
    ensures var id := Populated(Known(t, IndexOf(f)), f).id;
      (forall e <- Emits(t, Piece(f)) :: e.ToolCallArgs? ==> e.id in Next(t, Piece(f)).seenTool) <==>
      (f.arguments != "" && id != "" ==> id in Next(t, Piece(f)).seenTool)
  {
    var evs := Emits(t, Piece(f));
    var p := Populated(Known(t, IndexOf(f)), f);
    if f.arguments != "" && p.id != "" {
      assert evs[|evs| - 1] == ToolCallArgs(p.id, p.name, f.arguments);
      assert evs[|evs| - 1] in evs;
    }
  }

  /** The promise holds of a stream exactly when its fragments name their calls in time. */
  lemma {:induction false} StartsFirstIff(items: seq<Item>)
    ensures StartsFirst(Events(items)) <==> NamedInTime(items)
  {
    if items != [] {
      var init, last := items[..|items| - 1], items[|items| - 1];
      StartsFirstIff(init);
      StartsFirstItem(init, last);
      if last.Piece? {
        var i := IndexOf(last.f);
        var id := FirstId(items, i);
        ArgsSeen(State(init), last.f);
        KnownIsDirect(init, i);
        assert Populated(Known(State(init), i), last.f).id == id;
        if id != "" { SeenMeansNamed(items, id); }
        assert State(items) == Next(State(init), last);
      }
    }
  }

  lemma {:induction false} StartsFirstNoArgs(a: seq<StreamEvent>, b: seq<StreamEvent>)
    requires forall e <- b :: !e.ToolCallArgs?
    ensures StartsFirst(a + b) <==> StartsFirst(a)
  {
    if b == [] {
      assert a + b == a;
    } else {
      var n := |b| - 1;
      assert a + b == a + b[..n] + [b[n]];
      StartsFirstNoArgs(a, b[..n]);
      StartsFirstSnoc(a + b[..n], b[n]);
    }
  }

  /** The closing Ends and the terminator do not matter to the order. */
  lemma ClosingKeepsOrder(body: seq<StreamEvent>, ends: seq<StreamEvent>, last: StreamEvent)
    requires (forall e <- ends :: e.ToolCallEnd?) && IsTerminator(last)
    ensures StartsFirst(body + ends + [last]) <==> StartsFirst(body)
  {
    OnlyClosing(ends, last);
    StartsFirstNoArgs(body, ends + [last]);
    assert body + ends + [last] == body + (ends + [last]);
  }

  lemma StartBeforeArgsIff(chunks: seq<Option<Chunk>>, end: End, out: seq<StreamEvent>)
    requires IsOutput(chunks, end, out)
    ensures StartsFirst(out) <==> NamedInTime(Items(chunks))
  {
    var body, ends := OutputShape(chunks, end, out);
    ClosingKeepsOrder(body, ends, out[|out| - 1]);
    StartsFirstIff(Items(chunks));
  }

  /** A call whose name comes one fragment after its arguments breaks the promise. */
  lemma LateNameBreaksOrder(id: Bytes, name: Bytes, args: Bytes)
    requires id != "" && name != "" && args != ""
    ensures !StartsFirst(Events([Piece(Fragment(Some(0), id, "", args)), Piece(Fragment(Some(0), "", name, ""))]))
  {
    var a := Piece(Fragment(Some(0), id, "", args));
    var b := Piece(Fragment(Some(0), "", name, ""));
    assert [a, b][..1] == [a] && [a][..0] == [];
    StartsFirstIff([a, b]);
    forall j ensures !NamedCall([a], id, j) {
      assert FirstName([a], j) == "";
    }
    assert FirstId([a], 0) == id;
  }

  // ---------------------------------------------------------------------------------
  // Thinking before text: promised as well, and passed through from the provider.
  // ---------------------------------------------------------------------------------

  predicate SaysText(evs: seq<StreamEvent>) {
    exists e <- evs :: e.TextDelta?
  }

  predicate HasWords(items: seq<Item>) {
    exists x <- items :: x.Words?
  }

  /** No thinking delta comes after a text delta. */
  predicate ThinkingFirst(evs: seq<StreamEvent>) {
    evs == [] ||
    var init, last := evs[..|evs| - 1], evs[|evs| - 1];
    ThinkingFirst(init) && (last.ThinkingDelta? ==> !SaysText(init))
  }

  predicate ThoughtsFirst(items: seq<Item>) {
    items == [] ||
    var init, last := items[..|items| - 1], items[|items| - 1];
    ThoughtsFirst(init) && (last.Thought? ==> !HasWords(init))
  }

  lemma ThinkingFirstSnoc(evs: seq<StreamEvent>, e: StreamEvent)
    ensures ThinkingFirst(evs + [e]) <==> ThinkingFirst(evs) && (e.ThinkingDelta? ==> !SaysText(evs))
    ensures SaysText(evs + [e]) <==> SaysText(evs) || e.TextDelta?
  {
    assert (evs + [e])[..|evs|] == evs;
    if SaysText(evs) {
      var x :| x in evs && x.TextDelta?;
      assert x in evs + [e];
    }
    if e.TextDelta? { assert e in evs + [e]; }
  }

  /** Events that are neither thinking nor text do not matter. */
  lemma {:induction false} OtherEventsKeepOrder(a: seq<StreamEvent>, b: seq<StreamEvent>)
    requires forall e <- b :: !e.ThinkingDelta? && !e.TextDelta?
    ensures ThinkingFirst(a + b) <==> ThinkingFirst(a)
    ensures SaysText(a + b) <==> SaysText(a)
  {
    if b == [] {
      assert a + b == a;
    } else {
      var n := |b| - 1;
      assert b[n] in b;
      assert a + b == a + b[..n] + [b[n]];
      OtherEventsKeepOrder(a, b[..n]);
      ThinkingFirstSnoc(a + b[..n], b[n]);
    }
  }

  lemma WordsSnoc(items: seq<Item>)
    requires items != []
    ensures HasWords(items) <==> HasWords(items[..|items| - 1]) || items[|items| - 1].Words?
  {
    assert items == items[..|items| - 1] + [items[|items| - 1]];
  }

  lemma {:induction false} ThinkingFollowsChunks(items: seq<Item>)
    ensures ThinkingFirst(Events(items)) <==> ThoughtsFirst(items)
    ensures SaysText(Events(items)) <==> HasWords(items)
  {
    if items != [] {
      var init, last := items[..|items| - 1], items[|items| - 1];
      ThinkingFollowsChunks(init);
      WordsSnoc(items);
      if last.Piece? {
        OtherEventsKeepOrder(Events(init), Emits(State(init), last));
      } else {
        ThinkingFirstSnoc(Events(init), Emits(State(init), last)[0]);
        assert Emits(State(init), last) == [Emits(State(init), last)[0]];
      }
    }
  }

  /** The adapter does not reorder: thinking precedes text in its output exactly when reasoning
      precedes content in the chunks. */
  lemma ThinkingBeforeTextIff(chunks: seq<Option<Chunk>>, end: End, out: seq<StreamEvent>)
    requires IsOutput(chunks, end, out)
    ensures ThinkingFirst(out) <==> ThoughtsFirst(Items(chunks))
  {
    var body, ends := OutputShape(chunks, end, out);
    var closing := ends + [out[|out| - 1]];
    assert out == body + closing;
    OnlyClosing(ends, out[|out| - 1]);
    OtherEventsKeepOrder(body, closing);
    ThinkingFollowsChunks(Items(chunks));
  }
}
