/** The grammar of the event sequence an agent run hands to the renderer, as an automaton, and
    what a card looks like after any sequence the automaton accepts. */
module EmissionProtocol {
  import opened Bytes
  import opened Llm
  import opened CardState

  /** Streaming deltas; a message has ended and its calls are being announced; the calls are
      ending, in any order; an error event was sent; the grammar was violated. */
  datatype Mode =
    | Streaming
    | Starting(waiting: multiset<Bytes>)
    | Ending(waiting: multiset<Bytes>)
    | Failed
    | Broken

  function OpenIds(m: Mode): multiset<Bytes> {
    if m.Starting? || m.Ending? then m.waiting else multiset{}
  }

  /** No announced call is waiting for its End. */
  predicate Quiet(m: Mode) {
    m.Streaming? || ((m.Starting? || m.Ending?) && m.waiting == multiset{})
  }

  function Next(m: Mode, ev: StreamEvent): Mode {
    match ev
    case ThinkingDelta(_) => if Quiet(m) then Streaming else Broken
    case TextDelta(_) => if Quiet(m) then Streaming else Broken
    case MessageEnd(_, _) => if Quiet(m) then Starting(multiset{}) else Broken
    case ToolCallStart(id, _, _) => if m.Starting? then Starting(m.waiting + multiset{id}) else Broken
    case ToolCallEnd(id, _, _, _) =>
      if (m.Starting? || m.Ending?) && id in m.waiting then Ending(m.waiting - multiset{id}) else Broken
    case Error(_) => if Quiet(m) then Failed else Broken
    case ToolCallArgs(_, _, _) => Broken
  }

  function Scan(m: Mode, evs: seq<StreamEvent>): Mode {
    if evs == [] then m else Next(Scan(m, evs[..|evs| - 1]), evs[|evs| - 1])
  }

  lemma {:induction false} ScanAppend(m: Mode, a: seq<StreamEvent>, b: seq<StreamEvent>)
    ensures Scan(m, a + b) == Scan(Scan(m, a), b)
  {
    if b == [] {
      assert a + b == a;
    } else {
      assert (a + b)[..|a + b| - 1] == a + b[..|b| - 1];
      ScanAppend(m, a, b[..|b| - 1]);
    }
  }

  lemma ScanOne(m: Mode, e: StreamEvent)
    ensures Scan(m, [e]) == Next(m, e)
  {
    assert [e][..0] == [];
  }

  /** An accepted sequence has at most one error event, and it is the last event. */
  lemma {:induction false} ErrorOnlyLast(evs: seq<StreamEvent>, k: nat)
    requires k < |evs| && evs[k].Error? && !Scan(Streaming, evs).Broken?
    ensures k == |evs| - 1 && Scan(Streaming, evs) == Failed
  {
    var init := evs[..|evs| - 1];
    if k < |evs| - 1 {
      ErrorOnlyLast(init, k);
    }
  }

  // ---------------------------------------------------------------------------------
  // Cards of accepted sequences.
  // ---------------------------------------------------------------------------------

  /** Rows without an end time belong to calls that are still open. */
  predicate PendingAreOpen(c: Card, m: Mode) {
    forall k :: 0 <= k < |c.tools| ==> c.tools[k].endedAt.None? ==> c.tools[k].id in OpenIds(m)
  }

  predicate NoPending(c: Card) {
    forall k :: 0 <= k < |c.tools| ==> c.tools[k].endedAt.Some?
  }

  lemma EndTracksOpen(c: Card, m: Mode, ev: StreamEvent, now: int)
    requires DistinctRows(c) && PendingAreOpen(c, m)
    requires ev.ToolCallEnd? && (m.Starting? || m.Ending?) && ev.id in m.waiting
    ensures PendingAreOpen(Apply(c, ev, now).0, Next(m, ev))
  {
    var r := RowOf(c.tools, ev.id);
    var c' := Apply(c, ev, now).0;
    forall k | 0 <= k < |c'.tools| && c'.tools[k].endedAt.None?
      ensures c'.tools[k].id in m.waiting - multiset{ev.id}
    {
      assert k != r && c'.tools[k] == c.tools[k];
      assert c.tools[k].id in m.waiting;
      assert c.tools[k].id != ev.id;
    }
  }

  lemma StartTracksOpen(c: Card, m: Mode, ev: StreamEvent, now: int)
    requires PendingAreOpen(c, m) && ev.ToolCallStart? && m.Starting?
    ensures PendingAreOpen(Apply(c, ev, now).0, Next(m, ev))
  {
    var c' := Apply(c, ev, now).0;
    forall k | 0 <= k < |c'.tools| && c'.tools[k].endedAt.None?
      ensures c'.tools[k].id in m.waiting + multiset{ev.id}
    {
      if k < |c.tools| { assert c'.tools[k] == c.tools[k] && c.tools[k].id in m.waiting; }
    }
  }

  lemma NoneOpen(c: Card, m: Mode)
    requires PendingAreOpen(c, m) && OpenIds(m) == multiset{}
    ensures NoPending(c)
  {
  }

  lemma ApplyTracksOpen(c: Card, m: Mode, ev: StreamEvent, now: int)
    requires DistinctRows(c) && PendingAreOpen(c, m)
    requires !Next(m, ev).Broken?
    ensures PendingAreOpen(Apply(c, ev, now).0, Next(m, ev))
  {
    if ev.ToolCallEnd? {
      EndTracksOpen(c, m, ev, now);
    } else if ev.ToolCallStart? {
      StartTracksOpen(c, m, ev, now);
    } else {
      assert Apply(c, ev, now).0.tools == c.tools;
      NoneOpen(c, m);
    }
  }

  lemma {:induction false} CardPhase(evs: seq<StreamEvent>, clock: nat -> int)
    requires !Scan(Streaming, evs).Broken?
    ensures ApplyAll(NEW_CARD, evs, clock).phase == PhaseError <==> Scan(Streaming, evs) == Failed
    ensures ApplyAll(NEW_CARD, evs, clock).phase != PhaseDone
  {
    if evs != [] {
      var n := |evs| - 1;
      CardPhase(evs[..n], clock);
      PhaseStep(ApplyAll(NEW_CARD, evs[..n], clock), Scan(Streaming, evs[..n]), evs[n], clock(n));
      hide Apply, Next;
    }
  }

  lemma PhaseStep(c: Card, m: Mode, ev: StreamEvent, now: int)
    requires !Next(m, ev).Broken? && c.phase != PhaseDone && (c.phase == PhaseError <==> m == Failed)
    ensures !m.Broken? && Apply(c, ev, now).0.phase != PhaseDone
    ensures Apply(c, ev, now).0.phase == PhaseError <==> Next(m, ev) == Failed
  {
  }

  lemma {:induction false} CardTracksOpen(evs: seq<StreamEvent>, clock: nat -> int)
    requires !Scan(Streaming, evs).Broken?
    ensures PendingAreOpen(ApplyAll(NEW_CARD, evs, clock), Scan(Streaming, evs))
    ensures ApplyAll(NEW_CARD, evs, clock).phase == PhaseError <==> Scan(Streaming, evs) == Failed
    ensures ApplyAll(NEW_CARD, evs, clock).phase != PhaseDone
  {
    CardPhase(evs, clock);
    if evs != [] {
      hide PendingAreOpen, DistinctRows, Apply;
      var n := |evs| - 1;
      var init := evs[..n];
      CardTracksOpen(init, clock);
      RowsStayDistinct(NEW_CARD, init, clock);
      ApplyTracksOpen(ApplyAll(NEW_CARD, init, clock), Scan(Streaming, init), evs[n], clock(n));
    }
  }

  /** After an accepted sequence that leaves no call open every row of the card has ended. */
  lemma NothingPendingWhenQuiet(evs: seq<StreamEvent>, clock: nat -> int)
    requires Quiet(Scan(Streaming, evs)) || Scan(Streaming, evs) == Failed
    ensures NoPending(ApplyAll(NEW_CARD, evs, clock))
  {
    CardTracksOpen(evs, clock);
    NoneOpen(ApplyAll(NEW_CARD, evs, clock), Scan(Streaming, evs));
  }
}
