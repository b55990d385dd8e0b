/** What the outcome of a run says of the streams it took its events from
    (internal/agent/loop.go:93-208). */
module Outcomes {
  import opened Bytes
  import opened Llm
  import opened AgentSpec
  import An = Announcements
  import St = AgentSteps

  predicate NoError(evs: seq<StreamEvent>) {
    forall e <- evs :: !e.Error?
  }

  /** Taking this event can be what ended the run. */
  predicate EndsWith(ev: StreamEvent, o: Outcome) {
    match o
    case Finished => ev.MessageEnd?
    case EmptyResponse => ev.MessageEnd?
    case ArgsTooLarge => ev.ToolCallArgs?
    case ProviderError(err) => ev == Error(err)
    case SaveFailed(at) => at != PreTurn ==> ev.MessageEnd?
    case _ => true
  }

  /** The error event that goes with an outcome, if one does. */
  function SaidError(o: Outcome): Option<Option<Bytes>> {
    match o
    case EmptyResponse => Some(Some("agent: empty assistant response"))
    case ArgsTooLarge => Some(Some("tool arguments too large"))
    case ProviderError(err) => Some(err)
    case _ => None
  }

  /** The last event emitted is that error event. */
  predicate SaysWhy(r: RunState) {
    r.outcome.Some? && SaidError(r.outcome.value).Some? ==>
      r.emitted != [] && r.emitted[|r.emitted| - 1] == Error(SaidError(r.outcome.value).value)
  }

  /** The outcome that some last event brings about. */
  predicate ByEvent(o: Outcome) {
    o.Finished? || o.EmptyResponse? || o.ArgsTooLarge? || o.ProviderError? || (o.SaveFailed? && o.at != PreTurn)
  }

  /** What the events taken say: an error event is the last one, and its error the outcome. */
  predicate EventsTell(r: RunState) {
    && (r.outcome.Some? && ByEvent(r.outcome.value) ==>
          r.consumed != [] && EndsWith(r.consumed[|r.consumed| - 1], r.outcome.value))
    && (r.outcome.Some? && r.outcome.value.ProviderError? ==> NoError(r.consumed[..|r.consumed| - 1]))
    && (!(r.outcome.Some? && r.outcome.value.ProviderError?) ==> NoError(r.consumed))
    && SaysWhy(r)
  }

  /** What the Stream calls say: only the last one can have failed, and then that is the outcome. */
  predicate StreamsTell(w: World, r: RunState) {
    && (forall k :: 0 <= k < r.streams - 1 ==> w.stream(k).Stream?)
    && (r.outcome == Some(StreamFailed) <==> r.streams > 0 && w.stream(r.streams - 1).StreamErr?)
  }

  lemma NoErrorSnoc(evs: seq<StreamEvent>, e: StreamEvent)
    ensures NoError(evs + [e]) <==> NoError(evs) && !e.Error?
    ensures (evs + [e])[..|evs|] == evs
  {
    if NoError(evs + [e]) {
      assert e in evs + [e];
      forall x | x in evs ensures !x.Error? { assert x in evs + [e]; }
    }
  }

  lemma MessageEndOutcome(w: World, s: StepState, ev: StreamEvent)
    requires Fair(w) && s.run.outcome.None?
    ensures var a := OnMessageEnd(w, s, ev).run;
      && a.consumed == s.run.consumed && SaysWhy(a)
      && (a.outcome.Some? ==> a.outcome.value in {Finished, EmptyResponse, SaveFailed(AtAnswer), SaveFailed(AtTools)})
  {
    var asst := Built(s);
    var r1 := Emit(SaveAnswer(w, s.run, asst), [ev]);
    AppendAllFrame(Execute(w, r1, asst.toolCalls), ToolMessages(Results(w, r1.batches, asst.toolCalls)));
  }

  /** What one event does. */
  lemma EventEnds(w: World, s: StepState, ev: StreamEvent)
    requires Fair(w) && s.run.outcome.None?
    ensures var a := OnEvent(w, s, ev).run;
      && a.consumed == s.run.consumed + [ev]
      && (a.outcome.Some? ==> ByEvent(a.outcome.value) && EndsWith(ev, a.outcome.value))
      && (ev.Error? ==> a.outcome == Some(ProviderError(ev.err)))
      && SaysWhy(a)
  {
    if ev.MessageEnd? {
      St.EndTaken(w, s, ev);
      MessageEndOutcome(w, s.(run := s.run.(consumed := s.run.consumed + [ev])), ev);
      hide OnMessageEnd, OnEvent;
    }
  }

  lemma EventTells(w: World, s: StepState, ev: StreamEvent)
    requires Fair(w) && s.run.outcome.None? && EventsTell(s.run)
    ensures EventsTell(OnEvent(w, s, ev).run)
  {
    EventEnds(w, s, ev);
    NoErrorSnoc(s.run.consumed, ev);
    hide OnEvent, NoError;
  }

  lemma {:induction false} ConsumeTells(w: World, s: StepState, evs: seq<StreamEvent>)
    requires Fair(w) && s.run.outcome.None? && EventsTell(s.run)
    ensures var a := Consume(w, s, evs).run;
      EventsTell(a) && (a.outcome.Some? ==> ByEvent(a.outcome.value))
  {
    if evs != [] {
      hide OnEvent, EventsTell;
      ConsumeTells(w, s, evs[..|evs| - 1]);
      var mid := Consume(w, s, evs[..|evs| - 1]);
      if mid.run.outcome.None? {
        EventTells(w, mid, evs[|evs| - 1]);
        EventEnds(w, mid, evs[|evs| - 1]);
      }
    }
  }

  lemma StepTells(w: World, r: RunState)
    requires Fair(w) && r.outcome.None? && EventsTell(r) && StreamsTell(w, r)
    ensures EventsTell(Step(w, r)) && StreamsTell(w, Step(w, r))
  {
    var start := StepStart(r);
    assert EventsTell(start.run);
    var result := w.stream(r.streams);
    if result.Stream? {
      ConsumeTells(w, start, result.events);
      St.ConsumeOutcome(w, start, result.events);
      hide Consume;
    }
  }

  lemma StepsTell(w: World, r: RunState, left: nat)
    requires Fair(w) && EventsTell(r) && StreamsTell(w, r)
    ensures EventsTell(Steps(w, r, left)) && StreamsTell(w, Steps(w, r, left))
  {
    var inv := iset x: RunState | EventsTell(x) && StreamsTell(w, x);
    forall x: RunState ensures An.Keeps(w, inv, x) {
      if x in inv && x.outcome.None? { StepTells(w, x); }
      hide Step;
    }
    hide *;
    An.StepsKeep(w, inv, r, left);
  }

  /** The outcome of any run tells how the streams went: the provider's own error exactly when the
      last event taken is an error event with it, and no other event is one; a failed Stream call
      exactly when the last call failed, and no earlier one did; and it is a message end that
      finishes a run, finds an empty answer or fails to save it, and an argument delta that is too
      much.  For an empty answer, too much of an argument and the provider's error, the last event
      emitted says so. */
  lemma OutcomeTells(w: World, maxSteps: int, history: seq<Message>, input: Bytes)
    requires Fair(w)
    ensures var r := Run(w, maxSteps, history, input); var n := |r.consumed|;
      && (forall err :: r.outcome == Some(ProviderError(err)) <==> n > 0 && r.consumed[n - 1] == Error(err))
      && (forall k :: 0 <= k < n - 1 ==> !r.consumed[k].Error?)
      && (forall k :: 0 <= k < r.streams - 1 ==> w.stream(k).Stream?)
      && (r.outcome == Some(StreamFailed) <==> r.streams > 0 && w.stream(r.streams - 1).StreamErr?)
      && (r.outcome == Some(Finished) || r.outcome == Some(EmptyResponse)
            || r.outcome == Some(SaveFailed(AtAnswer)) || r.outcome == Some(SaveFailed(AtTools)) ==>
            n > 0 && r.consumed[n - 1].MessageEnd?)
      && (r.outcome == Some(ArgsTooLarge) ==> n > 0 && r.consumed[n - 1].ToolCallArgs?)
      && SaysWhy(r)
  {
    StepsTell(w, Opening(w, history, input), EffectiveSteps(maxSteps));
    var r := Run(w, maxSteps, history, input);
    assert EventsTell(r) && StreamsTell(w, r);
    hide Run, EventsTell;
    ErrorsLast(r);
    EventEndedIt(r);
  }

  lemma ErrorsLast(r: RunState)
    requires EventsTell(r)
    ensures var n := |r.consumed|;
      && (forall err :: r.outcome == Some(ProviderError(err)) <==> n > 0 && r.consumed[n - 1] == Error(err))
      && (forall k :: 0 <= k < n - 1 ==> !r.consumed[k].Error?)
  {
    if r.consumed != [] {
      var n := |r.consumed| - 1;
      NoErrorSnoc(r.consumed[..n], r.consumed[n]);
      assert r.consumed[..n] + [r.consumed[n]] == r.consumed;
      forall k | 0 <= k < n ensures !r.consumed[k].Error? { assert r.consumed[..n][k] in r.consumed[..n]; }
    }
  }

  lemma EventEndedIt(r: RunState)
    requires EventsTell(r)
    ensures r.outcome.Some? && ByEvent(r.outcome.value) ==>
      r.consumed != [] && EndsWith(r.consumed[|r.consumed| - 1], r.outcome.value)
    ensures SaysWhy(r)
  {
  }
}
