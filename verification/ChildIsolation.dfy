/** Child agents never change what the root invocation does (crates/sessiontap-core/src/reducer.rs:82-318). */
module ChildIsolation {
  import opened Common
  import opened Domain
  import opened Reducer
  import opened InvocationRuns

  predicate ChildStep(step: Step) {
    step.Deliver? && step.event.child.Some?
  }

  /** The run without its child events. */
  function Erase(steps: seq<Step>): seq<Step> {
    if steps == [] then []
    else
      var n := |steps| - 1;
      Erase(steps[..n]) + (if ChildStep(steps[n]) then [] else [steps[n]])
  }

  /** Equal in everything but the children and the time of the last public change. */
  predicate SameRoot(p: Prior, q: Prior) {
    && p.reason == q.reason
    && p.snapshot == q.snapshot.(children := p.snapshot.children, updatedAt := p.snapshot.updatedAt)
  }

  lemma ActivityIgnoresChildren(s: Snapshot, cs: seq<ChildState>, at: Time, kind: EventKind)
    ensures var a := ReduceActivity(s, kind);
            var a' := ReduceActivity(s.(children := cs, updatedAt := at), kind);
            a' == a.(children := a'.children, updatedAt := at)
  {
  }

  lemma ReduceIgnoresChildren(s: Snapshot, cs: seq<ChildState>, at: Time, e: Event)
    ensures var r := Reduce(s, e);
            var r' := Reduce(s.(children := cs, updatedAt := at), e);
            r' == r.(children := r'.children, updatedAt := at)
  {
    hide ReduceActivity, ReduceTool, ReduceSession, ReduceMetadata, RecordOrder, AuthoritativeActivity, NewSession;
    ActivityIgnoresChildren(s, cs, at, e.kind);
  }

  /** Two states that agree on the root take the same root transition. */
  lemma SameRootTransition(p: Prior, q: Prior, step: Step)
    requires SameRoot(p, q) && step.Deliver? && !ChildStep(step)
    ensures Suppressed(p.snapshot, step.event) == Suppressed(q.snapshot, step.event)
    ensures var t, u := Transit(p, step), Transit(q, step);
            t.Some? == u.Some? &&
            (t.Some? ==> t.value.reason == u.value.reason
                         && t.value.snapshot == u.value.snapshot.(children := t.value.snapshot.children,
                                                                  updatedAt := t.value.snapshot.updatedAt))
  {
    var s, s' := p.snapshot, q.snapshot;
    assert Effective(s, step.event) == Effective(s', step.event);
    ReduceIgnoresChildren(s', s.children, s.updatedAt, Effective(s, step.event));
  }

  lemma RootStepAgrees(p: Prior, q: Prior, step: Step)
    requires SameRoot(p, q) && !ChildStep(step)
    ensures SameRoot(After(p, step), After(q, step))
    ensures step.Deliver? ==> Suppressed(p.snapshot, step.event) == Suppressed(q.snapshot, step.event)
  {
    var t, u := Transit(p, step), Transit(q, step);
    if t.Some? { CommitStamps(p, t.value, step.now); }
    if u.Some? { CommitStamps(q, u.value, step.now); }
    if step.Deliver? {
      SameRootTransition(p, q, step);
    } else {
      LocalStepAgrees(p, q, step);
    }
  }

  /** Sweeps may act on children alone, so one side may commit and the other not. */
  lemma LocalStepAgrees(p: Prior, q: Prior, step: Step)
    requires SameRoot(p, q) && !step.Deliver?
    ensures var t, u := Transit(p, step), Transit(q, step);
            var p' := if t.Some? then Prior(t.value.snapshot, Resolve(t.value.reason, p.reason)) else p;
            var q' := if u.Some? then Prior(u.value.snapshot, Resolve(u.value.reason, q.reason)) else q;
            SameRoot(p', q')
  {
    assert step.Sweep? ==> StaleWorking(p.snapshot, step.now) == StaleWorking(q.snapshot, step.now);
  }

  lemma ChildStepKeepsRoot(p: Prior, step: Step)
    requires ChildStep(step) && step.event.evidence.sourceSequence.None?
    ensures SameRoot(After(p, step), p)
  {
    var t := Transit(p, step);
    if t.Some? { CommitStamps(p, t.value, step.now); }
  }

  predicate Unsequenced(steps: seq<Step>) {
    forall i :: 0 <= i < |steps| && ChildStep(steps[i]) ==> steps[i].event.evidence.sourceSequence.None?
  }

  /**
   * Erasing every child event from a run whose child events carry no source sequence leaves the
   * same root state and reason.
   */
  lemma {:induction false} ErasingChildEventsKeepsTheRoot(init: Prior, steps: seq<Step>)
    requires Unsequenced(steps)
    ensures SameRoot(Run(init, steps), Run(init, Erase(steps)))
  {
    if steps != [] {
      var n := |steps| - 1;
      ErasingChildEventsKeepsTheRoot(init, steps[..n]);
      var p, q := Run(init, steps[..n]), Run(init, Erase(steps[..n]));
      if ChildStep(steps[n]) {
        ChildStepKeepsRoot(p, steps[n]);
        assert Erase(steps) == Erase(steps[..n]);
      } else {
        RootStepAgrees(p, q, steps[n]);
        var erased := Erase(steps);
        assert erased[..|erased| - 1] == Erase(steps[..n]) && erased[|erased| - 1] == steps[n];
      }
    }
  }

  /** Each root event of such a run is suppressed exactly when it is suppressed in the erased run. */
  lemma ErasingChildEventsKeepsSuppression(init: Prior, steps: seq<Step>, i: nat)
    requires Unsequenced(steps) && i < |steps| && steps[i].Deliver? && !ChildStep(steps[i])
    ensures Suppressed(Run(init, steps[..i]).snapshot, steps[i].event)
            == Suppressed(Run(init, Erase(steps[..i])).snapshot, steps[i].event)
  {
    ErasingChildEventsKeepsTheRoot(init, steps[..i]);
    RootStepAgrees(Run(init, steps[..i]), Run(init, Erase(steps[..i])), steps[i]);
  }

  // ---- Exactly which child events are invisible ----

  /** No root event is treated differently after the step than before it. */
  ghost predicate InvisibleToRoot(p: Prior, step: Step) {
    forall e: Event :: e.child.None? ==> Suppressed(After(p, step).snapshot, e) == Suppressed(p.snapshot, e)
  }

  /** A root event that repeats the evidence of `e` and says nothing else. */
  function Echo(e: Event): Event {
    Event(Enrichment, e.evidence, e.receivedAt, None, None, None, None, None, None, None, None)
  }

  lemma {:induction false} RecordedIsStale(cursors: seq<Cursor>, e: Evidence)
    requires e.sourceSequence.Some?
    ensures StaleOrder(RecordOrder(cursors, e), e)
  {
    var r := RecordOrder(cursors, e);
    var i := CursorIndex(cursors, SourceOf(e));
    var k := if i < |cursors| then i else |r| - 1;
    assert r[k] == Cursor(SourceOf(e), e.sourceSequence.value);
  }

  /**
   * A valid child event is invisible to the root exactly when it carries no source sequence or was
   * suppressed: an accepted sequenced one moves the cursor it shares with root events.
   */
  lemma ChildEventIsInvisibleIff(p: Prior, step: Step)
    requires ChildStep(step) && ValidEvent(step.event, step.summary)
    ensures InvisibleToRoot(p, step)
            <==> step.event.evidence.sourceSequence.None? || Suppressed(p.snapshot, step.event)
  {
    var e := step.event;
    var t := Transit(p, step).value;
    CommitStamps(p, t, step.now);
    if e.evidence.sourceSequence.None? || Suppressed(p.snapshot, e) {
      assert SameRoot(After(p, step), p);
      forall r: Event | r.child.None? ensures Suppressed(After(p, step).snapshot, r) == Suppressed(p.snapshot, r) {
        RootStepAgrees(After(p, step), p, Deliver(r, None, step.now));
      }
    } else {
      RecordedIsStale(p.snapshot.sourceOrdering, e.evidence);
      EchoSeesOnlyOrder(p.snapshot, e);
      EchoSeesOnlyOrder(After(p, step).snapshot, e);
      assert Suppressed(After(p, step).snapshot, Echo(e)) != Suppressed(p.snapshot, Echo(e));
    }
  }

  lemma EchoSeesOnlyOrder(s: Snapshot, e: Event)
    ensures RootSuppressed(s, Echo(e)) == StaleOrder(s.sourceOrdering, e.evidence)
  {
    var effective := Effective(s, Echo(e));
    assert effective.kind == Enrichment && effective.sessionId.None? && effective.turnId.None?;
  }
}
