/**
 * Whole runs of one invocation: any sequence of provider events, sweeps and process observations,
 * each committed the way storage commits it (crates/sessiontap-storage/src/lib.rs:600-665).
 */
module InvocationRuns {
  import opened Common
  import opened Domain
  import opened Reducer

  datatype Step =
    | Deliver(event: Event, summary: Option<string>, now: Time)
    | ProcessLost(now: Time)
    | Sweep(now: Time)
    | Bind(pid: nat, identity: Option<string>, now: Time)
    | Exit(code: Option<int>, signal: Option<int>, now: Time)

  /** The transition a step makes; none for a rejected event or a sweep that finds nothing stale. */
  function Transit(p: Prior, step: Step): Option<Transition> {
    match step
    case Deliver(event, summary, _) =>
      var r := ApplyEvent(p, event, summary);
      if r.Ok? then Some(r.value) else None
    case ProcessLost(_) => Some(MarkLost(p))
    case Sweep(now) => ExpireStale(p, now)
    case Bind(pid, identity, _) => Some(BindChild(p, pid, identity))
    case Exit(code, signal, _) => Some(MarkExit(p, code, signal))
  }

  function Commit(p: Prior, t: Transition, now: Time): Prior {
    var reason := Resolve(t.reason, p.reason);
    Prior(Finalize(Project(p.snapshot, p.reason), t.snapshot, reason, now).0, reason)
  }

  function After(p: Prior, step: Step): Prior {
    var t := Transit(p, step);
    if t.None? then p else Commit(p, t.value, step.now)
  }

  function Run(p: Prior, steps: seq<Step>): Prior {
    if steps == [] then p
    else After(Run(p, steps[..|steps| - 1]), steps[|steps| - 1])
  }

  /** A freshly registered invocation. */
  predicate Registered(p: Prior) {
    && p.reason.None?
    && p.snapshot.children == []
    && p.snapshot.sourceOrdering == []
    && p.snapshot.completedGeneration.None?
    && p.snapshot.lifecycle == Starting
    && p.snapshot.activity == Unknown
    && p.snapshot.status == PublicStatus.Idle
  }

  /** Committing stamps the snapshot and resolves the reason; nothing else changes. */
  lemma CommitStamps(p: Prior, t: Transition, now: Time)
    ensures var c := Commit(p, t, now);
            c.reason == Resolve(t.reason, p.reason) && c.snapshot == t.snapshot.(updatedAt := c.snapshot.updatedAt)
  {
    hide Project, ChangedFields;
  }

  /** `After` without the projection that only decides the stamp. */
  lemma AfterStamps(p: Prior, step: Step)
    ensures var t, q := Transit(p, step), After(p, step);
            if t.None? then q == p
            else q.reason == Resolve(t.value.reason, p.reason)
                 && q.snapshot == t.value.snapshot.(updatedAt := q.snapshot.updatedAt)
  {
    hide Commit, Transit;
    if Transit(p, step).Some? {
      CommitStamps(p, Transit(p, step).value, step.now);
    }
  }

  // ---- What every step keeps ----

  predicate Fits(kind: EventKind, activity: Activity) {
    match kind
    case WaitingInput => activity == Activity.WaitingInput
    case WaitingApproval => activity == Activity.WaitingApproval
    case Completed | Failed | Interrupted => activity == Activity.Stopped
    case _ => false
  }

  /** The stored reason's kind matches the activity, and only an outcome outlives the process. */
  predicate ReasonAgrees(p: Prior) {
    p.reason.Some? ==>
      && Fits(p.reason.value.kind, p.snapshot.activity)
      && (Ended(p.snapshot.lifecycle) ==> Outcome(p.reason.value.kind))
  }

  /** A recorded outcome belongs to the current turn and rules out activity. */
  predicate TurnLatch(s: Snapshot) {
    s.completedGeneration.Some? ==>
      && s.completedGeneration.value == s.turnGeneration
      && (s.activity == Activity.Idle || s.activity == Activity.Stopped)
  }

  predicate ChildTable(s: Snapshot) {
    && |s.children| <= 32
    && UniqueIds(s.children)
    && (Ended(s.lifecycle) ==> s.children == [])
  }

  predicate DistinctSources(cursors: seq<Cursor>) {
    forall i, j :: 0 <= i < j < |cursors| ==> cursors[i].source != cursors[j].source
  }

  predicate CursorTable(cursors: seq<Cursor>) {
    |cursors| <= 32 && DistinctSources(cursors)
  }

  predicate Consistent(p: Prior) {
    && ReasonAgrees(p)
    && TurnLatch(p.snapshot)
    && ChildTable(p.snapshot)
    && CursorTable(p.snapshot.sourceOrdering)
    && p.snapshot.status == DeriveStatus(p.snapshot.lifecycle, p.snapshot.activity)
  }

  lemma RecordOrderKeepsTable(cursors: seq<Cursor>, e: Evidence)
    requires CursorTable(cursors)
    ensures CursorTable(RecordOrder(cursors, e))
  {
  }

  lemma ReduceChildrenKeepsTable(cs: seq<ChildState>, e: Event, child: ChildRef)
    requires UniqueIds(cs)
    ensures UniqueIds(ReduceChildren(cs, e, child))
    ensures |cs| <= CHILD_AGENTS_MAX ==> |ReduceChildren(cs, e, child)| <= CHILD_AGENTS_MAX
  {
  }

  /** The sweep keeps exactly the children that are not stale, in order. */
  lemma {:induction false} FreshChildrenMembers(cs: seq<ChildState>, now: Time)
    ensures |FreshChildren(cs, now)| <= |cs|
    ensures forall c :: c in FreshChildren(cs, now) <==> c in cs && !StaleChild(c, now)
    ensures UniqueIds(cs) ==> UniqueIds(FreshChildren(cs, now))
  {
    if cs != [] {
      FreshChildrenMembers(cs[1..], now);
      assert forall c :: c in cs <==> c == cs[0] || c in cs[1..];
      var rest := FreshChildren(cs[1..], now);
      if UniqueIds(cs) && !StaleChild(cs[0], now) {
        forall i | 0 <= i < |rest| ensures cs[0].agentId != rest[i].agentId {
          assert rest[i] in cs[1..];
        }
      }
    }
  }

  /** The parts of a reduced root event that the invariants speak about. */
  lemma ReduceEffects(s: Snapshot, e: Event)
    ensures var r := Reduce(s, e);
            var a := ReduceActivity(s, e.kind);
            && r.activity == a.activity && r.lifecycle == a.lifecycle
            && r.turnGeneration == a.turnGeneration && r.completedGeneration == a.completedGeneration
            && r.sourceOrdering == RecordOrder(s.sourceOrdering, e.evidence)
            && r.children == (if NewSession(s.session, e.sessionId) then [] else a.children)
            && r.updatedAt == s.updatedAt
  {
  }

  lemma ActivityKeepsLatch(s: Snapshot, kind: EventKind)
    requires TurnLatch(s) && !(TerminalTurn(s) && (kind == EventKind.Working || Waiting(kind) || Outcome(kind)))
    ensures TurnLatch(ReduceActivity(s, kind))
  {
  }

  /** An ended process accepts no event kind that asserts activity. */
  lemma EndedAssertsNothing(s: Snapshot, e: Event)
    requires Ended(s.lifecycle)
    ensures Effective(s, e).kind in {ProviderSessionEnded, SessionEnded, Enrichment}
  {
  }

  lemma ReasonKeepsAgreeing(p: Prior, kind: EventKind, summary: Option<string>)
    requires ReasonAgrees(p)
    requires Ended(p.snapshot.lifecycle) ==> kind in {ProviderSessionEnded, SessionEnded, Enrichment}
    requires !(TerminalTurn(p.snapshot) && (kind == EventKind.Working || Waiting(kind) || Outcome(kind)))
    ensures ReasonAgrees(Prior(ReduceActivity(p.snapshot, kind),
                               Resolve(EventReason(p.reason, kind, summary), p.reason)))
  {
  }

  lemma ActivityKeepsChildren(s: Snapshot, kind: EventKind)
    requires ChildTable(s)
    ensures ChildTable(ReduceActivity(s, kind))
  {
  }

  lemma RootEventKeeps(p: Prior, e: Event, summary: Option<string>)
    requires Consistent(p)
    ensures var t := ApplyRootEvent(p, e, summary);
            Consistent(Prior(t.snapshot, Resolve(t.reason, p.reason)))
  {
    var s := p.snapshot;
    if !RootSuppressed(s, e) {
      var effective := Effective(s, e);
      ReduceEffects(s, effective);
      RecordOrderKeepsTable(s.sourceOrdering, effective.evidence);
      if Ended(s.lifecycle) { EndedAssertsNothing(s, e); }
      ActivityKeepsLatch(s, effective.kind);
      ReasonKeepsAgreeing(p, effective.kind, summary);
      ActivityKeepsChildren(s, effective.kind);
      SameFieldsStayConsistent(ReduceActivity(s, effective.kind), Reduce(s, effective),
                               Resolve(EventReason(p.reason, effective.kind, summary), p.reason));
    }
  }

  lemma SameFieldsStayConsistent(a: Snapshot, r: Snapshot, reason: Option<Reason>)
    requires ReasonAgrees(Prior(a, reason)) && TurnLatch(a) && ChildTable(a)
    requires CursorTable(r.sourceOrdering)
    requires r.activity == a.activity && r.lifecycle == a.lifecycle && r.turnGeneration == a.turnGeneration
    requires r.completedGeneration == a.completedGeneration && (r.children == [] || r.children == a.children)
    ensures Consistent(Prior(WithStatus(r), reason))
  {
  }

  lemma TransitionKeeps(p: Prior, step: Step)
    requires Consistent(p)
    ensures var t := Transit(p, step);
            t.Some? ==> Consistent(Prior(t.value.snapshot, Resolve(t.value.reason, p.reason)))
  {
    var s := p.snapshot;
    match step
    case Deliver(e, summary, _) =>
      if e.child.Some? {
        ReduceChildrenKeepsTable(s.children, WithChannelAuthority(e), e.child.value);
        RecordOrderKeepsTable(s.sourceOrdering, e.evidence);
      } else {
        RootEventKeeps(p, e, summary);
      }
    case Sweep(now) =>
      FreshChildrenMembers(s.children, now);
    case _ =>
  }

  lemma StepKeeps(p: Prior, step: Step)
    requires Consistent(p)
    ensures Consistent(After(p, step))
  {
    TransitionKeeps(p, step);
  }

  /** Every reachable state satisfies all the invariants. */
  lemma {:induction false} ReachableIsConsistent(init: Prior, steps: seq<Step>)
    requires Registered(init)
    ensures Consistent(Run(init, steps))
  {
    if steps != [] {
      ReachableIsConsistent(init, steps[..|steps| - 1]);
      StepKeeps(Run(init, steps[..|steps| - 1]), steps[|steps| - 1]);
    }
  }

  // ---- When a stored reason is visible ----

  /**
   * In every reachable state a stored reason is missing from the public view exactly when it is an
   * interruption or the invocation is still starting; when shown, it names the stored kind.
   */
  lemma StoredReasonIsShownUnless(init: Prior, steps: seq<Step>)
    requires Registered(init) && Run(init, steps).reason.Some?
    ensures var p := Run(init, steps);
            var kind := p.reason.value.kind;
            var shown := Project(p.snapshot, p.reason).reason;
            && (shown.None? <==> kind == Interrupted || p.snapshot.lifecycle == Starting)
            && (shown.Some? ==>
                  && shown.value.summary == p.reason.value.summary
                  && (shown.value.kind == Input <==> kind == EventKind.WaitingInput)
                  && (shown.value.kind == Approval <==> kind == EventKind.WaitingApproval)
                  && (shown.value.kind == PublicReasonKind.Completed <==> kind == EventKind.Completed)
                  && (shown.value.kind == PublicReasonKind.Failed <==> kind == EventKind.Failed))
  {
    ReachableIsConsistent(init, steps);
  }

  // ---- One outcome per turn ----

  /** The step is a root event that takes effect as one of `kinds`. */
  predicate EffectiveKind(p: Prior, step: Step, kinds: set<EventKind>) {
    Accepted(p, step) && Effective(p.snapshot, step.event).kind in kinds
  }

  const OUTCOMES: set<EventKind> := {EventKind.Completed, EventKind.Failed, Interrupted}

  /** How many steps of the run took effect as one of `kinds`. */
  function Effects(init: Prior, steps: seq<Step>, kinds: set<EventKind>): nat {
    if steps == [] then 0
    else
      var n := |steps| - 1;
      Effects(init, steps[..n], kinds)
      + (if EffectiveKind(Run(init, steps[..n]), steps[n], kinds) then 1 else 0)
  }

  /** A root event that passes every guard. */
  predicate Accepted(p: Prior, step: Step) {
    && step.Deliver?
    && step.event.child.None?
    && ValidEvent(step.event, step.summary)
    && !RootSuppressed(p.snapshot, step.event)
  }

  /** What committing an accepted root event does to the fields the run theorems use. */
  lemma AcceptedEffects(p: Prior, step: Step)
    requires Accepted(p, step)
    ensures var e := Effective(p.snapshot, step.event);
            var s, s' := p.snapshot, After(p, step).snapshot;
            var a := ReduceActivity(s, e.kind);
            && s'.activity == a.activity && s'.lifecycle == a.lifecycle
            && s'.turnGeneration == a.turnGeneration && s'.completedGeneration == a.completedGeneration
            && s'.children == (if NewSession(s.session, e.sessionId) then [] else a.children)
  {
    ReduceEffects(p.snapshot, Effective(p.snapshot, step.event));
  }

  lemma OtherStepsKeepTheTurn(p: Prior, step: Step)
    requires !Accepted(p, step)
    ensures After(p, step).snapshot.completedGeneration == p.snapshot.completedGeneration
    ensures After(p, step).snapshot.turnGeneration == p.snapshot.turnGeneration
  {
    AfterStamps(p, step);
    hide After, Commit;
  }

  lemma LatchMoves(s: Snapshot, kind: EventKind)
    requires TurnLatch(s) && !(TerminalTurn(s) && Outcome(kind))
    ensures var a := ReduceActivity(s, kind);
            && a.turnGeneration == s.turnGeneration + (if kind == NewTurn then 1 else 0)
            && (if Outcome(kind) then s.completedGeneration.None? && a.completedGeneration.Some?
                else if kind == NewTurn then a.completedGeneration.None?
                else a.completedGeneration == s.completedGeneration)
  {
  }

  /** One step adds to the outcome count only what it adds to the turns or to the latch. */
  lemma OutcomeNeedsATurn(p: Prior, step: Step)
    requires TurnLatch(p.snapshot)
    ensures var s, s' := p.snapshot, After(p, step).snapshot;
            var turn: nat := if EffectiveKind(p, step, {NewTurn}) then 1 else 0;
            var outcome: nat := if EffectiveKind(p, step, OUTCOMES) then 1 else 0;
            && s'.turnGeneration == s.turnGeneration + turn
            && outcome + (if s.completedGeneration.Some? then 1 else 0)
               <= turn + (if s'.completedGeneration.Some? then 1 else 0)
  {
    if Accepted(p, step) {
      AcceptedEffects(p, step);
      LatchMoves(p.snapshot, Effective(p.snapshot, step.event).kind);
    } else {
      OtherStepsKeepTheTurn(p, step);
    }
  }

  /**
   * A turn ends at most once: the outcomes that took effect never outnumber the turns that did by
   * more than one, and only while the current turn has its outcome.
   */
  lemma {:induction false} OneOutcomePerTurn(init: Prior, steps: seq<Step>)
    requires Registered(init)
    ensures var s := Run(init, steps).snapshot;
            var outcomes := Effects(init, steps, OUTCOMES);
            var turns := Effects(init, steps, {NewTurn});
            && s.turnGeneration == init.snapshot.turnGeneration + turns
            && outcomes <= turns + (if s.completedGeneration.Some? then 1 else 0)
  {
    if steps != [] {
      var n := |steps| - 1;
      OneOutcomePerTurn(init, steps[..n]);
      ReachableIsConsistent(init, steps[..n]);
      OutcomeNeedsATurn(Run(init, steps[..n]), steps[n]);
    }
  }

  // ---- Lifecycle ----

  lemma OtherStepsKeepItEnded(p: Prior, step: Step)
    requires Ended(p.snapshot.lifecycle) && !step.Bind?
    ensures Ended(After(p, step).snapshot.lifecycle)
  {
    AfterStamps(p, step);
    hide After, Commit;
    if Accepted(p, step) {
      AcceptedEffects(p, step);
      EndedAssertsNothing(p.snapshot, step.event);
      hide Effective, Transit, Accepted;
    }
  }

  lemma BindRevives(p: Prior, step: Step)
    requires step.Bind?
    ensures After(p, step).snapshot.lifecycle == Alive
  {
    AfterStamps(p, step);
    hide After, Commit;
  }

  /** An exited or lost invocation stays ended through a step if and only if it is not a bind. */
  lemma EndedStaysEndedIff(p: Prior, step: Step)
    requires Ended(p.snapshot.lifecycle)
    ensures Ended(After(p, step).snapshot.lifecycle) <==> !step.Bind?
  {
    hide After;
    if step.Bind? {
      BindRevives(p, step);
    } else {
      OtherStepsKeepItEnded(p, step);
    }
  }

  predicate Bindless(steps: seq<Step>) {
    forall i :: 0 <= i < |steps| ==> !steps[i].Bind?
  }

  lemma {:induction false} EndedWhileUnbound(p: Prior, steps: seq<Step>)
    requires Ended(p.snapshot.lifecycle) && Bindless(steps)
    ensures Ended(Run(p, steps).snapshot.lifecycle)
  {
    if steps != [] {
      EndedWhileUnbound(p, steps[..|steps| - 1]);
      EndedStaysEndedIff(Run(p, steps[..|steps| - 1]), steps[|steps| - 1]);
    }
  }

  /** The invocation is ended at every state of the run. */
  ghost predicate EndedThroughout(p: Prior, steps: seq<Step>) {
    forall k :: 0 <= k <= |steps| ==> Ended(Run(p, steps[..k]).snapshot.lifecycle)
  }

  /** An ended invocation is ended at every state of a run exactly when nothing in the run binds it. */
  lemma EndedThroughoutIff(p: Prior, steps: seq<Step>)
    requires Ended(p.snapshot.lifecycle)
    ensures EndedThroughout(p, steps) <==> Bindless(steps)
  {
    hide After;
    if Bindless(steps) {
      forall k | 0 <= k <= |steps| ensures Ended(Run(p, steps[..k]).snapshot.lifecycle) {
        EndedWhileUnbound(p, steps[..k]);
      }
    } else {
      var i :| 0 <= i < |steps| && steps[i].Bind?;
      assert steps[..i + 1][..i] == steps[..i];
      BindRevives(Run(p, steps[..i]), steps[i]);
    }
  }

  // ---- How a child leaves ----

  /** The steps that may drop a child that has not stopped. */
  predicate MayDrop(p: Prior, step: Step, c: ChildState) {
    || EffectiveKind(p, step, {NewTurn, SessionEnded})
    || (Accepted(p, step) && NewSession(p.snapshot.session, Effective(p.snapshot, step.event).sessionId))
    || step.ProcessLost?
    || step.Exit?
    || (step.Sweep? && StaleChild(c, step.now))
  }

  ghost predicate HasChild(cs: seq<ChildState>, id: string) {
    exists i :: 0 <= i < |cs| && cs[i].agentId == id
  }

  lemma ReduceChildrenKeepsActive(cs: seq<ChildState>, e: Event, child: ChildRef, c: ChildState)
    requires c in cs && c.activity != ChildActivity.Stopped
    ensures HasChild(ReduceChildren(cs, e, child), c.agentId)
  {
    var k :| 0 <= k < |cs| && cs[k] == c;
    var r := ReduceChildren(cs, e, child);
    var i := ChildIndex(cs, child.agentId);
    if ChildOutcome(e.kind).Some? && i == |cs| && |cs| >= CHILD_AGENTS_MAX && OldestStopped(cs).Some? {
      var o := OldestStopped(cs).value;
      assert r[if k < o then k else k - 1].agentId == c.agentId;
    } else {
      assert r[k].agentId == c.agentId;
    }
  }

  /**
   * A running or blocked child leaves the table only with a new turn, a session change, the end of
   * the process or, when running, a sweep that finds it stale.
   */
  lemma ActiveChildLeavesOnlyBy(init: Prior, steps: seq<Step>, step: Step, c: ChildState)
    requires Registered(init)
    requires c in Run(init, steps).snapshot.children && c.activity != ChildActivity.Stopped
    ensures MayDrop(Run(init, steps), step, c)
            || HasChild(After(Run(init, steps), step).snapshot.children, c.agentId)
  {
    ReachableIsConsistent(init, steps);
    var p := Run(init, steps);
    if !MayDrop(p, step, c) {
      match step
      case Deliver(e, _, _) =>
        if e.child.Some? {
          ChildEventKeepsActive(p, step, c);
        } else {
          RootEventKeepsActive(p, step, c);
        }
      case Sweep(now) => SweepKeepsActive(p, now, c);
      case Bind(_, _, _) =>
        assert c in After(p, step).snapshot.children;
        Present(After(p, step).snapshot.children, c);
    }
  }

  lemma Present(cs: seq<ChildState>, c: ChildState)
    requires c in cs
    ensures HasChild(cs, c.agentId)
  {
    var k :| 0 <= k < |cs| && cs[k] == c;
  }

  lemma ChildEventKeepsActive(p: Prior, step: Step, c: ChildState)
    requires step.Deliver? && step.event.child.Some?
    requires c in p.snapshot.children && c.activity != ChildActivity.Stopped
    ensures HasChild(After(p, step).snapshot.children, c.agentId)
  {
    var cs := p.snapshot.children;
    var reduced := ReduceChildren(cs, WithChannelAuthority(step.event), step.event.child.value);
    assert After(p, step).snapshot.children == cs || After(p, step).snapshot.children == reduced;
    Present(cs, c);
    ReduceChildrenKeepsActive(cs, WithChannelAuthority(step.event), step.event.child.value, c);
  }

  lemma UnacceptedKeepsChildren(p: Prior, step: Step)
    requires step.Deliver? && step.event.child.None? && !Accepted(p, step)
    ensures After(p, step).snapshot.children == p.snapshot.children
  {
    AfterStamps(p, step);
    hide After, Commit, Reduce, Effective, EventReason;
  }

  lemma AcceptedKeepsChildren(p: Prior, step: Step)
    requires Accepted(p, step) && !EffectiveKind(p, step, {NewTurn, SessionEnded})
    requires !NewSession(p.snapshot.session, Effective(p.snapshot, step.event).sessionId)
    ensures After(p, step).snapshot.children == p.snapshot.children
  {
    hide After, Effective, NewSession, Accepted;
    AcceptedEffects(p, step);
  }

  lemma RootEventKeepsActive(p: Prior, step: Step, c: ChildState)
    requires step.Deliver? && step.event.child.None?
    requires c in p.snapshot.children && !MayDrop(p, step, c)
    ensures HasChild(After(p, step).snapshot.children, c.agentId)
  {
    Present(p.snapshot.children, c);
    hide After, Accepted, Effective, NewSession, HasChild, EffectiveKind;
    if Accepted(p, step) {
      AcceptedKeepsChildren(p, step);
    } else {
      UnacceptedKeepsChildren(p, step);
    }
  }

  lemma SweepKeepsActive(p: Prior, now: Time, c: ChildState)
    requires c in p.snapshot.children && !StaleChild(c, now)
    ensures HasChild(After(p, Sweep(now)).snapshot.children, c.agentId)
  {
    FreshChildrenMembers(p.snapshot.children, now);
    Present(After(p, Sweep(now)).snapshot.children, c);
  }

  /** A sweep leaves no stale child and no stale working state behind. */
  lemma NothingStaleSurvivesASweep(p: Prior, now: Time)
    ensures var s := After(p, Sweep(now)).snapshot;
            !StaleWorking(s, now) && !HasStaleChild(s.children, now)
    ensures ExpireStale(p, now).None? <==> !StaleWorking(p.snapshot, now) && !HasStaleChild(p.snapshot.children, now)
  {
    FreshChildrenMembers(p.snapshot.children, now);
  }

  // ---- What observers are told ----

  /** The changed fields and the view a step reports; nothing when the step does nothing. */
  function Reported(p: Prior, step: Step): (set<PublicField>, View) {
    var t := Transit(p, step);
    if t.None? then ({}, Project(p.snapshot, p.reason))
    else
      var r := Finalize(Project(p.snapshot, p.reason), t.value.snapshot, Resolve(t.value.reason, p.reason), step.now);
      (r.2, r.1)
  }

  /** An observer that starts from the first view and applies only the reported fields. */
  function Observed(init: Prior, steps: seq<Step>): View {
    if steps == [] then Project(init.snapshot, init.reason)
    else
      var n := |steps| - 1;
      var report := Reported(Run(init, steps[..n]), steps[n]);
      Patch(Observed(init, steps[..n]), report.1, report.0)
  }

  lemma TransitionsKeepTheStamp(p: Prior, step: Step)
    ensures Transit(p, step).Some? ==> Transit(p, step).value.snapshot.updatedAt == p.snapshot.updatedAt
  {
  }

  /**
   * A step reports no field exactly when the public view is unchanged, stamps `updated_at` only
   * when it reports something, and a suppressed or rejected event reports nothing.
   */
  lemma ReportsAreExact(p: Prior, step: Step)
    ensures var (changed, view) := Reported(p, step);
            var p' := After(p, step);
            && view == Project(p'.snapshot, p'.reason)
            && (changed == {} <==> view == Project(p.snapshot, p.reason))
            && (changed == {} ==> p'.snapshot.updatedAt == p.snapshot.updatedAt)
            && (changed != {} ==> p'.snapshot.updatedAt == step.now)
            && Patch(Project(p.snapshot, p.reason), view, changed) == view
    ensures step.Deliver? && (!ValidEvent(step.event, step.summary) || Suppressed(p.snapshot, step.event))
            ==> Reported(p, step).0 == {} && After(p, step).reason == p.reason
  {
    TransitionsKeepTheStamp(p, step);
    var before := Project(p.snapshot, p.reason);
    var t := Transit(p, step);
    ChangedFieldsSuffice(before, before);
    if t.Some? {
      var reason := Resolve(t.value.reason, p.reason);
      var provisional := Project(t.value.snapshot, reason);
      ChangedFieldsSuffice(before, provisional);
      ChangedFieldsSuffice(before, Reported(p, step).1);
      if provisional != before {
        assert Project(t.value.snapshot.(updatedAt := step.now), reason) == provisional.(updatedAt := step.now);
        assert provisional.updatedAt == before.updatedAt;
      }
    }
  }

  /** Copying only the reported fields keeps an observer's view equal to the current one. */
  lemma {:induction false} ObserverNeverDrifts(init: Prior, steps: seq<Step>)
    ensures Observed(init, steps) == Project(Run(init, steps).snapshot, Run(init, steps).reason)
  {
    if steps != [] {
      var n := |steps| - 1;
      ObserverNeverDrifts(init, steps[..n]);
      ReportsAreExact(Run(init, steps[..n]), steps[n]);
    }
  }
}
