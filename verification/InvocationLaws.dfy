/**
 * Laws of single steps and short exchanges of an invocation: what may change its activity clock,
 * its session, its tool and its children, and what a channel without authority can never change.
 */
module InvocationLaws {
  import opened Common
  import opened Domain
  import opened Reducer
  import opened InvocationRuns

  lemma AcceptedFields(p: Prior, step: Step)
    requires Accepted(p, step)
    ensures var e := Effective(p.snapshot, step.event);
            var s, s' := p.snapshot, After(p, step).snapshot;
            && s'.activity == ReduceActivity(s, e.kind).activity
            && s'.lifecycle == ReduceActivity(s, e.kind).lifecycle
            && s'.tool == ReduceTool(s.tool, s.session, e)
            && s'.session == ReduceSession(s.session, e)
            && s'.metadata == ReduceMetadata(s.metadata, e)
            && s'.usage == (if e.usage.Some? then e.usage else if NewSession(s.session, e.sessionId) then None else s.usage)
            && s'.stateStartedAt == (if AuthoritativeActivity(e.kind, e.evidence.channel) && s'.activity != s.activity
                                     then e.receivedAt else s.stateStartedAt)
  {
    CommitStamps(p, Transit(p, step).value, step.now);
  }

  /** Root fields only an accepted root event, a loss, a sweep or an exit touches. */
  lemma UnacceptedFields(p: Prior, step: Step)
    requires step.Deliver? && !Accepted(p, step)
    ensures var s, s' := p.snapshot, After(p, step).snapshot;
            && s'.activity == s.activity && s'.lifecycle == s.lifecycle && s'.stateStartedAt == s.stateStartedAt
            && s'.tool == s.tool && s'.session == s.session && s'.metadata == s.metadata && s'.usage == s.usage
  {
    AfterStamps(p, step);
    hide After, Commit;
  }

  lemma EffectiveKeeps(s: Snapshot, e: Event)
    ensures var f := Effective(s, e);
            && f.receivedAt == e.receivedAt && f.evidence == e.evidence
            && (f.evidence.channel == ProviderArtifact ==> f.kind == Enrichment)
            && (f.evidence.channel == ProcessObservation ==> f.kind in {SessionEnded, Enrichment})
            && (f.kind !in {SessionEnded, Enrichment} ==> f.kind == e.kind)
  {
  }

  // ---- The activity clock ----

  function ClockOf(step: Step): Time {
    if step.Deliver? then step.event.receivedAt else step.now
  }

  /** The state clock restarts exactly when the activity changes, at the time of what changed it. */
  lemma ClockFollowsActivity(p: Prior, step: Step)
    ensures var s, s' := p.snapshot, After(p, step).snapshot;
            s'.stateStartedAt == if s'.activity != s.activity then ClockOf(step) else s.stateStartedAt
  {
    AfterStamps(p, step);
    hide After, Commit;
    if Accepted(p, step) {
      AcceptedFields(p, step);
      EffectiveKeeps(p.snapshot, step.event);
      hide Accepted, Transit, Effective;
    } else if step.Deliver? {
      UnacceptedFields(p, step);
    }
  }

  // ---- The provider session ----

  /**
   * A session, once known, is never forgotten. Its identity changes only with a session start that
   * takes effect, which also advances the generation by one and drops the old usage.
   */
  lemma SessionChangesOnlyAtAStart(p: Prior, step: Step)
    requires p.snapshot.session.Some?
    ensures var s, s' := p.snapshot, After(p, step).snapshot;
            && s'.session.Some?
            && (if s'.session.value.id == s.session.value.id
                then s'.session.value.generation == s.session.value.generation
                else
                  && EffectiveKind(p, step, {ProviderSessionStarted})
                  && s'.session.value.generation == SaturatingNext(s.session.value.generation)
                  && s'.usage == Effective(s, step.event).usage)
  {
    if Accepted(p, step) {
      AcceptedFields(p, step);
    } else if step.Deliver? {
      UnacceptedFields(p, step);
    }
  }

  /** How often the session's identity changed over a run. */
  function SessionMoves(p: Prior, steps: seq<Step>): nat {
    if steps == [] then 0
    else
      var n := |steps| - 1;
      SessionMoves(p, steps[..n])
      + (if SessionId(Run(p, steps[..n])) != SessionId(After(Run(p, steps[..n]), steps[n])) then 1 else 0)
  }

  function SessionId(p: Prior): Option<string> {
    if p.snapshot.session.Some? then Some(p.snapshot.session.value.id) else None
  }

  /**
   * Over any run a known session stays known; its generation counts its changes of identity, up to
   * the counter's end; and there are at most as many of those as session starts that took effect.
   */
  lemma {:induction false} GenerationCountsSessions(p: Prior, steps: seq<Step>)
    requires p.snapshot.session.Some? && p.snapshot.session.value.generation <= U64_MAX
    ensures var s, moves := Run(p, steps).snapshot.session, SessionMoves(p, steps);
            var counted := p.snapshot.session.value.generation + moves;
            && s.Some? && s.value.generation == (if counted <= U64_MAX then counted else U64_MAX)
            && moves <= Effects(p, steps, {ProviderSessionStarted})
            && (moves == 0 ==> s.value.id == p.snapshot.session.value.id)
  {
    hide After, EffectiveKind;
    if steps != [] {
      var n := |steps| - 1;
      GenerationCountsSessions(p, steps[..n]);
      SessionChangesOnlyAtAStart(Run(p, steps[..n]), steps[n]);
    }
  }

  // ---- Channels without authority ----

  predicate FromArtifacts(steps: seq<Step>) {
    forall i :: 0 <= i < |steps| ==>
      steps[i].Deliver? && steps[i].event.child.None? && steps[i].event.evidence.channel == ProviderArtifact
  }

  function ModelOf(s: Snapshot): Option<string> {
    if s.metadata.Some? then s.metadata.value.model else None
  }

  function TurnOf(s: Snapshot): Option<string> {
    if s.metadata.Some? then s.metadata.value.currentTurnId else None
  }

  function PermissionOf(s: Snapshot): Option<string> {
    if s.metadata.Some? then s.metadata.value.permissionMode else None
  }

  /** What artifacts on disk can never change: they fill in a missing model and nothing of this. */
  predicate SameLife(p: Prior, q: Prior) {
    && q.snapshot.activity == p.snapshot.activity && q.snapshot.lifecycle == p.snapshot.lifecycle
    && q.snapshot.turnGeneration == p.snapshot.turnGeneration
    && q.snapshot.completedGeneration == p.snapshot.completedGeneration
    && q.snapshot.stateStartedAt == p.snapshot.stateStartedAt
    && q.reason == p.reason
    && TurnOf(q.snapshot) == TurnOf(p.snapshot) && PermissionOf(q.snapshot) == PermissionOf(p.snapshot)
    && (ModelOf(p.snapshot).Some? ==> ModelOf(q.snapshot) == ModelOf(p.snapshot))
  }

  lemma ArtifactEffective(s: Snapshot, e: Event)
    requires e.evidence.channel == ProviderArtifact
    ensures var f := Effective(s, e);
            && f.evidence == e.evidence && f.kind == Enrichment && f.turnId.None?
            && (f.metadata.Some? ==> f.metadata.value.permissionMode.None? && f.metadata.value.currentTurnId.None?)
  {
  }

  lemma AcceptedReason(p: Prior, step: Step)
    requires Accepted(p, step)
    ensures After(p, step).reason
         == Resolve(EventReason(p.reason, Effective(p.snapshot, step.event).kind, step.summary), p.reason)
  {
    AfterStamps(p, step);
    hide After, Commit, Reduce, Effective, EventReason, Resolve;
  }

  lemma UnacceptedReason(p: Prior, step: Step)
    requires step.Deliver? && step.event.child.None? && !Accepted(p, step)
    ensures After(p, step).reason == p.reason
  {
    AfterStamps(p, step);
    hide After, Commit, Reduce, Effective, EventReason;
  }

  lemma ArtifactStep(p: Prior, step: Step)
    requires step.Deliver? && step.event.child.None? && step.event.evidence.channel == ProviderArtifact
    ensures SameLife(p, After(p, step))
  {
    hide After, Accepted, Effective;
    if Accepted(p, step) {
      AcceptedFields(p, step);
      AcceptedEffects(p, step);
      AcceptedReason(p, step);
      ArtifactEffective(p.snapshot, step.event);
      hide ReduceTool, ReduceSession;
    } else {
      UnacceptedFields(p, step);
      UnacceptedReason(p, step);
      OtherStepsKeepTheTurn(p, step);
    }
  }

  /** Over any run of events read from provider artifacts, the invocation's life stays as it was. */
  lemma {:induction false} ArtifactsOnlyEnrich(p: Prior, steps: seq<Step>)
    requires FromArtifacts(steps)
    ensures SameLife(p, Run(p, steps))
  {
    if steps != [] {
      ArtifactsOnlyEnrich(p, steps[..|steps| - 1]);
      ArtifactStep(Run(p, steps[..|steps| - 1]), steps[|steps| - 1]);
    }
  }

  // ---- The current tool ----

  /**
   * Once a turn has its outcome, or the process is gone, nothing starts or refreshes a tool: it
   * stays as it is or is dropped.
   */
  lemma NoToolNewsAfterTheEnd(p: Prior, step: Step)
    requires TerminalTurn(p.snapshot) || Ended(p.snapshot.lifecycle)
    ensures After(p, step).snapshot.tool in {p.snapshot.tool, None}
  {
    if Accepted(p, step) {
      AcceptedFields(p, step);
    } else if step.Deliver? {
      UnacceptedFields(p, step);
    }
  }

  /** No turn begins anywhere in the run. */
  ghost predicate NoNewTurn(p: Prior, steps: seq<Step>) {
    forall i :: 0 <= i < |steps| ==> !EffectiveKind(Run(p, steps[..i]), steps[i], {NewTurn})
  }

  lemma LatchStays(p: Prior, step: Step)
    requires TerminalTurn(p.snapshot) && !EffectiveKind(p, step, {NewTurn})
    ensures TerminalTurn(After(p, step).snapshot)
  {
    hide After, Accepted, Effective;
    if Accepted(p, step) {
      AcceptedEffects(p, step);
    } else {
      OtherStepsKeepTheTurn(p, step);
    }
  }

  /** From a turn's outcome to the next turn, at every state, the tool is the one there was or none. */
  lemma {:induction false} NoToolNewsUntilTheNextTurn(p: Prior, steps: seq<Step>)
    requires TerminalTurn(p.snapshot) && NoNewTurn(p, steps)
    ensures TerminalTurn(Run(p, steps).snapshot) && Run(p, steps).snapshot.tool in {p.snapshot.tool, None}
  {
    hide After, EffectiveKind;
    if steps != [] {
      var n := |steps| - 1;
      assert NoNewTurn(p, steps[..n]) by {
        forall i | 0 <= i < n ensures !EffectiveKind(Run(p, steps[..n][..i]), steps[..n][i], {NewTurn}) {
          assert steps[..n][..i] == steps[..i];
        }
      }
      NoToolNewsUntilTheNextTurn(p, steps[..n]);
      LatchStays(Run(p, steps[..n]), steps[n]);
      NoToolNewsAfterTheEnd(Run(p, steps[..n]), steps[n]);
    }
  }

  /** From the end of the process to the next bind, at every state, likewise. */
  lemma {:induction false} NoToolNewsUntilBound(p: Prior, steps: seq<Step>)
    requires Ended(p.snapshot.lifecycle) && Bindless(steps)
    ensures Run(p, steps).snapshot.tool in {p.snapshot.tool, None}
  {
    hide After;
    if steps != [] {
      var n := |steps| - 1;
      NoToolNewsUntilBound(p, steps[..n]);
      EndedWhileUnbound(p, steps[..n]);
      NoToolNewsAfterTheEnd(Run(p, steps[..n]), steps[n]);
    }
  }

  /** A boundary leaves a tool exactly when its own event starts one. */
  lemma ToolAcrossABoundary(p: Prior, step: Step)
    requires Accepted(p, step)
    requires var e := Effective(p.snapshot, step.event);
             EndsTool(e.kind) || NewSession(p.snapshot.session, e.sessionId)
    ensures var e := Effective(p.snapshot, step.event);
            var tool := After(p, step).snapshot.tool;
            && (tool.Some? <==> e.tool.Some? && e.tool.value.phase == Start)
            && (tool.Some? ==> StartedBy(tool.value, e))
  {
    AcceptedFields(p, step);
  }

  predicate StartedBy(tool: CurrentTool, e: Event) {
    && e.tool.Some? && e.tool.value.phase == Start
    && tool.startedAt == e.receivedAt && tool.toolLabel == e.tool.value.toolLabel
    && tool.correlationId == e.tool.value.correlationId
  }

  /** Step `n` of the run is an outcome that takes effect and starts `tool` itself. */
  ghost predicate OutcomeStarts(init: Prior, steps: seq<Step>, n: nat, tool: CurrentTool)
    requires n < |steps|
  {
    && EffectiveKind(Run(init, steps[..n]), steps[n], OUTCOMES)
    && StartedBy(tool, Effective(Run(init, steps[..n]).snapshot, steps[n].event))
  }

  lemma OutcomeIsNew(p: Prior, step: Step)
    requires TerminalTurn(After(p, step).snapshot) && TurnLatch(p.snapshot)
    ensures EffectiveKind(p, step, OUTCOMES) || TerminalTurn(p.snapshot)
  {
    hide After, Accepted, Effective;
    if Accepted(p, step) {
      AcceptedEffects(p, step);
    } else {
      OtherStepsKeepTheTurn(p, step);
    }
  }

  /** The turn has its outcome at every state after step `n`. */
  ghost predicate TerminalSince(init: Prior, steps: seq<Step>, n: nat) {
    forall m :: n < m <= |steps| ==> TerminalTurn(Run(init, steps[..m]).snapshot)
  }

  lemma LongerTerminal(init: Prior, steps: seq<Step>, n: nat)
    requires n < |steps| && TerminalTurn(Run(init, steps).snapshot)
    requires n == |steps| - 1 || TerminalSince(init, steps[..|steps| - 1], n)
    ensures TerminalSince(init, steps, n)
  {
    hide Run;
    var most := steps[..|steps| - 1];
    forall m | n < m <= |steps| ensures TerminalTurn(Run(init, steps[..m]).snapshot) {
      if m < |steps| {
        assert most[..m] == steps[..m];
      } else {
        assert steps[..m] == steps;
      }
    }
  }

  /**
   * In every reachable state, a tool that is current after a turn's outcome was started by that very
   * outcome: a step that took effect as one, with the turn terminal at every state since.
   */
  lemma {:induction false} ToolAfterAnOutcomeIsItsOwn(init: Prior, steps: seq<Step>)
    requires Registered(init) && TerminalTurn(Run(init, steps).snapshot) && Run(init, steps).snapshot.tool.Some?
    ensures exists n :: 0 <= n < |steps| && OutcomeStarts(init, steps, n, Run(init, steps).snapshot.tool.value)
                        && TerminalSince(init, steps, n)
  {
    hide After;
    var n := |steps| - 1;
    var p := Run(init, steps[..n]);
    ReachableIsConsistent(init, steps[..n]);
    OutcomeIsNew(p, steps[n]);
    if EffectiveKind(p, steps[n], OUTCOMES) {
      ToolAcrossABoundary(p, steps[n]);
      LongerTerminal(init, steps, n);
      assert OutcomeStarts(init, steps, n, Run(init, steps).snapshot.tool.value);
    } else {
      NoToolNewsAfterTheEnd(p, steps[n]);
      ToolAfterAnOutcomeIsItsOwn(init, steps[..n]);
      var tool := p.snapshot.tool.value;
      var k :| 0 <= k < n && OutcomeStarts(init, steps[..n], k, tool) && TerminalSince(init, steps[..n], k);
      assert steps[..n][..k] == steps[..k];
      assert OutcomeStarts(init, steps, k, tool);
      LongerTerminal(init, steps, k);
    }
  }

  // ---- One tool call ----

  /** The current tool is the given call: same label, correlation and start. */
  predicate Runs(tool: Option<CurrentTool>, call: CurrentTool) {
    && tool.Some? && tool.value.toolLabel == call.toolLabel
    && tool.value.correlationId == call.correlationId && tool.value.startedAt == call.startedAt
  }

  /** An event that drops or replaces the call: a boundary, another start, or the call's own finish. */
  predicate EventEnds(session: Option<Session>, e: Event, call: CurrentTool) {
    || EndsTool(e.kind)
    || NewSession(session, e.sessionId)
    || (e.tool.Some? && match e.tool.value.phase
                        case Start => !MatchingTool(call, e.tool.value, false)
                        case Finish | Failure => MatchingTool(call, e.tool.value, false)
                        case Progress | Attention => false)
  }

  predicate EndsCall(p: Prior, step: Step, call: CurrentTool) {
    || step.ProcessLost?
    || step.Exit?
    || (step.Sweep? && StaleWorking(p.snapshot, step.now))
    || (Accepted(p, step) && EventEnds(p.snapshot.session, Effective(p.snapshot, step.event), call))
  }

  lemma ReducedCallRuns(tool: Option<CurrentTool>, session: Option<Session>, e: Event, call: CurrentTool)
    requires Runs(tool, call) && !EventEnds(session, e, call)
    ensures Runs(ReduceTool(tool, session, e), call)
  {
  }

  lemma LocalStepsKeepTheTool(p: Prior, step: Step)
    requires step.Bind? || (step.Sweep? && !StaleWorking(p.snapshot, step.now))
    ensures After(p, step).snapshot.tool == p.snapshot.tool
  {
    AfterStamps(p, step);
    hide After, Commit;
  }

  lemma CallRunsOn(p: Prior, step: Step, call: CurrentTool)
    requires Runs(p.snapshot.tool, call) && !EndsCall(p, step, call)
    ensures Runs(After(p, step).snapshot.tool, call)
  {
    hide After, Effective;
    if Accepted(p, step) {
      AcceptedFields(p, step);
      ReducedCallRuns(p.snapshot.tool, p.snapshot.session, Effective(p.snapshot, step.event), call);
    } else if step.Deliver? {
      UnacceptedFields(p, step);
    } else {
      LocalStepsKeepTheTool(p, step);
    }
  }

  ghost predicate NothingEnds(p: Prior, steps: seq<Step>, call: CurrentTool) {
    forall i :: 0 <= i < |steps| ==> !EndsCall(Run(p, steps[..i]), steps[i], call)
  }

  lemma EarlierNothingEnds(p: Prior, steps: seq<Step>, k: nat, call: CurrentTool)
    requires NothingEnds(p, steps, call) && k <= |steps|
    ensures NothingEnds(p, steps[..k], call)
  {
    hide Run, EndsCall;
    forall i | 0 <= i < k ensures !EndsCall(Run(p, steps[..k][..i]), steps[..k][i], call) {
      assert steps[..k][..i] == steps[..i];
    }
  }

  /** A call stays current, with its start time, through any run in which nothing ends it. */
  lemma {:induction false} CallRunsUntilEnded(p: Prior, steps: seq<Step>, call: CurrentTool)
    requires Runs(p.snapshot.tool, call) && NothingEnds(p, steps, call)
    ensures Runs(Run(p, steps).snapshot.tool, call)
  {
    hide After, EndsCall;
    if steps != [] {
      var n := |steps| - 1;
      EarlierNothingEnds(p, steps, n, call);
      CallRunsUntilEnded(p, steps[..n], call);
      CallRunsOn(Run(p, steps[..n]), steps[n], call);
    }
  }

  /** The accepted event of a step, if it updates a tool in `phases`. */
  predicate Updates(p: Prior, step: Step, phases: set<ToolPhase>) {
    && Accepted(p, step)
    && Effective(p.snapshot, step.event).tool.Some?
    && Effective(p.snapshot, step.event).tool.value.phase in phases
  }

  lemma StartBegins(p: Prior, step: Step)
    requires Updates(p, step, {Start})
    ensures var update, tool := Effective(p.snapshot, step.event).tool.value, After(p, step).snapshot.tool;
            tool.Some? && tool.value.correlationId == update.correlationId
            && (update.correlationId.None? ==> tool.value.toolLabel == update.toolLabel)
  {
    AcceptedFields(p, step);
    hide After, Accepted, Effective;
  }

  lemma FinishEnds(p: Prior, step: Step, call: CurrentTool)
    requires Updates(p, step, {Finish, Failure}) && Runs(p.snapshot.tool, call)
    requires MatchingTool(call, Effective(p.snapshot, step.event).tool.value, false)
    ensures After(p, step).snapshot.tool.None?
  {
    AcceptedFields(p, step);
    hide After, Accepted, Effective;
  }

  /**
   * A tool start that is accepted, then any run in which nothing ends that call, then its own finish
   * or failure accepted: the call is current, with one start time, at every state between, and no
   * tool is left.
   */
  lemma StartThenFinish(p: Prior, start: Step, between: seq<Step>, finish: Step)
    requires Updates(p, start, {Start})
    requires var q := After(p, start);
             q.snapshot.tool.Some? ==> NothingEnds(q, between, q.snapshot.tool.value)
    requires Updates(Run(After(p, start), between), finish, {Finish, Failure})
    requires var u, v := Effective(p.snapshot, start.event).tool.value,
                         Effective(Run(After(p, start), between).snapshot, finish.event).tool.value;
             u.correlationId == v.correlationId && (u.correlationId.None? ==> u.toolLabel == v.toolLabel)
    ensures var q := After(p, start);
            && q.snapshot.tool.Some?
            && (forall k :: 0 <= k <= |between| ==> Runs(Run(q, between[..k]).snapshot.tool, q.snapshot.tool.value))
            && After(Run(q, between), finish).snapshot.tool.None?
  {
    hide After, Accepted, Effective, NothingEnds;
    var q := After(p, start);
    StartBegins(p, start);
    var call := q.snapshot.tool.value;
    forall k | 0 <= k <= |between| ensures Runs(Run(q, between[..k]).snapshot.tool, call) {
      EarlierNothingEnds(q, between, k, call);
      CallRunsUntilEnded(q, between[..k], call);
    }
    assert between[..|between|] == between;
    FinishEnds(Run(q, between), finish, q.snapshot.tool.value);
  }

  // ---- The child table ----

  /** The child with an id, if the table has one. */
  function Lookup(cs: seq<ChildState>, id: string): Option<ChildState> {
    var i := ChildIndex(cs, id);
    if i < |cs| then Some(cs[i]) else None
  }

  lemma LookupAt(cs: seq<ChildState>, k: nat)
    requires k < |cs| && UniqueIds(cs)
    ensures Lookup(cs, cs[k].agentId) == Some(cs[k])
  {
  }

  lemma LookupOf(cs: seq<ChildState>, id: string)
    ensures Lookup(cs, id).None? <==> forall k :: 0 <= k < |cs| ==> cs[k].agentId != id
    ensures Lookup(cs, id).Some? ==> Lookup(cs, id).value in cs && Lookup(cs, id).value.agentId == id
  {
  }

  /** The id a full table gives up for a newcomer. */
  function Evicted(cs: seq<ChildState>, id: string): Option<string> {
    if Lookup(cs, id).None? && |cs| >= CHILD_AGENTS_MAX && OldestStopped(cs).Some?
    then Some(cs[OldestStopped(cs).value].agentId) else None
  }

  predicate HasRoom(cs: seq<ChildState>, id: string) {
    Lookup(cs, id).Some? || |cs| < CHILD_AGENTS_MAX || OldestStopped(cs).Some?
  }

  lemma AddressedChild(cs: seq<ChildState>, e: Event, child: ChildRef)
    requires UniqueIds(cs) && ChildOutcome(e.kind).Some? && HasRoom(cs, child.agentId)
    ensures var r := Lookup(ReduceChildren(cs, e, child), child.agentId);
            var was := Lookup(cs, child.agentId);
            && r.Some?
            && r.value.activity == ChildOutcome(e.kind).value.0
            && r.value.agentType == child.agentType && r.value.updatedAt == e.receivedAt
            && r.value.startedAt == (if was.Some? then was.value.startedAt else e.receivedAt)
  {
    ReduceChildrenKeepsTable(cs, e, child);
    var r := ReduceChildren(cs, e, child);
    var i := ChildIndex(cs, child.agentId);
    LookupAt(r, if i < |cs| then i else |r| - 1);
  }

  lemma OtherChild(cs: seq<ChildState>, e: Event, child: ChildRef, id: string)
    requires UniqueIds(cs) && id != child.agentId
    ensures Lookup(ReduceChildren(cs, e, child), id) ==
            if ChildOutcome(e.kind).Some? && Evicted(cs, child.agentId) == Some(id) then None else Lookup(cs, id)
  {
    ReduceChildrenKeepsTable(cs, e, child);
    var r, k := ReduceChildren(cs, e, child), ChildIndex(cs, id);
    var evicts := ChildOutcome(e.kind).Some? && Evicted(cs, child.agentId).Some?;
    if evicts {
      EvictionKeeps(cs, r, OldestStopped(cs).value, id);
    } else if k < |cs| {
      assert r[k] == cs[k];
      LookupAt(r, k);
    } else {
      LookupOf(r, id);
    }
  }

  lemma EvictionKeeps(cs: seq<ChildState>, r: seq<ChildState>, o: nat, id: string)
    requires UniqueIds(cs) && UniqueIds(r) && o < |cs| == |r|
    requires r[..|r| - 1] == cs[..o] + cs[o + 1..] && r[|r| - 1].agentId != id
    ensures Lookup(r, id) == if cs[o].agentId == id then None else Lookup(cs, id)
  {
    var k := ChildIndex(cs, id);
    assert forall j :: 0 <= j < |r| - 1 ==> r[j] == r[..|r| - 1][j] == if j < o then cs[j] else cs[j + 1];
    if k < |cs| && k != o {
      LookupAt(r, if k < o then k else k - 1);
    } else {
      LookupOf(r, id);
    }
  }
}
