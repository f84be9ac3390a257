/**
 * The in-place half of the reducer: a draft snapshot that an accepted event edits field by field.
 * Each method is the source's sequence of edits, proved to amount to the corresponding function of
 * the state before it.
 */
module ReducerDraft {
  import opened Common
  import opened Domain
  import opened Reducer
  import opened InvocationRuns

  class Draft {
    var s: Snapshot

    constructor (snapshot: Snapshot)
      ensures s == snapshot
    {
      s := snapshot;
    }

    /** Moves the source's cursor, or adds one and evicts the oldest when the table is full. */
    method RecordSourceOrder(e: Evidence)
      modifies this
      ensures s == old(s).(sourceOrdering := RecordOrder(old(s.sourceOrdering), e))
    {
      if e.sourceSequence.None? {
        return;
      }
      var i := 0;
      while i < |s.sourceOrdering|
        invariant i <= |s.sourceOrdering| && s == old(s)
        invariant forall j :: 0 <= j < i ==> s.sourceOrdering[j].source != SourceOf(e)
      {
        if s.sourceOrdering[i].source == SourceOf(e) {
          s := s.(sourceOrdering := s.sourceOrdering[i := s.sourceOrdering[i].(sequence := e.sourceSequence.value)]);
          return;
        }
        i := i + 1;
      }
      if |s.sourceOrdering| == SOURCE_ORDER_CURSOR_MAX {
        s := s.(sourceOrdering := s.sourceOrdering[1..]);
      }
      s := s.(sourceOrdering := s.sourceOrdering + [Cursor(SourceOf(e), e.sourceSequence.value)]);
    }

    method ReduceToolActivity(e: Event)
      modifies this
      ensures s == old(s).(tool := ReduceTool(old(s.tool), old(s.session), e))
    {
      if NewSession(s.session, e.sessionId) || EndsTool(e.kind) {
        s := s.(tool := None);
      }
      if e.tool.None? {
        return;
      }
      var update := e.tool.value;
      match update.phase
      case Start =>
        if s.tool.Some? && MatchingTool(s.tool.value, update, false) {
          s := s.(tool := Some(Observe(s.tool.value, update, e.receivedAt)));
        } else {
          s := s.(tool := Some(CurrentTool(update.toolLabel, update.correlationId, update.detail,
                                           e.receivedAt, e.receivedAt)));
        }
      case Progress | Attention =>
        if s.tool.Some? && MatchingTool(s.tool.value, update, true) {
          s := s.(tool := Some(Observe(s.tool.value, update, e.receivedAt)));
        }
      case Finish | Failure =>
        if s.tool.Some? && MatchingTool(s.tool.value, update, false) {
          s := s.(tool := None);
        }
    }

    /** Index of the child with `id`, or the length. */
    method FindChild(id: string) returns (i: nat)
      ensures i == ChildIndex(s.children, id)
    {
      i := 0;
      while i < |s.children| && s.children[i].agentId != id
        invariant i <= |s.children|
        invariant forall j :: 0 <= j < i ==> s.children[j].agentId != id
      {
        i := i + 1;
      }
    }

    /** One pass keeping the earliest stopped child seen so far. */
    method FindOldestStopped() returns (best: Option<nat>)
      ensures best == OldestStopped(s.children)
    {
      best := None;
      var i := 0;
      while i < |s.children|
        invariant i <= |s.children| && best == OldestStopped(s.children[..i])
      {
        assert s.children[..i + 1][..i] == s.children[..i];
        if s.children[i].activity == ChildActivity.Stopped
           && (best.None? || !OlderOrSame(s.children[best.value], s.children[i]))
        {
          best := Some(i);
        }
        i := i + 1;
      }
      assert s.children[..i] == s.children;
    }

    /** Updates, creates or evicts the child the event addresses. */
    method ReduceChild(e: Event, child: ChildRef)
      modifies this
      ensures s == old(s).(children := ReduceChildren(old(s.children), e, child))
    {
      hide OldestStopped, ChildIndex, Updated;
      var outcome := ChildOutcome(e.kind);
      if outcome.None? {
        return;
      }
      var (activity, kind) := outcome.value;
      var given := if e.tool.Some? then Some(e.tool.value.toolLabel) else None;
      var index := FindChild(child.agentId);
      if index == |s.children| {
        if |s.children| >= CHILD_AGENTS_MAX {
          var oldest := FindOldestStopped();
          if oldest.None? {
            return;
          }
          s := s.(children := s.children[..oldest.value] + s.children[oldest.value + 1..]);
        }
        s := s.(children := s.children
                            + [ChildState(child.agentId, child.agentType, activity, None, e.receivedAt, e.receivedAt)]);
        index := |s.children| - 1;
      }
      s := s.(children := s.children[index := Updated(s.children[index], child, activity, kind, given, e.receivedAt)]);
    }

    method SetActivity(kind: EventKind)
      modifies this
      ensures s == ReduceActivity(old(s), kind)
    {
      match kind
      case NewTurn =>
        s := s.(turnGeneration := s.turnGeneration + 1);
        s := s.(completedGeneration := None);
        s := s.(activity := Activity.Working);
        s := s.(children := []);
      case Working =>
        if !TerminalTurn(s) { s := s.(activity := Activity.Working); }
      case WaitingInput =>
        if !TerminalTurn(s) { s := s.(activity := Activity.WaitingInput); }
      case WaitingApproval =>
        if !TerminalTurn(s) { s := s.(activity := Activity.WaitingApproval); }
      case Idle | ProviderSessionStarted =>
        s := s.(activity := Activity.Idle);
      case Completed | Failed | Interrupted =>
        s := s.(activity := Activity.Stopped);
        s := s.(completedGeneration := Some(s.turnGeneration));
      case SessionEnded =>
        s := s.(lifecycle := Exited);
        s := s.(children := []);
      case ProviderSessionEnded | Enrichment =>
    }

    method AssertActivity(before: Activity, e: Event)
      modifies this
      ensures var asserted := AuthoritativeActivity(e.kind, e.evidence.channel);
              s == old(s).(
                stateStartedAt := if asserted && old(s.activity) != before then e.receivedAt else old(s.stateStartedAt),
                lastStateAssertedAt := if asserted then Some(e.receivedAt) else old(s.lastStateAssertedAt),
                confirmation := if asserted then Live else old(s.confirmation))
    {
      if AuthoritativeActivity(e.kind, e.evidence.channel) {
        if s.activity != before {
          s := s.(stateStartedAt := e.receivedAt);
        }
        s := s.(lastStateAssertedAt := Some(e.receivedAt));
        s := s.(confirmation := Live);
      }
    }

    method EnterSession(e: Event)
      modifies this
      ensures var boundary := NewSession(old(s.session), e.sessionId);
              s == old(s).(
                session := ReduceSession(old(s.session), e),
                usage := if boundary then None else old(s.usage),
                children := if boundary then [] else old(s.children))
    {
      if e.sessionId.Some? {
        if NewSession(s.session, e.sessionId) {
          s := s.(usage := None);
          s := s.(children := []);
        }
        s := s.(session := ReduceSession(s.session, e));
      }
    }

    method FillMetadata(e: Event)
      modifies this
      ensures s == old(s).(metadata := ReduceMetadata(old(s.metadata), e))
    {
      if e.metadata.Some? {
        s := s.(metadata := Some(MergeMetadata(MetadataOr(s.metadata), e.metadata.value,
                                               e.evidence.channel == ProviderArtifact)));
      }
      if e.turnId.Some? {
        s := s.(metadata := Some(MetadataOr(s.metadata).(currentTurnId := e.turnId)));
      }
    }

    /** Tool, activity and assertion time: the first half of an accepted root event. */
    method ReduceState(e: Event)
      modifies this
      ensures var acted := ReduceActivity(old(s), e.kind);
              var asserted := AuthoritativeActivity(e.kind, e.evidence.channel);
              s == acted.(
                tool := ReduceTool(old(s.tool), old(s.session), e),
                stateStartedAt := if asserted && acted.activity != old(s.activity) then e.receivedAt
                                  else old(s.stateStartedAt),
                lastStateAssertedAt := if asserted then Some(e.receivedAt) else old(s.lastStateAssertedAt),
                confirmation := if asserted then Live else old(s.confirmation))
    {
      var before := s.activity;
      ReduceToolActivity(e);
      ActivityIgnoresTool(old(s), s.tool, e.kind);
      SetActivity(e.kind);
      AssertActivity(before, e);
    }

    /** Session, metadata, usage and evidence: the second half. */
    method ReduceFacts(e: Event)
      modifies this
      ensures var boundary := NewSession(old(s.session), e.sessionId);
              s == old(s).(
                session := ReduceSession(old(s.session), e),
                children := if boundary then [] else old(s.children),
                metadata := ReduceMetadata(old(s.metadata), e),
                usage := if e.usage.Some? then e.usage else if boundary then None else old(s.usage),
                sourceOrdering := RecordOrder(old(s.sourceOrdering), e.evidence),
                lastEvidence := Some(e.evidence))
    {
      EnterSession(e);
      FillMetadata(e);
      if e.usage.Some? {
        s := s.(usage := e.usage);
      }
      RecordSourceOrder(e.evidence);
      s := s.(lastEvidence := Some(e.evidence));
    }

    /**
     * The edits of one accepted root event, in the source's order: later edits see earlier ones,
     * and still the result is the function of the state before the event.
     */
    method ReduceRoot(e: Event)
      modifies this
      ensures s == Reduce(old(s), e)
    {
      ReduceState(e);
      ActivityKeepsFacts(old(s), e.kind);
      ReduceFacts(e);
    }

    /** Drops the children that have been running silently for too long. */
    method RetainFreshChildren(now: Time)
      modifies this
      ensures s == old(s).(children := FreshChildren(old(s.children), now))
    {
      var kept, rest := [], s.children;
      while rest != []
        invariant s == old(s)
        invariant kept + FreshChildren(rest, now) == FreshChildren(s.children, now)
      {
        if !StaleChild(rest[0], now) {
          assert FreshChildren(rest, now) == [rest[0]] + FreshChildren(rest[1..], now);
          kept := kept + [rest[0]];
        }
        rest := rest[1..];
      }
      s := s.(children := kept);
    }

    /** Stamps the draft when the projected view differs, and reports the view and what changed. */
    method FinalizeInto(priorView: View, reason: Option<Reason>, now: Time)
      returns (view: View, changed: set<PublicField>)
      modifies this
      ensures (s, view, changed) == Finalize(priorView, old(s), reason, now)
    {
      var provisional := CollectChangedFields(Some(priorView), Project(s, reason));
      if provisional != {} {
        s := s.(updatedAt := now);
      }
      view := Project(s, reason);
      changed := CollectChangedFields(Some(priorView), view);
    }
  }

  lemma ActivityIgnoresTool(s: Snapshot, tool: Option<CurrentTool>, kind: EventKind)
    ensures ReduceActivity(s.(tool := tool), kind) == ReduceActivity(s, kind).(tool := tool)
  {
  }

  lemma ActivityKeepsFacts(s: Snapshot, kind: EventKind)
    ensures var a := ReduceActivity(s, kind);
            a.session == s.session && a.metadata == s.metadata && a.usage == s.usage
            && a.sourceOrdering == s.sourceOrdering
  {
  }
}
