/**
 * What one provider event does, spelled out field by field from the snapshot and the event alone:
 * which events pass, and what every kind on every channel changes
 * (crates/sessiontap-core/src/reducer.rs:63-163, 416-509, 579-753).
 */
module InvocationExact {
  import opened Common
  import opened Domain
  import opened Reducer
  import opened InvocationRuns
  import opened InvocationLaws

  // ---- Which events are valid ----

  /** Between one and `max` characters, none of them U+0000 to U+001F or U+007F to U+009F. */
  predicate Plain(text: string, max: nat) {
    && 1 <= |text| <= max
    && forall i :: 0 <= i < |text| ==> ' ' <= text[i] && !('\U{7F}' <= text[i] <= '\U{9F}')
  }

  predicate PlainIfAny(text: Option<string>, max: nat) {
    text.Some? ==> Plain(text.value, max)
  }

  lemma PlainIsBounded(text: string, max: nat)
    ensures Plain(text, max) <==> Bounded(text, max)
  {
  }

  /** An event is rejected exactly when its trust does not fit its channel or a text is out of bounds. */
  lemma RejectedIff(p: Prior, e: Event, summary: Option<string>)
    ensures ApplyEvent(p, e, summary).Ok? <==>
            && (e.evidence.trust == AuthenticatedInvocation <==> e.evidence.channel == ManagedHook)
            && PlainIfAny(e.evidence.collectorInstanceId, 128)
            && (e.tool.Some? ==>
                  && Plain(e.tool.value.toolLabel, 64)
                  && PlainIfAny(e.tool.value.correlationId, 128) && PlainIfAny(e.tool.value.detail, 160))
            && (e.child.Some? ==> Plain(e.child.value.agentId, 128) && Plain(e.child.value.agentType, 64))
            && (summary.Some? ==> Plain(summary.value, 128) && Utf8Length(summary.value) <= 512)
  {
    hide Plain, Bounded, Utf8Length, ApplyChildEvent, ApplyRootEvent;
    if e.evidence.collectorInstanceId.Some? { PlainIsBounded(e.evidence.collectorInstanceId.value, 128); }
    if e.tool.Some? {
      PlainIsBounded(e.tool.value.toolLabel, 64);
      if e.tool.value.correlationId.Some? { PlainIsBounded(e.tool.value.correlationId.value, 128); }
      if e.tool.value.detail.Some? { PlainIsBounded(e.tool.value.detail.value, 160); }
    }
    if e.child.Some? {
      PlainIsBounded(e.child.value.agentId, 128);
      PlainIsBounded(e.child.value.agentType, 64);
    }
    if summary.Some? { PlainIsBounded(summary.value, 128); }
  }

  // ---- Which events pass ----

  predicate Hooked(e: Event) {
    e.evidence.channel == ManagedHook || e.evidence.channel == SideChannel
  }

  predicate Living(s: Snapshot) {
    s.lifecycle == Starting || s.lifecycle == Alive
  }

  /** A number not above one already recorded for the same channel, revision and instance. */
  predicate OutOfOrder(s: Snapshot, e: Event) {
    && e.evidence.sourceSequence.Some?
    && exists i :: 0 <= i < |s.sourceOrdering|
                   && s.sourceOrdering[i].source.channel == e.evidence.channel
                   && s.sourceOrdering[i].source.revision == e.evidence.collectorRevision
                   && s.sourceOrdering[i].source.instance == e.evidence.collectorInstanceId
                   && e.evidence.sourceSequence.value <= s.sourceOrdering[i].sequence
  }

  /** It names a session that is not the known one; process observations name none. */
  predicate OtherSession(s: Snapshot, e: Event) {
    && e.evidence.channel != ProcessObservation
    && e.sessionId.Some? && s.session.Some? && e.sessionId.value != s.session.value.id
  }

  /** It names a turn that is not the known one; only hooks and side channels name turns. */
  predicate OtherTurn(s: Snapshot, e: Event) {
    && Hooked(e)
    && e.turnId.Some? && s.metadata.Some? && s.metadata.value.currentTurnId.Some?
    && e.turnId.value != s.metadata.value.currentTurnId.value
  }

  /**
   * A root event is suppressed if and only if it is out of order; or it names another session and
   * does not start it on a living process; or it names another turn and does not begin one on a
   * living process; or it is turn news after the turn's outcome on a living process.
   */
  lemma SuppressedIff(s: Snapshot, e: Event)
    requires e.child.None?
    ensures Suppressed(s, e) <==>
            || OutOfOrder(s, e)
            || (OtherSession(s, e) && !(Hooked(e) && Living(s) && e.kind == ProviderSessionStarted))
            || (OtherTurn(s, e) && !(Living(s) && e.kind == NewTurn))
            || (s.completedGeneration == Some(s.turnGeneration) && Hooked(e) && Living(s)
                && e.kind in {EventKind.Working, EventKind.WaitingInput, EventKind.WaitingApproval,
                              EventKind.Completed, EventKind.Failed, Interrupted})
  {
    StaleOrderIff(s, e);
    hide StaleOrder, OutOfOrder;
  }

  lemma StaleOrderIff(s: Snapshot, e: Event)
    ensures StaleOrder(s.sourceOrdering, e.evidence) <==> OutOfOrder(s, e)
  {
  }

  /** A child event is suppressed if and only if it is out of order or names another session. */
  lemma ChildSuppressedIff(s: Snapshot, e: Event)
    requires e.child.Some?
    ensures Suppressed(s, e) <==> OutOfOrder(s, e) || OtherSession(s, e)
  {
    StaleOrderIff(s, e);
    hide StaleOrder, OutOfOrder;
  }

  /** In every reachable state, an event that is rejected or suppressed changes nothing at all. */
  lemma RefusedChangesNothing(init: Prior, steps: seq<Step>, step: Step)
    requires Registered(init) && step.Deliver?
    requires !ValidEvent(step.event, step.summary) || Suppressed(Run(init, steps).snapshot, step.event)
    ensures After(Run(init, steps), step) == Run(init, steps)
  {
    ReachableIsConsistent(init, steps);
    var p := Run(init, steps);
    ReportsAreExact(p, step);
    AfterStamps(p, step);
    hide After, Commit, Run, Reported, ValidEvent, RootSuppressed, ChildSuppressed;
  }

  // ---- What an accepted event changes ----

  /** The kind a channel may assert on this invocation; anything else is mere enrichment. */
  function Heard(s: Snapshot, e: Event): EventKind {
    if e.kind == SessionEnded && e.evidence.channel != ProviderArtifact then SessionEnded
    else if Hooked(e) && (Living(s) || e.kind == ProviderSessionEnded) then e.kind
    else Enrichment
  }

  /** What each channel may say about session, turn, tool, metadata and usage. */
  lemma EffectiveIs(s: Snapshot, e: Event)
    ensures var f := Effective(s, e);
            var observed := e.evidence.channel == ProcessObservation;
            && f.kind == Heard(s, e)
            && f.evidence == e.evidence && f.receivedAt == e.receivedAt
            && f.sessionId == (if observed then None else e.sessionId)
            && f.sessionName == (if observed then None else e.sessionName)
            && f.sessionStartReason == (if Hooked(e) then e.sessionStartReason else None)
            && f.usage == (if observed then None else e.usage)
            && f.turnId == (if Hooked(e) then e.turnId else None)
            && f.tool == (if Hooked(e) && Living(s) && s.completedGeneration != Some(s.turnGeneration) then e.tool else None)
            && f.metadata == (if observed || e.metadata.None? then None
                              else if Hooked(e) then e.metadata
                              else Some(e.metadata.value.(permissionMode := None, currentTurnId := None)))
  {
  }

  /**
   * Activity, lifecycle, turn and outcome after an accepted root event, for every kind and channel,
   * and the private reason.
   */
  lemma AcceptedTurn(p: Prior, step: Step)
    requires Accepted(p, step)
    ensures var s, s', kind := p.snapshot, After(p, step).snapshot, Heard(p.snapshot, step.event);
            && s'.activity == (match kind
                               case NewTurn | Working => Activity.Working
                               case WaitingInput => Activity.WaitingInput
                               case WaitingApproval => Activity.WaitingApproval
                               case Idle | ProviderSessionStarted => Activity.Idle
                               case Completed | Failed | Interrupted => Activity.Stopped
                               case ProviderSessionEnded | SessionEnded | Enrichment => s.activity)
            && s'.lifecycle == (if kind == SessionEnded then Exited else s.lifecycle)
            && s'.turnGeneration == s.turnGeneration + (if kind == NewTurn then 1 else 0)
            && s'.completedGeneration == (if kind == NewTurn then None
                                          else if kind in {EventKind.Completed, EventKind.Failed, Interrupted}
                                          then Some(s.turnGeneration)
                                          else s.completedGeneration)
  {
    SuppressedIff(p.snapshot, step.event);
    EffectiveIs(p.snapshot, step.event);
    AcceptedEffects(p, step);
    hide After, Effective, Suppressed, RootSuppressed, OutOfOrder;
  }

  lemma AcceptedReasonIs(p: Prior, step: Step)
    requires Accepted(p, step)
    ensures var kind, reason := Heard(p.snapshot, step.event), After(p, step).reason;
            && (kind in {EventKind.WaitingInput, EventKind.WaitingApproval, EventKind.Completed, EventKind.Failed, Interrupted} ==>
                  reason == if step.summary.Some? then Some(Reason(kind, step.summary.value)) else None)
            && (kind in {NewTurn, EventKind.Working, EventKind.Idle, ProviderSessionStarted} ==> reason.None?)
            && (kind in {ProviderSessionEnded, Enrichment} ==> reason == p.reason)
            && (kind == SessionEnded ==>
                  reason == if p.reason.Some? && p.reason.value.kind in {EventKind.Completed, EventKind.Failed}
                            then p.reason else None)
  {
    hide After, Effective, RootSuppressed, ValidEvent;
    EffectiveIs(p.snapshot, step.event);
    AcceptedReason(p, step);
  }

  /** Evidence, assertion time and confirmation; launch facts and process stay. */
  lemma AcceptedRest(p: Prior, step: Step)
    requires Accepted(p, step)
    ensures var s, s', e := p.snapshot, After(p, step).snapshot, step.event;
            var asserted := Hooked(e) && Living(s) && e.kind !in {ProviderSessionEnded, SessionEnded, Enrichment};
            && s'.launch == s.launch && s'.process == s.process
            && s'.lastEvidence == Some(e.evidence)
            && s'.lastStateAssertedAt == (if asserted then Some(e.receivedAt) else s.lastStateAssertedAt)
            && s'.confirmation == (if asserted then Live else s.confirmation)
  {
    EffectiveIs(p.snapshot, step.event);
    AfterStamps(p, step);
    hide After, Commit, Effective, ReduceTool, ReduceSession, ReduceMetadata, RecordOrder, Suppressed, RootSuppressed, EventReason;
  }

  /** The children go with a new turn, the end of the session's process, or another session. */
  lemma AcceptedChildren(p: Prior, step: Step)
    requires Accepted(p, step)
    ensures var s, e := p.snapshot, step.event;
            After(p, step).snapshot.children ==
            if Heard(s, e) in {NewTurn, SessionEnded} || Enters(s, e) then [] else s.children
  {
    hide After, Effective, RootSuppressed, ValidEvent;
    EffectiveIs(p.snapshot, step.event);
    AcceptedEffects(p, step);
  }

  /** It names a session that is not the one known so far. */
  predicate Enters(s: Snapshot, e: Event) {
    && e.evidence.channel != ProcessObservation && e.sessionId.Some?
    && (s.session.Some? ==> s.session.value.id != e.sessionId.value)
  }

  /**
   * The session and the usage: an event that names no session keeps it; another session replaces
   * it; the same one is refreshed by what the event gives. Another session also ends old usage.
   */
  lemma AcceptedSession(p: Prior, step: Step)
    requires Accepted(p, step)
    ensures var s, s', e := p.snapshot, After(p, step).snapshot, step.event;
            var observed := e.evidence.channel == ProcessObservation;
            var why := if Hooked(e) then e.sessionStartReason else None;
            && (observed || e.sessionId.None? ==> s'.session == s.session)
            && (Enters(s, e) ==>
                  && s'.session.Some? && s'.session.value.id == e.sessionId.value
                  && s'.session.value.name == e.sessionName && s'.session.value.startReason == why
                  && s'.session.value.generation ==
                     (if s.session.None? then 1
                      else if s.session.value.generation >= 0xFFFF_FFFF_FFFF_FFFF then 0xFFFF_FFFF_FFFF_FFFF
                      else s.session.value.generation + 1))
            && (!observed && e.sessionId.Some? && !Enters(s, e) ==>
                  && s'.session.Some? && s'.session.value.id == s.session.value.id
                  && s'.session.value.generation == s.session.value.generation
                  && s'.session.value.name == (if e.sessionName.Some? then e.sessionName else s.session.value.name)
                  && s'.session.value.startReason == (if why.Some? then why else s.session.value.startReason))
            && s'.usage == (if !observed && e.usage.Some? then e.usage else if Enters(s, e) then None else s.usage)
  {
    hide After, Effective, RootSuppressed, ValidEvent;
    EffectiveIs(p.snapshot, step.event);
    AcceptedFields(p, step);
  }

  function Known(m: Option<Metadata>): Metadata {
    if m.Some? then m.value else Metadata(None, None, None, None, None)
  }

  /**
   * The metadata, field by field: what a hook gives wins; an artifact never touches turn and
   * permission mode, and gives a model only where there is none; a label comes with its model.
   */
  lemma AcceptedMetadata(p: Prior, step: Step)
    requires Accepted(p, step)
    ensures var e := step.event;
            var was, now := Known(p.snapshot.metadata), After(p, step).snapshot.metadata;
            var given := if e.metadata.Some? && e.evidence.channel != ProcessObservation then e.metadata.value
                         else Metadata(None, None, None, None, None);
            var models := given.model.Some? && (Hooked(e) || was.model.None?);
            && (now.None? <==> p.snapshot.metadata.None? && !(Hooked(e) && e.turnId.Some?)
                               && !(e.metadata.Some? && e.evidence.channel != ProcessObservation))
            && Known(now).model == (if models then given.model else was.model)
            && Known(now).modelLabel == (if models then given.modelLabel else was.modelLabel)
            && Known(now).effort == (if given.effort.Some? then given.effort else was.effort)
            && Known(now).permissionMode == (if Hooked(e) && given.permissionMode.Some? then given.permissionMode else was.permissionMode)
            && Known(now).currentTurnId == (if Hooked(e) && e.turnId.Some? then e.turnId
                                                 else if Hooked(e) && given.currentTurnId.Some? then given.currentTurnId
                                                 else was.currentTurnId)
  {
    hide After, Effective, RootSuppressed, ValidEvent;
    EffectiveIs(p.snapshot, step.event);
    AcceptedFields(p, step);
  }

  // ---- The tool ----

  /** Two reports of one call: by correlation if both have one, by label if neither has. */
  predicate OneCall(tool: CurrentTool, update: ToolUpdate) {
    tool.correlationId == update.correlationId && (update.correlationId.None? ==> tool.toolLabel == update.toolLabel)
  }

  /** Progress may also miss the correlation on one side, if the labels agree. */
  predicate SameWork(tool: CurrentTool, update: ToolUpdate) {
    || OneCall(tool, update)
    || (tool.correlationId.Some? != update.correlationId.Some? && tool.toolLabel == update.toolLabel)
  }

  /** The tool that survives the event's kind and session, before its own report. */
  function KeptTool(s: Snapshot, e: Event): Option<CurrentTool> {
    if Enters(s, e) || Heard(s, e) in {NewTurn, EventKind.Idle, EventKind.Completed, EventKind.Failed, Interrupted,
                                       ProviderSessionStarted, ProviderSessionEnded, SessionEnded}
    then None else s.tool
  }

  /** The tool after an accepted root event, for every phase; reports count only from hooks, in a living, open turn. */
  lemma AcceptedTool(p: Prior, step: Step)
    requires Accepted(p, step)
    ensures var s, e, tool := p.snapshot, step.event, After(p, step).snapshot.tool;
            var kept := KeptTool(s, e);
            if !(Hooked(e) && Living(s) && s.completedGeneration != Some(s.turnGeneration) && e.tool.Some?) then tool == kept
            else
              var u := e.tool.value;
              var seen := kept.Some? && (if u.phase in {Progress, Attention} then SameWork(kept.value, u) else OneCall(kept.value, u));
              if u.phase in {Finish, Failure} then tool == if seen then None else kept
              else if seen then
                tool == Some(kept.value.(lastObservedAt := e.receivedAt,
                                         detail := if u.detail.Some? then u.detail else kept.value.detail))
              else if u.phase == Start then
                tool == Some(CurrentTool(u.toolLabel, u.correlationId, u.detail, e.receivedAt, e.receivedAt))
              else tool == kept
  {
    hide After, Effective, RootSuppressed, ValidEvent;
    EffectiveIs(p.snapshot, step.event);
    AcceptedFields(p, step);
    ReducedTool(p.snapshot, step.event, Effective(p.snapshot, step.event));
  }

  lemma ReducedTool(s: Snapshot, e: Event, f: Event)
    requires f.kind == Heard(s, e) && f.receivedAt == e.receivedAt
    requires f.sessionId == if e.evidence.channel == ProcessObservation then None else e.sessionId
    ensures f.tool.None? ==> ReduceTool(s.tool, s.session, f) == KeptTool(s, e)
    ensures f.tool.Some? ==>
              var u, kept := f.tool.value, KeptTool(s, e);
              var seen := kept.Some? && (if u.phase in {Progress, Attention} then SameWork(kept.value, u) else OneCall(kept.value, u));
              ReduceTool(s.tool, s.session, f) ==
              if u.phase in {Finish, Failure} then (if seen then None else kept)
              else if seen then
                Some(kept.value.(lastObservedAt := e.receivedAt,
                                 detail := if u.detail.Some? then u.detail else kept.value.detail))
              else if u.phase == Start then
                Some(CurrentTool(u.toolLabel, u.correlationId, u.detail, e.receivedAt, e.receivedAt))
              else kept
  {
    hide Heard;
  }

  // ---- Corollaries ----

  /**
   * A turn begins under any turn id: a valid hook of the known session, in order, on a living
   * process always takes effect.
   */
  lemma NewTurnBegins(p: Prior, step: Step)
    requires step.Deliver? && step.event.child.None? && ValidEvent(step.event, step.summary)
    requires var s, e := p.snapshot, step.event;
             Hooked(e) && Living(s) && e.kind == NewTurn && !OutOfOrder(s, e) && !OtherSession(s, e)
    ensures var s, q, e := p.snapshot, After(p, step), step.event;
            && Accepted(p, step)
            && q.snapshot.turnGeneration == s.turnGeneration + 1 && q.snapshot.completedGeneration.None?
            && q.snapshot.activity == Activity.Working && q.snapshot.lifecycle == s.lifecycle
            && q.snapshot.children == [] && q.reason.None?
            && (e.turnId.Some? ==> Known(q.snapshot.metadata).currentTurnId == e.turnId)
  {
    hide OutOfOrder, After, Suppressed, ValidEvent;
    SuppressedIff(p.snapshot, step.event);
    AcceptedIff(p, step);
    AcceptedTurn(p, step);
    AcceptedReasonIs(p, step);
    AcceptedChildren(p, step);
    AcceptedMetadata(p, step);
    hide Accepted;
  }

  lemma AcceptedIff(p: Prior, step: Step)
    requires step.Deliver? && step.event.child.None? && ValidEvent(step.event, step.summary)
    ensures Accepted(p, step) <==> !Suppressed(p.snapshot, step.event)
  {
    hide RootSuppressed, ValidEvent;
  }

  /** A session starts under any new id, whatever was known before, unless its event names another turn. */
  lemma SessionStarts(p: Prior, step: Step)
    requires step.Deliver? && step.event.child.None? && ValidEvent(step.event, step.summary)
    requires var s, e := p.snapshot, step.event;
             && Hooked(e) && Living(s) && e.kind == ProviderSessionStarted && Enters(s, e)
             && !OutOfOrder(s, e) && !OtherTurn(s, e)
    ensures var q, e := After(p, step), step.event;
            && Accepted(p, step)
            && q.snapshot.session.Some? && q.snapshot.session.value.id == e.sessionId.value
            && q.snapshot.usage == e.usage && q.snapshot.children == []
            && q.snapshot.activity == Activity.Idle && q.reason.None?
  {
    hide OutOfOrder, After, Suppressed, ValidEvent;
    SuppressedIff(p.snapshot, step.event);
    AcceptedIff(p, step);
    AcceptedTurn(p, step);
    AcceptedReasonIs(p, step);
    AcceptedChildren(p, step);
    AcceptedSession(p, step);
    hide Accepted;
  }

  // ---- Child events ----

  predicate ChildNews(kind: EventKind) {
    kind in {NewTurn, EventKind.Working, EventKind.WaitingInput, EventKind.WaitingApproval,
             EventKind.Completed, EventKind.Failed, Interrupted}
  }

  /** There is a place for the child: its own, a free one, or that of a stopped child. */
  predicate HasPlace(cs: seq<ChildState>, id: string) {
    || (exists i :: 0 <= i < |cs| && cs[i].agentId == id)
    || |cs| < 32
    || (exists i :: 0 <= i < |cs| && cs[i].activity == ChildActivity.Stopped)
  }

  lemma PlaceIsRoom(cs: seq<ChildState>, id: string)
    ensures HasPlace(cs, id) <==> HasRoom(cs, id)
  {
    LookupOf(cs, id);
    hide Lookup;
  }

  /** What the table says of the addressed child afterwards, kind by kind. */
  predicate Tells(was: Option<ChildState>, e: Event, c: ChildState) {
    var told := if e.tool.Some? then Some(e.tool.value.toolLabel) else None;
    var before := if was.Some? && was.value.reason.Some? then was.value.reason.value.summary else None;
    var going := if told.Some? then told else before;
    match e.kind
    case NewTurn | Working =>
      c.activity == ChildActivity.Running
      && c.reason == (if going.Some? then Some(ChildReason(None, going)) else None)
    case WaitingInput =>
      c.activity == ChildActivity.Blocked && c.reason == Some(ChildReason(Some(Input), going))
    case WaitingApproval =>
      c.activity == ChildActivity.Blocked && c.reason == Some(ChildReason(Some(Approval), going))
    case Completed =>
      c.activity == ChildActivity.Stopped && c.reason == Some(ChildReason(Some(PublicReasonKind.Completed), told))
    case Failed | Interrupted =>
      c.activity == ChildActivity.Stopped && c.reason == Some(ChildReason(Some(PublicReasonKind.Failed), told))
    case _ => false
  }

  lemma ReducedChildTells(cs: seq<ChildState>, e: Event, child: ChildRef)
    requires UniqueIds(cs)
    ensures !ChildNews(e.kind) || !HasPlace(cs, child.agentId) ==> ReduceChildren(cs, e, child) == cs
    ensures ChildNews(e.kind) && HasPlace(cs, child.agentId) ==>
              var r := ReduceChildren(cs, e, child);
              Lookup(r, child.agentId).Some? && Tells(Lookup(cs, child.agentId), e, Lookup(r, child.agentId).value)
  {
    PlaceIsRoom(cs, child.agentId);
    hide OldestStopped, HasPlace;
    if ChildNews(e.kind) && HasRoom(cs, child.agentId) {
      ReduceChildrenKeepsTable(cs, e, child);
      var r := ReduceChildren(cs, e, child);
      var i := ChildIndex(cs, child.agentId);
      LookupAt(r, if i < |cs| then i else |r| - 1);
    }
  }

  /**
   * A child event that passes: from a hook, on a living process, with news of the child and a place
   * for it, the table tells that news; otherwise the table stays. Nothing else but the source order
   * and the stamp changes.
   */
  lemma ChildEventTells(p: Prior, step: Step)
    requires step.Deliver? && step.event.child.Some? && ValidEvent(step.event, step.summary)
    requires !Suppressed(p.snapshot, step.event) && UniqueIds(p.snapshot.children)
    ensures var s, s', e := p.snapshot, After(p, step).snapshot, step.event;
            var id := e.child.value.agentId;
            && s' == s.(children := s'.children, sourceOrdering := s'.sourceOrdering, updatedAt := s'.updatedAt)
            && After(p, step).reason == p.reason
            && (if Hooked(e) && Living(s) && ChildNews(e.kind) && HasPlace(s.children, id)
                then Lookup(s'.children, id).Some? && Tells(Lookup(s.children, id), e, Lookup(s'.children, id).value)
                else s'.children == s.children)
  {
    AfterStamps(p, step);
    ReducedChildTells(p.snapshot.children, WithChannelAuthority(step.event), step.event.child.value);
    hide After, Commit, ReduceChildren, Suppressed, ChildSuppressed, HasPlace, Lookup, RecordOrder, ValidEvent;
  }

  // ---- Local observations ----

  /** A process observation of the supervisor's own. */
  const OBSERVED := Evidence(ProcessObservation, LocalObservation, None, None, None)

  function KeptReason(reason: Option<Reason>, kinds: set<EventKind>): Option<Reason> {
    if reason.Some? && reason.value.kind in kinds then reason else None
  }

  /** A lost process keeps nothing of its tool and children, and only a completed or failed reason. */
  lemma LossIs(p: Prior, now: Time)
    ensures var s, q := p.snapshot, After(p, ProcessLost(now));
            && q.snapshot == s.(lifecycle := Lost, tool := None, children := [], lastEvidence := Some(OBSERVED),
                                status := PublicStatus.Stopped, updatedAt := q.snapshot.updatedAt)
            && q.reason == KeptReason(p.reason, {EventKind.Completed, EventKind.Failed})
  {
    AfterStamps(p, ProcessLost(now));
    hide After, Commit;
  }

  /** An exit records how, and also keeps an interruption's reason. */
  lemma ExitIs(p: Prior, code: Option<int>, signal: Option<int>, now: Time)
    ensures var s, q := p.snapshot, After(p, Exit(code, signal, now));
            && q.snapshot == s.(process := s.process.(exitCode := code, signal := signal),
                                lifecycle := Exited, tool := None, children := [], lastEvidence := Some(OBSERVED),
                                status := PublicStatus.Stopped, updatedAt := q.snapshot.updatedAt)
            && q.reason == KeptReason(p.reason, {EventKind.Completed, EventKind.Failed, Interrupted})
  {
    AfterStamps(p, Exit(code, signal, now));
    hide After, Commit;
  }

  /** A bind names the process and brings the invocation to life; all else stays. */
  lemma BindIs(p: Prior, pid: nat, identity: Option<string>, now: Time)
    ensures var s, q := p.snapshot, After(p, Bind(pid, identity, now));
            && q.snapshot == s.(process := s.process.(childPid := Some(pid), startIdentity := identity),
                                lifecycle := Alive, lastEvidence := Some(OBSERVED),
                                status := q.snapshot.status, updatedAt := q.snapshot.updatedAt)
            && q.reason == p.reason
  {
    AfterStamps(p, Bind(pid, identity, now));
    hide After, Commit;
  }

  /** Thirty minutes, in nanoseconds. */
  const HALF_HOUR: Time := 1_800_000_000_000

  predicate SilentChild(c: ChildState, now: Time) {
    c.activity == ChildActivity.Running && now >= c.updatedAt + HALF_HOUR
  }

  predicate SilentWork(s: Snapshot, now: Time) {
    && s.lifecycle == Alive && s.activity == Activity.Working
    && now >= (if s.lastStateAssertedAt.Some? then s.lastStateAssertedAt.value else s.stateStartedAt) + HALF_HOUR
  }

  /** A sweep drops the children silent for half an hour and forgets work unasserted for as long. */
  lemma SweepIs(p: Prior, now: Time)
    ensures var s, q := p.snapshot, After(p, Sweep(now));
            && (forall c :: c in q.snapshot.children <==> c in s.children && !SilentChild(c, now))
            && (if SilentWork(s, now) then
                  && q.snapshot == s.(activity := Activity.Unknown, stateStartedAt := now, tool := None,
                                      status := PublicStatus.Idle,
                                      children := q.snapshot.children, updatedAt := q.snapshot.updatedAt)
                  && q.reason.None?
                else
                  && q.snapshot == s.(children := q.snapshot.children, updatedAt := q.snapshot.updatedAt)
                  && q.reason == p.reason)
  {
    AfterStamps(p, Sweep(now));
    FreshChildrenMembers(p.snapshot.children, now);
    assert forall c :: StaleChild(c, now) <==> SilentChild(c, now);
    assert StaleWorking(p.snapshot, now) <==> SilentWork(p.snapshot, now);
    hide After, Commit, FreshChildren;
  }
}
