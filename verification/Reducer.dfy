/**
 * Invocation state transitions (crates/sessiontap-core/src/reducer.rs): what one event or one
 * local observation does to a snapshot and to the private status reason.
 */
module Reducer {
  import opened Common
  import opened Domain

  const STALE_WORKING: Time := 30 * 60 * 1_000_000_000

  /** What storage holds before a transition: the snapshot and the private reason. */
  datatype Prior = Prior(snapshot: Snapshot, reason: Option<Reason>)

  datatype ReasonEffect = Keep | Clear | Set(reason: Reason)

  datatype Transition = Transition(snapshot: Snapshot, reason: ReasonEffect, suppressed: bool)

  function Resolve(effect: ReasonEffect, prior: Option<Reason>): Option<Reason> {
    match effect
    case Keep => prior
    case Clear => None
    case Set(reason) => Some(reason)
  }

  // ---- Validation ----

  predicate ValidEvidence(e: Evidence) {
    && (if e.channel == ManagedHook then e.trust == AuthenticatedInvocation else e.trust == LocalObservation)
    && (e.collectorInstanceId.Some? ==> Bounded(e.collectorInstanceId.value, COLLECTOR_INSTANCE_ID_MAX_CHARS))
  }

  predicate ValidTool(t: ToolUpdate) {
    && Bounded(t.toolLabel, TOOL_LABEL_MAX_CHARS)
    && (t.correlationId.Some? ==> Bounded(t.correlationId.value, TOOL_CORRELATION_ID_MAX_CHARS))
    && (t.detail.Some? ==> Bounded(t.detail.value, TOOL_DETAIL_MAX_CHARS))
  }

  predicate ValidChild(c: ChildRef) {
    Bounded(c.agentId, TOOL_CORRELATION_ID_MAX_CHARS) && Bounded(c.agentType, TOOL_LABEL_MAX_CHARS)
  }

  predicate ValidSummary(text: string) {
    Bounded(text, STATUS_REASON_MAX_CHARS) && Utf8Length(text) <= STATUS_REASON_MAX_BYTES
  }

  predicate ValidEvent(e: Event, summary: Option<string>) {
    && ValidEvidence(e.evidence)
    && (e.tool.Some? ==> ValidTool(e.tool.value))
    && (e.child.Some? ==> ValidChild(e.child.value))
    && (summary.Some? ==> ValidSummary(summary.value))
  }

  // ---- Channel authority and source order ----

  /** Strips what the event's channel has no authority to say. */
  function WithChannelAuthority(e: Event): Event {
    match e.evidence.channel
    case ManagedHook | SideChannel => e
    case ProcessObservation =>
      e.(kind := if e.kind == SessionEnded then SessionEnded else Enrichment,
         sessionId := None, sessionName := None, sessionStartReason := None,
         metadata := None, usage := None, turnId := None, tool := None)
    case ProviderArtifact =>
      e.(kind := Enrichment, sessionStartReason := None, turnId := None, tool := None,
         metadata := if e.metadata.None? then None
                     else Some(e.metadata.value.(permissionMode := None, currentTurnId := None)))
  }

  predicate AuthoritativeActivity(kind: EventKind, channel: Channel) {
    && (channel == ManagedHook || channel == SideChannel)
    && kind !in {ProviderSessionEnded, SessionEnded, Enrichment}
  }

  function SourceOf(e: Evidence): Source {
    Source(e.channel, e.collectorRevision, e.collectorInstanceId)
  }

  predicate StaleOrder(cursors: seq<Cursor>, e: Evidence) {
    && e.sourceSequence.Some?
    && exists i :: 0 <= i < |cursors| && cursors[i].source == SourceOf(e) && e.sourceSequence.value <= cursors[i].sequence
  }

  /** Position of the first cursor of `source`, or the length when there is none. */
  function CursorIndex(cursors: seq<Cursor>, source: Source): (i: nat)
    ensures i <= |cursors|
    ensures i < |cursors| ==> cursors[i].source == source
    ensures forall j :: 0 <= j < i ==> cursors[j].source != source
  {
    if cursors == [] || cursors[0].source == source then 0
    else 1 + CursorIndex(cursors[1..], source)
  }

  function RecordOrder(cursors: seq<Cursor>, e: Evidence): seq<Cursor> {
    if e.sourceSequence.None? then cursors
    else
      var i := CursorIndex(cursors, SourceOf(e));
      if i < |cursors| then cursors[i := cursors[i].(sequence := e.sourceSequence.value)]
      else
        (if |cursors| == SOURCE_ORDER_CURSOR_MAX then cursors[1..] else cursors)
        + [Cursor(SourceOf(e), e.sourceSequence.value)]
  }

  // ---- Tool activity ----

  predicate MatchingTool(current: CurrentTool, update: ToolUpdate, allowLabelFallback: bool) {
    match (current.correlationId, update.correlationId)
    case (Some(a), Some(b)) => a == b
    case (None, None) => current.toolLabel == update.toolLabel
    case _ => allowLabelFallback && current.toolLabel == update.toolLabel
  }

  predicate EndsTool(kind: EventKind) {
    kind in {NewTurn, EventKind.Idle, EventKind.Completed, EventKind.Failed, Interrupted,
             ProviderSessionStarted, ProviderSessionEnded, SessionEnded}
  }

  predicate NewSession(session: Option<Session>, id: Option<string>) {
    id.Some? && (session.None? || session.value.id != id.value)
  }

  function Observe(t: CurrentTool, update: ToolUpdate, at: Time): CurrentTool {
    t.(lastObservedAt := at, detail := if update.detail.Some? then update.detail else t.detail)
  }

  function ReduceTool(tool: Option<CurrentTool>, session: Option<Session>, e: Event): Option<CurrentTool> {
    var kept := if NewSession(session, e.sessionId) || EndsTool(e.kind) then None else tool;
    if e.tool.None? then kept
    else
      var update := e.tool.value;
      match update.phase
      case Start =>
        if kept.Some? && MatchingTool(kept.value, update, false)
        then Some(Observe(kept.value, update, e.receivedAt))
        else Some(CurrentTool(update.toolLabel, update.correlationId, update.detail, e.receivedAt, e.receivedAt))
      case Progress | Attention =>
        if kept.Some? && MatchingTool(kept.value, update, true)
        then Some(Observe(kept.value, update, e.receivedAt))
        else kept
      case Finish | Failure =>
        if kept.Some? && MatchingTool(kept.value, update, false) then None else kept
  }

  // ---- Root events ----

  predicate TerminalTurn(s: Snapshot) {
    s.completedGeneration == Some(s.turnGeneration)
  }

  predicate Outcome(kind: EventKind) {
    kind in {EventKind.Completed, EventKind.Failed, Interrupted}
  }

  predicate Waiting(kind: EventKind) {
    kind in {EventKind.WaitingInput, EventKind.WaitingApproval}
  }

  function ReduceActivity(s: Snapshot, kind: EventKind): Snapshot {
    match kind
    case NewTurn =>
      s.(turnGeneration := s.turnGeneration + 1, completedGeneration := None,
         activity := Activity.Working, children := [])
    case Working => if TerminalTurn(s) then s else s.(activity := Activity.Working)
    case WaitingInput => if TerminalTurn(s) then s else s.(activity := Activity.WaitingInput)
    case WaitingApproval => if TerminalTurn(s) then s else s.(activity := Activity.WaitingApproval)
    case Idle | ProviderSessionStarted => s.(activity := Activity.Idle)
    case Completed | Failed | Interrupted =>
      s.(activity := Activity.Stopped, completedGeneration := Some(s.turnGeneration))
    case SessionEnded => s.(lifecycle := Exited, children := [])
    case ProviderSessionEnded | Enrichment => s
  }

  function SaturatingNext(generation: nat): nat {
    if generation >= U64_MAX then U64_MAX else generation + 1
  }

  function ReduceSession(session: Option<Session>, e: Event): Option<Session> {
    if e.sessionId.None? then session
    else if NewSession(session, e.sessionId) then
      Some(Session(e.sessionId.value, e.sessionName,
                   if session.None? then 1 else SaturatingNext(session.value.generation),
                   e.sessionStartReason))
    else
      var held := session.value;
      Some(Session(e.sessionId.value,
                   if e.sessionName.Some? then e.sessionName else held.name,
                   held.generation,
                   if e.sessionStartReason.Some? then e.sessionStartReason else held.startReason))
  }

  function MergeMetadata(current: Metadata, given: Metadata, fillsOnly: bool): Metadata {
    var takeModel := given.model.Some? && !(fillsOnly && current.model.Some?);
    Metadata(
      if takeModel then given.model else current.model,
      if takeModel then given.modelLabel else current.modelLabel,
      if given.effort.Some? then given.effort else current.effort,
      if given.permissionMode.Some? then given.permissionMode else current.permissionMode,
      if given.currentTurnId.Some? then given.currentTurnId else current.currentTurnId)
  }

  function MetadataOr(m: Option<Metadata>): Metadata {
    if m.Some? then m.value else DEFAULT_METADATA
  }

  function ReduceMetadata(m: Option<Metadata>, e: Event): Option<Metadata> {
    var merged :=
      if e.metadata.None? then m
      else Some(MergeMetadata(MetadataOr(m), e.metadata.value, e.evidence.channel == ProviderArtifact));
    if e.turnId.None? then merged else Some(MetadataOr(merged).(currentTurnId := e.turnId))
  }

  /** Everything one accepted root event does, each field from the state before the event. */
  function Reduce(s: Snapshot, e: Event): Snapshot {
    var acted := ReduceActivity(s, e.kind);
    var asserted := AuthoritativeActivity(e.kind, e.evidence.channel);
    var boundary := NewSession(s.session, e.sessionId);
    acted.(
      tool := ReduceTool(s.tool, s.session, e),
      stateStartedAt := if asserted && acted.activity != s.activity then e.receivedAt else s.stateStartedAt,
      lastStateAssertedAt := if asserted then Some(e.receivedAt) else s.lastStateAssertedAt,
      confirmation := if asserted then Live else s.confirmation,
      session := ReduceSession(s.session, e),
      children := if boundary then [] else acted.children,
      metadata := ReduceMetadata(s.metadata, e),
      usage := if e.usage.Some? then e.usage else if boundary then None else s.usage,
      sourceOrdering := RecordOrder(s.sourceOrdering, e.evidence),
      lastEvidence := Some(e.evidence))
  }

  /** The event after channel authority, the ended-process downgrade and the terminal-turn latch. */
  function Effective(s: Snapshot, e: Event): Event {
    var granted := WithChannelAuthority(e);
    var downgraded :=
      if !Ended(s.lifecycle) then granted
      else granted.(
           tool := None,
           kind := if AuthoritativeActivity(granted.kind, granted.evidence.channel) then Enrichment else granted.kind);
    if TerminalTurn(s) then downgraded.(tool := None) else downgraded
  }

  predicate StaleSession(s: Snapshot, e: Event) {
    && e.sessionId.Some? && s.session.Some? && s.session.value.id != e.sessionId.value
    && e.kind != ProviderSessionStarted
  }

  predicate StaleTurn(s: Snapshot, e: Event) {
    && e.turnId.Some? && s.metadata.Some? && s.metadata.value.currentTurnId.Some?
    && s.metadata.value.currentTurnId != e.turnId
    && e.kind != NewTurn
  }

  predicate LatchedOut(s: Snapshot, e: Event) {
    TerminalTurn(s) && (e.kind == EventKind.Working || Waiting(e.kind) || Outcome(e.kind))
  }

  predicate RootSuppressed(s: Snapshot, e: Event) {
    var effective := Effective(s, e);
    || StaleOrder(s.sourceOrdering, e.evidence)
    || StaleSession(s, effective)
    || StaleTurn(s, effective)
    || LatchedOut(s, effective)
  }

  function ClearUnless(reason: Option<Reason>, retained: set<EventKind>): ReasonEffect {
    if reason.Some? && reason.value.kind !in retained then Clear else Keep
  }

  function EventReason(prior: Option<Reason>, kind: EventKind, summary: Option<string>): ReasonEffect {
    match kind
    case WaitingApproval | WaitingInput | Completed | Failed | Interrupted =>
      if summary.None? then Clear else Set(Reason(kind, summary.value))
    case NewTurn | Working | Idle | ProviderSessionStarted => Clear
    case SessionEnded => ClearUnless(prior, {EventKind.Completed, EventKind.Failed})
    case ProviderSessionEnded | Enrichment => Keep
  }

  function WithStatus(s: Snapshot): Snapshot {
    s.(status := DeriveStatus(s.lifecycle, s.activity))
  }

  function ApplyRootEvent(prior: Prior, e: Event, summary: Option<string>): Transition {
    var s := prior.snapshot;
    if RootSuppressed(s, e) then Transition(WithStatus(s), Keep, true)
    else
      var effective := Effective(s, e);
      Transition(WithStatus(Reduce(s, effective)), EventReason(prior.reason, effective.kind, summary), false)
  }

  // ---- Child events ----

  /** The child activity an event kind asserts; other kinds leave the list alone. */
  function ChildOutcome(kind: EventKind): Option<(ChildActivity, Option<PublicReasonKind>)> {
    match kind
    case NewTurn | Working => Some((ChildActivity.Running, None))
    case WaitingInput => Some((ChildActivity.Blocked, Some(Input)))
    case WaitingApproval => Some((ChildActivity.Blocked, Some(Approval)))
    case Completed => Some((ChildActivity.Stopped, Some(PublicReasonKind.Completed)))
    case Failed | Interrupted => Some((ChildActivity.Stopped, Some(PublicReasonKind.Failed)))
    case _ => None
  }

  /** Position of the child with `id`, or the length when there is none. */
  function ChildIndex(cs: seq<ChildState>, id: string): (i: nat)
    ensures i <= |cs|
    ensures i < |cs| ==> cs[i].agentId == id
    ensures forall j :: 0 <= j < i ==> cs[j].agentId != id
  {
    if cs == [] || cs[0].agentId == id then 0 else 1 + ChildIndex(cs[1..], id)
  }

  predicate OlderOrSame(a: ChildState, b: ChildState) {
    KeyLe(a.startedAt, a.agentId, b.startedAt, b.agentId)
  }

  lemma OlderIsTotalOrder(a: ChildState, b: ChildState, c: ChildState)
    ensures OlderOrSame(a, b) || OlderOrSame(b, a)
    ensures OlderOrSame(a, b) && OlderOrSame(b, c) ==> OlderOrSame(a, c)
  {
    ViewLeIsTotalOrder(ViewChild(a), ViewChild(b), ViewChild(c));
  }

  /** The stopped child that started first, which is the one a full table gives up. */
  function OldestStopped(cs: seq<ChildState>): (r: Option<nat>)
    ensures r.None? <==> forall j :: 0 <= j < |cs| ==> cs[j].activity != ChildActivity.Stopped
    ensures r.Some? ==> r.value < |cs| && cs[r.value].activity == ChildActivity.Stopped
    ensures r.Some? ==> forall j :: 0 <= j < |cs| && cs[j].activity == ChildActivity.Stopped
                                    ==> OlderOrSame(cs[r.value], cs[j])
  {
    if cs == [] then None
    else
      var n := |cs| - 1;
      var best := OldestStopped(cs[..n]);
      if cs[n].activity != ChildActivity.Stopped then best
      else
        assert best.Some? && !OlderOrSame(cs[best.value], cs[n]) ==>
               forall j :: 0 <= j < n && cs[j].activity == ChildActivity.Stopped ==> OlderOrSame(cs[n], cs[j]) by {
          if best.Some? {
            forall j | 0 <= j < n && cs[j].activity == ChildActivity.Stopped
              ensures !OlderOrSame(cs[best.value], cs[n]) ==> OlderOrSame(cs[n], cs[j])
            {
              assert cs[..n][j] == cs[j];
              OlderIsTotalOrder(cs[best.value], cs[n], cs[j]);
              OlderIsTotalOrder(cs[n], cs[best.value], cs[j]);
            }
          }
        }
        assert OlderOrSame(cs[n], cs[n]) by { OlderIsTotalOrder(cs[n], cs[n], cs[n]); }
        if best.Some? && OlderOrSame(cs[best.value], cs[n]) then best else Some(n)
  }

  function Updated(c: ChildState, child: ChildRef, activity: ChildActivity,
                   kind: Option<PublicReasonKind>, given: Option<string>, now: Time): ChildState
  {
    var summary :=
      if activity == ChildActivity.Stopped || given.Some? then given
      else if c.reason.Some? then c.reason.value.summary
      else None;
    ChildState(c.agentId, child.agentType, activity,
               if kind.Some? || summary.Some? then Some(ChildReason(kind, summary)) else None,
               c.startedAt, now)
  }

  function ReduceChildren(cs: seq<ChildState>, e: Event, child: ChildRef): seq<ChildState> {
    var outcome := ChildOutcome(e.kind);
    if outcome.None? then cs
    else
      var (activity, kind) := outcome.value;
      var given := if e.tool.Some? then Some(e.tool.value.toolLabel) else None;
      var i := ChildIndex(cs, child.agentId);
      if i < |cs| then
        cs[i := Updated(cs[i], child, activity, kind, given, e.receivedAt)]
      else
        var blank := ChildState(child.agentId, child.agentType, activity, None, e.receivedAt, e.receivedAt);
        var added := Updated(blank, child, activity, kind, given, e.receivedAt);
        if |cs| < CHILD_AGENTS_MAX then cs + [added]
        else
          var oldest := OldestStopped(cs);
          if oldest.None? then cs
          else cs[..oldest.value] + cs[oldest.value + 1..] + [added]
  }

  predicate ChildSuppressed(s: Snapshot, e: Event) {
    var id := WithChannelAuthority(e).sessionId;
    || StaleOrder(s.sourceOrdering, e.evidence)
    || (id.Some? && s.session.Some? && s.session.value.id != id.value)
  }

  function ApplyChildEvent(prior: Prior, e: Event, child: ChildRef): Transition {
    var s := prior.snapshot;
    if ChildSuppressed(s, e) then Transition(s, Keep, true)
    else
      Transition(
        s.(children := if Ended(s.lifecycle) then s.children
                       else ReduceChildren(s.children, WithChannelAuthority(e), child),
           sourceOrdering := RecordOrder(s.sourceOrdering, e.evidence)),
        Keep, false)
  }

  predicate Suppressed(s: Snapshot, e: Event) {
    if e.child.Some? then ChildSuppressed(s, e) else RootSuppressed(s, e)
  }

  function ApplyEvent(prior: Prior, e: Event, summary: Option<string>): Result<Transition> {
    if !ValidEvent(e, summary) then Err("event is not bounded normalized data")
    else if e.child.Some? then Ok(ApplyChildEvent(prior, e, e.child.value))
    else Ok(ApplyRootEvent(prior, e, summary))
  }

  // ---- Local observations ----

  const LOCAL_EVIDENCE := Evidence(ProcessObservation, LocalObservation, None, None, None)

  function MarkLost(prior: Prior): Transition {
    Transition(
      WithStatus(prior.snapshot.(lifecycle := Lost, tool := None, children := [], lastEvidence := Some(LOCAL_EVIDENCE))),
      ClearUnless(prior.reason, {EventKind.Completed, EventKind.Failed}),
      false)
  }

  predicate StaleChild(c: ChildState, now: Time) {
    c.activity == ChildActivity.Running && now - c.updatedAt >= STALE_WORKING
  }

  predicate StaleWorking(s: Snapshot, now: Time) {
    && s.lifecycle == Alive
    && s.activity == Activity.Working
    && now - (if s.lastStateAssertedAt.Some? then s.lastStateAssertedAt.value else s.stateStartedAt) >= STALE_WORKING
  }

  function FreshChildren(cs: seq<ChildState>, now: Time): seq<ChildState> {
    if cs == [] then []
    else (if StaleChild(cs[0], now) then [] else [cs[0]]) + FreshChildren(cs[1..], now)
  }

  predicate HasStaleChild(cs: seq<ChildState>, now: Time) {
    exists i :: 0 <= i < |cs| && StaleChild(cs[i], now)
  }

  function ExpireStale(prior: Prior, now: Time): Option<Transition> {
    var s := prior.snapshot;
    if !StaleWorking(s, now) && !HasStaleChild(s.children, now) then None
    else
      var swept := s.(children := FreshChildren(s.children, now));
      if StaleWorking(s, now) then
        Some(Transition(WithStatus(swept.(activity := Activity.Unknown, stateStartedAt := now, tool := None)),
                        Clear, false))
      else Some(Transition(swept, Keep, false))
  }

  /** `local_mutation` after the caller's closure has produced `changed`. */
  function LocalMutation(prior: Prior, clearIncompatibleReason: bool, changed: Snapshot): Transition {
    Transition(
      WithStatus(changed.(
                 lastEvidence := Some(LOCAL_EVIDENCE),
                 tool := if clearIncompatibleReason then None else changed.tool,
                 children := if Ended(changed.lifecycle) then [] else changed.children)),
      if clearIncompatibleReason
      then ClearUnless(prior.reason, {EventKind.Completed, EventKind.Failed, Interrupted})
      else Keep,
      false)
  }

  /** The supervised child process is known: the invocation is alive. */
  function BindChild(prior: Prior, pid: nat, identity: Option<string>): Transition {
    var s := prior.snapshot;
    LocalMutation(prior, false,
                  s.(process := s.process.(childPid := Some(pid), startIdentity := identity), lifecycle := Alive))
  }

  function MarkExit(prior: Prior, code: Option<int>, signal: Option<int>): Transition {
    var s := prior.snapshot;
    LocalMutation(prior, true,
                  s.(process := s.process.(exitCode := code, signal := signal), lifecycle := Exited))
  }

  // ---- Finalizing ----

  /** The snapshot to persist, its view, and the public fields that changed. */
  function Finalize(priorView: View, s: Snapshot, reason: Option<Reason>, now: Time)
    : (Snapshot, View, set<PublicField>)
  {
    var provisional := Project(s, reason);
    var stamped := if ChangedFields(Some(priorView), provisional) != {} then s.(updatedAt := now) else s;
    var view := Project(stamped, reason);
    (stamped, view, ChangedFields(Some(priorView), view))
  }
}
