/** Invocation state and its observer-facing projection (crates/sessiontap-core/src/domain.rs). */
module Domain {
  import opened Common

  const CHILD_AGENTS_MAX: nat := 32
  const SOURCE_ORDER_CURSOR_MAX: nat := 32
  const COLLECTOR_INSTANCE_ID_MAX_CHARS: nat := 128
  const TOOL_CORRELATION_ID_MAX_CHARS: nat := 128
  const TOOL_LABEL_MAX_CHARS: nat := 64
  const TOOL_DETAIL_MAX_CHARS: nat := 160
  const STATUS_REASON_MAX_CHARS: nat := 128
  const STATUS_REASON_MAX_BYTES: nat := 512
  const U64_MAX: nat := 0xFFFF_FFFF_FFFF_FFFF

  datatype Lifecycle = Starting | Alive | Exited | Lost

  datatype Activity = Unknown | Idle | Working | WaitingInput | WaitingApproval | Stopped

  datatype EventKind =
    | NewTurn | Working | Idle | WaitingInput | WaitingApproval
    | Completed | Failed | Interrupted
    | ProviderSessionStarted | ProviderSessionEnded | SessionEnded | Enrichment

  datatype Channel = ManagedHook | SideChannel | ProcessObservation | ProviderArtifact

  datatype Trust = AuthenticatedInvocation | LocalObservation

  datatype Evidence = Evidence(
    channel: Channel,
    trust: Trust,
    collectorRevision: Option<nat>,
    collectorInstanceId: Option<string>,
    sourceSequence: Option<nat>)

  /** What tells one ordered evidence source from another. */
  datatype Source = Source(channel: Channel, revision: Option<nat>, instance: Option<string>)

  datatype Cursor = Cursor(source: Source, sequence: nat)

  datatype Confirmation = Live | RestoredUnconfirmed

  datatype ToolPhase = Start | Progress | Finish | Failure | Attention

  datatype ToolUpdate = ToolUpdate(
    phase: ToolPhase, toolLabel: string, correlationId: Option<string>, detail: Option<string>)

  datatype CurrentTool = CurrentTool(
    toolLabel: string, correlationId: Option<string>, detail: Option<string>,
    startedAt: Time, lastObservedAt: Time)

  datatype PublicStatus = Running | Idle | Blocked | Stopped

  datatype PublicReasonKind = Input | Approval | Completed | Failed

  datatype PublicReason = PublicReason(kind: PublicReasonKind, summary: string)

  datatype ChildReason = ChildReason(kind: Option<PublicReasonKind>, summary: Option<string>)

  datatype ChildActivity = Running | Blocked | Stopped

  datatype ChildRef = ChildRef(agentId: string, agentType: string)

  datatype ChildState = ChildState(
    agentId: string, agentType: string, activity: ChildActivity,
    reason: Option<ChildReason>, startedAt: Time, updatedAt: Time)

  datatype ChildView = ChildView(
    agentId: string, agentType: string, status: PublicStatus,
    reason: Option<ChildReason>, startedAt: Time, updatedAt: Time)

  datatype Session = Session(
    id: string, name: Option<string>, generation: nat, startReason: Option<string>)

  datatype PublicSession = PublicSession(
    id: string, name: Option<string>, startReason: Option<string>)

  datatype Metadata = Metadata(
    model: Option<string>, modelLabel: Option<string>, effort: Option<string>,
    permissionMode: Option<string>, currentTurnId: Option<string>)

  const DEFAULT_METADATA := Metadata(None, None, None, None, None)

  datatype Usage = Usage(
    inputTokens: Option<nat>, outputTokens: Option<nat>,
    contextTokens: Option<nat>, contextWindowPercent: Option<nat>)

  datatype Repository = Repository(
    root: string, branch: Option<string>, head: Option<string>, dirty: Option<bool>)

  datatype Process = Process(
    childPid: Option<nat>, startIdentity: Option<string>,
    exitCode: Option<int>, signal: Option<int>)

  datatype QuickPick = NoQuickPick | Digits

  /** Facts fixed when the invocation registers. */
  datatype Launch = Launch(
    invocationId: string, provider: string, cwd: string, createdAt: Time,
    repository: Option<Repository>, hasMultiplexer: bool,
    terminal: bool, quickPick: QuickPick)

  datatype Snapshot = Snapshot(
    launch: Launch,
    process: Process,
    updatedAt: Time,
    lifecycle: Lifecycle,
    activity: Activity,
    stateStartedAt: Time,
    lastStateAssertedAt: Option<Time>,
    confirmation: Confirmation,
    lastEvidence: Option<Evidence>,
    sourceOrdering: seq<Cursor>,
    tool: Option<CurrentTool>,
    status: PublicStatus,
    session: Option<Session>,
    metadata: Option<Metadata>,
    usage: Option<Usage>,
    children: seq<ChildState>,
    turnGeneration: nat,
    completedGeneration: Option<nat>)

  datatype Event = Event(
    kind: EventKind,
    evidence: Evidence,
    receivedAt: Time,
    sessionId: Option<string>,
    sessionName: Option<string>,
    sessionStartReason: Option<string>,
    metadata: Option<Metadata>,
    usage: Option<Usage>,
    turnId: Option<string>,
    tool: Option<ToolUpdate>,
    child: Option<ChildRef>)

  /** The private reason behind the current status. */
  datatype Reason = Reason(kind: EventKind, summary: string)

  datatype View = View(
    invocationId: string,
    provider: string,
    status: PublicStatus,
    reason: Option<PublicReason>,
    cwd: string,
    createdAt: Time,
    updatedAt: Time,
    session: Option<PublicSession>,
    metadata: Option<Metadata>,
    usage: Option<Usage>,
    repository: Option<Repository>,
    children: Option<seq<ChildView>>,
    terminal: Option<QuickPick>)

  datatype PublicField =
    | InvocationId | Provider | Status | ReasonField | Cwd | CreatedAt | UpdatedAt
    | SessionField | MetadataField | UsageField | RepositoryField | Children | Terminal

  predicate Ended(lifecycle: Lifecycle) {
    lifecycle == Exited || lifecycle == Lost
  }

  function DeriveStatus(lifecycle: Lifecycle, activity: Activity): PublicStatus {
    match lifecycle
    case Exited | Lost => PublicStatus.Stopped
    case Starting => PublicStatus.Idle
    case Alive =>
      match activity
      case WaitingInput | WaitingApproval => PublicStatus.Blocked
      case Stopped => PublicStatus.Stopped
      case Working => PublicStatus.Running
      case Unknown | Idle => PublicStatus.Idle
  }

  function PublicReasonOf(status: PublicStatus, reason: Option<Reason>): Option<PublicReason> {
    if reason.None? then None
    else
      var summary := reason.value.summary;
      match (status, reason.value.kind)
      case (Blocked, WaitingInput) => Some(PublicReason(Input, summary))
      case (Blocked, WaitingApproval) => Some(PublicReason(Approval, summary))
      case (Stopped, Completed) => Some(PublicReason(PublicReasonKind.Completed, summary))
      case (Stopped, Failed) => Some(PublicReason(PublicReasonKind.Failed, summary))
      case _ => None
  }

  predicate TerminalLive(s: Snapshot) {
    s.launch.terminal && s.launch.hasMultiplexer && s.process.childPid.Some? && !Ended(s.lifecycle)
  }

  function Project(s: Snapshot, reason: Option<Reason>): View {
    var status := DeriveStatus(s.lifecycle, s.activity);
    View(
      s.launch.invocationId,
      s.launch.provider,
      status,
      PublicReasonOf(status, reason),
      s.launch.cwd,
      s.launch.createdAt,
      s.updatedAt,
      if s.session.None? then None
      else Some(PublicSession(s.session.value.id, s.session.value.name, s.session.value.startReason)),
      s.metadata,
      s.usage,
      s.launch.repository,
      ProjectChildren(s.children),
      if TerminalLive(s) then Some(s.launch.quickPick) else None)
  }

  // ---- Children, in an order that does not depend on how they are stored ----

  function ChildStatus(activity: ChildActivity): PublicStatus {
    match activity
    case Running => PublicStatus.Running
    case Blocked => PublicStatus.Blocked
    case Stopped => PublicStatus.Stopped
  }

  function ViewChild(c: ChildState): ChildView {
    ChildView(c.agentId, c.agentType, ChildStatus(c.activity), c.reason, c.startedAt, c.updatedAt)
  }

  /** The (start time, agent ID) order shared by eviction and projection. */
  predicate KeyLe(at: Time, id: string, at': Time, id': string) {
    at < at' || (at == at' && TextLe(id, id'))
  }

  predicate ViewLe(a: ChildView, b: ChildView) {
    KeyLe(a.startedAt, a.agentId, b.startedAt, b.agentId)
  }

  lemma ViewLeIsTotalOrder(a: ChildView, b: ChildView, c: ChildView)
    ensures ViewLe(a, b) || ViewLe(b, a)
    ensures ViewLe(a, b) && ViewLe(b, a) ==> a.agentId == b.agentId
    ensures ViewLe(a, b) && ViewLe(b, c) ==> ViewLe(a, c)
  {
    TextLeTotal(a.agentId, b.agentId);
    if TextLe(a.agentId, b.agentId) && TextLe(b.agentId, a.agentId) {
      TextLeAntisymmetric(a.agentId, b.agentId);
    }
    if TextLe(a.agentId, b.agentId) && TextLe(b.agentId, c.agentId) {
      TextLeTransitive(a.agentId, b.agentId, c.agentId);
    }
  }

  function InsertView(v: ChildView, sorted: seq<ChildView>): seq<ChildView> {
    if sorted == [] || ViewLe(v, sorted[0]) then [v] + sorted
    else [sorted[0]] + InsertView(v, sorted[1..])
  }

  function SortViews(vs: seq<ChildView>): seq<ChildView> {
    if vs == [] then [] else InsertView(vs[0], SortViews(vs[1..]))
  }

  function ViewChildren(cs: seq<ChildState>): seq<ChildView> {
    if cs == [] then [] else [ViewChild(cs[0])] + ViewChildren(cs[1..])
  }

  function ProjectChildren(cs: seq<ChildState>): Option<seq<ChildView>> {
    if cs == [] then None else Some(SortViews(ViewChildren(cs)))
  }

  predicate UniqueIds(cs: seq<ChildState>) {
    forall i, j :: 0 <= i < j < |cs| ==> cs[i].agentId != cs[j].agentId
  }

  /** In (start time, agent ID) order, every agent once. */
  predicate Listed(vs: seq<ChildView>) {
    vs == [] || (Listed(vs[1..]) && forall v :: v in vs[1..] ==> Precedes(vs[0], v))
  }

  predicate Precedes(a: ChildView, b: ChildView) {
    ViewLe(a, b) && a.agentId != b.agentId
  }

  lemma {:induction false} InsertedMembers(v: ChildView, sorted: seq<ChildView>, x: ChildView)
    ensures x in InsertView(v, sorted) <==> x == v || x in sorted
  {
    if sorted != [] && !ViewLe(v, sorted[0]) {
      InsertedMembers(v, sorted[1..], x);
    }
  }

  lemma {:induction false} InsertedListed(v: ChildView, sorted: seq<ChildView>)
    requires Listed(sorted) && forall x :: x in sorted ==> x.agentId != v.agentId
    ensures Listed(InsertView(v, sorted))
  {
    if sorted == [] || ViewLe(v, sorted[0]) {
      var r := [v] + sorted;
      assert r[1..] == sorted;
      forall x | x in sorted ensures Precedes(v, x) {
        if x != sorted[0] {
          assert x in sorted[1..];
          ViewLeIsTotalOrder(v, sorted[0], x);
        }
      }
    } else {
      InsertedListed(v, sorted[1..]);
      var rest := InsertView(v, sorted[1..]);
      var r := [sorted[0]] + rest;
      assert r[1..] == rest;
      forall x | x in rest ensures Precedes(sorted[0], x) {
        InsertedMembers(v, sorted[1..], x);
        ViewLeIsTotalOrder(v, sorted[0], x);
      }
    }
  }

  /** The public list holds exactly the stored children, sorted, each once. */
  lemma {:induction false} SortedChildren(cs: seq<ChildState>)
    requires UniqueIds(cs)
    ensures Listed(SortViews(ViewChildren(cs)))
    ensures forall v :: v in SortViews(ViewChildren(cs)) <==> exists c :: c in cs && v == ViewChild(c)
  {
    if cs != [] {
      SortedChildren(cs[1..]);
      var sorted := SortViews(ViewChildren(cs[1..]));
      var v := ViewChild(cs[0]);
      assert ViewChildren(cs)[1..] == ViewChildren(cs[1..]);
      forall x | x in sorted ensures x.agentId != v.agentId {
        var c :| c in cs[1..] && x == ViewChild(c);
      }
      InsertedListed(v, sorted);
      forall x ensures x in InsertView(v, sorted) <==> exists c :: c in cs && x == ViewChild(c) {
        InsertedMembers(v, sorted, x);
        if x in sorted {
          var c :| c in cs[1..] && x == ViewChild(c);
          assert c in cs;
        }
        assert cs[0] in cs;
        if c :| c in cs && x == ViewChild(c) {
          assert c == cs[0] || c in cs[1..];
        }
      }
    }
  }

  lemma {:induction false} ListedListsAgree(a: seq<ChildView>, b: seq<ChildView>)
    requires Listed(a) && Listed(b)
    requires forall v :: v in a <==> v in b
    ensures a == b
  {
    assert b != [] ==> b[0] in a;
    if a == [] {
    } else {
      assert a[0] in b;
      assert b[0] in a;
      assert a[0] != b[0] ==> b[0] in a[1..] && a[0] in b[1..];
      assert a[0] != b[0] ==> Precedes(a[0], b[0]) && Precedes(b[0], a[0]);
      ViewLeIsTotalOrder(a[0], b[0], a[0]);
      assert a[0] == b[0];
      forall v ensures v in a[1..] <==> v in b[1..] {
        assert v in a <==> v == a[0] || v in a[1..];
        assert v in b <==> v == b[0] || v in b[1..];
      }
      ListedListsAgree(a[1..], b[1..]);
      assert a == [a[0]] + a[1..] && b == [b[0]] + b[1..];
    }
  }

  /**
   * Observers see one list whatever order the children are stored in, as long as agent IDs are
   * distinct.
   */
  lemma PublicChildrenIgnoreStoredOrder(a: seq<ChildState>, b: seq<ChildState>)
    requires UniqueIds(a) && UniqueIds(b)
    requires forall c :: c in a <==> c in b
    ensures ProjectChildren(a) == ProjectChildren(b)
  {
    assert 0 < |b| ==> b[0] in a;
    if a != [] {
      assert a[0] in b;
      SortedChildren(a);
      SortedChildren(b);
      ListedListsAgree(SortViews(ViewChildren(a)), SortViews(ViewChildren(b)));
    }
  }

  // ---- Which public fields a transition changed ----

  predicate Differs(a: View, b: View, field: PublicField) {
    match field
    case InvocationId => a.invocationId != b.invocationId
    case Provider => a.provider != b.provider
    case Status => a.status != b.status
    case ReasonField => a.reason != b.reason
    case Cwd => a.cwd != b.cwd
    case CreatedAt => a.createdAt != b.createdAt
    case UpdatedAt => a.updatedAt != b.updatedAt
    case SessionField => a.session != b.session
    case MetadataField => a.metadata != b.metadata
    case UsageField => a.usage != b.usage
    case RepositoryField => a.repository != b.repository
    case Children => a.children != b.children
    case Terminal => a.terminal != b.terminal
  }

  const ALL_FIELDS: set<PublicField> :=
    {InvocationId, Provider, Status, ReasonField, Cwd, CreatedAt, UpdatedAt,
     SessionField, MetadataField, UsageField, RepositoryField, Children, Terminal}

  function ChangedFields(previous: Option<View>, current: View): set<PublicField> {
    if previous.None? then ALL_FIELDS
    else set field | field in ALL_FIELDS && Differs(previous.value, current, field)
  }

  /** Copies onto `base` the fields of `next` named in `fields`. */
  function Patch(base: View, next: View, fields: set<PublicField>): View {
    View(
      if InvocationId in fields then next.invocationId else base.invocationId,
      if Provider in fields then next.provider else base.provider,
      if Status in fields then next.status else base.status,
      if ReasonField in fields then next.reason else base.reason,
      if Cwd in fields then next.cwd else base.cwd,
      if CreatedAt in fields then next.createdAt else base.createdAt,
      if UpdatedAt in fields then next.updatedAt else base.updatedAt,
      if SessionField in fields then next.session else base.session,
      if MetadataField in fields then next.metadata else base.metadata,
      if UsageField in fields then next.usage else base.usage,
      if RepositoryField in fields then next.repository else base.repository,
      if Children in fields then next.children else base.children,
      if Terminal in fields then next.terminal else base.terminal)
  }

  /** Position of a field in its declaration, which is also its order in a reported set. */
  function Rank(field: PublicField): nat {
    match field
    case InvocationId => 0 case Provider => 1 case Status => 2 case ReasonField => 3
    case Cwd => 4 case CreatedAt => 5 case UpdatedAt => 6 case SessionField => 7
    case MetadataField => 8 case UsageField => 9 case RepositoryField => 10
    case Children => 11 case Terminal => 12
  }

  const FIELDS: seq<PublicField> :=
    [InvocationId, Provider, Status, ReasonField, Cwd, CreatedAt, UpdatedAt,
     SessionField, MetadataField, UsageField, RepositoryField, Children, Terminal]

  /** Collects the changed fields into a local set, one comparison at a time. */
  method CollectChangedFields(previous: Option<View>, current: View)
    returns (changed: set<PublicField>)
    ensures changed == ChangedFields(previous, current)
  {
    if previous.None? {
      return ALL_FIELDS;
    }
    changed := {};
    for i := 0 to |FIELDS|
      invariant forall f :: f in changed <==> Rank(f) < i && Differs(previous.value, current, f)
    {
      RankIsPosition(FIELDS[i], i);
      if Differs(previous.value, current, FIELDS[i]) {
        changed := changed + {FIELDS[i]};
      }
    }
  }

  lemma RankIsPosition(field: PublicField, i: nat)
    requires i < |FIELDS|
    ensures Rank(field) == i <==> FIELDS[i] == field
  {
  }

  /** The changed set is empty exactly for equal views, and is all a reader needs to copy. */
  lemma ChangedFieldsSuffice(previous: View, current: View)
    ensures ChangedFields(Some(previous), current) == {} <==> previous == current
    ensures Patch(previous, current, ChangedFields(Some(previous), current)) == current
  {
    var changed := ChangedFields(Some(previous), current);
    assert forall field :: field in ALL_FIELDS ==> (field in changed <==> Differs(previous, current, field));
    if changed == {} {
      assert forall field :: field in ALL_FIELDS ==> !Differs(previous, current, field);
      assert !Differs(previous, current, InvocationId) && !Differs(previous, current, Provider);
    }
  }
}
