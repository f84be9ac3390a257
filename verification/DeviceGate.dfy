/**
 * Revocation and scope withdrawal for remote devices: the connection registry of
 * crates/sessiontap-hub/src/service.rs:304-388 and the gated requests of
 * crates/sessiontap-hub/src/remote.rs:335-358, 544-549, 645-744.
 */
module DeviceGate {
  import opened Common

  datatype Scope = Read | Manage | Watch | Control

  /** A paired device, found by the hash of its key. */
  datatype Device = Device(id: string, scopes: set<Scope>)

  /**
   * A live connection: its key, its tokens, and the scopes its open streams depend on. `closing`
   * only records that an ordinary close began; no operation reads it.
   */
  datatype Connection = Connection(
    spki: Option<string>,
    authenticated: bool,
    revoked: bool,
    withdrawn: bool,
    closing: bool,
    listening: bool,
    streamScopes: set<Scope>)

  datatype Method = Info | Listen | Forget | OpenTerminal | CloseTerminal | InputTerminal | Unknown

  /** A request that passed its checks under the gate and has not acted yet. */
  datatype Request = Request(conn: nat, verb: Method)

  /**
   * `streams` are the relay's streams by owner, `acted` counts the requests that were carried out
   * for each connection. `inflight` are requests between their checks and their action: they hold
   * the gate for reading, so nothing that takes it for writing happens meanwhile.
   */
  datatype Gate = Gate(
    control: bool,
    devices: map<string, Device>,
    registry: map<string, seq<nat>>,
    conns: map<nat, Connection>,
    inflight: map<nat, Request>,
    streams: map<nat, nat>,
    acted: map<nat, nat>)

  function DeviceId(spki: string): string {
    if |spki| <= 16 then spki else spki[..16]
  }

  predicate IsTerminal(scope: Scope) {
    scope == Watch || scope == Control
  }

  function Effective(g: Gate, d: Device): set<Scope> {
    set scope | scope in d.scopes && (g.control || !IsTerminal(scope))
  }

  function Required(verb: Method): Option<Scope> {
    match verb
    case Listen => Some(Read)
    case Forget => Some(Manage)
    case OpenTerminal | CloseTerminal => Some(Watch)
    case InputTerminal => Some(Control)
    case Info | Unknown => None
  }

  function Handles(g: Gate, id: string): seq<nat> {
    if id in g.registry then g.registry[id] else []
  }

  predicate Cancelled(g: Gate, c: nat) {
    c !in g.conns || g.conns[c].revoked
  }

  /** Handles that are not cancelled, in order. */
  function Live(g: Gate, handles: seq<nat>): seq<nat> {
    if handles == [] then []
    else (if Cancelled(g, handles[0]) then [] else [handles[0]]) + Live(g, handles[1..])
  }

  /** `withdraw` is a child of `revoke`. */
  predicate Withdrawn(c: Connection) {
    c.revoked || c.withdrawn
  }

  // ---- Operations ----

  function Register(g: Gate, id: string, c: nat): Gate {
    g.(registry := g.registry[id := Live(g, Handles(g, id)) + [c]])
  }

  function Unregister(g: Gate, id: string): Gate {
    if id !in g.registry then g
    else
      var left := Live(g, g.registry[id]);
      if left == [] then g.(registry := g.registry - {id}) else g.(registry := g.registry[id := left])
  }

  /** A connection enters the registry when it is first authenticated, and never again. */
  function Authenticate(g: Gate, c: nat, spki: string): Gate {
    if c !in g.conns || g.conns[c].authenticated then g
    else Register(g.(conns := g.conns[c := g.conns[c].(authenticated := true)]), DeviceId(spki), c)
  }

  datatype Answer = Silent | Unauthorized | UnknownMethod | NotAllowed | Admitted

  /** The checks of a request, made with the gate held for reading. */
  function Check(g: Gate, c: nat, verb: Method): Answer {
    if c !in g.conns || Withdrawn(g.conns[c]) then Silent
    else
      var spki := g.conns[c].spki;
      if spki.None? || spki.value !in g.devices then Unauthorized
      else if verb == Unknown then UnknownMethod
      else if Required(verb).Some? && Required(verb).value !in Effective(g, g.devices[spki.value]) then NotAllowed
      else Admitted
  }

  /** The device is re-read, and the connection authenticated, before the scope is looked at. */
  function Begin(g: Gate, c: nat, verb: Method, request: nat): Gate {
    if c !in g.conns || Withdrawn(g.conns[c]) || request in g.inflight then g
    else
      var spki := g.conns[c].spki;
      if spki.None? || spki.value !in g.devices then g
      else
        var seen := Authenticate(g, c, spki.value);
        if Check(g, c, verb) == Admitted then seen.(inflight := seen.inflight[request := Request(c, verb)]) else seen
  }

  function AddScope(g: Gate, c: nat, scope: Scope): Gate {
    if c in g.conns then g.(conns := g.conns[c := g.conns[c].(streamScopes := g.conns[c].streamScopes + {scope})])
    else g
  }

  function CountAct(g: Gate, c: nat): Gate {
    g.(acted := g.acted[c := (if c in g.acted then g.acted[c] else 0) + 1])
  }

  /** The action of an admitted request; `stream` is the relay stream it opens or names. */
  function Act(g: Gate, request: nat, stream: nat): Gate {
    if request !in g.inflight then g
    else
      var r := g.inflight[request];
      var done := CountAct(g.(inflight := g.inflight - {request}), r.conn);
      match r.verb
      case Listen =>
        if r.conn in g.conns && !g.conns[r.conn].listening
        then AddScope(done.(conns := done.conns[r.conn := done.conns[r.conn].(listening := true)]), r.conn, Read)
        else done
      case OpenTerminal =>
        if stream in g.streams then done
        else AddScope(done.(streams := done.streams[stream := r.conn]), r.conn, Watch)
      case CloseTerminal =>
        if stream in g.streams && g.streams[stream] == r.conn then done.(streams := done.streams - {stream}) else done
      case _ => done
  }

  /** Drops every stream of a connection. */
  function Release(g: Gate, c: nat): Gate {
    g.(streams := map s | s in g.streams && g.streams[s] != c :: g.streams[s])
  }

  function Cancel(g: Gate, c: nat): Gate {
    if c in g.conns then g.(conns := g.conns[c := g.conns[c].(revoked := true)]) else g
  }

  function Withdraw(g: Gate, c: nat): Gate {
    if c in g.conns then g.(conns := g.conns[c := g.conns[c].(withdrawn := true)]) else g
  }

  function RevokeAll(g: Gate, handles: seq<nat>): Gate
    decreases |handles|
  {
    if handles == [] then g else RevokeAll(Release(Cancel(g, handles[0]), handles[0]), handles[1..])
  }

  /** Deletes the device of a key and closes its registered connections. */
  function Revoke(g: Gate, spki: string): Gate {
    if spki !in g.devices then g
    else
      var id := g.devices[spki].id;
      RevokeAll(g.(devices := g.devices - {spki}, registry := g.registry - {id}), Handles(g, id))
  }

  predicate Loses(g: Gate, c: nat, effective: set<Scope>) {
    c in g.conns && !(g.conns[c].streamScopes <= effective)
  }

  function WithdrawLosers(g: Gate, handles: seq<nat>, effective: set<Scope>): Gate
    decreases |handles|
  {
    if handles == [] then g
    else
      var c := handles[0];
      WithdrawLosers(if Loses(g, c, effective) then Release(Withdraw(g, c), c) else g, handles[1..], effective)
  }

  /** Another key already holds the identity this key would get. */
  predicate IdTaken(g: Gate, spki: string) {
    exists other :: other in g.devices && other != spki && g.devices[other].id == DeviceId(spki)
  }

  /** Pairing a key again may take scopes away: connections whose streams need one of those are withdrawn. */
  function Pair(g: Gate, spki: string, scopes: set<Scope>): Gate {
    if IdTaken(g, spki) then g
    else
      var d := Device(DeviceId(spki), scopes);
      WithdrawLosers(g.(devices := g.devices[spki := d]), Handles(g, d.id), Effective(g, d))
  }

  // ---- Runs ----

  datatype Step =
    | ConnectStep(conn: nat, key: Option<string>)
    | BeginStep(conn: nat, verb: Method, request: nat)
    | ActStep(request: nat, stream: nat)
    | PairStep(spki: string, scopes: set<Scope>)
    | RevokeStep(spki: string)
    | PairedStep(conn: nat)
    | DropStep(stream: nat)
      // an ordinary close: three moves, none of them under the gate
    | CancelStep(conn: nat)
    | ReleaseStep(conn: nat)
    | UnregisterStep(conn: nat)

  function Connect(g: Gate, c: nat, key: Option<string>): Gate {
    if c in g.conns then g
    else
      var added := g.(conns := g.conns[c := Connection(key, false, false, false, false, false, {})]);
      if key.Some? && key.value in g.devices then Authenticate(added, c, key.value) else added
  }

  function BeginClose(g: Gate, c: nat): Gate {
    if c in g.conns then g.(conns := g.conns[c := g.conns[c].(revoked := true, closing := true)]) else g
  }

  /** Writers of the gate wait for every reader. */
  function After(g: Gate, step: Step): Gate {
    match step
    case ConnectStep(c, key) => Connect(g, c, key)
    case BeginStep(c, verb, request) => Begin(g, c, verb, request)
    case ActStep(request, stream) => Act(g, request, stream)
    case PairStep(spki, scopes) => if g.inflight == map[] then Pair(g, spki, scopes) else g
    case RevokeStep(spki) => if g.inflight == map[] then Revoke(g, spki) else g
    case PairedStep(c) =>
      if c in g.conns && g.conns[c].spki.Some? then Authenticate(g, c, g.conns[c].spki.value) else g
    case DropStep(stream) => g.(streams := g.streams - {stream})
    case CancelStep(c) => BeginClose(g, c)
    case ReleaseStep(c) => Release(g, c)
    case UnregisterStep(c) =>
      if c in g.conns && g.conns[c].spki.Some? then Unregister(g, DeviceId(g.conns[c].spki.value)) else g
  }

  function Start(control: bool): Gate {
    Gate(control, map[], map[], map[], map[], map[], map[])
  }

  function Steps(g: Gate, steps: seq<Step>): Gate
    decreases |steps|
  {
    if steps == [] then g else After(Steps(g, steps[..|steps| - 1]), steps[|steps| - 1])
  }

  function Run(control: bool, steps: seq<Step>): Gate {
    Steps(Start(control), steps)
  }
}
