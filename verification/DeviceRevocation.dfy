/**
 * Revocation of a device is final in every run of the device gate: its connections never act again
 * and its key is refused until it is paired again.
 */
module DeviceRevocation {
  import opened Common
  import opened DeviceGate
  import opened DeviceSafety

  function Acts(g: Gate, c: nat): nat {
    if c in g.acted then g.acted[c] else 0
  }

  predicate AskersExist(g: Gate) {
    forall r :: r in g.inflight ==> g.inflight[r].conn in g.conns
  }

  lemma SafeAskers(g: Gate)
    requires Safe(g)
    ensures AskersExist(g)
  {
    forall r | r in g.inflight ensures g.inflight[r].conn in g.conns {
      assert RequestOk(g, g.inflight[r]);
    }
  }

  predicate Busy(g: Gate, c: nat) {
    exists r :: r in g.inflight && g.inflight[r].conn == c
  }

  /** The connection is open and its key is paired. */
  predicate MayAsk(g: Gate, c: nat) {
    && c in g.conns && !Withdrawn(g.conns[c])
    && g.conns[c].spki.Some? && g.conns[c].spki.value in g.devices
  }

  /**
   * What one step can do: keys and cancellations stay, only an open connection of a paired key
   * gets a request admitted, and only an admitted request acts or opens a stream.
   */
  ghost predicate Moves(g: Gate, p: Gate) {
    && (forall c :: c in g.conns ==>
          c in p.conns && p.conns[c].spki == g.conns[c].spki && (g.conns[c].revoked ==> p.conns[c].revoked))
    && (forall r :: r in p.inflight ==>
          MayAsk(g, p.inflight[r].conn) || (r in g.inflight && p.inflight[r] == g.inflight[r]))
    && (forall s :: s in p.streams ==> Busy(g, p.streams[s]) || (s in g.streams && p.streams[s] == g.streams[s]))
    && (forall c :: Busy(g, c) || Acts(p, c) == Acts(g, c))
  }

  lemma AuthenticateMoves(g: Gate, c: nat, spki: string)
    requires c in g.conns && g.conns[c].spki == Some(spki)
    ensures Moves(g, Authenticate(g, c, spki))
  {
    AuthenticateEffects(g, c, spki);
  }

  lemma ConnectMoves(g: Gate, c: nat, key: Option<string>)
    ensures Moves(g, Connect(g, c, key))
  {
    if c !in g.conns && key.Some? {
      AuthenticateEffects(g.(conns := g.conns[c := Connection(key, false, false, false, false, false, {})]), c, key.value);
    }
  }

  lemma AdmitMoves(g: Gate, seen: Gate, p: Gate, request: nat, r: Request)
    requires Moves(g, seen) && MayAsk(g, r.conn) && p == seen.(inflight := seen.inflight[request := r])
    ensures Moves(g, p)
  {
  }

  lemma BeginMoves(g: Gate, c: nat, verb: Method, request: nat)
    ensures Moves(g, Begin(g, c, verb, request))
  {
    var p := Begin(g, c, verb, request);
    if MayAsk(g, c) && request !in g.inflight {
      var spki := g.conns[c].spki.value;
      var seen := Authenticate(g, c, spki);
      AuthenticateMoves(g, c, spki);
      if Check(g, c, verb) == Admitted {
        AdmitMoves(g, seen, p, request, Request(c, verb));
      } else {
        assert p == seen;
      }
    } else {
      assert p == g;
    }
  }

  lemma ActShape(g: Gate, request: nat, stream: nat)
    requires request in g.inflight && g.inflight[request].conn in g.conns
    ensures var p, c := Act(g, request, stream), g.inflight[request].conn;
            && p.inflight == g.inflight - {request}
            && p.acted == g.acted[c := Acts(g, c) + 1]
            && p.conns == g.conns[c := g.conns[c].(listening := p.conns[c].listening, streamScopes := p.conns[c].streamScopes)]
            && (p.streams == g.streams || p.streams == g.streams[stream := c] || p.streams == g.streams - {stream})
  {
    ActEffects(g, request, stream);
    hide Act;
  }

  lemma ActMoves(g: Gate, request: nat, stream: nat)
    requires AskersExist(g)
    ensures Moves(g, Act(g, request, stream))
  {
    if request in g.inflight {
      assert Busy(g, g.inflight[request].conn);
      ActShape(g, request, stream);
      ShapeMoves(g, Act(g, request, stream), request, stream, g.inflight[request].conn);
    }
  }

  lemma ShapeMoves(g: Gate, p: Gate, request: nat, stream: nat, c: nat)
    requires Busy(g, c) && c in g.conns && c in p.conns
    requires p.inflight == g.inflight - {request} && p.acted == g.acted[c := Acts(g, c) + 1]
    requires p.conns == g.conns[c := g.conns[c].(listening := p.conns[c].listening, streamScopes := p.conns[c].streamScopes)]
    requires p.streams == g.streams || p.streams == g.streams[stream := c] || p.streams == g.streams - {stream}
    ensures Moves(g, p)
  {
  }

  lemma PairMoves(g: Gate, spki: string, scopes: set<Scope>)
    ensures Moves(g, Pair(g, spki, scopes))
  {
    var d := Device(DeviceId(spki), scopes);
    WithdrawLosersEffects(g.(devices := g.devices[spki := d]), Handles(g, d.id), Effective(g, d));
  }

  lemma PairStores(g: Gate, spki: string, scopes: set<Scope>)
    ensures Pair(g, spki, scopes).devices.Keys <= g.devices.Keys + {spki}
  {
    var d := Device(DeviceId(spki), scopes);
    WithdrawLosersEffects(g.(devices := g.devices[spki := d]), Handles(g, d.id), Effective(g, d));
  }

  lemma RevokeMoves(g: Gate, spki: string)
    ensures Moves(g, Revoke(g, spki)) && Revoke(g, spki).devices == g.devices - {spki}
  {
    if spki in g.devices {
      var id := g.devices[spki].id;
      RevokeAllEffects(g.(devices := g.devices - {spki}, registry := g.registry - {id}), Handles(g, id));
    }
  }

  /** Streams may go; connections may only be cancelled. */
  lemma QuietMoves(g: Gate, p: Gate)
    requires p.acted == g.acted && p.inflight == g.inflight
    requires forall s :: s in p.streams ==> s in g.streams && p.streams[s] == g.streams[s]
    requires forall c :: c in g.conns ==>
               c in p.conns && p.conns[c].spki == g.conns[c].spki && (g.conns[c].revoked ==> p.conns[c].revoked)
    ensures Moves(g, p)
  {
  }

  lemma CancelMoves(g: Gate, c: nat)
    ensures Moves(g, BeginClose(g, c))
  {
    hide Moves;
    QuietMoves(g, BeginClose(g, c));
  }

  lemma ReleaseMoves(g: Gate, c: nat)
    ensures Moves(g, Release(g, c))
  {
    hide Moves;
    QuietMoves(g, Release(g, c));
  }

  lemma UnregisterMoves(g: Gate, id: string)
    ensures Moves(g, Unregister(g, id))
  {
    hide Moves, Live;
    QuietMoves(g, Unregister(g, id));
  }

  lemma GatedMoves(g: Gate, step: Step)
    requires step.PairStep? || step.RevokeStep?
    ensures Moves(g, After(g, step))
  {
    QuietMoves(g, g);
    match step
    case PairStep(spki, scopes) => PairMoves(g, spki, scopes);
    case RevokeStep(spki) => RevokeMoves(g, spki);
  }

  lemma ClosingMoves(g: Gate, step: Step)
    requires step.DropStep? || step.CancelStep? || step.ReleaseStep? || step.UnregisterStep?
    ensures Moves(g, After(g, step))
  {
    hide Moves;
    match step
    case DropStep(stream) => QuietMoves(g, g.(streams := g.streams - {stream}));
    case CancelStep(c) => CancelMoves(g, c);
    case ReleaseStep(c) => ReleaseMoves(g, c);
    case UnregisterStep(c) =>
      QuietMoves(g, g);
      if c in g.conns && g.conns[c].spki.Some? { UnregisterMoves(g, DeviceId(g.conns[c].spki.value)); }
  }

  lemma StepMoves(g: Gate, step: Step)
    requires AskersExist(g)
    ensures Moves(g, After(g, step))
  {
    match step
    case ConnectStep(c, key) => ConnectMoves(g, c, key);
    case BeginStep(c, verb, request) => BeginMoves(g, c, verb, request);
    case ActStep(request, stream) => ActMoves(g, request, stream);
    case PairStep(_, _) => GatedMoves(g, step);
    case RevokeStep(_) => GatedMoves(g, step);
    case PairedStep(c) =>
      QuietMoves(g, g);
      if c in g.conns && g.conns[c].spki.Some? { AuthenticateMoves(g, c, g.conns[c].spki.value); }
    case _ => ClosingMoves(g, step);
  }

  /** Only pairing a key makes it paired. */
  lemma StepPairs(g: Gate, step: Step, spki: string)
    requires spki !in g.devices && !(step.PairStep? && step.spki == spki)
    ensures spki !in After(g, step).devices
  {
    hide Connect, Begin, Act, Authenticate, Unregister, Release, BeginClose, Pair, Revoke, Moves;
    match step
    case ConnectStep(c, key) => ConnectKeepsDevices(g, c, key);
    case BeginStep(c, verb, request) => BeginKeepsDevices(g, c, verb, request);
    case ActStep(request, stream) => ActKeepsDevices(g, request, stream);
    case PairStep(other, scopes) => PairStores(g, other, scopes);
    case RevokeStep(other) => RevokeMoves(g, other);
    case PairedStep(c) =>
      if c in g.conns && g.conns[c].spki.Some? { AuthenticateEffects(g, c, g.conns[c].spki.value); }
    case _ => ClosingKeepsDevices(g, step);
  }

  lemma ConnectKeepsDevices(g: Gate, c: nat, key: Option<string>)
    ensures Connect(g, c, key).devices == g.devices && Connect(g, c, key).control == g.control
  {
    hide Live;
  }

  lemma BeginKeepsDevices(g: Gate, c: nat, verb: Method, request: nat)
    ensures Begin(g, c, verb, request).devices == g.devices && Begin(g, c, verb, request).control == g.control
  {
    hide Live, Check;
  }

  lemma ActKeepsDevices(g: Gate, request: nat, stream: nat)
    ensures Act(g, request, stream).devices == g.devices && Act(g, request, stream).control == g.control
  {
    if request in g.inflight {
      var r := g.inflight[request];
      var done := CountAct(g.(inflight := g.inflight - {request}), r.conn);
      assert done.devices == g.devices && done.conns == g.conns && done.control == g.control;
      hide CountAct;
    }
  }

  lemma ClosingKeepsDevices(g: Gate, step: Step)
    requires step.DropStep? || step.CancelStep? || step.ReleaseStep? || step.UnregisterStep?
    ensures After(g, step).devices == g.devices && After(g, step).control == g.control
  {
    hide Live;
  }

  /** Cancelled, with no stream and no request under way. */
  predicate Dead(g: Gate, c: nat) {
    && c in g.conns && g.conns[c].revoked
    && (forall s :: s in g.streams ==> g.streams[s] != c)
    && (forall r :: r in g.inflight ==> g.inflight[r].conn != c)
  }

  lemma DeadStays(g: Gate, p: Gate, c: nat)
    requires Moves(g, p) && Dead(g, c)
    ensures Dead(p, c) && Acts(p, c) == Acts(g, c)
  {
  }

  lemma {:induction false} DeadForever(g: Gate, steps: seq<Step>, c: nat)
    requires Safe(g) && Dead(g, c)
    ensures Dead(Steps(g, steps), c) && Acts(Steps(g, steps), c) == Acts(g, c)
    decreases |steps|
  {
    if steps != [] {
      DeadForever(g, steps[..|steps| - 1], c);
      StepsAreSafe(g, steps[..|steps| - 1]);
      SafeAskers(Steps(g, steps[..|steps| - 1]));
      StepMoves(Steps(g, steps[..|steps| - 1]), steps[|steps| - 1]);
      DeadStays(Steps(g, steps[..|steps| - 1]), Steps(g, steps), c);
    }
  }

  /**
   * Once `revoke` returns, and through anything that happens later, every connection that was
   * registered for the device is cancelled, owns no terminal stream and has nothing carried out.
   */
  lemma RevocationIsFinal(control: bool, before: seq<Step>, spki: string, later: seq<Step>, c: nat)
    requires var g := Run(control, before);
             && g.inflight == map[] && spki in g.devices
             && c in g.conns && c in Handles(g, g.devices[spki].id)
    ensures var g := Run(control, before);
            var p := Steps(After(g, RevokeStep(spki)), later);
            Dead(p, c) && Acts(p, c) == Acts(g, c)
  {
    var g := Run(control, before);
    StepsAreSafe(Start(control), before);
    var id := g.devices[spki].id;
    RevokeAllEffects(g.(devices := g.devices - {spki}, registry := g.registry - {id}), Handles(g, id));
    RevokeKeeps(g, spki);
    DeadForever(Revoke(g, spki), later, c);
  }

  /** Every open connection of a paired device is registered for it, so revocation reaches it. */
  lemma RevocationReachesEveryOpenConnection(control: bool, steps: seq<Step>, spki: string, c: nat)
    requires var g := Run(control, steps);
             spki in g.devices && c in g.conns && g.conns[c].spki == Some(spki)
    requires var x := Run(control, steps).conns[c]; x.authenticated && !x.revoked
    ensures var g := Run(control, steps); c in Handles(g, g.devices[spki].id)
  {
    StepsAreSafe(Start(control), steps);
    var g := Run(control, steps);
    assert ConnOk(g, c, g.conns[c]);
  }

  predicate KeyOf(g: Gate, c: nat, spki: string) {
    c in g.conns && g.conns[c].spki == Some(spki)
  }

  /** The key is not paired and none of its requests is under way. */
  predicate Shut(g: Gate, spki: string) {
    spki !in g.devices && forall r :: r in g.inflight ==> !KeyOf(g, g.inflight[r].conn, spki)
  }

  /** Nothing was carried out for a connection of the key, or for one that does not exist yet. */
  ghost predicate Untouched(g: Gate, p: Gate, spki: string) {
    forall c :: KeyOf(p, c, spki) || c !in p.conns ==> Acts(p, c) == Acts(g, c)
  }

  lemma ShutStays(g: Gate, p: Gate, spki: string)
    requires Moves(g, p) && Shut(g, spki) && AskersExist(g) && spki !in p.devices
    ensures Shut(p, spki) && Untouched(g, p, spki)
  {
  }

  lemma {:induction false} ShutUntilPaired(g: Gate, steps: seq<Step>, spki: string)
    requires Safe(g) && Shut(g, spki)
    requires forall i :: 0 <= i < |steps| ==> !(steps[i].PairStep? && steps[i].spki == spki)
    ensures Shut(Steps(g, steps), spki) && Untouched(g, Steps(g, steps), spki)
    decreases |steps|
  {
    if steps != [] {
      var n := |steps| - 1;
      ShutUntilPaired(g, steps[..n], spki);
      StepsAreSafe(g, steps[..n]);
      var q, p := Steps(g, steps[..n]), Steps(g, steps);
      SafeAskers(q);
      StepMoves(q, steps[n]);
      StepPairs(q, steps[n], spki);
      ShutStays(q, p, spki);
      UntouchedJoins(g, q, p, spki);
    }
  }

  lemma UntouchedJoins(g: Gate, q: Gate, p: Gate, spki: string)
    requires Untouched(g, q, spki) && Untouched(q, p, spki) && Moves(q, p)
    ensures Untouched(g, p, spki)
  {
    forall c | KeyOf(p, c, spki) || c !in p.conns ensures Acts(p, c) == Acts(g, c) {
      assert KeyOf(q, c, spki) || c !in q.conns;
    }
  }

  /**
   * After `revoke`, until the key is paired again, every request under it, on any connection old
   * or new, is answered `unauthorized` or not at all, and none is carried out.
   */
  lemma RevokedKeyIsRefused(control: bool, before: seq<Step>, spki: string, later: seq<Step>, c: nat, verb: Method)
    requires Run(control, before).inflight == map[]
    requires forall i :: 0 <= i < |later| ==> !(later[i].PairStep? && later[i].spki == spki)
    requires KeyOf(Steps(After(Run(control, before), RevokeStep(spki)), later), c, spki)
    ensures var g := Run(control, before);
            var p := Steps(After(g, RevokeStep(spki)), later);
            Check(p, c, verb) in {Silent, Unauthorized} && Acts(p, c) == Acts(g, c)
  {
    hide Safe, Shut, Untouched, Steps, Check, Revoke, Acts;
    var g := Run(control, before);
    StartIsSafe(control);
    StepsAreSafe(Start(control), before);
    RevokeKeeps(g, spki);
    RevokeShuts(g, spki);
    var p := Steps(Revoke(g, spki), later);
    ShutUntilPaired(Revoke(g, spki), later, spki);
    UntouchedActs(Revoke(g, spki), p, spki, c);
    ShutRefuses(p, spki, c, verb);
  }

  lemma StartIsSafe(control: bool)
    ensures Safe(Start(control))
  {
  }

  lemma RevokeShuts(g: Gate, spki: string)
    requires g.inflight == map[]
    ensures Shut(Revoke(g, spki), spki) && forall c :: Acts(Revoke(g, spki), c) == Acts(g, c)
  {
    if spki in g.devices {
      var id := g.devices[spki].id;
      RevokeAllEffects(g.(devices := g.devices - {spki}, registry := g.registry - {id}), Handles(g, id));
    }
    hide RevokeAll;
  }

  lemma UntouchedActs(g: Gate, p: Gate, spki: string, c: nat)
    requires Untouched(g, p, spki) && KeyOf(p, c, spki)
    ensures Acts(p, c) == Acts(g, c)
  {
  }

  lemma ShutRefuses(g: Gate, spki: string, c: nat, verb: Method)
    requires Shut(g, spki) && KeyOf(g, c, spki)
    ensures Check(g, c, verb) in {Silent, Unauthorized}
  {
  }

  /**
   * A stream of the revoked key survives `revoke` only if its owner was already closing and out of
   * the registry.
   */
  lemma SurvivorsWereClosing(control: bool, before: seq<Step>, spki: string, s: nat)
    requires var g := Run(control, before);
             && g.inflight == map[] && spki in g.devices && s in g.streams && KeyOf(g, g.streams[s], spki)
    ensures var g := Run(control, before);
            var c := g.streams[s];
            && (s in Revoke(g, spki).streams <==> c !in Handles(g, g.devices[spki].id))
            && (s in Revoke(g, spki).streams ==> g.conns[c].closing)
  {
    var g := Run(control, before);
    StepsAreSafe(Start(control), before);
    var id := g.devices[spki].id;
    RevokeAllEffects(g.(devices := g.devices - {spki}, registry := g.registry - {id}), Handles(g, id));
    assert StreamOk(g, g.streams[s]);
    assert ConnOk(g, g.streams[s], g.conns[g.streams[s]]);
  }

  const LATE_OPEN := [
    PairStep("k", {Watch}), ConnectStep(1, Some("k")), BeginStep(1, OpenTerminal, 0),
    CancelStep(1), ReleaseStep(1), UnregisterStep(1), ActStep(0, 7), RevokeStep("k")]

  const PHONE := Connection(Some("k"), true, false, false, false, false, {})

  lemma ReachesNext(g: Gate, s: seq<Step>, n: nat, a: Gate, b: Gate)
    requires n < |s| && (n == 0 ==> a == g) && (n > 0 ==> Steps(g, s[..n]) == a) && After(a, s[n]) == b
    ensures Steps(g, s[..n + 1]) == b
  {
    assert s[..n + 1][..n] == s[..n];
  }

  function Admitting(): Gate {
    Gate(true, map["k" := Device("k", {Watch})], map["k" := [1]], map[1 := PHONE],
         map[0 := Request(1, OpenTerminal)], map[], map[])
  }

  function Joined(): Gate {
    Gate(true, map["k" := Device("k", {Watch})], map["k" := [1]], map[1 := PHONE], map[], map[], map[])
  }

  lemma LateOpenConnects()
    ensures Run(true, LATE_OPEN[..2]) == Joined()
  {
    var g0 := Start(true);
    var g1 := g0.(devices := map["k" := Device("k", {Watch})]);
    ReachesNext(g0, LATE_OPEN, 0, g0, g1);
    assert After(g1, LATE_OPEN[1]) == Joined() by {
      var added := g1.(conns := map[1 := PHONE.(authenticated := false)]);
      assert Live(added.(conns := map[1 := PHONE]), []) + [1] == [1];
      assert Authenticate(added, 1, "k") == Joined();
    }
    ReachesNext(g0, LATE_OPEN, 1, g1, Joined());
  }

  lemma LateOpenBegins()
    ensures Begin(Joined(), 1, OpenTerminal, 0) == Admitting()
  {
    assert Effective(Joined(), Device("k", {Watch})) == {Watch};
  }

  lemma LateOpenIsAdmitted()
    ensures Run(true, LATE_OPEN[..3]) == Admitting()
  {
    hide Begin, Steps;
    LateOpenConnects();
    LateOpenBegins();
    ReachesNext(Start(true), LATE_OPEN, 2, Joined(), Admitting());
  }

  function Closing(): Gate {
    Admitting().(conns := map[1 := PHONE.(revoked := true, closing := true)])
  }

  function Closed(): Gate {
    Closing().(registry := map[])
  }

  lemma LateOpenCloses()
    ensures After(Closing(), ReleaseStep(1)) == Closing() && After(Closing(), UnregisterStep(1)) == Closed()
  {
    var g := Closing();
    assert Live(g, [1][1..]) == [];
    assert Live(g, [1]) == [];
    assert map["k" := [1]] - {"k"} == map[];
  }

  lemma LateOpenIsClosing()
    ensures Run(true, LATE_OPEN[..4]) == Closing()
  {
    LateOpenIsAdmitted();
    ReachesNext(Start(true), LATE_OPEN, 3, Admitting(), Closing());
  }

  lemma LateOpenIsClosed()
    ensures Run(true, LATE_OPEN[..6]) == Closed()
  {
    LateOpenIsClosing();
    LateOpenCloses();
    ReachesNext(Start(true), LATE_OPEN, 4, Closing(), Closing());
    ReachesNext(Start(true), LATE_OPEN, 5, Closing(), Closed());
  }

  lemma LateOpenActs()
    ensures var p := Act(Closed(), 0, 7);
            && p.devices == map["k" := Device("k", {Watch})]
            && p.registry == map[] && p.inflight == map[] && p.streams == map[7 := 1]
  {
  }

  /** An open that was admitted before an ordinary close and acts after it outlives the revocation. */
  lemma AnOpenOutlivesItsConnection()
    ensures var g := Run(true, LATE_OPEN);
            "k" !in g.devices && 7 in g.streams && g.streams[7] == 1
  {
    LateOpenIsClosed();
    LateOpenActs();
    var g7 := Act(Closed(), 0, 7);
    ReachesNext(Start(true), LATE_OPEN, 6, Closed(), g7);
    ReachesNext(Start(true), LATE_OPEN, 7, g7, Revoke(g7, "k"));
    assert LATE_OPEN[..8] == LATE_OPEN;
  }
}
