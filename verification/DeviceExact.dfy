/**
 * The device gate spelled out: which request needs which stored scope, and what pairing and revoking
 * change (crates/sessiontap-hub/src/service.rs:304-368, crates/sessiontap-hub/src/remote.rs:645-699).
 */
module DeviceExact {
  import opened Common
  import opened DeviceGate
  import opened DeviceSafety
  import opened DeviceRevocation

  /** The stored scopes allow the request; terminal scopes count only while remote control is on. */
  predicate Entitled(control: bool, scopes: set<Scope>, verb: Method) {
    match verb
    case Info => true
    case Listen => Read in scopes
    case Forget => Manage in scopes
    case OpenTerminal | CloseTerminal => control && Watch in scopes
    case InputTerminal => control && Control in scopes
    case Unknown => false
  }

  /** The connection may be answered: there, neither revoked nor withdrawn. */
  predicate Answered(g: Gate, c: nat) {
    c in g.conns && !g.conns[c].revoked && !g.conns[c].withdrawn
  }

  /** Its key is that of a paired device. */
  predicate Paired(g: Gate, c: nat) {
    c in g.conns && g.conns[c].spki.Some? && g.conns[c].spki.value in g.devices
  }

  /** Every answer exactly under its condition, on the connection, the stored device and the verb. */
  lemma AnswerIff(g: Gate, c: nat, verb: Method)
    ensures var answer := Check(g, c, verb);
            && (answer == Silent <==> !Answered(g, c))
            && (answer == Unauthorized <==> Answered(g, c) && !Paired(g, c))
            && (answer == UnknownMethod <==> Answered(g, c) && Paired(g, c) && verb == Unknown)
            && (answer == Admitted <==>
                  Answered(g, c) && Paired(g, c) && Entitled(g.control, g.devices[g.conns[c].spki.value].scopes, verb))
            && (answer == NotAllowed <==>
                  Answered(g, c) && Paired(g, c) && verb != Unknown
                  && !Entitled(g.control, g.devices[g.conns[c].spki.value].scopes, verb))
  {
  }

  /** A request is under way after a step that asks for it exactly when it is entitled. */
  lemma AskedIff(g: Gate, c: nat, verb: Method, request: nat)
    requires request !in g.inflight
    ensures var p := After(g, BeginStep(c, verb, request));
            request in p.inflight <==>
              Answered(g, c) && Paired(g, c) && Entitled(g.control, g.devices[g.conns[c].spki.value].scopes, verb)
  {
    AnswerIff(g, c, verb);
    if Paired(g, c) {
      AuthenticateEffects(g, c, g.conns[c].spki.value);
    }
    hide Check, Authenticate, Entitled;
  }

  /** Asking authenticates exactly the connection that may be answered and is paired, also when it is then refused. */
  lemma BeginIs(g: Gate, c: nat, verb: Method, request: nat)
    requires request !in g.inflight
    ensures var p := Begin(g, c, verb, request);
            if Answered(g, c) && Paired(g, c) then
              && p == g.(conns := g.conns[c := g.conns[c].(authenticated := true)], registry := p.registry, inflight := p.inflight)
              && p.inflight == (if Entitled(g.control, g.devices[g.conns[c].spki.value].scopes, verb)
                                then g.inflight[request := Request(c, verb)] else g.inflight)
              && (!g.conns[c].authenticated ==> c in Handles(p, DeviceId(g.conns[c].spki.value)))
              && (g.conns[c].authenticated ==> p.registry == g.registry)
            else p == g
  {
    AnswerIff(g, c, verb);
    if Paired(g, c) {
      AuthenticateEffects(g, c, g.conns[c].spki.value);
    }
    hide Check, Entitled, Register;
  }

  /**
   * In every reachable state, a request between its checks and its action belongs to a paired device
   * whose stored scopes entitle it to that very request.
   */
  lemma RequestsAreEntitled(control: bool, steps: seq<Step>, request: nat)
    requires request in Run(control, steps).inflight
    ensures var g := Run(control, steps);
            var r := g.inflight[request];
            && Paired(g, r.conn) && g.control == control
            && Entitled(control, g.devices[g.conns[r.conn].spki.value].scopes, r.verb)
  {
    StartIsSafe(control);
    StepsAreSafe(Start(control), steps);
    ControlStays(Start(control), steps);
    var g := Run(control, steps);
    assert RequestOk(g, g.inflight[request]);
    hide Run, Safe;
  }

  lemma StepKeepsControl(g: Gate, step: Step)
    ensures After(g, step).control == g.control
  {
    hide Connect, Begin, Act, Authenticate, Unregister, Release, BeginClose;
    match step
    case ConnectStep(c, key) => ConnectKeepsDevices(g, c, key);
    case BeginStep(c, verb, request) => BeginKeepsDevices(g, c, verb, request);
    case ActStep(request, stream) => ActKeepsDevices(g, request, stream);
    case PairedStep(c) =>
      if c in g.conns && g.conns[c].spki.Some? { AuthenticateEffects(g, c, g.conns[c].spki.value); }
    case PairStep(spki, scopes) =>
      var d := Device(DeviceId(spki), scopes);
      WithdrawLosersEffects(g.(devices := g.devices[spki := d]), Handles(g, d.id), DeviceGate.Effective(g, d));
    case RevokeStep(spki) =>
      if spki in g.devices {
        var id := g.devices[spki].id;
        RevokeAllEffects(g.(devices := g.devices - {spki}, registry := g.registry - {id}), Handles(g, id));
      }
    case _ => ClosingKeepsDevices(g, step);
  }

  lemma {:induction false} ControlStays(g: Gate, steps: seq<Step>)
    ensures Steps(g, steps).control == g.control
    decreases |steps|
  {
    hide After;
    if steps != [] {
      ControlStays(g, steps[..|steps| - 1]);
      StepKeepsControl(Steps(g, steps[..|steps| - 1]), steps[|steps| - 1]);
    }
  }

  /** A device paired to watch only may open a terminal and may not type into it. */
  lemma WatchingIsNotTyping(g: Gate, c: nat)
    requires g.control && Answered(g, c) && Paired(g, c) && g.devices[g.conns[c].spki.value].scopes == {Watch}
    ensures Check(g, c, OpenTerminal) == Admitted && Check(g, c, InputTerminal) == NotAllowed
  {
    AnswerIff(g, c, OpenTerminal);
    AnswerIff(g, c, InputTerminal);
    hide Check;
  }

  // ---- Pairing and revoking ----

  /** A scope the device no longer has, for this connection's streams. */
  predicate Needs(control: bool, scopes: set<Scope>, x: Connection) {
    exists scope :: scope in x.streamScopes && !(scope in scopes && (control || scope == Read || scope == Manage))
  }

  lemma NeedsIff(g: Gate, d: Device, x: Connection)
    ensures LosesNow(x, DeviceGate.Effective(g, d)) <==> Needs(g.control, d.scopes, x)
  {
  }

  /**
   * Pairing is refused exactly when another paired key has the same identity. Otherwise the device
   * is stored with these scopes, and exactly the registered connections of that identity with a
   * stream that needs a scope it lacks are withdrawn, with all their streams.
   */
  lemma PairIs(control: bool, steps: seq<Step>, spki: string, scopes: set<Scope>)
    ensures var g := Run(control, steps);
            var p, handles := Pair(g, spki, scopes), Handles(g, DeviceId(spki));
            if exists other :: other in g.devices && other != spki && DeviceId(other) == DeviceId(spki) then p == g
            else
              && p.devices == g.devices[spki := Device(DeviceId(spki), scopes)]
              && p.registry == g.registry && p.inflight == g.inflight && p.acted == g.acted && p.conns.Keys == g.conns.Keys
              && (forall c :: c in g.conns ==>
                    p.conns[c] == if c in handles && Needs(g.control, scopes, g.conns[c])
                                  then g.conns[c].(withdrawn := true) else g.conns[c])
              && (forall s :: s in p.streams <==>
                    s in g.streams && !(g.streams[s] in handles && g.streams[s] in g.conns
                                        && Needs(g.control, scopes, g.conns[g.streams[s]])))
  {
    StartIsSafe(control);
    StepsAreSafe(Start(control), steps);
    PairEffects(Run(control, steps), spki, scopes);
    hide Run, Pair, Safe, Needs;
  }

  lemma PairEffects(g: Gate, spki: string, scopes: set<Scope>)
    requires Keyed(g)
    ensures var p, handles := Pair(g, spki, scopes), Handles(g, DeviceId(spki));
            if exists other :: other in g.devices && other != spki && DeviceId(other) == DeviceId(spki) then p == g
            else
              && p.devices == g.devices[spki := Device(DeviceId(spki), scopes)]
              && p.registry == g.registry && p.inflight == g.inflight && p.acted == g.acted && p.conns.Keys == g.conns.Keys
              && (forall c :: c in g.conns ==>
                    p.conns[c] == if c in handles && Needs(g.control, scopes, g.conns[c])
                                  then g.conns[c].(withdrawn := true) else g.conns[c])
              && (forall s :: s in p.streams <==>
                    s in g.streams && !(g.streams[s] in handles && g.streams[s] in g.conns
                                        && Needs(g.control, scopes, g.conns[g.streams[s]])))
  {
    assert IdTaken(g, spki) <==> exists other :: other in g.devices && other != spki && DeviceId(other) == DeviceId(spki);
    if !IdTaken(g, spki) {
      var d := Device(DeviceId(spki), scopes);
      var stored := g.(devices := g.devices[spki := d]);
      WithdrawLosersEffects(stored, Handles(g, d.id), DeviceGate.Effective(g, d));
      forall c | c in g.conns ensures LosesNow(g.conns[c], DeviceGate.Effective(g, d)) <==> Needs(g.control, scopes, g.conns[c]) {
        NeedsIff(g, d, g.conns[c]);
      }
      hide WithdrawLosers, Needs, DeviceGate.Effective;
    }
  }

  /** A device is identified by the first sixteen characters of its key. */
  lemma IdentityIs(a: string, b: string)
    requires |a| >= 16 && |b| >= 16
    ensures DeviceId(a) == DeviceId(b) <==> forall i :: 0 <= i < 16 ==> a[i] == b[i]
  {
    assert DeviceId(a) == a[..16] && DeviceId(b) == b[..16];
    if forall i :: 0 <= i < 16 ==> a[i] == b[i] {
      assert a[..16] == b[..16];
    } else {
      var i :| 0 <= i < 16 && a[i] != b[i];
      assert a[..16][i] != b[..16][i];
    }
  }

  /**
   * Revoking deletes the device and its registry entry, cancels exactly the connections registered
   * for it, and removes exactly their streams; an unknown key changes nothing.
   */
  lemma RevokeIs(g: Gate, spki: string)
    ensures var p := Revoke(g, spki);
            if spki !in g.devices then p == g
            else
              var id := g.devices[spki].id;
              && p.devices == g.devices - {spki} && p.registry == g.registry - {id}
              && p.inflight == g.inflight && p.acted == g.acted && p.conns.Keys == g.conns.Keys
              && (forall c :: c in g.conns ==>
                    p.conns[c] == if c in Handles(g, id) then g.conns[c].(revoked := true) else g.conns[c])
              && (forall s :: s in p.streams <==> s in g.streams && g.streams[s] !in Handles(g, id))
  {
    if spki in g.devices {
      var id := g.devices[spki].id;
      RevokeAllEffects(g.(devices := g.devices - {spki}, registry := g.registry - {id}), Handles(g, id));
      hide RevokeAll;
    }
  }

  // ---- The registry ----

  /** `left` are the handles of `all` whose connection is there and not cancelled, in order. */
  predicate Uncancelled(g: Gate, all: seq<nat>, left: seq<nat>) {
    if all == [] then left == []
    else
      var n := |all| - 1;
      if all[n] in g.conns && !g.conns[all[n]].revoked
      then left != [] && left[|left| - 1] == all[n] && Uncancelled(g, all[..n], left[..|left| - 1])
      else Uncancelled(g, all[..n], left)
  }

  lemma {:induction false} LiveSnoc(g: Gate, handles: seq<nat>, c: nat)
    ensures Live(g, handles + [c]) == Live(g, handles) + if c in g.conns && !g.conns[c].revoked then [c] else []
    decreases |handles|
  {
    if handles == [] {
      assert handles + [c] == [c] && [c][1..] == [];
      assert Live(g, [c]) == (if Cancelled(g, c) then [] else [c]) + Live(g, []);
    } else {
      LiveSnoc(g, handles[1..], c);
      assert (handles + [c])[1..] == handles[1..] + [c];
    }
  }

  lemma {:induction false} LiveIsUncancelled(g: Gate, handles: seq<nat>)
    ensures Uncancelled(g, handles, Live(g, handles))
    decreases |handles|
  {
    if handles != [] {
      var n := |handles| - 1;
      LiveIsUncancelled(g, handles[..n]);
      LiveSnoc(g, handles[..n], handles[n]);
      assert handles == handles[..n] + [handles[n]];
      var left := Live(g, handles[..n]);
      assert (left + [handles[n]])[..|left|] == left;
      assert left + [] == left;
    }
  }

  /** Registering puts the connection after those of its device that are not cancelled; other devices keep theirs. */
  lemma RegisterIs(g: Gate, id: string, c: nat)
    ensures var p := Register(g, id, c);
            && p == g.(registry := p.registry) && p.registry.Keys == g.registry.Keys + {id}
            && (forall other :: other in g.registry && other != id ==> p.registry[other] == g.registry[other])
            && p.registry[id] != [] && p.registry[id][|p.registry[id]| - 1] == c
            && Uncancelled(g, if id in g.registry then g.registry[id] else [], p.registry[id][..|p.registry[id]| - 1])
  {
    var before := Handles(g, id);
    LiveIsUncancelled(g, before);
    assert (Live(g, before) + [c])[..|Live(g, before)|] == Live(g, before);
    hide Live, Uncancelled;
  }

  /** Unregistering drops the cancelled connections of a device, and the device with the last one. */
  lemma UnregisterIs(g: Gate, id: string)
    ensures var p := Unregister(g, id);
            && p == g.(registry := p.registry)
            && (forall other :: other != id ==> (other in p.registry <==> other in g.registry))
            && (forall other :: other in g.registry && other != id ==> p.registry[other] == g.registry[other])
            && (id in g.registry ==>
                  Uncancelled(g, g.registry[id], if id in p.registry then p.registry[id] else []))
            && (id in p.registry ==> id in g.registry && (g.registry[id] == p.registry[id] || p.registry[id] != []))
  {
    if id in g.registry {
      LiveIsUncancelled(g, g.registry[id]);
    }
    hide Live, Uncancelled;
  }

  /** A new connection has its key and nothing else, and is authenticated exactly when that key is paired. */
  lemma ConnectIs(g: Gate, c: nat, key: Option<string>)
    ensures var p := Connect(g, c, key);
            var known := key.Some? && key.value in g.devices;
            if c in g.conns then p == g
            else
              && p == g.(conns := p.conns, registry := p.registry)
              && p.conns == g.conns[c := Connection(key, known, false, false, false, false, {})]
              && (known ==> c in Handles(p, DeviceId(key.value)))
              && (!known ==> p.registry == g.registry)
  {
    if c !in g.conns && key.Some? {
      AuthenticateEffects(g.(conns := g.conns[c := Connection(key, false, false, false, false, false, {})]), c, key.value);
    }
    hide Live;
  }
}
