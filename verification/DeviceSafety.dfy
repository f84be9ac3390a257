/**
 * What holds of devices, connections and their streams in every run of the device gate: streams
 * and admitted requests are always backed by a scope the device has now.
 */
module DeviceSafety {
  import opened Common
  import opened DeviceGate

  /** The scopes a key has now. */
  function Granted(g: Gate, key: Option<string>): set<Scope> {
    if key.Some? && key.value in g.devices then Effective(g, g.devices[key.value]) else {}
  }

  predicate Registered(g: Gate, c: nat, key: Option<string>) {
    key.Some? && c in Handles(g, DeviceId(key.value))
  }

  /** May still hold streams and requests: open, or in the middle of an ordinary close. */
  predicate Standing(x: Connection) {
    x.authenticated && (x.closing || !Withdrawn(x))
  }

  predicate ConnOk(g: Gate, c: nat, x: Connection) {
    && (!x.authenticated ==> x.streamScopes == {})
    && (x.authenticated && !x.revoked ==> Registered(g, c, x.spki))
    && (!Withdrawn(x) ==> x.streamScopes <= Granted(g, x.spki))
    && (x.closing ==> x.revoked)
  }

  predicate StreamOk(g: Gate, c: nat) {
    c in g.conns && Standing(g.conns[c]) && Watch in g.conns[c].streamScopes
  }

  predicate RequestOk(g: Gate, r: Request) {
    && r.conn in g.conns && Standing(g.conns[r.conn]) && r.verb != Unknown
    && var key := g.conns[r.conn].spki;
       && key.Some? && key.value in g.devices
       && (Required(r.verb).Some? ==> Required(r.verb).value in Granted(g, key))
  }

  predicate Keyed(g: Gate) {
    forall k :: k in g.devices ==> g.devices[k].id == DeviceId(k)
  }

  predicate ConnsOk(g: Gate) {
    forall c :: c in g.conns ==> ConnOk(g, c, g.conns[c])
  }

  predicate StreamsOk(g: Gate) {
    forall s :: s in g.streams ==> StreamOk(g, g.streams[s])
  }

  predicate RequestsOk(g: Gate) {
    forall r :: r in g.inflight ==> RequestOk(g, g.inflight[r])
  }

  predicate Safe(g: Gate) {
    Keyed(g) && ConnsOk(g) && StreamsOk(g) && RequestsOk(g)
  }

  // ---- The registry ----

  lemma {:induction false} LiveKeeps(g: Gate, handles: seq<nat>, c: nat)
    ensures c in Live(g, handles) <==> c in handles && !Cancelled(g, c)
  {
    if handles != [] {
      LiveKeeps(g, handles[1..], c);
    }
  }

  lemma RegisteredBy(g: Gate, id: string, c: nat)
    ensures forall d, i :: d in g.conns && !g.conns[d].revoked && d in Handles(g, i) ==> d in Handles(Register(g, id, c), i)
    ensures c in Handles(Register(g, id, c), id)
  {
    forall d, i | d in g.conns && !g.conns[d].revoked && d in Handles(g, i) ensures d in Handles(Register(g, id, c), i) {
      LiveKeeps(g, Handles(g, id), d);
    }
  }

  lemma UnregisterKeeps(g: Gate, id: string)
    ensures forall d, i :: d in g.conns && !g.conns[d].revoked && d in Handles(g, i) ==> d in Handles(Unregister(g, id), i)
  {
    forall d, i | d in g.conns && !g.conns[d].revoked && d in Handles(g, i) ensures d in Handles(Unregister(g, id), i) {
      LiveKeeps(g, Handles(g, id), d);
    }
  }

  // ---- Every step keeps the gate safe ----

  lemma AuthenticateEffects(g: Gate, c: nat, spki: string)
    requires c in g.conns && g.conns[c].spki == Some(spki)
    ensures var p := Authenticate(g, c, spki);
            && p.control == g.control && p.devices == g.devices && p.streams == g.streams
            && p.inflight == g.inflight && p.acted == g.acted
            && p.conns == g.conns[c := g.conns[c].(authenticated := true)]
            && (forall d, i :: d in g.conns && !g.conns[d].revoked && d in Handles(g, i) ==> d in Handles(p, i))
            && (!g.conns[c].authenticated ==> c in Handles(p, DeviceId(spki)))
  {
    if !g.conns[c].authenticated {
      var named := g.(conns := g.conns[c := g.conns[c].(authenticated := true)]);
      RegisteredBy(named, DeviceId(spki), c);
      var p := Authenticate(g, c, spki);
      forall d, i | d in g.conns && !g.conns[d].revoked && d in Handles(g, i) ensures d in Handles(p, i) {
        assert d in Handles(named, i) && !named.conns[d].revoked;
      }
    }
  }

  lemma AuthenticateKeeps(g: Gate, c: nat, spki: string)
    requires Safe(g) && c in g.conns && g.conns[c].spki == Some(spki)
    ensures Safe(Authenticate(g, c, spki))
  {
    AuthenticateEffects(g, c, spki);
    var p := Authenticate(g, c, spki);
    forall d | d in p.conns ensures ConnOk(p, d, p.conns[d]) {
      assert ConnOk(g, d, g.conns[d]);
    }
    forall s | s in p.streams ensures StreamOk(p, p.streams[s]) {
      assert StreamOk(g, g.streams[s]);
    }
    forall r | r in p.inflight ensures RequestOk(p, p.inflight[r]) {
      assert RequestOk(g, g.inflight[r]);
    }
  }

  lemma ConnectKeeps(g: Gate, c: nat, key: Option<string>)
    requires Safe(g)
    ensures Safe(Connect(g, c, key))
  {
    if c !in g.conns {
      var added := g.(conns := g.conns[c := Connection(key, false, false, false, false, false, {})]);
      assert Safe(added) by {
        forall d | d in added.conns ensures ConnOk(added, d, added.conns[d]) {
          assert d != c ==> ConnOk(g, d, g.conns[d]);
        }
        forall s | s in added.streams ensures StreamOk(added, added.streams[s]) {
          assert StreamOk(g, g.streams[s]);
        }
        forall r | r in added.inflight ensures RequestOk(added, added.inflight[r]) {
          assert RequestOk(g, g.inflight[r]);
        }
      }
      if key.Some? {
        AuthenticateKeeps(added, c, key.value);
      }
    }
  }

  lemma BeginKeeps(g: Gate, c: nat, verb: Method, request: nat)
    requires Safe(g)
    ensures Safe(Begin(g, c, verb, request))
  {
    if c in g.conns && g.conns[c].spki.Some? && !Withdrawn(g.conns[c]) {
      var spki := g.conns[c].spki.value;
      assert ConnOk(g, c, g.conns[c]);
      AuthenticateKeeps(g, c, spki);
      AuthenticateEffects(g, c, spki);
      hide Safe, Authenticate;
      var seen, p := Authenticate(g, c, spki), Begin(g, c, verb, request);
      if spki in g.devices && request !in g.inflight && Check(g, c, verb) == Admitted {
        AddedKeeps(seen, p, request, Request(c, verb));
      }
    }
  }

  lemma AddedKeeps(g: Gate, p: Gate, request: nat, r: Request)
    requires Safe(g) && RequestOk(g, r) && p == g.(inflight := g.inflight[request := r])
    ensures Safe(p)
  {
    forall d | d in p.conns ensures ConnOk(p, d, p.conns[d]) {
      assert ConnOk(g, d, g.conns[d]);
    }
    forall s | s in p.streams ensures StreamOk(p, p.streams[s]) {
      assert StreamOk(g, g.streams[s]);
    }
    forall q | q in p.inflight ensures RequestOk(p, p.inflight[q]) {
      assert q != request ==> RequestOk(g, g.inflight[q]);
    }
  }

  /** Streams and requests may go, the rest of the gate that matters stays. */
  lemma FewerKeeps(g: Gate, p: Gate)
    requires Safe(g)
    requires p.control == g.control && p.devices == g.devices && p.conns == g.conns
    requires forall d, i :: d in g.conns && !g.conns[d].revoked && d in Handles(g, i) ==> d in Handles(p, i)
    requires forall s :: s in p.streams ==> s in g.streams && p.streams[s] == g.streams[s]
    requires forall r :: r in p.inflight ==> r in g.inflight && p.inflight[r] == g.inflight[r]
    ensures Safe(p)
  {
    forall d | d in p.conns ensures ConnOk(p, d, p.conns[d]) {
      assert ConnOk(g, d, g.conns[d]);
    }
    forall s | s in p.streams ensures StreamOk(p, p.streams[s]) {
      assert StreamOk(g, g.streams[s]);
    }
    forall r | r in p.inflight ensures RequestOk(p, p.inflight[r]) {
      assert RequestOk(g, g.inflight[r]);
    }
  }

  /** One connection gains a scope its device has, or only loses its standing to close. */
  lemma ChangedKeeps(g: Gate, p: Gate, c: nat, x: Connection)
    requires Safe(g) && c in g.conns && ConnOk(g, c, x) && x.spki == g.conns[c].spki
    requires p == g.(conns := g.conns[c := x])
    requires Standing(g.conns[c]) ==> Standing(x)
    requires g.conns[c].streamScopes <= x.streamScopes
    ensures Safe(p)
  {
    forall d | d in p.conns ensures ConnOk(p, d, p.conns[d]) {
      assert ConnOk(g, d, g.conns[d]);
    }
    forall s | s in p.streams ensures StreamOk(p, p.streams[s]) {
      assert StreamOk(g, g.streams[s]);
    }
    forall r | r in p.inflight ensures RequestOk(p, p.inflight[r]) {
      assert RequestOk(g, g.inflight[r]);
    }
  }

  lemma OpenedKeeps(g: Gate, p: Gate, stream: nat, c: nat)
    requires Safe(g) && StreamOk(g, c) && p == g.(streams := g.streams[stream := c])
    ensures Safe(p)
  {
    forall d | d in p.conns ensures ConnOk(p, d, p.conns[d]) {
      assert ConnOk(g, d, g.conns[d]);
    }
    forall s | s in p.streams ensures StreamOk(p, p.streams[s]) {
      assert s != stream ==> StreamOk(g, g.streams[s]);
    }
    forall r | r in p.inflight ensures RequestOk(p, p.inflight[r]) {
      assert RequestOk(g, g.inflight[r]);
    }
  }

  lemma ActEffects(g: Gate, request: nat, stream: nat)
    requires request in g.inflight && g.inflight[request].conn in g.conns
    ensures var r := g.inflight[request];
            var x := g.conns[r.conn];
            var done := CountAct(g.(inflight := g.inflight - {request}), r.conn);
            var p := Act(g, request, stream);
            if r.verb == Listen && !x.listening then
              p == done.(conns := g.conns[r.conn := x.(listening := true, streamScopes := x.streamScopes + {Read})])
            else if r.verb == OpenTerminal && stream !in g.streams then
              p == done.(streams := g.streams[stream := r.conn],
                         conns := g.conns[r.conn := x.(streamScopes := x.streamScopes + {Watch})])
            else if r.verb == CloseTerminal && stream in g.streams && g.streams[stream] == r.conn then
              p == done.(streams := g.streams - {stream})
            else p == done
  {
  }

  /** The scope a request adds is one its device has. */
  lemma GainKeeps(g: Gate, p: Gate, r: Request, x: Connection, scope: Scope)
    requires Safe(g) && RequestOk(g, r) && Required(r.verb) == Some(scope)
    requires x == g.conns[r.conn].(listening := x.listening, streamScopes := g.conns[r.conn].streamScopes + {scope})
    requires p == g.(conns := g.conns[r.conn := x])
    ensures Safe(p) && RequestOk(p, r)
  {
    assert ConnOk(g, r.conn, g.conns[r.conn]);
    ChangedKeeps(g, p, r.conn, x);
  }

  lemma DoneKeeps(g: Gate, request: nat)
    requires Safe(g) && request in g.inflight
    ensures var r := g.inflight[request];
            var done := CountAct(g.(inflight := g.inflight - {request}), r.conn);
            Safe(done) && RequestOk(done, r) && RequestOk(g, r)
  {
    var r := g.inflight[request];
    assert RequestOk(g, r);
    FewerKeeps(g, CountAct(g.(inflight := g.inflight - {request}), r.conn));
    hide Safe;
  }

  lemma ActKeeps(g: Gate, request: nat, stream: nat)
    requires Safe(g)
    ensures Safe(Act(g, request, stream))
  {
    if request in g.inflight {
      var r := g.inflight[request];
      DoneKeeps(g, request);
      hide Safe, Act;
      var x := g.conns[r.conn];
      var done := CountAct(g.(inflight := g.inflight - {request}), r.conn);
      ActEffects(g, request, stream);
      var p := Act(g, request, stream);
      if r.verb == Listen && !x.listening {
        GainKeeps(done, p, r, p.conns[r.conn], Read);
      } else if r.verb == OpenTerminal && stream !in g.streams {
        var scoped := done.(conns := p.conns);
        GainKeeps(done, scoped, r, p.conns[r.conn], Watch);
        OpenedKeeps(scoped, p, stream, r.conn);
      } else {
        FewerKeeps(done, p);
      }
    }
  }

  // ---- Revocation ----

  function Revoked(x: Connection, hit: bool): Connection {
    if hit then x.(revoked := true) else x
  }

  /** `p` is `g` with these connections and streams. */
  predicate Elsewhere(g: Gate, p: Gate) {
    p == g.(conns := p.conns, streams := p.streams)
  }

  lemma RevokeOne(g: Gate, c: nat)
    ensures var p := Release(Cancel(g, c), c);
            && Elsewhere(g, p) && p.conns.Keys == g.conns.Keys
            && (forall d :: d in g.conns ==> p.conns[d] == Revoked(g.conns[d], d == c))
            && (forall s :: s in p.streams <==> s in g.streams && g.streams[s] != c)
            && (forall s :: s in p.streams ==> p.streams[s] == g.streams[s])
  {
  }

  lemma {:induction false} RevokeAllEffects(g: Gate, handles: seq<nat>)
    ensures var p := RevokeAll(g, handles);
            && Elsewhere(g, p) && p.conns.Keys == g.conns.Keys
            && (forall c :: c in g.conns ==> p.conns[c] == Revoked(g.conns[c], c in handles))
            && (forall s :: s in p.streams <==> s in g.streams && g.streams[s] !in handles)
            && (forall s :: s in p.streams ==> p.streams[s] == g.streams[s])
    decreases |handles|
  {
    if handles != [] {
      var c := handles[0];
      RevokeOne(g, c);
      var next := Release(Cancel(g, c), c);
      assert RevokeAll(g, handles) == RevokeAll(next, handles[1..]);
      RevokeAllEffects(next, handles[1..]);
      assert forall d :: d in handles <==> d == c || d in handles[1..];
    }
  }

  lemma RevokeKeeps(g: Gate, spki: string)
    requires Safe(g) && g.inflight == map[]
    ensures Safe(Revoke(g, spki))
  {
    if spki in g.devices {
      var id, p := g.devices[spki].id, Revoke(g, spki);
      RevokeAllEffects(g.(devices := g.devices - {spki}, registry := g.registry - {id}), Handles(g, id));
      forall c | c in p.conns ensures ConnOk(p, c, p.conns[c]) {
        assert ConnOk(g, c, g.conns[c]);
      }
      forall s | s in p.streams ensures StreamOk(p, p.streams[s]) {
        assert StreamOk(g, g.streams[s]);
      }
    }
  }

  // ---- Withdrawal ----

  predicate LosesNow(x: Connection, effective: set<Scope>) {
    !(x.streamScopes <= effective)
  }

  function Checked(x: Connection, listed: bool, effective: set<Scope>): Connection {
    if listed && LosesNow(x, effective) then x.(withdrawn := true) else x
  }

  predicate Survives(g: Gate, c: nat, handles: seq<nat>, effective: set<Scope>) {
    c !in handles || !Loses(g, c, effective)
  }

  function WithdrawOne(g: Gate, c: nat, effective: set<Scope>): Gate {
    if Loses(g, c, effective) then Release(Withdraw(g, c), c) else g
  }

  lemma WithdrawOneEffects(g: Gate, c: nat, effective: set<Scope>)
    ensures var p := WithdrawOne(g, c, effective);
            && Elsewhere(g, p) && p.conns.Keys == g.conns.Keys
            && (forall d :: d in g.conns ==> p.conns[d] == Checked(g.conns[d], d == c, effective))
            && (forall s :: s in p.streams <==> s in g.streams && !(g.streams[s] == c && Loses(g, c, effective)))
            && (forall s :: s in p.streams ==> p.streams[s] == g.streams[s])
            && (forall d :: Loses(p, d, effective) <==> Loses(g, d, effective))
  {
  }

  lemma {:induction false} WithdrawLosersEffects(g: Gate, handles: seq<nat>, effective: set<Scope>)
    ensures var p := WithdrawLosers(g, handles, effective);
            && Elsewhere(g, p) && p.conns.Keys == g.conns.Keys
            && (forall c :: c in g.conns ==> p.conns[c] == Checked(g.conns[c], c in handles, effective))
            && (forall s :: s in p.streams <==> s in g.streams && Survives(g, g.streams[s], handles, effective))
            && (forall s :: s in p.streams ==> p.streams[s] == g.streams[s])
    decreases |handles|
  {
    if handles != [] {
      var c := handles[0];
      WithdrawOneEffects(g, c, effective);
      var next := WithdrawOne(g, c, effective);
      assert WithdrawLosers(g, handles, effective) == WithdrawLosers(next, handles[1..], effective);
      WithdrawLosersEffects(next, handles[1..], effective);
      assert forall d :: d in handles <==> d == c || d in handles[1..];
    }
  }

  lemma PairKeeps(g: Gate, spki: string, scopes: set<Scope>)
    requires Safe(g) && g.inflight == map[]
    ensures Safe(Pair(g, spki, scopes))
  {
    if !IdTaken(g, spki) {
      var d, p := Device(DeviceId(spki), scopes), Pair(g, spki, scopes);
      var effective := Effective(g, d);
      var stored := g.(devices := g.devices[spki := d]);
      WithdrawLosersEffects(stored, Handles(g, d.id), effective);
      assert Granted(p, Some(spki)) == effective;
      forall c | c in p.conns ensures ConnOk(p, c, p.conns[c]) {
        assert ConnOk(g, c, g.conns[c]);
      }
      forall s | s in p.streams ensures StreamOk(p, p.streams[s]) {
        assert StreamOk(g, g.streams[s]);
      }
    }
  }

  lemma CloseKeeps(g: Gate, c: nat)
    requires Safe(g)
    ensures Safe(BeginClose(g, c))
  {
    if c in g.conns {
      assert ConnOk(g, c, g.conns[c]);
      ChangedKeeps(g, BeginClose(g, c), c, g.conns[c].(revoked := true, closing := true));
    }
  }

  lemma ClosingIsSafe(g: Gate, step: Step)
    requires Safe(g) && (step.DropStep? || step.CancelStep? || step.ReleaseStep? || step.UnregisterStep?)
    ensures Safe(After(g, step))
  {
    hide Safe, Live;
    match step
    case DropStep(stream) => FewerKeeps(g, g.(streams := g.streams - {stream}));
    case CancelStep(c) => CloseKeeps(g, c);
    case ReleaseStep(c) => FewerKeeps(g, Release(g, c));
    case UnregisterStep(c) =>
      if c in g.conns && g.conns[c].spki.Some? {
        var id := DeviceId(g.conns[c].spki.value);
        UnregisterKeeps(g, id);
        FewerKeeps(g, Unregister(g, id));
      }
  }

  lemma StepIsSafe(g: Gate, step: Step)
    requires Safe(g)
    ensures Safe(After(g, step))
  {
    match step
    case ConnectStep(c, key) => ConnectKeeps(g, c, key);
    case BeginStep(c, verb, request) => BeginKeeps(g, c, verb, request);
    case ActStep(request, stream) => ActKeeps(g, request, stream);
    case PairStep(spki, scopes) =>
      if g.inflight == map[] { PairKeeps(g, spki, scopes); }
    case RevokeStep(spki) =>
      if g.inflight == map[] { RevokeKeeps(g, spki); }
    case PairedStep(c) =>
      if c in g.conns && g.conns[c].spki.Some? { AuthenticateKeeps(g, c, g.conns[c].spki.value); }
    case _ => ClosingIsSafe(g, step);
  }

  lemma {:induction false} StepsAreSafe(g: Gate, steps: seq<Step>)
    requires Safe(g)
    ensures Safe(Steps(g, steps))
    decreases |steps|
  {
    if steps != [] {
      StepsAreSafe(g, steps[..|steps| - 1]);
      StepIsSafe(Steps(g, steps[..|steps| - 1]), steps[|steps| - 1]);
    }
  }

  /**
   * In every reachable state: a terminal stream belongs to a connection whose device is paired and
   * effectively has `watch` now, unless that connection is closing by itself; a request between
   * its checks and its action still has its scope; and an unwithdrawn connection holds no stream
   * scope its device lacks.
   */
  lemma ReachableIsAuthorised(control: bool, steps: seq<Step>)
    ensures var g := Run(control, steps);
            && (forall s :: s in g.streams ==>
                  && g.streams[s] in g.conns
                  && var x := g.conns[g.streams[s]];
                     x.closing || (!Withdrawn(x) && Watch in Granted(g, x.spki)))
            && (forall r :: r in g.inflight ==>
                  && g.inflight[r].conn in g.conns
                  && var key := g.conns[g.inflight[r].conn].spki;
                     && key.Some? && key.value in g.devices
                     && var scope := Required(g.inflight[r].verb); scope.Some? ==> scope.value in Granted(g, key))
            && (forall c :: c in g.conns && !Withdrawn(g.conns[c]) ==>
                  g.conns[c].streamScopes <= Granted(g, g.conns[c].spki))
  {
    StepsAreSafe(Start(control), steps);
    var g := Run(control, steps);
    forall s | s in g.streams
      ensures g.streams[s] in g.conns
      ensures var x := g.conns[g.streams[s]]; x.closing || (!Withdrawn(x) && Watch in Granted(g, x.spki))
    {
      assert StreamOk(g, g.streams[s]);
      assert ConnOk(g, g.streams[s], g.conns[g.streams[s]]);
    }
    forall c | c in g.conns && !Withdrawn(g.conns[c])
      ensures g.conns[c].streamScopes <= Granted(g, g.conns[c].spki)
    {
      assert ConnOk(g, c, g.conns[c]);
    }
    assert forall r :: r in g.inflight ==> RequestOk(g, g.inflight[r]);
  }
}
