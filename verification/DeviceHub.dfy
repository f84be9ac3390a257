/**
 * The hub's connection registry and device operations, updated in place
 * (crates/sessiontap-hub/src/service.rs:304-388, crates/sessiontap-hub/src/remote.rs:335-358).
 */
module DeviceHub {
  import opened Common
  import opened DeviceGate

  class Hub {
    const control: bool
    var devices: map<string, Device>
    var registry: map<string, seq<nat>>
    var conns: map<nat, Connection>
    var streams: map<nat, nat>
    var inflight: map<nat, Request>
    var acted: map<nat, nat>

    constructor (control: bool)
      ensures View() == Start(control)
    {
      this.control := control;
      devices, registry, conns, streams, inflight, acted := map[], map[], map[], map[], map[], map[];
    }

    function View(): Gate
      reads this
    {
      Gate(control, devices, registry, conns, inflight, streams, acted)
    }

    /** Keeps the handles whose connection is not cancelled. */
    method RetainLive(handles: seq<nat>) returns (left: seq<nat>)
      ensures left == Live(View(), handles)
    {
      left := [];
      var i := 0;
      while i < |handles|
        invariant 0 <= i <= |handles|
        invariant left + Live(View(), handles[i..]) == Live(View(), handles)
      {
        if handles[i] in conns && !conns[handles[i]].revoked {
          left := left + [handles[i]];
        }
        assert handles[i..][1..] == handles[i + 1..];
        i := i + 1;
      }
    }

    method RegisterConnection(id: string, c: nat)
      modifies this`registry
      ensures View() == Register(old(View()), id, c)
    {
      var handles := if id in registry then registry[id] else [];
      handles := RetainLive(handles);
      registry := registry[id := handles + [c]];
    }

    method UnregisterConnection(id: string)
      modifies this`registry
      ensures View() == Unregister(old(View()), id)
    {
      if id in registry {
        var handles := RetainLive(registry[id]);
        if handles == [] {
          registry := registry - {id};
        } else {
          registry := registry[id := handles];
        }
      }
    }

    method AuthenticateConnection(c: nat, spki: string)
      requires c in conns
      modifies this`conns, this`registry
      ensures View() == Authenticate(old(View()), c, spki)
    {
      if !conns[c].authenticated {
        conns := conns[c := conns[c].(authenticated := true)];
        RegisterConnection(DeviceId(spki), c);
      }
    }

    /** The relay forgets every stream of a connection. */
    method ReleaseOwner(c: nat)
      modifies this`streams
      ensures View() == Release(old(View()), c)
    {
      streams := map s | s in streams && streams[s] != c :: streams[s];
    }

    method CancelConnection(c: nat)
      modifies this`conns
      ensures View() == Cancel(old(View()), c)
    {
      if c in conns {
        conns := conns[c := conns[c].(revoked := true)];
      }
    }

    /** True when there was a device to delete. */
    method RevokeDevice(spki: string) returns (found: bool)
      modifies this
      ensures found == (spki in old(devices))
      ensures View() == Revoke(old(View()), spki)
    {
      found := spki in devices;
      if found {
        var id := devices[spki].id;
        var handles := if id in registry then registry[id] else [];
        devices := devices - {spki};
        registry := registry - {id};
        ghost var deleted := View();
        var i := 0;
        while i < |handles|
          invariant 0 <= i <= |handles|
          invariant RevokeAll(View(), handles[i..]) == RevokeAll(deleted, handles)
        {
          CancelConnection(handles[i]);
          ReleaseOwner(handles[i]);
          assert handles[i..][1..] == handles[i + 1..];
          i := i + 1;
        }
      }
    }

    method WithdrawConnection(c: nat)
      modifies this`conns
      ensures View() == Withdraw(old(View()), c)
    {
      if c in conns {
        conns := conns[c := conns[c].(withdrawn := true)];
      }
    }

    /** False when another device already has this key's identity. */
    method PairDevice(spki: string, scopes: set<Scope>) returns (stored: bool)
      modifies this
      ensures stored == !IdTaken(old(View()), spki)
      ensures View() == Pair(old(View()), spki, scopes)
    {
      stored := !IdTaken(View(), spki);
      if stored {
        var d := Device(DeviceId(spki), scopes);
        var handles := if d.id in registry then registry[d.id] else [];
        var effective := Effective(View(), d);
        devices := devices[spki := d];
        ghost var paired := View();
        var i := 0;
        while i < |handles|
          invariant 0 <= i <= |handles|
          invariant WithdrawLosers(View(), handles[i..], effective) == WithdrawLosers(paired, handles, effective)
        {
          var c := handles[i];
          if c in conns && !(conns[c].streamScopes <= effective) {
            WithdrawConnection(c);
            ReleaseOwner(c);
          }
          assert handles[i..][1..] == handles[i + 1..];
          i := i + 1;
        }
      }
    }

    /** The checks of one request; an admitted one is then under way. */
    method BeginRequest(c: nat, verb: Method, request: nat) returns (answer: Answer)
      requires request !in inflight
      modifies this
      ensures answer == Check(old(View()), c, verb)
      ensures View() == Begin(old(View()), c, verb, request)
    {
      if c !in conns || conns[c].revoked || conns[c].withdrawn {
        return Silent;
      }
      var key := conns[c].spki;
      if key.None? || key.value !in devices {
        return Unauthorized;
      }
      AuthenticateConnection(c, key.value);
      var required := Required(verb);
      if verb == Unknown {
        return UnknownMethod;
      }
      if required.Some? && required.value !in Effective(View(), devices[key.value]) {
        return NotAllowed;
      }
      inflight := inflight[request := Request(c, verb)];
      return Admitted;
    }
  }
}
