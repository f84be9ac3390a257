/**
 * A stream that fell behind has asked its source for a fresh snapshot since
 * (crates/sessiontap-hub/src/relay.rs:143-188).
 */
module RelayResync {
  import opened Common
  import opened RelayStream
  import opened Relay
  import opened RelayProtocol
  import RelayOrder

  /** How many resync requests about a stream were sent. */
  function Resyncs(wire: seq<Request>, id: nat): nat {
    if wire == [] then 0
    else Resyncs(wire[..|wire| - 1], id) + if wire[|wire| - 1] == Resync(id) then 1 else 0
  }

  function Asked(st: State, channel: nat, id: nat): nat {
    Resyncs(WireOf(st, channel), id)
  }

  predicate Lagging(st: State, id: nat) {
    id in st.streams && st.streams[id].lagging
  }

  /** The stream's channel is still its source's channel. */
  predicate Connected(st: State, id: nat) {
    id in st.streams && Current(st, st.streams[id].source, st.streams[id].channel)
  }

  lemma ResyncsSnoc(wire: seq<Request>, r: Request, id: nat)
    ensures Resyncs(wire + [r], id) == Resyncs(wire, id) + if r == Resync(id) then 1 else 0
  {
    assert (wire + [r])[..|wire|] == wire;
  }

  /**
   * Requests only accumulate; a stream that is there was there, on the same channel; and it lags
   * only if it did before or a resync was sent.
   */
  ghost predicate Flows(st: State, p: State, id: nat) {
    && (forall c :: Asked(st, c, id) <= Asked(p, c, id))
    && (id in p.streams ==>
          && id in st.streams && p.streams[id].channel == st.streams[id].channel
          && (Connected(p, id) ==> Connected(st, id))
          && (Lagging(p, id) && Connected(p, id) ==>
                Lagging(st, id) || Asked(st, p.streams[id].channel, id) < Asked(p, p.streams[id].channel, id)))
  }

  lemma FlowsOn(st: State, m: State, p: State, id: nat)
    requires Flows(st, m, id) && Flows(m, p, id)
    ensures Flows(st, p, id)
  {
    hide Asked, Connected, Lagging;
    forall c ensures Asked(st, c, id) <= Asked(p, c, id) {
      assert Asked(st, c, id) <= Asked(m, c, id) && Asked(m, c, id) <= Asked(p, c, id);
    }
  }

  /** Sending one request, or none, on one channel. */
  lemma SentFlows(st: State, p: State, channel: nat, r: Request, id: nat)
    requires p.wire == st.wire || p.wire == st.wire[channel := WireOf(st, channel) + [r]]
    ensures forall c :: Asked(st, c, id) <= Asked(p, c, id)
  {
    ResyncsSnoc(WireOf(st, channel), r, id);
    hide Resyncs;
    forall c ensures Asked(st, c, id) <= Asked(p, c, id) {
      assert c != channel ==> WireOf(p, c) == WireOf(st, c);
    }
  }

  // ---- Operations ----

  lemma PushedLags(id: nat, t: Stream, q: Queue, frame: Frame)
    ensures var r := PushFrame(id, t, q, frame);
            && r.stream.channel == t.channel && r.stream.source == t.source
            && (r.stream.lagging ==> t.lagging || r.resync)
  {
    hide Dropped, DeviceMessages, Enqueued, SendAll, Overflows;
  }

  lemma PushAsks(st: State, id: nat, frame: Frame)
    requires id in st.streams
    ensures var p, t := Push(st, id, frame), st.streams[id];
            var r := PushFrame(id, t, QueueOf(st, t.owner), frame);
            && p.channels == st.channels
            && p.wire == if r.resync && Current(st, t.source, t.channel)
                         then st.wire[t.channel := WireOf(st, t.channel) + [Resync(id)]]
                         else st.wire
  {
    hide PushFrame, QueueOf;
  }

  lemma PushFlows(st: State, id: nat, frame: Frame, k: nat)
    ensures Flows(st, Push(st, id, frame), k)
  {
    var p := Push(st, id, frame);
    if id in st.streams {
      var t := st.streams[id];
      PushedLags(id, t, QueueOf(st, t.owner), frame);
      PushAsks(st, id, frame);
      RelayOrder.PushShape(st, id, frame);
      SentFlows(st, p, t.channel, Resync(id), k);
      ResyncsSnoc(WireOf(st, t.channel), Resync(id), k);
      hide Push, PushFrame, QueueOf, Resyncs, RecordOf;
    }
  }

  lemma {:induction false} PushAllFlows(st: State, id: nat, frames: seq<Frame>, k: nat)
    ensures Flows(st, PushAll(st, id, frames), k)
    decreases |frames|
  {
    if frames != [] {
      hide Flows, Push;
      PushFlows(st, id, frames[0], k);
      PushAllFlows(Push(st, id, frames[0]), id, frames[1..], k);
      FlowsOn(st, Push(st, id, frames[0]), PushAll(st, id, frames), k);
    }
  }

  lemma {:induction false} EndAllFlows(st: State, ids: seq<nat>, reason: EndReason, k: nat)
    ensures Flows(st, EndAll(st, ids, reason), k)
    decreases |ids|
  {
    if ids != [] {
      hide Flows, Push;
      PushFlows(st, ids[0], Ended(reason), k);
      EndAllFlows(Push(st, ids[0], Ended(reason)), ids[1..], reason, k);
      FlowsOn(st, Push(st, ids[0], Ended(reason)), EndAll(st, ids, reason), k);
    }
  }

  lemma RemoveFlows(st: State, id: nat, k: nat)
    ensures Flows(st, Remove(st, id), k)
  {
    if id in st.streams {
      RemoveEffects(st, id);
      SentFlows(st, Remove(st, id), st.streams[id].channel, Close(id), k);
      hide Remove, Resyncs;
    }
  }

  lemma {:induction false} RemoveAllFlows(st: State, ids: seq<nat>, k: nat)
    ensures Flows(st, RemoveAll(st, ids), k)
    decreases |ids|
  {
    if ids != [] {
      hide Flows, Remove;
      RemoveFlows(st, ids[0], k);
      RemoveAllFlows(Remove(st, ids[0]), ids[1..], k);
      FlowsOn(st, Remove(st, ids[0]), RemoveAll(st, ids), k);
    }
  }

  /** Nothing is sent, no channel appears, and no stream begins to lag. */
  lemma QuietFlows(st: State, p: State, k: nat)
    requires p.wire == st.wire
    requires forall s :: s in p.channels ==> s in st.channels && p.channels[s].id == st.channels[s].id
    requires k in p.streams ==>
               && k in st.streams && p.streams[k].channel == st.streams[k].channel
               && p.streams[k].source == st.streams[k].source && (p.streams[k].lagging ==> st.streams[k].lagging)
    ensures Flows(st, p, k)
  {
    hide Resyncs;
  }

  lemma ActivateFlows(st: State, id: nat, k: nat)
    ensures Flows(st, Activate(st, id), k)
  {
    hide Flows, PushAll;
    if id in st.streams && st.streams[id].opening.Some? {
      var t := st.streams[id];
      var taken := st.(streams := st.streams[id := t.(opening := None)]);
      QuietFlows(st, taken, k);
      PushAllFlows(taken, id, t.opening.value, k);
      FlowsOn(st, taken, Activate(st, id), k);
    } else {
      QuietFlows(st, st, k);
    }
  }

  lemma CloseFlows(st: State, owner: nat, id: nat, k: nat)
    ensures Flows(st, CloseStream(st, owner, id), k)
  {
    hide Flows, Push, Remove, Dropped;
    if id in st.streams && st.streams[id].owner == owner {
      var t := st.streams[id].(opening := None, lagging := false);
      var emptied := Note(st.(streams := st.streams[id := t]), id, Dropped(Buffered(st.streams[id])));
      var ended := Push(emptied, id, Ended(ClosedByDevice));
      QuietFlows(st, emptied, k);
      PushFlows(emptied, id, Ended(ClosedByDevice), k);
      RemoveFlows(ended, id, k);
      FlowsOn(st, emptied, ended, k);
      FlowsOn(st, ended, Remove(ended, id), k);
    } else {
      QuietFlows(st, st, k);
    }
  }

  lemma BindFlows(st: State, source: string, k: nat)
    requires Orderly(st)
    ensures Flows(st, Bound(st, source), k)
  {
    var p, id := Bound(st, source), st.nextId + 1;
    assert k in st.streams ==> k in st.history && st.streams[k].channel == st.history[k].channel;
    assert k in st.history ==> WordInv(k, st.history[k].channel, k in st.streams, st.wire);
    assert k in st.streams ==> st.streams[k].channel != id;
    assert id !in st.wire;
    hide Numbered, WordsOk, WordInv, Resyncs;
    forall c ensures Asked(st, c, k) <= Asked(p, c, k) {
      assert WireOf(p, c) == WireOf(st, c);
    }
  }

  lemma AttachFlows(st: State, source: string, order: seq<nat>, k: nat)
    requires Orderly(st)
    ensures Flows(st, Attach(st, source, order), k)
  {
    hide Flows, Orderly, EndAll;
    var bound := Bound(st, source);
    BindFlows(st, source, k);
    EndAllFlows(bound, order, SourceUnavailable, k);
    FlowsOn(st, bound, EndAll(bound, order, SourceUnavailable), k);
  }

  lemma DetachFlows(st: State, source: string, id: nat, order: seq<nat>, k: nat)
    ensures Flows(st, Detach(st, source, id, order), k)
  {
    hide Flows, EndAll;
    var dropped := if Current(st, source, id) then st.(channels := st.channels - {source}) else st;
    QuietFlows(st, dropped, k);
    EndAllFlows(dropped, order, SourceUnavailable, k);
    FlowsOn(st, dropped, EndAll(dropped, order, SourceUnavailable), k);
  }

  lemma InputFlows(st: State, owner: nat, id: nat, keys: string, k: nat)
    ensures Flows(st, SendInput(st, owner, id, keys), k)
  {
    SendInputEffects(st, owner, id, keys);
    var p := SendInput(st, owner, id, keys);
    if InputOutcomeOf(st, owner, id).Forwarded? {
      SentFlows(st, p, st.streams[id].channel, Input(st.nextId + 1, id, keys), k);
    } else {
      SentFlows(st, p, 0, Close(0), k);
    }
    hide SendInput, Resyncs;
  }

  lemma KnownId(st: State, k: nat)
    requires Numbered(st) && k in st.streams
    ensures k <= st.nextId
  {
  }

  lemma OpenedFlows(st: State, p: State, k: nat, c: nat, r: Request)
    requires p.wire == st.wire[c := WireOf(st, c) + [r]]
    requires k in st.streams && k in p.streams && p.streams[k] == st.streams[k]
    requires forall s :: s in p.channels ==> s in st.channels && p.channels[s].id == st.channels[s].id
    ensures Flows(st, p, k)
  {
    SentFlows(st, p, c, r, k);
    hide Resyncs, WireOf;
  }

  lemma OpenFlows(st: State, owner: nat, source: string, invocation: string, k: nat)
    requires Numbered(st) && source in st.channels && k in st.streams
    ensures Flows(st, OpenStream(st, owner, source, invocation), k)
  {
    KnownId(st, k);
    OpenWire(st, owner, source, invocation);
    hide OpenStream, Numbered, Flows;
    OpenedFlows(st, OpenStream(st, owner, source, invocation), k, st.channels[source].id,
                Open(st.nextId + 2, st.nextId + 1, invocation));
  }

  /** A new stream does not lag; the others are as they were. */
  lemma OpenLags(st: State, owner: nat, source: string, invocation: string, k: nat)
    requires Orderly(st)
    ensures var p := OpenStream(st, owner, source, invocation);
            if k in st.streams then Flows(st, p, k) else !Lagging(p, k)
  {
    var p := OpenStream(st, owner, source, invocation);
    hide Numbered, WordsOk, Flows;
    if source !in st.channels {
      QuietFlows(st, p, k);
    } else {
      OpenWire(st, owner, source, invocation);
      hide OpenStream;
      if k in st.streams {
        OpenFlows(st, owner, source, invocation, k);
      }
    }
  }

  lemma QuietStepFlows(st: State, step: Step, k: nat)
    requires step.TimeoutStep? || step.AnswerStep?
             || step.ConnectStep? || step.DrainStep? || step.FillStep? || step.DisconnectStep?
    ensures Flows(st, After(st, step), k)
  {
    QuietStepEffects(st, step);
    hide After, Flows;
    QuietFlows(st, After(st, step), k);
  }

  lemma StepFlows(st: State, step: Step, k: nat)
    requires Orderly(st) && !step.OpenStep?
    ensures Flows(st, After(st, step), k)
  {
    hide Flows, Orderly, Attach, Detach, SendInput, Activate, CloseStream, Remove, RemoveAll, Push;
    match step
    case AttachStep(source, order) =>
      AttachFlows(st, source, order, k);
    case DetachStep(source, id, order) => DetachFlows(st, source, id, order, k);
    case InputStep(owner, id, keys) => InputFlows(st, owner, id, keys, k);
    case ActivateStep(id) => ActivateFlows(st, id, k);
    case AbandonStep(id) => RemoveFlows(st, id, k);
    case CloseStep(owner, id) => CloseFlows(st, owner, id, k);
    case ReleaseStep(_, order) => RemoveAllFlows(st, order, k);
    case FrameStep(_, id, frame) => PushFlows(st, id, frame, k); QuietFlows(st, st, k);
    case _ => QuietStepFlows(st, step, k);
  }

  // ---- Runs ----

  /** Step `n` sent a resync request about the stream on this channel. */
  ghost predicate AsksAt(steps: seq<Step>, n: nat, channel: nat, id: nat)
    requires n < |steps|
  {
    Asked(Run(steps[..n]), channel, id) < Asked(Run(steps[..n + 1]), channel, id)
  }

  /** A resync was sent at step `n`, and the stream has lagged at every state since. */
  ghost predicate AskedSince(steps: seq<Step>, n: nat, channel: nat, id: nat)
    requires n < |steps|
  {
    AsksAt(steps, n, channel, id) && forall m :: n < m <= |steps| ==> Lagging(Run(steps[..m]), id)
  }

  /** One step: it sent a resync, or the stream lagged and was connected, on the same channel, before. */
  lemma StepLags(st: State, step: Step, id: nat)
    requires Orderly(st) && Lagging(After(st, step), id) && Connected(After(st, step), id)
    ensures var c := After(st, step).streams[id].channel;
            || Asked(st, c, id) < Asked(After(st, step), c, id)
            || (Lagging(st, id) && Connected(st, id) && st.streams[id].channel == c)
  {
    if step.OpenStep? {
      if step.owner in st.queues {
        OpenLags(st, step.owner, step.source, step.invocation, id);
      }
    } else {
      StepFlows(st, step, id);
    }
    hide After, Orderly, Asked, Connected, OpenStream;
  }

  lemma LongerRun(steps: seq<Step>, n: nat, channel: nat, id: nat)
    requires n < |steps| - 1 && AskedSince(steps[..|steps| - 1], n, channel, id) && Lagging(Run(steps), id)
    ensures AskedSince(steps, n, channel, id)
  {
    hide Run, Lagging, Asked;
    var most := steps[..|steps| - 1];
    assert most[..n] == steps[..n] && most[..n + 1] == steps[..n + 1];
    forall m | n < m <= |steps| ensures Lagging(Run(steps[..m]), id) {
      if m < |steps| {
        assert most[..m] == steps[..m];
      } else {
        assert steps[..m] == steps;
      }
    }
  }

  /**
   * In every reachable state, a stream that lags on its source's current channel has had a resync
   * request sent on that channel by some step, and has lagged at every state since that step.
   */
  lemma {:induction false} LaggingHasAsked(steps: seq<Step>, id: nat)
    requires Lagging(Run(steps), id) && Connected(Run(steps), id)
    ensures exists n :: 0 <= n < |steps| && AskedSince(steps, n, Run(steps).streams[id].channel, id)
    decreases |steps|
  {
    assert steps != [];
    var n := |steps| - 1;
    var before, c := Run(steps[..n]), Run(steps).streams[id].channel;
    assert Run(steps) == After(before, steps[n]);
    RunIsOrderly(steps[..n]);
    StepLags(before, steps[n], id);
    hide After, Orderly, Asked, Lagging, Connected;
    if Asked(before, c, id) < Asked(Run(steps), c, id) {
      assert steps[..n + 1] == steps;
      assert AskedSince(steps, n, c, id) by {
        forall m | n < m <= |steps| ensures Lagging(Run(steps[..m]), id) {
          assert steps[..m] == steps;
        }
      }
    } else {
      LaggingHasAsked(steps[..n], id);
      var k :| 0 <= k < n && AskedSince(steps[..n], k, c, id);
      LongerRun(steps, k, c, id);
    }
  }
}
