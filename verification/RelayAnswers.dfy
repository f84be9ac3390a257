/**
 * Correlated requests of the relay: every request id is sent once, and a waiter is answered at
 * most once, by the channel its request was sent on (crates/sessiontap-hub/src/relay.rs:111-188, 280-405, 493-519).
 */
module RelayAnswers {
  import opened Common
  import opened RelayStream
  import opened Relay
  import opened RelayProtocol

  predicate Correlated(r: Request) {
    r.Open? || r.Input?
  }

  /** The request ids sent on a channel. */
  function Reqs(wire: seq<Request>): set<nat> {
    if wire == [] then {}
    else
      var n := |wire| - 1;
      Reqs(wire[..n]) + (if Correlated(wire[n]) then {wire[n].req} else {})
  }

  /** No request id twice on one channel. */
  predicate Once(wire: seq<Request>) {
    wire != [] ==>
      var n := |wire| - 1;
      Once(wire[..n]) && (Correlated(wire[n]) ==> wire[n].req !in Reqs(wire[..n]))
  }

  predicate SentOnce(wire: map<nat, seq<Request>>, nextId: nat) {
    && (forall c :: c in wire ==> c <= nextId && Once(wire[c]))
    && (forall c, r :: c in wire && r in Reqs(wire[c]) ==> r <= nextId)
    && (forall c, d :: c in wire && d in wire && c != d ==> Reqs(wire[c]) !! Reqs(wire[d]))
  }

  predicate AnsweredOnce(answers: seq<Answered>, wire: map<nat, seq<Request>>) {
    && (forall i :: 0 <= i < |answers| ==> answers[i].channel in wire && answers[i].req in Reqs(wire[answers[i].channel]))
    && (forall i, j :: 0 <= i < j < |answers| ==> answers[i].req != answers[j].req)
  }

  /** A waiter's request was sent on its channel and is not answered yet. */
  predicate Waiters(channels: map<string, Channel>, answers: seq<Answered>, wire: map<nat, seq<Request>>) {
    && (forall s :: s in channels ==> channels[s].id in wire && channels[s].pending <= Reqs(wire[channels[s].id]))
    && (forall s, s' :: s in channels && s' in channels && s != s' ==> channels[s].id != channels[s'].id)
    && (forall s, i :: s in channels && 0 <= i < |answers| ==> answers[i].req !in channels[s].pending)
  }

  predicate Correlates(st: State) {
    && SentOnce(st.wire, st.nextId)
    && AnsweredOnce(st.answers, st.wire)
    && Waiters(st.channels, st.answers, st.wire)
  }

  lemma ReqsAppends(wire: seq<Request>, r: Request)
    ensures Reqs(wire + [r]) == Reqs(wire) + (if Correlated(r) then {r.req} else {})
    ensures Once(wire) && (Correlated(r) ==> r.req !in Reqs(wire)) ==> Once(wire + [r])
  {
    assert (wire + [r])[..|wire|] == wire;
  }

  /** Uncorrelated traffic, lost waiters and lost channels keep the correlation. */
  lemma PlainSendKeeps(st: State, p: State, c: nat, r: Request)
    requires Correlates(st) && !Correlated(r) && p.nextId == st.nextId && p.answers == st.answers
    requires p.channels == st.channels
    requires p.wire == st.wire || (c in st.wire && p.wire == st.wire[c := st.wire[c] + [r]])
    ensures Correlates(p)
  {
    if p.wire != st.wire {
      ReqsAppends(st.wire[c], r);
      assert Reqs(p.wire[c]) == Reqs(st.wire[c]);
      assert forall d :: d in p.wire ==> d in st.wire && Reqs(p.wire[d]) == Reqs(st.wire[d]);
    }
  }

  lemma FewerWaitersKeep(st: State, p: State)
    requires Correlates(st) && p.wire == st.wire && p.answers == st.answers && p.nextId >= st.nextId
    requires forall s :: s in p.channels ==> s in st.channels && p.channels[s].id == st.channels[s].id
                                             && p.channels[s].pending <= st.channels[s].pending
    ensures Correlates(p)
  {
  }

  lemma PushCorrelates(st: State, id: nat, frame: Frame)
    requires Correlates(st)
    ensures Correlates(Push(st, id, frame))
  {
    if id in st.streams {
      PushEffects(st, id, frame);
      PlainSendKeeps(st, Push(st, id, frame), st.streams[id].channel, Resync(id));
    }
  }

  lemma RemoveCorrelates(st: State, id: nat)
    requires Correlates(st)
    ensures Correlates(Remove(st, id))
  {
    if id in st.streams {
      RemoveEffects(st, id);
      PlainSendKeeps(st, Remove(st, id), st.streams[id].channel, Close(id));
    }
  }

  lemma {:induction false} PushAllCorrelates(st: State, id: nat, frames: seq<Frame>)
    requires Correlates(st)
    ensures Correlates(PushAll(st, id, frames))
    decreases |frames|
  {
    if frames != [] {
      PushCorrelates(st, id, frames[0]);
      PushAllCorrelates(Push(st, id, frames[0]), id, frames[1..]);
    }
  }

  lemma {:induction false} EndAllCorrelates(st: State, ids: seq<nat>, reason: EndReason)
    requires Correlates(st)
    ensures Correlates(EndAll(st, ids, reason))
    decreases |ids|
  {
    if ids != [] {
      PushCorrelates(st, ids[0], Ended(reason));
      EndAllCorrelates(Push(st, ids[0], Ended(reason)), ids[1..], reason);
    }
  }

  lemma {:induction false} RemoveAllCorrelates(st: State, ids: seq<nat>)
    requires Correlates(st)
    ensures Correlates(RemoveAll(st, ids))
    decreases |ids|
  {
    if ids != [] {
      RemoveCorrelates(st, ids[0]);
      RemoveAllCorrelates(Remove(st, ids[0]), ids[1..]);
    }
  }

  /** The wire after a request with a fresh id. */
  lemma FreshSentOnce(st: State, c: nat, r: Request, nextId: nat)
    requires SentOnce(st.wire, st.nextId) && c in st.wire && Correlated(r) && st.nextId < r.req <= nextId
    ensures SentOnce(st.wire[c := st.wire[c] + [r]], nextId)
    ensures Reqs(st.wire[c] + [r]) == Reqs(st.wire[c]) + {r.req}
  {
    var w := st.wire[c := st.wire[c] + [r]];
    ReqsAppends(st.wire[c], r);
    forall d, e | d in w && e in w && d != e ensures Reqs(w[d]) !! Reqs(w[e]) {
      assert Reqs(st.wire[d]) !! Reqs(st.wire[e]);
      assert r.req !in Reqs(st.wire[d]) && r.req !in Reqs(st.wire[e]);
    }
  }

  /** A fresh correlated request goes out on its source's channel and starts to wait. */
  lemma FreshRequestKeeps(st: State, p: State, source: string, r: Request)
    requires Correlates(st) && source in st.channels && Correlated(r) && st.nextId < r.req <= p.nextId
    requires p.answers == st.answers
    requires var c := st.channels[source];
             && c.id in st.wire && p.wire == st.wire[c.id := st.wire[c.id] + [r]]
             && p.channels == st.channels[source := Channel(c.id, c.pending + {r.req})]
    ensures Correlates(p)
  {
    hide Reqs, Once, SentOnce, AnsweredOnce, Waiters, Correlated;
    var c := st.channels[source].id;
    FreshSentOnce(st, c, r, p.nextId);
    assert forall d :: d in st.wire ==> d in p.wire && Reqs(st.wire[d]) <= Reqs(p.wire[d]);
    AnswersStay(st, p);
    FreshWaiters(st, p, source, r);
  }

  lemma AnswersStay(st: State, p: State)
    requires AnsweredOnce(st.answers, st.wire) && p.answers == st.answers
    requires forall d :: d in st.wire ==> d in p.wire && Reqs(st.wire[d]) <= Reqs(p.wire[d])
    ensures AnsweredOnce(p.answers, p.wire)
  {
    hide Reqs;
  }

  lemma FreshWaiters(st: State, p: State, source: string, r: Request)
    requires Correlates(st) && source in st.channels && Correlated(r) && st.nextId < r.req && p.answers == st.answers
    requires p.channels == st.channels[source := Channel(st.channels[source].id, st.channels[source].pending + {r.req})]
    requires forall d :: d in st.wire ==> d in p.wire && Reqs(st.wire[d]) <= Reqs(p.wire[d])
    requires st.channels[source].id in p.wire && r.req in Reqs(p.wire[st.channels[source].id])
    ensures Waiters(p.channels, p.answers, p.wire)
  {
    forall s, i | s in p.channels && 0 <= i < |p.answers| ensures p.answers[i].req !in p.channels[s].pending {
      assert st.answers[i].req in Reqs(st.wire[st.answers[i].channel]);
    }
  }

  lemma InputCorrelates(st: State, owner: nat, id: nat, keys: string)
    requires Correlates(st)
    ensures Correlates(SendInput(st, owner, id, keys))
  {
    SendInputEffects(st, owner, id, keys);
    var p := SendInput(st, owner, id, keys);
    if InputOutcomeOf(st, owner, id).Forwarded? {
      FreshRequestKeeps(st, p, st.streams[id].source, Input(st.nextId + 1, id, keys));
    } else {
      FewerWaitersKeep(st, p);
    }
  }

  lemma OpenCorrelates(st: State, owner: nat, source: string, invocation: string)
    requires Correlates(st) && Numbered(st)
    ensures Correlates(OpenStream(st, owner, source, invocation))
  {
    var p := OpenStream(st, owner, source, invocation);
    if source in st.channels {
      OpenWire(st, owner, source, invocation);
      FreshRequestKeeps(st, p, source, Open(st.nextId + 2, st.nextId + 1, invocation));
    } else {
      FewerWaitersKeep(st, p);
    }
  }

  /** An answer moves its request from the waiters to the answered. */
  lemma AnswerCorrelates(st: State, source: string, channel: nat, req: nat)
    requires Correlates(st)
    ensures Correlates(DeliverAnswer(st, source, channel, req))
  {
    if Current(st, source, channel) && req in st.channels[source].pending {
      var p := DeliverAnswer(st, source, channel, req);
      var a := Answered(req, channel);
      assert p.answers == st.answers + [a] && p.wire == st.wire && p.nextId == st.nextId;
      forall i | 0 <= i < |st.answers| ensures st.answers[i].req != req {
        assert st.answers[i].req !in st.channels[source].pending;
      }
      assert AnsweredOnce(p.answers, p.wire);
      forall s, i | s in p.channels && 0 <= i < |p.answers| ensures p.answers[i].req !in p.channels[s].pending {
        if i == |st.answers| && s != source {
          assert Reqs(st.wire[st.channels[s].id]) !! Reqs(st.wire[channel]);
        } else if i < |st.answers| {
          assert st.answers[i].req !in st.channels[s].pending;
        }
      }
    }
  }

  lemma BindCorrelates(st: State, source: string)
    requires Correlates(st)
    ensures var id := st.nextId + 1;
            Correlates(st.(nextId := id, channels := st.channels[source := Channel(id, {})], wire := st.wire[id := []]))
  {
    var id := st.nextId + 1;
    var w := st.wire[id := []];
    assert id !in st.wire;
    assert SentOnce(w, id);
  }

  lemma ChannelStepCorrelates(st: State, step: Step)
    requires Correlates(st) && (step.AttachStep? || step.DetachStep?)
    ensures Correlates(After(st, step))
  {
    hide Correlates, EndAll;
    match step
    case AttachStep(source, order) =>
      var id := st.nextId + 1;
      BindCorrelates(st, source);
      EndAllCorrelates(st.(nextId := id, channels := st.channels[source := Channel(id, {})], wire := st.wire[id := []]),
                       order, SourceUnavailable);
    case DetachStep(source, id, order) =>
      var dropped := if Current(st, source, id) then st.(channels := st.channels - {source}) else st;
      FewerWaitersKeep(st, dropped);
      EndAllCorrelates(dropped, order, SourceUnavailable);
  }

  lemma StreamStepCorrelates(st: State, step: Step)
    requires Correlates(st) && (step.ActivateStep? || step.CloseStep?)
    ensures Correlates(After(st, step))
  {
    match step
    case ActivateStep(id) =>
      if id in st.streams && st.streams[id].opening.Some? {
        var t := st.streams[id];
        var taken := st.(streams := st.streams[id := t.(opening := None)]);
        FewerWaitersKeep(st, taken);
        PushAllCorrelates(taken, id, t.opening.value);
      }
    case CloseStep(owner, id) =>
      if id in st.streams && st.streams[id].owner == owner {
        var t := st.streams[id].(opening := None, lagging := false);
        var emptied := Note(st.(streams := st.streams[id := t]), id, Dropped(Buffered(st.streams[id])));
        FewerWaitersKeep(st, emptied);
        PushCorrelates(emptied, id, Ended(ClosedByDevice));
        RemoveCorrelates(Push(emptied, id, Ended(ClosedByDevice)), id);
      }
  }

  lemma TimeoutCorrelates(st: State, source: string, channel: nat, req: nat)
    requires Correlates(st)
    ensures Correlates(DropPending(st, source, channel, req))
  {
    hide Correlates;
    FewerWaitersKeep(st, DropPending(st, source, channel, req));
  }

  lemma QueueStepCorrelates(st: State, step: Step)
    requires Correlates(st)
    requires step.ConnectStep? || step.DrainStep? || step.FillStep? || step.DisconnectStep?
    ensures Correlates(After(st, step))
  {
    hide Correlates;
    FewerWaitersKeep(st, After(st, step));
  }

  lemma StepCorrelates(st: State, step: Step)
    requires Correlates(st) && Numbered(st)
    ensures Correlates(After(st, step))
  {
    match step
    case AttachStep(_, _) => ChannelStepCorrelates(st, step);
    case DetachStep(_, _, _) => ChannelStepCorrelates(st, step);
    case OpenStep(owner, source, invocation) => OpenCorrelates(st, owner, source, invocation);
    case InputStep(owner, id, keys) => InputCorrelates(st, owner, id, keys);
    case ActivateStep(_) => StreamStepCorrelates(st, step);
    case AbandonStep(id) => RemoveCorrelates(st, id);
    case CloseStep(_, _) => StreamStepCorrelates(st, step);
    case ReleaseStep(_, order) => RemoveAllCorrelates(st, order);
    case FrameStep(_, id, frame) => PushCorrelates(st, id, frame);
    case AnswerStep(source, channel, req) => AnswerCorrelates(st, source, channel, req);
    case TimeoutStep(source, channel, req) => TimeoutCorrelates(st, source, channel, req);
    case _ => QueueStepCorrelates(st, step);
  }

  /** In every run the three correlation facts hold. */
  lemma {:induction false} RunCorrelates(steps: seq<Step>)
    ensures Correlates(Run(steps))
  {
    if steps != [] {
      var n := |steps| - 1;
      RunCorrelates(steps[..n]);
      RunIsOrderly(steps[..n]);
      StepCorrelates(Run(steps[..n]), steps[n]);
    }
  }

  lemma {:induction false} ReqAt(wire: seq<Request>, i: nat)
    requires i < |wire| && Correlated(wire[i])
    ensures wire[i].req in Reqs(wire)
  {
    if i < |wire| - 1 {
      ReqAt(wire[..|wire| - 1], i);
    }
  }

  lemma {:induction false} OnceIsDistinct(wire: seq<Request>, i: nat, j: nat)
    requires Once(wire) && i < j < |wire| && Correlated(wire[i]) && Correlated(wire[j])
    ensures wire[i].req != wire[j].req
  {
    var n := |wire| - 1;
    if j == n {
      ReqAt(wire[..n], i);
    } else {
      OnceIsDistinct(wire[..n], i, j);
    }
  }

  /**
   * Over every run: a request id is sent at most once on all channels together; a request is
   * answered at most once; and only by a channel that carried it.
   */
  lemma RequestsAreAnsweredOnce(steps: seq<Step>)
    ensures var st := Run(steps);
            && (forall c, i, d, j | c in st.wire && d in st.wire && 0 <= i < |st.wire[c]| && 0 <= j < |st.wire[d]| ::
                  SameId(st.wire[c][i], st.wire[d][j]) ==> c == d && i == j)
            && (forall a :: a in st.answers ==> a.channel in st.wire && a.req in Reqs(st.wire[a.channel]))
            && (forall i, j :: 0 <= i < j < |st.answers| ==> st.answers[i].req != st.answers[j].req)
  {
    RunCorrelates(steps);
    var st := Run(steps);
    forall c, i, d, j | c in st.wire && d in st.wire && 0 <= i < |st.wire[c]| && 0 <= j < |st.wire[d]|
                        && SameId(st.wire[c][i], st.wire[d][j])
      ensures c == d && i == j
    {
      ReqAt(st.wire[c], i);
      ReqAt(st.wire[d], j);
      if c == d && i < j { OnceIsDistinct(st.wire[c], i, j); }
      if c == d && j < i { OnceIsDistinct(st.wire[c], j, i); }
    }
  }

  predicate SameId(a: Request, b: Request) {
    Correlated(a) && Correlated(b) && a.req == b.req
  }
}
