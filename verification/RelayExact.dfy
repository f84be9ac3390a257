/**
 * The relay's operations spelled out: what each sends to the sources, and when
 * (crates/sessiontap-hub/src/relay.rs:111-188, 241-519).
 */
module RelayExact {
  import opened Common
  import opened RelayStream
  import opened Relay
  import opened RelayProtocol
  import RelayRelease
  import RelayOrder

  /** The stream is there and its channel is still its source's channel. */
  predicate Linked(st: State, id: nat) {
    && id in st.streams && st.streams[id].source in st.channels
    && st.channels[st.streams[id].source].id == st.streams[id].channel
  }

  /** One more request on a channel. */
  function Said(st: State, channel: nat, r: Request): map<nat, seq<Request>> {
    st.wire[channel := (if channel in st.wire then st.wire[channel] else []) + [r]]
  }

  // ---- Removing ----

  /** A stream that is removed is gone, and its source is told exactly when it is still linked. */
  lemma RemoveIs(st: State, id: nat)
    ensures var p := Remove(st, id);
            && p.streams == st.streams - {id} && p.channels == st.channels && p.queues == st.queues
            && p.nextId == st.nextId && p.answers == st.answers
            && p.wire == if Linked(st, id) then Said(st, st.streams[id].channel, Close(id)) else st.wire
  {
    hide Dropped;
    if id !in st.streams {
      assert st.streams - {id} == st.streams;
    }
  }

  lemma RemoveCloses(st: State, id: nat)
    requires Orderly(st) && Linked(st, id)
    ensures var c, p := st.streams[id].channel, Remove(st, id);
            c in p.wire && ClosedWord(About(p.wire[c], id))
  {
    var c := st.streams[id].channel;
    RemoveIs(st, id);
    assert id in st.history && st.history[id].channel == c;
    assert WordInv(id, c, true, st.wire);
    AboutAppends(st.wire[c], Close(id), id);
    WordGrows(About(st.wire[c], id), Close(id));
    hide Remove, OpenWord, ClosedWord, About, Orderly;
  }

  lemma SameLinks(st: State, p: State, k: nat)
    requires p.channels == st.channels && (k in p.streams <==> k in st.streams)
    requires k in st.streams ==> p.streams[k] == st.streams[k]
    ensures Linked(p, k) <==> Linked(st, k)
  {
  }

  /** The close requests that removing `ids` in order sends on a channel. */
  function ClosesOn(st: State, ids: seq<nat>, channel: nat): seq<Request> {
    if ids == [] then []
    else
      (if Linked(st, ids[0]) && st.streams[ids[0]].channel == channel then [Close(ids[0])] else [])
      + ClosesOn(st, ids[1..], channel)
  }

  lemma {:induction false} ClosesAfter(st: State, p: State, ids: seq<nat>, channel: nat)
    requires p.channels == st.channels
    requires forall i :: 0 <= i < |ids| ==> (ids[i] in p.streams <==> ids[i] in st.streams)
                                            && (ids[i] in st.streams ==> p.streams[ids[i]] == st.streams[ids[i]])
    ensures ClosesOn(p, ids, channel) == ClosesOn(st, ids, channel)
    decreases |ids|
  {
    if ids != [] {
      SameLinks(st, p, ids[0]);
      ClosesAfter(st, p, ids[1..], channel);
    }
  }

  predicate Distinct(ids: seq<nat>) {
    forall i, j :: 0 <= i < j < |ids| ==> ids[i] != ids[j]
  }

  /**
   * Releasing an owner appends, on every channel, exactly one close for each of its streams linked
   * to that channel, and nothing else.
   */
  lemma {:induction false} ReleaseCloses(st: State, ids: seq<nat>, channel: nat)
    requires Distinct(ids)
    ensures WireOf(RemoveAll(st, ids), channel) == WireOf(st, channel) + ClosesOn(st, ids, channel)
    ensures RemoveAll(st, ids).channels == st.channels
    decreases |ids|
  {
    if ids == [] {
      NothingAdded(WireOf(st, channel));
    } else {
      var mid := Remove(st, ids[0]);
      RemoveIs(st, ids[0]);
      hide Remove;
      ReleaseCloses(mid, ids[1..], channel);
      ClosesAfter(st, mid, ids[1..], channel);
      hide Linked, RemoveAll;
      var first := if Linked(st, ids[0]) && st.streams[ids[0]].channel == channel then [Close(ids[0])] else [];
      assert WireOf(mid, channel) == WireOf(st, channel) + first;
      Reassociate(WireOf(st, channel), first, ClosesOn(st, ids[1..], channel));
    }
  }

  /** What was said of a stream that is gone stays as it is while other streams are removed. */
  lemma {:induction false} GoneStays(st: State, ids: seq<nat>, id: nat, c: nat)
    requires id !in st.streams
    ensures About(WireOf(RemoveAll(st, ids), c), id) == About(WireOf(st, c), id)
    decreases |ids|
  {
    if ids != [] {
      RemoveIs(st, ids[0]);
      AboutAppends(WireOf(st, c), Close(ids[0]), id);
      hide Remove, About, Linked;
      GoneStays(Remove(st, ids[0]), ids[1..], id, c);
    }
  }

  lemma FirstCloses(st: State, ids: seq<nat>, id: nat)
    requires Orderly(st) && Linked(st, id) && ids != [] && ids[0] == id
    ensures ClosedWord(About(WireOf(RemoveAll(st, ids), st.streams[id].channel), id))
  {
    hide Remove, RemoveAll, Orderly, About, ClosedWord;
    var c, mid := st.streams[id].channel, Remove(st, id);
    RemoveCloses(st, id);
    RemoveIs(st, id);
    RemoveAllUnfolds(st, ids);
    GoneStays(mid, ids[1..], id, c);
  }

  lemma {:induction false} ReleasedCloses(st: State, ids: seq<nat>, id: nat)
    requires Orderly(st) && Linked(st, id) && id !in RemoveAll(st, ids).streams
    ensures var c := st.streams[id].channel;
            ClosedWord(About(WireOf(RemoveAll(st, ids), c), id))
    decreases |ids|
  {
    hide Remove, Orderly, About, ClosedWord;
    if ids != [] {
      if ids[0] == id {
        FirstCloses(st, ids, id);
      } else {
        RemoveIs(st, ids[0]);
        RemoveKeepsOrder(st, ids[0]);
        ReleasedCloses(Remove(st, ids[0]), ids[1..], id);
      }
    }
  }

  lemma RemoveAllUnfolds(st: State, ids: seq<nat>)
    requires ids != []
    ensures RemoveAll(st, ids) == RemoveAll(Remove(st, ids[0]), ids[1..])
  {
    hide Remove;
  }

  // ---- Closing ----

  lemma EndAsksNothing(id: nat, t: Stream, q: Queue, reason: EndReason)
    ensures !PushFrame(id, t, q, Ended(reason)).resync
  {
    hide Dropped, DeviceMessages, Enqueued, SendAll;
  }

  lemma EndedKeepsWire(st: State, id: nat, reason: EndReason)
    ensures var p := Push(st, id, Ended(reason));
            && p.wire == st.wire && p.channels == st.channels && p.streams.Keys == st.streams.Keys && p.nextId == st.nextId
            && (id in st.streams ==> p.streams[id].source == st.streams[id].source && p.streams[id].channel == st.streams[id].channel)
            && (forall k :: k in st.streams && k != id ==> p.streams[k] == st.streams[k])
  {
    if id in st.streams {
      var t := st.streams[id];
      EndAsksNothing(id, t, QueueOf(st, t.owner), reason);
      PushKeepsRoute(id, t, QueueOf(st, t.owner), Ended(reason));
      hide PushFrame, QueueOf;
    }
  }

  lemma PushKeepsRoute(id: nat, t: Stream, q: Queue, frame: Frame)
    ensures var u := PushFrame(id, t, q, frame).stream;
            u.channel == t.channel && u.source == t.source && u.owner == t.owner
  {
    hide Dropped, DeviceMessages, Enqueued, SendAll, Overflows;
  }

  /**
   * Closing is refused for unknown and foreign streams, and then changes nothing; otherwise the
   * stream is gone, the others stay, and the source gets exactly one close if it is linked.
   */
  lemma CloseIs(st: State, owner: nat, id: nat)
    ensures var p := CloseStream(st, owner, id);
            if id !in st.streams || st.streams[id].owner != owner then p == st
            else
              && p.streams == st.streams - {id} && p.channels == st.channels && p.nextId == st.nextId
              && p.wire == if Linked(st, id) then Said(st, st.streams[id].channel, Close(id)) else st.wire
  {
    hide Push, Remove, Dropped;
    if id in st.streams && st.streams[id].owner == owner {
      var t := st.streams[id].(opening := None, lagging := false);
      var emptied := Note(st.(streams := st.streams[id := t]), id, Dropped(Buffered(st.streams[id])));
      var ended := Push(emptied, id, Ended(ClosedByDevice));
      EndedKeepsWire(emptied, id, ClosedByDevice);
      RemoveIs(ended, id);
      assert ended.streams - {id} == st.streams - {id};
    }
  }

  lemma CloseCloses(st: State, owner: nat, id: nat)
    requires Orderly(st) && Linked(st, id) && st.streams[id].owner == owner
    ensures ClosedWord(About(WireOf(CloseStream(st, owner, id), st.streams[id].channel), id))
  {
    var c := st.streams[id].channel;
    CloseIs(st, owner, id);
    RemoveIs(st, id);
    RemoveCloses(st, id);
    hide CloseStream, Remove, Orderly, About, ClosedWord;
    assert WireOf(CloseStream(st, owner, id), c) == WireOf(Remove(st, id), c);
  }

  // ---- A stream that goes has told its source ----

  lemma EndAllKeepsStreams(st: State, ids: seq<nat>, reason: EndReason)
    ensures EndAll(st, ids, reason).streams.Keys == st.streams.Keys
  {
    hide EndAll;
    RelayRelease.EndAllFinishes(st, ids, reason);
  }

  lemma {:induction false} PushAllKeepsStreams(st: State, id: nat, frames: seq<Frame>)
    ensures PushAll(st, id, frames).streams.Keys == st.streams.Keys
    decreases |frames|
  {
    if frames != [] {
      PushKeepsStreams(st, id, frames[0]);
      hide Push;
      PushAllKeepsStreams(Push(st, id, frames[0]), id, frames[1..]);
    }
  }

  lemma PushKeepsStreams(st: State, id: nat, frame: Frame)
    ensures Push(st, id, frame).streams.Keys == st.streams.Keys
  {
    if id in st.streams {
      RelayOrder.PushShape(st, id, frame);
      hide Push, PushFrame, QueueOf, RecordOf;
    }
  }

  lemma OtherStepsKeepStreams(st: State, step: Step, id: nat)
    requires !step.AbandonStep? && !step.CloseStep? && !step.ReleaseStep? && id in st.streams
    ensures id in After(st, step).streams
  {
    hide Push, PushAll, EndAll, Send, AddPending;
    match step
    case AttachStep(source, order) =>
      var n := st.nextId + 1;
      EndAllKeepsStreams(st.(nextId := n, channels := st.channels[source := Channel(n, {})], wire := st.wire[n := []]), order, SourceUnavailable);
    case DetachStep(source, c, order) =>
      EndAllKeepsStreams(if Current(st, source, c) then st.(channels := st.channels - {source}) else st, order, SourceUnavailable);
    case ActivateStep(k) =>
      if k in st.streams && st.streams[k].opening.Some? {
        PushAllKeepsStreams(st.(streams := st.streams[k := st.streams[k].(opening := None)]), k, st.streams[k].opening.value);
      }
    case FrameStep(_, k, frame) => PushKeepsStreams(st, k, frame);
    case OpenStep(owner, source, invocation) => OpenKeepsStreams(st, owner, source, invocation, id);
    case InputStep(owner, k, keys) => SendInputEffects(st, owner, k, keys);
    case _ => QuietStepEffects(st, step);
  }

  lemma OpenKeepsStreams(st: State, owner: nat, source: string, invocation: string, id: nat)
    requires id in st.streams
    ensures id in OpenStream(st, owner, source, invocation).streams
  {
  }

  lemma RemoveAllKeepsChannels(st: State, ids: seq<nat>)
    ensures RemoveAll(st, ids).channels == st.channels
    decreases |ids|
  {
    if ids != [] {
      RemoveIs(st, ids[0]);
      hide Remove;
      RemoveAllKeepsChannels(Remove(st, ids[0]), ids[1..]);
    }
  }

  /**
   * In every run, a stream that a step takes away while its channel is still its source's channel
   * has told its source: its requests there are `Open (Input | Resync)* Close`.
   */
  lemma GoneMeansClosed(steps: seq<Step>, step: Step, id: nat)
    requires var st := Run(steps);
             && id in st.streams && id !in After(st, step).streams
             && Current(After(st, step), st.streams[id].source, st.streams[id].channel)
    ensures var st := Run(steps);
            ClosedWord(About(WireOf(After(st, step), st.streams[id].channel), id))
  {
    var st := Run(steps);
    RunIsOrderly(steps);
    hide Run, Orderly, About, ClosedWord, Push, Remove, RemoveAll, CloseStream;
    match step {
      case AbandonStep(k) =>
        RemoveIs(st, k);
        RemoveCloses(st, id);
      case CloseStep(owner, k) =>
        CloseIs(st, owner, k);
        CloseCloses(st, owner, id);
      case ReleaseStep(_, order) =>
        RemoveAllKeepsChannels(st, order);
        ReleasedCloses(st, order, id);
      case _ =>
        OtherStepsKeepStreams(st, step, id);
    }
  }

  // ---- Input, answers, channels ----

  /** Input is refused for an unknown, foreign, ended or unlinked stream, in that order, and forwarded otherwise. */
  lemma InputOutcomeIff(st: State, owner: nat, id: nat)
    ensures var o, known := InputOutcomeOf(st, owner, id), id in st.streams;
            && (o == UnknownStream <==> !known)
            && (o == Forbidden <==> known && st.streams[id].owner != owner)
            && (o == StreamEnded <==> known && st.streams[id].owner == owner && st.streams[id].ended)
            && (o == ChannelClosed <==> known && st.streams[id].owner == owner && !st.streams[id].ended && !Linked(st, id))
            && (o.Forwarded? <==> known && st.streams[id].owner == owner && !st.streams[id].ended && Linked(st, id))
            && (o.Forwarded? ==> o.req == st.nextId + 1)
  {
  }

  /**
   * Only the owner's keys, for a live linked stream, reach the source: one request with a new id,
   * which then waits for its answer there. A refused input sends nothing.
   */
  lemma InputIs(st: State, owner: nat, id: nat, keys: string)
    ensures var p := SendInput(st, owner, id, keys);
            && p.nextId == st.nextId + 1 && p.streams == st.streams && p.queues == st.queues && p.answers == st.answers
            && if Linked(st, id) && st.streams[id].owner == owner && !st.streams[id].ended then
                 var t := st.streams[id];
                 && p.wire == Said(st, t.channel, Input(st.nextId + 1, id, keys))
                 && p.channels == st.channels[t.source := Channel(t.channel, st.channels[t.source].pending + {st.nextId + 1})]
               else p.wire == st.wire && p.channels == st.channels
  {
  }

  /** An answer reaches its waiter exactly when it waits on the source's current channel, and then waits no more. */
  lemma AnswerIs(st: State, source: string, channel: nat, req: nat)
    ensures var p := DeliverAnswer(st, source, channel, req);
            if source in st.channels && st.channels[source].id == channel && req in st.channels[source].pending then
              p == st.(answers := st.answers + [Answered(req, channel)],
                       channels := st.channels[source := Channel(channel, st.channels[source].pending - {req})])
            else p == st
  {
  }

  /** A timeout forgets its waiter and changes nothing else. */
  lemma TimeoutIs(st: State, source: string, channel: nat, req: nat)
    ensures var p := DropPending(st, source, channel, req);
            if source in st.channels && st.channels[source].id == channel then
              p == st.(channels := st.channels[source := Channel(channel, st.channels[source].pending - {req})])
            else p == st
  {
  }

  /** Opening needs a channel; it sends one open on it, whose answer is awaited, and buffers the stream's frames. */
  lemma OpenIs(st: State, owner: nat, source: string, invocation: string)
    ensures var p := OpenStream(st, owner, source, invocation);
            var id, req := st.nextId + 1, st.nextId + 2;
            && p.nextId == req && p.queues == st.queues && p.answers == st.answers
            && if source in st.channels then
                 var c := st.channels[source].id;
                 && p.wire == Said(st, c, Open(req, id, invocation))
                 && p.channels == st.channels[source := Channel(c, st.channels[source].pending + {req})]
                 && p.streams == st.streams[id := Stream(source, c, owner, Some([]), false, false)]
               else p.wire == st.wire && p.channels == st.channels && p.streams == st.streams
  {
  }

  lemma {:induction false} EndAllKeepsWire(st: State, ids: seq<nat>, reason: EndReason)
    ensures EndAll(st, ids, reason).wire == st.wire && EndAll(st, ids, reason).channels == st.channels
    ensures EndAll(st, ids, reason).nextId == st.nextId
    decreases |ids|
  {
    if ids != [] {
      EndedKeepsWire(st, ids[0], reason);
      hide Push;
      EndAllKeepsWire(Push(st, ids[0], Ended(reason)), ids[1..], reason);
    }
  }

  /**
   * Attaching gives the source a new channel without waiters; nothing is sent, other sources keep
   * theirs, and every stream over the channel it replaces has ended or holds its end.
   */
  lemma AttachIs(st: State, source: string, order: seq<nat>)
    requires source in st.channels ==> OrderOf(order, LiveOn(st, st.channels[source].id))
    ensures var p, id := Attach(st, source, order), st.nextId + 1;
            && p.nextId == id && p.channels == st.channels[source := Channel(id, {})] && p.wire == st.wire[id := []]
            && p.streams.Keys == st.streams.Keys
            && (source !in st.channels ==> p.streams == st.streams)
            && (source in st.channels ==>
                  forall s :: s in st.streams && st.streams[s].channel == st.channels[source].id ==> RelayRelease.Finished(p.streams[s]))
  {
    var id := st.nextId + 1;
    var bound := st.(nextId := id, channels := st.channels[source := Channel(id, {})], wire := st.wire[id := []]);
    EndAllKeepsWire(bound, order, SourceUnavailable);
    RelayRelease.EndAllFinishes(bound, order, SourceUnavailable);
    hide EndAll, RelayRelease.Finished;
    if source in st.channels {
      forall s | s in st.streams && st.streams[s].channel == st.channels[source].id
        ensures RelayRelease.Finished(Attach(st, source, order).streams[s])
      {
        LiveOrFinished(st, s);
        assert s in order <==> s in LiveOn(st, st.channels[source].id);
      }
    }
  }

  lemma LiveOrFinished(st: State, s: nat)
    requires s in st.streams
    ensures s in LiveOn(st, st.streams[s].channel) || RelayRelease.Finished(st.streams[s])
  {
  }

  /** Detaching drops the source's channel exactly when it is still that one, and sends nothing. */
  lemma DetachIs(st: State, source: string, id: nat, order: seq<nat>)
    ensures var p := Detach(st, source, id, order);
            && p.channels == (if source in st.channels && st.channels[source].id == id then st.channels - {source} else st.channels)
            && p.wire == st.wire && p.streams.Keys == st.streams.Keys && p.nextId == st.nextId
  {
    var dropped := if Current(st, source, id) then st.(channels := st.channels - {source}) else st;
    EndAllKeepsWire(dropped, order, SourceUnavailable);
    EndAllKeepsStreams(dropped, order, SourceUnavailable);
    hide EndAll;
  }

  /** Before activation nothing is sent: frames are kept, an end replaces them, and a full buffer is dropped and asks for a resync. */
  lemma BufferingIs(id: nat, t: Stream, q: Queue, frame: Frame)
    requires t.opening.Some? && !t.ended
    ensures var r, full := PushFrame(id, t, q, frame), !frame.Ended? && |t.opening.value| >= 256;
            && r.queue == q && !r.stream.ended
            && r.stream.opening == Some(if frame.Ended? then [frame] else if full then [] else t.opening.value + [frame])
            && r.stream.lagging == (t.lagging || full) && r.resync == full
  {
    hide Dropped;
  }
}
