/**
 * The relay as the hub runs it: maps and counters updated in place, frames pushed message by
 * message, streams visited in whatever order the maps give them. Every method is proved to do what
 * the corresponding function of the relay's state says.
 */
module RelayHub {
  import opened Common
  import opened RelayStream
  import opened Relay

  /** Messages a source sends over its control channel. */
  datatype RelayMessage =
    | Hello
    | Opened(req: nat)
    | InputResult(req: nat)
    | Error(req: nat)
    | SourceFrame(stream: nat, frame: Frame)

  lemma PushNothing(st: State, id: nat)
    ensures PushAll(st, id, []) == st
  {
  }

  lemma {:induction false} PushAllSnoc(st: State, id: nat, frames: seq<Frame>, frame: Frame)
    ensures PushAll(st, id, frames + [frame]) == Push(PushAll(st, id, frames), id, frame)
    decreases |frames|
  {
    if frames == [] {
      assert frames + [frame] == [frame];
      assert PushAll(Push(st, id, frame), id, []) == Push(st, id, frame);
    } else {
      PushAllSnoc(Push(st, id, frames[0]), id, frames[1..], frame);
      assert (frames + [frame])[1..] == frames[1..] + [frame];
    }
  }

  lemma {:induction false} EndAllSnoc(st: State, ids: seq<nat>, id: nat, reason: EndReason)
    ensures EndAll(st, ids + [id], reason) == Push(EndAll(st, ids, reason), id, Ended(reason))
    decreases |ids|
  {
    if ids == [] {
      assert ids + [id] == [id];
      assert EndAll(Push(st, id, Ended(reason)), [], reason) == Push(st, id, Ended(reason));
    } else {
      EndAllSnoc(Push(st, ids[0], Ended(reason)), ids[1..], id, reason);
      assert (ids + [id])[1..] == ids[1..] + [id];
    }
  }

  lemma {:induction false} RemoveAllSnoc(st: State, ids: seq<nat>, id: nat)
    ensures RemoveAll(st, ids + [id]) == Remove(RemoveAll(st, ids), id)
    decreases |ids|
  {
    if ids == [] {
      assert ids + [id] == [id];
      assert RemoveAll(Remove(st, id), []) == Remove(st, id);
    } else {
      RemoveAllSnoc(Remove(st, ids[0]), ids[1..], id);
      assert (ids + [id])[1..] == ids[1..] + [id];
    }
  }

  class Hub {
    var channels: map<string, Channel>
    var streams: map<nat, Stream>
    var nextId: nat
    var queues: map<nat, Queue>
    var wire: map<nat, seq<Request>>
    ghost var answers: seq<Answered>
    ghost var history: map<nat, Record>

    ghost function View(): State
      reads this
    {
      State(channels, streams, nextId, queues, wire, answers, history)
    }

    /** Every stream's device has a queue. */
    ghost predicate Valid()
      reads this
    {
      forall id :: id in streams ==> streams[id].owner in queues
    }

    constructor ()
      ensures Valid() && View() == EMPTY
    {
      channels, streams, nextId, queues, wire := map[], map[], 0, map[], map[];
      answers, history := [], map[];
    }

    method Next() returns (id: nat)
      requires Valid()
      modifies this
      ensures Valid()
      ensures View() == old(View()).(nextId := id) && id == old(nextId) + 1
    {
      nextId := nextId + 1;
      id := nextId;
    }

    method SendRequest(source: string, channel: nat, request: Request)
      requires Valid()
      modifies this
      ensures Valid()
      ensures View() == Send(old(View()), source, channel, request)
    {
      if source in channels && channels[source].id == channel {
        var sent := if channel in wire then wire[channel] else [];
        wire := wire[channel := sent + [request]];
      }
    }

    /** Offers messages to a device queue one by one until one does not fit. */
    method SendToDevice(owner: nat, messages: seq<Message>) returns (full: bool)
      requires Valid() && owner in queues
      modifies this
      ensures Valid()
      ensures var q := QueueOf(old(View()), owner);
              && View() == old(View()).(queues := old(queues)[owner := SendAll(q, messages)])
              && full == Overflows(q, messages)
    {
      ghost var q := QueueOf(View(), owner);
      full := false;
      var i := 0;
      while i < |messages| && !full
        invariant Valid() && i <= |messages|
        invariant owner in queues && queues[owner].closed == q.closed
        invariant View() == old(View()).(queues := old(queues)[owner := queues[owner]])
        invariant q.closed ==> queues[owner] == q && !full
        invariant !q.closed ==>
                    && i <= q.room && queues[owner].room == q.room - i
                    && queues[owner].log == q.log + messages[..i]
                    && (full ==> i == q.room && i < |messages|)
        decreases |messages| - i, !full
      {
        var slot := queues[owner];
        if slot.closed {
          i := i + 1;
        } else if slot.room == 0 {
          full := true;
        } else {
          queues := queues[owner := slot.(log := slot.log + [messages[i]], room := slot.room - 1)];
          assert messages[..i + 1] == messages[..i] + [messages[i]];
          i := i + 1;
        }
      }
      assert messages[..|messages|] == messages && q.log + [] == q.log;
      assert queues[owner] == SendAll(q, messages);
    }

    /** The in-place form of `Push`, with the queue loop. */
    method PushToStream(id: nat, frame: Frame)
      requires Valid()
      modifies this
      ensures Valid()
      ensures View() == Push(old(View()), id, frame)
    {
      if id !in streams {
        return;
      }
      var t := streams[id];
      assert streams[id := t] == streams && queues[t.owner := queues[t.owner]] == queues;
      if t.ended {
        Record(id, [Entry(frame, [])]);
        return;
      }
      if t.opening.Some? {
        PushToBuffer(id, frame);
        return;
      }
      if t.lagging && !frame.Snapshot? && !frame.Ended? {
        Record(id, [Entry(frame, [])]);
        return;
      }
      var messages := DeviceMessages(id, frame);
      ghost var sent := Enqueued(QueueOf(View(), t.owner), messages);
      var full := SendToDevice(t.owner, messages);
      Record(id, [Entry(frame, sent)]);
      var behind := full && !frame.Ended?;
      streams := streams[id := t.(lagging := behind, ended := frame.Ended?)];
      if behind {
        SendRequest(t.source, t.channel, Resync(id));
      }
    }

    /** The part of a push that only fills or empties the opening buffer. */
    method PushToBuffer(id: nat, frame: Frame)
      requires Valid() && id in streams && streams[id].opening.Some? && !streams[id].ended
      modifies this
      ensures Valid()
      ensures View() == Push(old(View()), id, frame)
    {
      var t := streams[id];
      var buffer := t.opening.value;
      assert queues[t.owner := queues[t.owner]] == queues;
      if frame.Ended? {
        Record(id, Dropped(buffer));
        streams := streams[id := t.(opening := Some([frame]))];
      } else if |buffer| >= OPENING_BUFFER {
        Record(id, Dropped(buffer + [frame]));
        streams := streams[id := t.(opening := Some([]), lagging := true)];
        SendRequest(t.source, t.channel, Resync(id));
      } else {
        Record(id, []);
        streams := streams[id := t.(opening := Some(buffer + [frame]))];
      }
    }

    /** Keeps the account of what became of a stream's frames. */
    ghost method Record(id: nat, entries: seq<Entry>)
      modifies this`history
      ensures View() == Note(old(View()), id, entries)
    {
      history := Note(View(), id, entries).history;
    }

    /** One end for each live stream of a channel, in the order a map gives them. */
    method EndChannel(id: nat, reason: EndReason) returns (ghost order: seq<nat>)
      requires Valid()
      modifies this
      ensures Valid()
      ensures OrderOf(order, LiveOn(old(View()), id))
      ensures View() == EndAll(old(View()), order, reason)
    {
      var ids := set s | s in streams && streams[s].channel == id && !streams[s].ended;
      ghost var all := ids;
      order := [];
      while ids != {}
        invariant Valid() && ids <= all && View() == EndAll(old(View()), order, reason)
        invariant OrderOf(order, all - ids)
        decreases |ids|
      {
        var s :| s in ids;
        PushToStream(s, Ended(reason));
        EndAllSnoc(old(View()), order, s, reason);
        order := order + [s];
        ids := ids - {s};
      }
      assert all - ids == all;
    }

    /** Binds a new channel to `source`; streams of a replaced channel end. */
    method AttachChannel(source: string) returns (id: nat, ghost order: seq<nat>)
      requires Valid()
      modifies this
      ensures Valid()
      ensures id == old(nextId) + 1 && View() == Attach(old(View()), source, order)
      ensures source in old(channels) ==>
                OrderOf(order, LiveOn(old(View()), old(channels)[source].id))
    {
      id := Next();
      var previous := if source in channels then Some(channels[source].id) else None;
      channels := channels[source := Channel(id, {})];
      wire := wire[id := []];
      order := [];
      if previous.Some? {
        order := EndChannel(previous.value, SourceUnavailable);
      }
    }

    method DetachChannel(source: string, id: nat) returns (ghost order: seq<nat>)
      requires Valid()
      modifies this
      ensures Valid()
      ensures View() == Detach(old(View()), source, id, order) && OrderOf(order, LiveOn(old(View()), id))
    {
      if source in channels && channels[source].id == id {
        channels := channels - {source};
      }
      order := EndChannel(id, SourceUnavailable);
    }

    /** Opens a stream on the source's channel, or reports that there is none. */
    method OpenOn(owner: nat, source: string, invocation: string) returns (pending: Option<(nat, nat)>)
      requires Valid() && owner in queues
      modifies this
      ensures Valid()
      ensures View() == OpenStream(old(View()), owner, source, invocation)
      ensures pending == if source in old(channels) then Some((old(nextId) + 1, old(nextId) + 2)) else None
    {
      var stream := Next();
      var req := Next();
      if source !in channels {
        return None;
      }
      var channel := channels[source];
      channels := channels[source := channel.(pending := channel.pending + {req})];
      SendRequest(source, channel.id, Open(req, stream, invocation));
      streams := streams[stream := Stream(source, channel.id, owner, Some([]), false, false)];
      history := history[stream := Relay.Record(owner, channel.id, [])];
      pending := Some((stream, req));
    }

    /** Sends keys to a stream's source, or tells why they are refused. */
    method InputFor(owner: nat, id: nat, keys: string) returns (outcome: InputOutcome)
      requires Valid()
      modifies this
      ensures Valid()
      ensures outcome == InputOutcomeOf(old(View()), owner, id)
      ensures View() == SendInput(old(View()), owner, id, keys)
    {
      var req := Next();
      if id !in streams {
        return UnknownStream;
      }
      var t := streams[id];
      if t.owner != owner {
        return Forbidden;
      }
      if t.ended {
        return StreamEnded;
      }
      if t.source !in channels || channels[t.source].id != t.channel {
        return ChannelClosed;
      }
      var channel := channels[t.source];
      channels := channels[t.source := channel.(pending := channel.pending + {req})];
      SendRequest(t.source, t.channel, Input(req, id, keys));
      outcome := Forwarded(req);
    }

    /** No answer came in time: the waiter is forgotten. */
    method ForgetWaiter(source: string, channel: nat, req: nat)
      requires Valid()
      modifies this
      ensures Valid()
      ensures View() == DropPending(old(View()), source, channel, req)
    {
      if source in channels && channels[source].id == channel {
        var c := channels[source];
        channels := channels[source := c.(pending := c.pending - {req})];
      }
    }

    /** Takes the opening buffer out and pushes its frames in order. */
    method ActivateStream(id: nat)
      requires Valid()
      modifies this
      ensures Valid()
      ensures View() == Activate(old(View()), id)
    {
      hide Push, PushAll;
      if id !in streams || streams[id].opening.None? {
        return;
      }
      var buffer := streams[id].opening.value;
      streams := streams[id := streams[id].(opening := None)];
      ghost var taken := View();
      assert PushAll(taken, id, buffer[..0]) == taken by { PushNothing(taken, id); }
      var i := 0;
      while i < |buffer|
        invariant Valid() && i <= |buffer| && View() == PushAll(taken, id, buffer[..i])
      {
        PushToStream(id, buffer[i]);
        PushAllSnoc(taken, id, buffer[..i], buffer[i]);
        assert buffer[..i + 1] == buffer[..i] + [buffer[i]];
        i := i + 1;
      }
      assert buffer[..i] == buffer;
    }

    /** The in-place form of `Remove`. */
    method Abandon(id: nat)
      requires Valid()
      modifies this
      ensures Valid()
      ensures View() == Remove(old(View()), id)
    {
      if id in streams {
        var t := streams[id];
        streams := streams - {id};
        Record(id, Dropped(Buffered(t)));
        SendRequest(t.source, t.channel, Close(id));
      }
    }

    /** The owner gets an end and the stream is removed. */
    method CloseFor(owner: nat, id: nat) returns (ok: bool)
      requires Valid()
      modifies this
      ensures Valid()
      ensures ok <==> id in old(streams) && old(streams)[id].owner == owner
      ensures View() == CloseStream(old(View()), owner, id)
    {
      if id !in streams || streams[id].owner != owner {
        return false;
      }
      var t := streams[id];
      streams := streams[id := t.(opening := None, lagging := false)];
      Record(id, Dropped(Buffered(t)));
      PushToStream(id, Ended(ClosedByDevice));
      Abandon(id);
      ok := true;
    }

    /** Removes the streams of one owner. */
    method ReleaseOwner(owner: nat) returns (ghost order: seq<nat>)
      requires Valid()
      modifies this
      ensures Valid()
      ensures OrderOf(order, OwnedBy(old(View()), owner))
      ensures View() == RemoveAll(old(View()), order)
    {
      var ids := set s | s in streams && streams[s].owner == owner;
      ghost var all := ids;
      order := [];
      while ids != {}
        invariant Valid() && ids <= all && View() == RemoveAll(old(View()), order)
        invariant OrderOf(order, all - ids)
        decreases |ids|
      {
        var s :| s in ids;
        Abandon(s);
        RemoveAllSnoc(old(View()), order, s);
        order := order + [s];
        ids := ids - {s};
      }
      assert all - ids == all;
    }

    /** A message a channel carried: a frame, or an answer to a waiter. */
    method Deliver(source: string, id: nat, message: RelayMessage)
      requires Valid()
      modifies this
      ensures Valid()
      ensures View() == match message
                        case Hello => old(View())
                        case SourceFrame(stream, frame) => DeliverFrame(old(View()), id, stream, frame)
                        case Opened(req) => DeliverAnswer(old(View()), source, id, req)
                        case InputResult(req) => DeliverAnswer(old(View()), source, id, req)
                        case Error(req) => DeliverAnswer(old(View()), source, id, req)
    {
      match message
      case Hello =>
      case SourceFrame(stream, frame) =>
        if stream in streams && streams[stream].channel == id {
          PushToStream(stream, frame);
        }
      case Opened(req) => Answer(source, id, req);
      case InputResult(req) => Answer(source, id, req);
      case Error(req) => Answer(source, id, req);
    }

    method Answer(source: string, id: nat, req: nat)
      requires Valid()
      modifies this
      ensures Valid()
      ensures View() == DeliverAnswer(old(View()), source, id, req)
    {
      if source in channels && channels[source].id == id && req in channels[source].pending {
        var c := channels[source];
        channels := channels[source := c.(pending := c.pending - {req})];
        answers := answers + [Answered(req, id)];
      }
    }
  }
}
