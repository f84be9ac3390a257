/**
 * One terminal stream of the relay (crates/sessiontap-hub/src/relay.rs:93-212): what happens to a
 * source frame on its way to the device's bounded queue.
 */
module RelayStream {
  import opened Common

  const OPENING_BUFFER: nat := 256
  const MAX_OUTPUT_CHUNK: nat := 32 * 1024

  type Byte = b: int | 0 <= b < 256

  datatype EndReason =
    | AgentExited | PaneClosed | SessionClosed | MultiplexerStopped | IdentityChanged
    | SourceUnavailable | SourceDisallowsControl | ClosedByDevice

  datatype Frame =
    | Snapshot(sequence: nat, screen: seq<Byte>)
    | Output(sequence: nat, data: seq<Byte>)
    | InputState(available: bool)
    | Ended(reason: EndReason)

  /** A pushed device message: one frame of one stream. */
  datatype Message = Message(stream: nat, frame: Frame)

  /** A device's outbound queue: everything ever enqueued, and the free slots left. */
  datatype Queue = Queue(log: seq<Message>, room: nat, closed: bool)

  datatype Stream = Stream(
    source: string,
    channel: nat,
    owner: nat,
    opening: Option<seq<Frame>>,
    lagging: bool,
    ended: bool)

  /** What became of one frame handed to the stream: the messages of it the device got. */
  datatype Entry = Entry(frame: Frame, sent: seq<Message>)

  // ---- Splitting output ----

  function Chunks(data: seq<Byte>): seq<seq<Byte>> {
    if |data| <= MAX_OUTPUT_CHUNK then [data]
    else [data[..MAX_OUTPUT_CHUNK]] + Chunks(data[MAX_OUTPUT_CHUNK..])
  }

  function OutputMessages(stream: nat, sequence: nat, chunks: seq<seq<Byte>>): seq<Message> {
    if chunks == [] then []
    else [Message(stream, Output(sequence, chunks[0]))] + OutputMessages(stream, sequence, chunks[1..])
  }

  function DeviceMessages(stream: nat, frame: Frame): seq<Message> {
    if frame.Output? && |frame.data| > MAX_OUTPUT_CHUNK
    then OutputMessages(stream, frame.sequence, Chunks(frame.data))
    else [Message(stream, frame)]
  }

  /** The bytes a run of output messages carries. */
  function Bytes(messages: seq<Message>): seq<Byte> {
    if messages == [] then []
    else (if messages[0].frame.Output? then messages[0].frame.data else []) + Bytes(messages[1..])
  }

  lemma {:induction false} ChunksCarryTheData(stream: nat, sequence: nat, data: seq<Byte>)
    ensures Bytes(OutputMessages(stream, sequence, Chunks(data))) == data
    ensures forall m :: m in OutputMessages(stream, sequence, Chunks(data)) ==>
              m.stream == stream && m.frame.Output? && m.frame.sequence == sequence && |m.frame.data| <= 32768
    ensures var ms := OutputMessages(stream, sequence, Chunks(data));
            forall i :: 0 <= i < |ms| - 1 ==> ms[i].frame.Output? && |ms[i].frame.data| == 32768
  {
    if |data| <= MAX_OUTPUT_CHUNK {
      var ms := OutputMessages(stream, sequence, [data]);
      assert ms == [Message(stream, Output(sequence, data))] + OutputMessages(stream, sequence, []);
      assert Bytes(ms) == data + Bytes(ms[1..]) == data;
    } else {
      var rest := Chunks(data[MAX_OUTPUT_CHUNK..]);
      ChunksCarryTheData(stream, sequence, data[MAX_OUTPUT_CHUNK..]);
      assert Chunks(data)[1..] == rest;
      var ms := OutputMessages(stream, sequence, Chunks(data));
      assert ms[1..] == OutputMessages(stream, sequence, rest);
      assert data == data[..MAX_OUTPUT_CHUNK] + data[MAX_OUTPUT_CHUNK..];
    }
  }

  /**
   * A frame becomes at least one message of its own stream, none above the chunk limit; an output
   * frame's messages concatenate to its bytes, and any other frame is sent as it is.
   */
  lemma DeviceMessagesCarryTheFrame(stream: nat, frame: Frame)
    ensures DeviceMessages(stream, frame) != []
    ensures forall m :: m in DeviceMessages(stream, frame) ==> m.stream == stream
    ensures frame.Output? ==>
              && Bytes(DeviceMessages(stream, frame)) == frame.data
              && forall m :: m in DeviceMessages(stream, frame) ==>
                   m.frame.Output? && m.frame.sequence == frame.sequence && |m.frame.data| <= 32768
    ensures !frame.Output? ==> DeviceMessages(stream, frame) == [Message(stream, frame)]
  {
    if frame.Output? {
      ChunksCarryTheData(stream, frame.sequence, frame.data);
      if |frame.data| <= MAX_OUTPUT_CHUNK {
        assert Chunks(frame.data) == [frame.data];
        assert OutputMessages(stream, frame.sequence, [frame.data]) == DeviceMessages(stream, frame);
      }
    }
  }

  // ---- The device queue ----

  /** Enqueues as many messages as fit; a full queue stops, a closed one swallows. */
  function Enqueued(q: Queue, messages: seq<Message>): seq<Message> {
    if q.closed then [] else if |messages| <= q.room then messages else messages[..q.room]
  }

  function SendAll(q: Queue, messages: seq<Message>): Queue {
    var sent := Enqueued(q, messages);
    q.(log := q.log + sent, room := q.room - |sent|)
  }

  predicate Overflows(q: Queue, messages: seq<Message>) {
    !q.closed && |messages| > q.room
  }

  // ---- Pushing one frame ----

  datatype Pushed = Pushed(stream: Stream, queue: Queue, entries: seq<Entry>, resync: bool)

  function Dropped(frames: seq<Frame>): seq<Entry> {
    if frames == [] then [] else Dropped(frames[..|frames| - 1]) + [Entry(frames[|frames| - 1], [])]
  }

  /** The stream, queue and fate of frames after the source hands `frame` to stream `id`. */
  function PushFrame(id: nat, t: Stream, q: Queue, frame: Frame): Pushed {
    if t.ended then Pushed(t, q, [Entry(frame, [])], false)
    else if t.opening.Some? then
      var buffer := t.opening.value;
      if frame.Ended? then
        Pushed(t.(opening := Some([frame])), q, Dropped(buffer), false)
      else if |buffer| >= OPENING_BUFFER then
        Pushed(t.(opening := Some([]), lagging := true), q, Dropped(buffer + [frame]), true)
      else
        Pushed(t.(opening := Some(buffer + [frame])), q, [], false)
    else if t.lagging && !frame.Snapshot? && !frame.Ended? then
      Pushed(t, q, [Entry(frame, [])], false)
    else
      var messages := DeviceMessages(id, frame);
      var behind := Overflows(q, messages) && !frame.Ended?;
      Pushed(t.(lagging := behind, ended := frame.Ended?),
             SendAll(q, messages),
             [Entry(frame, Enqueued(q, messages))],
             behind)
  }

  // ---- Histories without gaps ----

  predicate Whole(id: nat, e: Entry) {
    e.sent == DeviceMessages(id, e.frame)
  }

  predicate Restarts(frame: Frame) {
    frame.Snapshot? || frame.Ended?
  }

  /** The device is owed a restart: the last frame was wholly or partly dropped. */
  predicate Owed(id: nat, h: seq<Entry>) {
    h != [] && !Whole(id, h[|h| - 1])
  }

  predicate EndDelivered(h: seq<Entry>) {
    && h != []
    && var e := h[|h| - 1];
       EndDelivered(h[..|h| - 1]) || (e.frame.Ended? && e.sent != [])
  }

  predicate NothingDelivered(h: seq<Entry>) {
    h != [] ==> NothingDelivered(h[..|h| - 1]) && h[|h| - 1].sent == []
  }

  /**
   * Each entry holds a prefix of its frame's messages; what is sent right after a loss restarts
   * the device; nothing is sent after an end that was sent.
   */
  predicate GapSafe(id: nat, h: seq<Entry>) {
    h != [] ==>
      var before, e := h[..|h| - 1], h[|h| - 1];
      && GapSafe(id, before)
      && e.sent <= DeviceMessages(id, e.frame)
      && (e.sent != [] && Owed(id, before) ==> Restarts(e.frame))
      && (e.sent != [] ==> !EndDelivered(before))
  }

  /** What the stream's flags promise about its history, given the next frame to be pushed. */
  predicate FlagsAgree(id: nat, t: Stream, closed: bool, h: seq<Entry>, next: Option<Frame>) {
    && (EndDelivered(h) ==> t.ended)
    && (!t.ended && !closed && Owed(id, h) ==> t.lagging || (next.Some? && next.value.Ended?))
    && (t.opening.Some? ==> !t.ended && NothingDelivered(h))
  }

  function FirstBuffered(t: Stream): Option<Frame> {
    if t.opening.Some? && t.opening.value != [] then Some(t.opening.value[0]) else None
  }

  lemma Appended(h: seq<Entry>, e: Entry)
    ensures (h + [e])[..|h + [e]| - 1] == h && (h + [e])[|h + [e]| - 1] == e
  {
  }

  /** Appending dropped frames keeps a history gap-safe and leaves a restart owed. */
  lemma {:induction false} DroppingIsGapSafe(id: nat, h: seq<Entry>, frames: seq<Frame>)
    requires GapSafe(id, h)
    ensures GapSafe(id, h + Dropped(frames))
    ensures frames != [] ==> Owed(id, h + Dropped(frames))
    ensures EndDelivered(h + Dropped(frames)) <==> EndDelivered(h)
    ensures NothingDelivered(h) ==> NothingDelivered(h + Dropped(frames))
  {
    if frames == [] {
      assert h + Dropped(frames) == h;
    } else {
      var n := |frames| - 1;
      DroppingIsGapSafe(id, h, frames[..n]);
      var e := Entry(frames[n], []);
      assert h + Dropped(frames) == (h + Dropped(frames[..n])) + [e];
      Appended(h + Dropped(frames[..n]), e);
      DeviceMessagesCarryTheFrame(id, frames[n]);
    }
  }

  lemma EnqueuedIsPrefix(q: Queue, messages: seq<Message>)
    ensures Enqueued(q, messages) <= messages
    ensures !q.closed && !Overflows(q, messages) ==> Enqueued(q, messages) == messages
  {
  }

  /**
   * Pushing any frame keeps the stream's history gap-safe and its flags in agreement with it.
   * `next` is the frame about to be pushed when a buffer has just been taken out.
   */
  lemma PushKeepsGapSafety(id: nat, t: Stream, q: Queue, h: seq<Entry>, frame: Frame)
    requires GapSafe(id, h)
    requires FlagsAgree(id, t, q.closed, h, if t.opening.Some? then FirstBuffered(t) else Some(frame))
    ensures var r := PushFrame(id, t, q, frame);
            && GapSafe(id, h + r.entries)
            && FlagsAgree(id, r.stream, q.closed, h + r.entries, FirstBuffered(r.stream))
  {
    hide DeviceMessages, SendAll, Dropped;
    if t.opening.Some? && !t.ended {
      PushWhileOpening(id, t, q, h, frame);
    } else if t.ended || (t.lagging && !Restarts(frame)) {
      var e := Entry(frame, []);
      Appended(h, e);
      DeviceMessagesCarryTheFrame(id, frame);
    } else {
      var e := Entry(frame, Enqueued(q, DeviceMessages(id, frame)));
      EnqueuedIsPrefix(q, DeviceMessages(id, frame));
      Appended(h, e);
    }
  }

  /**
   * An active stream loses nothing without cause: a frame is wholly sent exactly when the stream
   * has not ended, owes no restart other than this frame, and the open queue has room for all of
   * it; and a resync is requested exactly when this push made the stream fall behind.
   */
  lemma PushIsExact(id: nat, t: Stream, q: Queue, frame: Frame)
    requires t.opening.None?
    ensures var r, messages := PushFrame(id, t, q, frame), DeviceMessages(id, frame);
            var offered := !t.ended && (t.lagging ==> Restarts(frame));
            && |r.entries| == 1 && r.entries[0].frame == frame
            && (Whole(id, r.entries[0]) <==> offered && !q.closed && |messages| <= q.room)
            && r.entries[0].sent == (if !offered || q.closed then []
                                     else if |messages| <= q.room then messages else messages[..q.room])
            && r.queue == q.(log := q.log + r.entries[0].sent, room := q.room - |r.entries[0].sent|)
            && (!offered ==> r.stream == t && r.queue == q)
            && (offered ==> r.stream.ended == frame.Ended?)
            && (r.resync <==> offered && r.stream.lagging)
            && (r.resync <==> offered && !frame.Ended? && !q.closed && !Whole(id, r.entries[0]))
  {
    DeviceMessagesCarryTheFrame(id, frame);
    hide DeviceMessages;
  }

  lemma PushWhileOpening(id: nat, t: Stream, q: Queue, h: seq<Entry>, frame: Frame)
    requires GapSafe(id, h) && t.opening.Some? && !t.ended
    requires FlagsAgree(id, t, q.closed, h, FirstBuffered(t))
    ensures var r := PushFrame(id, t, q, frame);
            && GapSafe(id, h + r.entries)
            && FlagsAgree(id, r.stream, q.closed, h + r.entries, FirstBuffered(r.stream))
  {
    var buffer := t.opening.value;
    if frame.Ended? {
      DroppingIsGapSafe(id, h, buffer);
    } else if |buffer| >= OPENING_BUFFER {
      DroppingIsGapSafe(id, h, buffer + [frame]);
    } else {
      assert h + [] == h;
    }
  }

  lemma {:induction false} SafePrefix(id: nat, h: seq<Entry>, n: nat)
    requires GapSafe(id, h) && n <= |h|
    ensures GapSafe(id, h[..n])
  {
    if n < |h| {
      SafePrefix(id, h[..|h| - 1], n);
      assert h[..|h| - 1][..n] == h[..n];
    } else {
      assert h[..n] == h;
    }
  }

  lemma {:induction false} EndStaysDelivered(h: seq<Entry>, i: nat)
    requires i < |h| && h[i].frame.Ended? && h[i].sent != []
    ensures EndDelivered(h)
  {
    if i < |h| - 1 {
      EndStaysDelivered(h[..|h| - 1], i);
    }
  }

  lemma EntryIsPrefix(id: nat, h: seq<Entry>, j: nat)
    requires GapSafe(id, h) && j < |h|
    ensures h[j].sent <= DeviceMessages(id, h[j].frame)
  {
    SafePrefix(id, h, j + 1);
    assert h[..j + 1][j] == h[j];
  }

  /**
   * Read off a gap-safe history: after any frame that was wholly or partly dropped, the next frame
   * of which the device gets anything is a snapshot or the end.
   */
  lemma GapsEndInARestart(id: nat, h: seq<Entry>, i: nat, j: nat)
    requires GapSafe(id, h) && i < j < |h| && h[j].sent != []
    requires !Whole(id, h[i]) && forall k :: i < k < j ==> h[k].sent == []
    ensures Restarts(h[j].frame)
  {
    hide DeviceMessages, EndDelivered;
    SafePrefix(id, h, j + 1);
    var upto := h[..j + 1];
    assert upto[..j] == h[..j] && upto[j] == h[j];
    assert h[..j][j - 1] == h[j - 1];
    DeviceMessagesCarryTheFrame(id, h[j - 1].frame);
  }

  lemma NothingFollowsTheEnd(id: nat, h: seq<Entry>, i: nat, j: nat)
    requires GapSafe(id, h) && i < j < |h| && h[i].frame.Ended? && h[i].sent != []
    ensures h[j].sent == []
  {
    hide DeviceMessages;
    SafePrefix(id, h, j + 1);
    var upto := h[..j + 1];
    assert upto[..j] == h[..j] && upto[j] == h[j];
    EndStaysDelivered(h[..j], i);
  }
}
