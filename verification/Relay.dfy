/**
 * The terminal relay (crates/sessiontap-hub/src/relay.rs): control channels, the device streams
 * multiplexed over them, and every operation on both, as functions of the relay's state.
 */
module Relay {
  import opened Common
  import opened RelayStream

  datatype Request =
    | Open(req: nat, stream: nat, invocation: string)
    | Input(req: nat, stream: nat, keys: string)
    | Close(stream: nat)
    | Resync(stream: nat)

  /** The control channel bound to a source, with the requests that still wait for an answer. */
  datatype Channel = Channel(id: nat, pending: set<nat>)

  /** Who opened a stream, over which channel, and what became of each frame handed to it. */
  datatype Record = Record(owner: nat, channel: nat, entries: seq<Entry>)

  /** A waiter was answered: by which channel, and for which request. */
  datatype Answered = Answered(req: nat, channel: nat)

  /**
   * `channels`, `streams` and `nextId` are the relay's own state. `queues` and `wire` are the
   * device queues and control channels it writes to; `answers` and `history` only record what
   * happened and are never read by an operation.
   */
  datatype State = State(
    channels: map<string, Channel>,
    streams: map<nat, Stream>,
    nextId: nat,
    queues: map<nat, Queue>,
    wire: map<nat, seq<Request>>,
    answers: seq<Answered>,
    history: map<nat, Record>)

  const EMPTY := State(map[], map[], 0, map[], map[], [], map[])

  function QueueOf(st: State, owner: nat): Queue {
    if owner in st.queues then st.queues[owner] else Queue([], 0, true)
  }

  function RecordOf(st: State, id: nat): Record {
    if id in st.history then st.history[id] else Record(0, 0, [])
  }

  function WireOf(st: State, channel: nat): seq<Request> {
    if channel in st.wire then st.wire[channel] else []
  }

  predicate Current(st: State, source: string, channel: nat) {
    source in st.channels && st.channels[source].id == channel
  }

  /** Sends a request for a stream, when the stream's channel is still its source's channel. */
  function Send(st: State, source: string, channel: nat, request: Request): State {
    if Current(st, source, channel)
    then st.(wire := st.wire[channel := WireOf(st, channel) + [request]])
    else st
  }

  function Note(st: State, id: nat, entries: seq<Entry>): State {
    var r := RecordOf(st, id);
    st.(history := st.history[id := r.(entries := r.entries + entries)])
  }

  function Push(st: State, id: nat, frame: Frame): State {
    if id !in st.streams then st
    else
      var t := st.streams[id];
      var r := PushFrame(id, t, QueueOf(st, t.owner), frame);
      var pushed := Note(st.(streams := st.streams[id := r.stream], queues := st.queues[t.owner := r.queue]),
                         id, r.entries);
      if r.resync then Send(pushed, t.source, t.channel, Resync(id)) else pushed
  }

  function PushAll(st: State, id: nat, frames: seq<Frame>): State
    decreases |frames|
  {
    if frames == [] then st else PushAll(Push(st, id, frames[0]), id, frames[1..])
  }

  /** Ends the streams in `ids`, one after another. */
  function EndAll(st: State, ids: seq<nat>, reason: EndReason): State
    decreases |ids|
  {
    if ids == [] then st else EndAll(Push(st, ids[0], Ended(reason)), ids[1..], reason)
  }

  function Buffered(t: Stream): seq<Frame> {
    if t.opening.Some? then t.opening.value else []
  }

  /** The stream goes; its source is told while its channel is current. */
  function Remove(st: State, id: nat): State {
    if id !in st.streams then st
    else
      var t := st.streams[id];
      Send(Note(st.(streams := st.streams - {id}), id, Dropped(Buffered(t))), t.source, t.channel, Close(id))
  }

  function RemoveAll(st: State, ids: seq<nat>): State
    decreases |ids|
  {
    if ids == [] then st else RemoveAll(Remove(st, ids[0]), ids[1..])
  }

  // ---- Operations ----

  /** The live streams relayed over a channel. */
  function LiveOn(st: State, channel: nat): set<nat> {
    set id | id in st.streams && st.streams[id].channel == channel && !st.streams[id].ended
  }

  function OwnedBy(st: State, owner: nat): set<nat> {
    set id | id in st.streams && st.streams[id].owner == owner
  }

  /** `order` lists `ids` once each; hash maps iterate in an order of their own. */
  ghost predicate OrderOf(order: seq<nat>, ids: set<nat>) {
    && (forall x :: x in order <==> x in ids)
    && (forall i, j :: 0 <= i < j < |order| ==> order[i] != order[j])
  }

  function Attach(st: State, source: string, order: seq<nat>): State {
    var id := st.nextId + 1;
    var bound := st.(nextId := id, channels := st.channels[source := Channel(id, {})], wire := st.wire[id := []]);
    if source in st.channels then EndAll(bound, order, SourceUnavailable) else bound
  }

  function Detach(st: State, source: string, id: nat, order: seq<nat>): State {
    var dropped := if Current(st, source, id) then st.(channels := st.channels - {source}) else st;
    EndAll(dropped, order, SourceUnavailable)
  }

  function AddPending(st: State, source: string, req: nat): State {
    if source in st.channels then
      var c := st.channels[source];
      st.(channels := st.channels[source := c.(pending := c.pending + {req})])
    else st
  }

  /** Both ids are taken even when the source has no channel. */
  function OpenStream(st: State, owner: nat, source: string, invocation: string): State {
    var stream := st.nextId + 1;
    var req := st.nextId + 2;
    var counted := st.(nextId := req);
    if source !in st.channels then counted
    else
      var channel := st.channels[source].id;
      var sent := Send(AddPending(counted, source, req), source, channel, Open(req, stream, invocation));
      sent.(streams := sent.streams[stream := Stream(source, channel, owner, Some([]), false, false)],
            history := sent.history[stream := Record(owner, channel, [])])
  }

  datatype InputOutcome = Forwarded(req: nat) | UnknownStream | Forbidden | StreamEnded | ChannelClosed

  function InputOutcomeOf(st: State, owner: nat, id: nat): InputOutcome {
    if id !in st.streams then UnknownStream
    else
      var t := st.streams[id];
      if t.owner != owner then Forbidden
      else if t.ended then StreamEnded
      else if !Current(st, t.source, t.channel) then ChannelClosed
      else Forwarded(st.nextId + 1)
  }

  function SendInput(st: State, owner: nat, id: nat, keys: string): State {
    var req := st.nextId + 1;
    var counted := st.(nextId := req);
    if !InputOutcomeOf(st, owner, id).Forwarded? then counted
    else
      var t := st.streams[id];
      Send(AddPending(counted, t.source, req), t.source, t.channel, Input(req, id, keys))
  }

  function DropPending(st: State, source: string, channel: nat, req: nat): State {
    if Current(st, source, channel) then
      var c := st.channels[source];
      st.(channels := st.channels[source := c.(pending := c.pending - {req})])
    else st
  }

  function Activate(st: State, id: nat): State {
    if id !in st.streams || st.streams[id].opening.None? then st
    else
      var t := st.streams[id];
      PushAll(st.(streams := st.streams[id := t.(opening := None)]), id, t.opening.value)
  }

  /** `close` by its owner: the buffer goes, the end is pushed, the stream is released. */
  function CloseStream(st: State, owner: nat, id: nat): State {
    if id !in st.streams || st.streams[id].owner != owner then st
    else
      var t := st.streams[id];
      var emptied := Note(st.(streams := st.streams[id := t.(opening := None, lagging := false)]),
                          id, Dropped(Buffered(t)));
      Remove(Push(emptied, id, Ended(ClosedByDevice)), id)
  }

  function DeliverFrame(st: State, channel: nat, id: nat, frame: Frame): State {
    if id in st.streams && st.streams[id].channel == channel then Push(st, id, frame) else st
  }

  /** An answer from `channel` of `source`: it reaches a waiter only if one waits there. */
  function DeliverAnswer(st: State, source: string, channel: nat, req: nat): State {
    if Current(st, source, channel) && req in st.channels[source].pending
    then DropPending(st, source, channel, req).(answers := st.answers + [Answered(req, channel)])
    else st
  }

  // ---- Runs ----

  datatype Step =
    | AttachStep(source: string, order: seq<nat>)
    | DetachStep(source: string, id: nat, order: seq<nat>)
    | OpenStep(owner: nat, source: string, invocation: string)
    | InputStep(owner: nat, id: nat, keys: string)
    | TimeoutStep(source: string, id: nat, req: nat)
    | ActivateStep(id: nat)
    | AbandonStep(id: nat)
    | CloseStep(owner: nat, id: nat)
    | ReleaseStep(owner: nat, order: seq<nat>)
    | FrameStep(channel: nat, id: nat, frame: Frame)
    | AnswerStep(source: string, channel: nat, req: nat)
      // what the devices and other traffic do to the queues
    | ConnectStep(owner: nat, capacity: nat)
    | DrainStep(owner: nat, slots: nat)
    | FillStep(owner: nat, slots: nat)
    | DisconnectStep(owner: nat)

  function SetQueue(st: State, owner: nat, q: Queue): State {
    if owner in st.queues then st.(queues := st.queues[owner := q]) else st
  }

  function After(st: State, step: Step): State {
    match step
    case AttachStep(source, order) => Attach(st, source, order)
    case DetachStep(source, id, order) => Detach(st, source, id, order)
    case OpenStep(owner, source, invocation) =>
      if owner in st.queues then OpenStream(st, owner, source, invocation) else st
    case InputStep(owner, id, keys) => SendInput(st, owner, id, keys)
    case TimeoutStep(source, id, req) => DropPending(st, source, id, req)
    case ActivateStep(id) => Activate(st, id)
    case AbandonStep(id) => Remove(st, id)
    case CloseStep(owner, id) => CloseStream(st, owner, id)
    case ReleaseStep(owner, order) => RemoveAll(st, order)
    case FrameStep(channel, id, frame) => DeliverFrame(st, channel, id, frame)
    case AnswerStep(source, channel, req) => DeliverAnswer(st, source, channel, req)
    case ConnectStep(owner, capacity) =>
      if owner in st.queues then st else st.(queues := st.queues[owner := Queue([], capacity, false)])
    case DrainStep(owner, slots) =>
      var q := QueueOf(st, owner);
      SetQueue(st, owner, q.(room := q.room + slots))
    case FillStep(owner, slots) =>
      var q := QueueOf(st, owner);
      SetQueue(st, owner, q.(room := if slots <= q.room then q.room - slots else 0))
    case DisconnectStep(owner) => SetQueue(st, owner, QueueOf(st, owner).(closed := true))
  }

  function Run(steps: seq<Step>): State {
    if steps == [] then EMPTY
    else After(Run(steps[..|steps| - 1]), steps[|steps| - 1])
  }
}
