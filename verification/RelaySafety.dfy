/**
 * Gap safety of the relay over every run: each device sees, per stream, the source's frames in
 * order, never resumes after a loss without a restart, and sees nothing after the end.
 */
module RelaySafety {
  import opened Common
  import opened RelayStream
  import opened Relay

  /** The messages of one stream in a queue's log. */
  function Delivered(log: seq<Message>, id: nat): seq<Message> {
    if log == [] then []
    else
      var n := |log| - 1;
      Delivered(log[..n], id) + (if log[n].stream == id then [log[n]] else [])
  }

  /** Everything the history says the device got. */
  function Flat(h: seq<Entry>): seq<Message> {
    if h == [] then [] else Flat(h[..|h| - 1]) + h[|h| - 1].sent
  }

  predicate OfStream(messages: seq<Message>, id: nat) {
    forall i :: 0 <= i < |messages| ==> messages[i].stream == id
  }

  lemma {:induction false} DeliveredAppends(log: seq<Message>, more: seq<Message>, id: nat, k: nat)
    requires OfStream(more, id)
    ensures Delivered(log + more, k) == if k == id then Delivered(log, k) + more else Delivered(log, k)
  {
    if more == [] {
      assert log + more == log;
    } else {
      var n := |more| - 1;
      DeliveredAppends(log, more[..n], id, k);
      assert (log + more)[..|log| + n] == log + more[..n];
      assert more == more[..n] + [more[n]];
    }
  }

  lemma FlatSnoc(h: seq<Entry>, e: Entry)
    ensures Flat(h + [e]) == Flat(h) + e.sent
  {
    Appended(h, e);
  }

  lemma {:induction false} FlatAppends(h: seq<Entry>, more: seq<Entry>)
    ensures Flat(h + more) == Flat(h) + Flat(more)
  {
    if more == [] {
      assert h + more == h;
    } else {
      hide Flat;
      var n := |more| - 1;
      var init, last := more[..n], more[n];
      FlatAppends(h, init);
      FlatSnoc(h + init, last);
      FlatSnoc(init, last);
      LastComesOff(h, more);
      Reassociate(Flat(h), Flat(init), last.sent);
    }
  }

  lemma {:induction false} FlatOfDropped(frames: seq<Frame>)
    ensures Flat(Dropped(frames)) == []
  {
    if frames != [] {
      FlatOfDropped(frames[..|frames| - 1]);
      Appended(Dropped(frames[..|frames| - 1]), Entry(frames[|frames| - 1], []));
    }
  }

  lemma FlatOne(e: Entry)
    ensures Flat([e]) == e.sent
  {
    assert [e][..0] == [];
  }

  lemma EnqueuedOfStream(id: nat, q: Queue, frame: Frame)
    ensures OfStream(Enqueued(q, DeviceMessages(id, frame)), id)
  {
    DeviceMessagesCarryTheFrame(id, frame);
    hide DeviceMessages;
    var sent := Enqueued(q, DeviceMessages(id, frame));
    assert forall i :: 0 <= i < |sent| ==> sent[i] in DeviceMessages(id, frame);
  }

  /** A push that only buffers or drops: nothing is sent. */
  lemma QuietPushLogs(id: nat, t: Stream, q: Queue, frame: Frame)
    requires t.ended || t.opening.Some? || (t.lagging && !Restarts(frame))
    ensures var r := PushFrame(id, t, q, frame);
            r.queue == q && Flat(r.entries) == [] && r.stream == t.(opening := r.stream.opening, lagging := r.stream.lagging)
  {
    assert Flat([]) == [];
    FlatOne(Entry(frame, []));
    if t.opening.Some? {
      FlatOfDropped(t.opening.value);
      FlatOfDropped(t.opening.value + [frame]);
    }
    hide Flat, Dropped, DeviceMessages, Enqueued, Overflows;
  }

  lemma SendingPushLogs(id: nat, t: Stream, q: Queue, frame: Frame)
    requires !t.ended && t.opening.None? && (t.lagging ==> Restarts(frame))
    ensures var r, sent := PushFrame(id, t, q, frame), Enqueued(q, DeviceMessages(id, frame));
            && r.queue.log == q.log + sent && r.queue.closed == q.closed && r.entries == [Entry(frame, sent)]
            && r.stream == t.(ended := r.stream.ended, lagging := r.stream.lagging)
  {
    hide DeviceMessages, Enqueued, Overflows;
  }

  /** What a push appends to the queue is exactly what the history records, all of one stream. */
  lemma PushLogs(id: nat, t: Stream, q: Queue, frame: Frame)
    ensures var r := PushFrame(id, t, q, frame);
            && r.queue.log == q.log + Flat(r.entries) && r.queue.closed == q.closed
            && OfStream(Flat(r.entries), id)
            && r.stream.owner == t.owner && r.stream.channel == t.channel && r.stream.source == t.source
  {
    hide PushFrame, DeviceMessages, Enqueued, Flat;
    if t.ended || t.opening.Some? || (t.lagging && !Restarts(frame)) {
      QuietPushLogs(id, t, q, frame);
      NothingAdded(q.log);
    } else {
      SendingPushLogs(id, t, q, frame);
      FlatOne(Entry(frame, Enqueued(q, DeviceMessages(id, frame))));
      EnqueuedOfStream(id, q, frame);
    }
  }

  // ---- The invariant ----

  function StreamAt(st: State, id: nat): Option<Stream> {
    if id in st.streams then Some(st.streams[id]) else None
  }

  function NextOf(st: State, id: nat): Option<Frame> {
    if id in st.streams then FirstBuffered(st.streams[id]) else None
  }

  /** The history has no gaps and the live stream, if any, agrees with it. */
  predicate StreamInv(id: nat, r: Record, t: Option<Stream>, closed: bool, next: Option<Frame>) {
    && GapSafe(id, r.entries)
    && (t.Some? ==> t.value.owner == r.owner && t.value.channel == r.channel
                    && FlagsAgree(id, t.value, closed, r.entries, next))
  }

  /** The device that opened the stream got what the history says, and nobody else got anything. */
  predicate LogInv(id: nat, r: Record, queues: map<nat, Queue>) {
    && r.owner in queues
    && forall o :: o in queues ==> Delivered(queues[o].log, id) == if o == r.owner then Flat(r.entries) else []
  }

  /** Every logged message belongs to a stream that was opened, and ids are counted. */
  predicate Known(st: State) {
    && (forall id :: id in st.streams ==> id in st.history)
    && (forall id :: id in st.history ==> id <= st.nextId)
    && (forall o, i :: o in st.queues && 0 <= i < |st.queues[o].log| ==> st.queues[o].log[i].stream in st.history)
  }

  predicate Agrees(st: State, id: nat, next: Option<Frame>)
    requires id in st.history
  {
    StreamInv(id, st.history[id], StreamAt(st, id), QueueOf(st, st.history[id].owner).closed, next)
  }

  predicate OthersAgree(st: State, but: nat) {
    forall id :: id in st.history && id != but ==> Agrees(st, id, NextOf(st, id))
  }

  predicate LogsAgree(st: State) {
    forall id :: id in st.history ==> LogInv(id, st.history[id], st.queues)
  }

  /** The invariant, except that stream `but` is about to be pushed `next`. */
  predicate SafeBut(st: State, but: nat, next: Option<Frame>) {
    && Known(st)
    && LogsAgree(st)
    && OthersAgree(st, but)
    && (but in st.history ==> Agrees(st, but, next))
  }

  predicate Safe(st: State) {
    && Known(st)
    && LogsAgree(st)
    && forall id :: id in st.history ==> Agrees(st, id, NextOf(st, id))
  }

  lemma SafeIsSafeBut(st: State, but: nat)
    ensures Safe(st) <==> SafeBut(st, but, NextOf(st, but))
  {
  }

  /** Sending a request, or changing channels and answers, touches nothing the invariant reads. */
  lemma SafeReadsOnly(a: State, b: State)
    requires Safe(a) && a.streams == b.streams && a.queues == b.queues && a.history == b.history && a.nextId <= b.nextId
    ensures Safe(b)
  {
    hide StreamInv, LogInv;
    assert forall id :: StreamAt(a, id) == StreamAt(b, id) && NextOf(a, id) == NextOf(b, id);
    assert forall o :: QueueOf(a, o) == QueueOf(b, o);
    forall id | id in b.history ensures Agrees(b, id, NextOf(b, id)) {
      assert Agrees(a, id, NextOf(a, id));
    }
  }

  // ---- Changing one stream ----

  /** `p` is `st` with stream `id` changed and `more`, all of stream `id`, logged for its owner. */
  ghost predicate OnlyChanges(st: State, p: State, id: nat, more: seq<Message>) {
    && id in st.history && st.history[id].owner in st.queues
    && OfStream(more, id)
    && p.nextId == st.nextId
    && id in p.history && p.history == st.history[id := p.history[id]]
    && p.history[id].owner == st.history[id].owner
    && Flat(p.history[id].entries) == Flat(st.history[id].entries) + more
    && (forall k :: k != id ==> StreamAt(p, k) == StreamAt(st, k))
    && st.history[id].owner in p.queues
    && p.queues == st.queues[st.history[id].owner := p.queues[st.history[id].owner]]
    && p.queues[st.history[id].owner].log == st.queues[st.history[id].owner].log + more
    && p.queues[st.history[id].owner].closed == st.queues[st.history[id].owner].closed
  }

  lemma ChangeKnows(st: State, p: State, id: nat, more: seq<Message>)
    requires Known(st) && OnlyChanges(st, p, id, more)
    ensures Known(p)
  {
    var owner := st.history[id].owner;
    forall k | k in p.streams ensures k in p.history {
      if k != id { assert StreamAt(p, k) == StreamAt(st, k); }
    }
    forall o, i | o in p.queues && 0 <= i < |p.queues[o].log| ensures p.queues[o].log[i].stream in p.history {
      if o == owner {
        var log := st.queues[owner].log;
        assert p.queues[o].log[i] == if i < |log| then log[i] else more[i - |log|];
      }
    }
  }

  /** One record's log after `more`, all of stream `id`, was logged for `owner`. */
  lemma LogGrows(k: nat, r: Record, r': Record, queues: map<nat, Queue>, owner: nat, q: Queue, more: seq<Message>, id: nat)
    requires LogInv(k, r, queues) && owner in queues && OfStream(more, id) && q.log == queues[owner].log + more
    requires r'.owner == r.owner && Flat(r'.entries) == Flat(r.entries) + (if k == id then more else [])
    requires k == id ==> r.owner == owner
    ensures LogInv(k, r', queues[owner := q])
  {
    hide Delivered, Flat, OfStream;
    DeliveredAppends(queues[owner].log, more, id, k);
    assert Flat(r.entries) + [] == Flat(r.entries);
  }

  lemma ChangeLogs(st: State, p: State, id: nat, more: seq<Message>)
    requires LogsAgree(st) && OnlyChanges(st, p, id, more)
    ensures LogsAgree(p)
  {
    hide LogInv, OfStream, Flat, StreamAt;
    var owner := st.history[id].owner;
    forall k | k in p.history ensures LogInv(k, p.history[k], p.queues) {
      assert LogInv(k, st.history[k], st.queues);
      assert Flat(st.history[k].entries) + [] == Flat(st.history[k].entries);
      LogGrows(k, st.history[k], p.history[k], st.queues, owner, p.queues[owner], more, id);
    }
  }

  lemma ChangeLeavesOthers(st: State, p: State, id: nat, more: seq<Message>)
    requires OthersAgree(st, id) && OnlyChanges(st, p, id, more)
    ensures OthersAgree(p, id)
  {
    forall k | k in p.history && k != id ensures Agrees(p, k, NextOf(p, k)) {
      assert Agrees(st, k, NextOf(st, k));
      assert StreamAt(p, k) == StreamAt(st, k) && NextOf(p, k) == NextOf(st, k);
      assert QueueOf(p, p.history[k].owner).closed == QueueOf(st, st.history[k].owner).closed;
    }
  }

  lemma ChangeKeepsSafe(st: State, p: State, id: nat, more: seq<Message>, before: Option<Frame>, next: Option<Frame>)
    requires SafeBut(st, id, before) && OnlyChanges(st, p, id, more) && Agrees(p, id, next)
    ensures SafeBut(p, id, next)
  {
    ChangeKnows(st, p, id, more);
    ChangeLogs(st, p, id, more);
    ChangeLeavesOthers(st, p, id, more);
  }

  // ---- Pushing ----

  function NextPushed(t: Stream, frame: Frame): Option<Frame> {
    if t.opening.Some? then FirstBuffered(t) else Some(frame)
  }

  /** A push without its resync request. */
  function PushLocal(st: State, id: nat, frame: Frame): State
    requires id in st.streams
  {
    var t := st.streams[id];
    var r := PushFrame(id, t, QueueOf(st, t.owner), frame);
    Note(st.(streams := st.streams[id := r.stream], queues := st.queues[t.owner := r.queue]), id, r.entries)
  }

  lemma PushOnlyChanges(st: State, id: nat, frame: Frame)
    requires id in st.streams && id in st.history && st.history[id].owner in st.queues
    requires st.streams[id].owner == st.history[id].owner
    ensures var t := st.streams[id];
            OnlyChanges(st, PushLocal(st, id, frame), id, Flat(PushFrame(id, t, QueueOf(st, t.owner), frame).entries))
  {
    var t := st.streams[id];
    PushLogs(id, t, QueueOf(st, t.owner), frame);
    FlatAppends(st.history[id].entries, PushFrame(id, t, QueueOf(st, t.owner), frame).entries);
  }

  lemma PushLocalAgrees(st: State, id: nat, frame: Frame)
    requires id in st.streams && id in st.history && Agrees(st, id, NextPushed(st.streams[id], frame))
    ensures var p := PushLocal(st, id, frame);
            Agrees(p, id, NextOf(p, id))
  {
    var t := st.streams[id];
    var q, h := QueueOf(st, t.owner), st.history[id].entries;
    PushKeepsGapSafety(id, t, q, h, frame);
    PushLogs(id, t, q, frame);
  }

  lemma PushLocalSafe(st: State, id: nat, frame: Frame)
    requires id in st.streams && SafeBut(st, id, NextPushed(st.streams[id], frame))
    ensures var p := PushLocal(st, id, frame);
            SafeBut(p, id, NextOf(p, id))
  {
    var t := st.streams[id];
    assert LogInv(id, st.history[id], st.queues);
    assert id in st.history && t.owner == st.history[id].owner;
    PushOnlyChanges(st, id, frame);
    PushLocalAgrees(st, id, frame);
    var p := PushLocal(st, id, frame);
    ChangeKeepsSafe(st, p, id, Flat(PushFrame(id, t, QueueOf(st, t.owner), frame).entries),
                    NextPushed(t, frame), NextOf(p, id));
  }

  lemma PushIsLocal(st: State, id: nat, frame: Frame)
    requires id in st.streams
    ensures var p, l := Push(st, id, frame), PushLocal(st, id, frame);
            p.streams == l.streams && p.queues == l.queues && p.history == l.history && p.nextId == l.nextId
  {
  }

  lemma PushKeepsSafe(st: State, id: nat, frame: Frame)
    requires id in st.streams && SafeBut(st, id, NextPushed(st.streams[id], frame))
    ensures Safe(Push(st, id, frame))
  {
    PushLocalSafe(st, id, frame);
    SafeIsSafeBut(PushLocal(st, id, frame), id);
    PushIsLocal(st, id, frame);
    SafeReadsOnly(PushLocal(st, id, frame), Push(st, id, frame));
  }

  /** Flags that need no particular next frame are content with any. */
  lemma AnyNextWillDo(st: State, id: nat, frame: Frame)
    requires id in st.streams && id in st.history && Agrees(st, id, NextOf(st, id))
    ensures Agrees(st, id, NextPushed(st.streams[id], frame))
  {
  }

  lemma PushSafely(st: State, id: nat, frame: Frame)
    requires Safe(st)
    ensures Safe(Push(st, id, frame))
  {
    if id in st.streams {
      AnyNextWillDo(st, id, frame);
      SafeIsSafeBut(st, id);
      PushKeepsSafe(st, id, frame);
    }
  }

  lemma {:induction false} PushAllSafely(st: State, id: nat, frames: seq<Frame>)
    requires Safe(st)
    ensures Safe(PushAll(st, id, frames))
    decreases |frames|
  {
    if frames != [] {
      hide Safe, Push;
      PushSafely(st, id, frames[0]);
      PushAllSafely(Push(st, id, frames[0]), id, frames[1..]);
    }
  }

  lemma {:induction false} EndAllSafely(st: State, ids: seq<nat>, reason: EndReason)
    requires Safe(st)
    ensures Safe(EndAll(st, ids, reason))
    decreases |ids|
  {
    if ids != [] {
      hide Safe, Push;
      PushSafely(st, ids[0], Ended(reason));
      EndAllSafely(Push(st, ids[0], Ended(reason)), ids[1..], reason);
    }
  }

  // ---- Dropping or taking a buffer ----

  /** Writing off frames while changing the stream's own entry logs nothing. */
  lemma WriteOffOnlyChanges(st: State, id: nat, frames: seq<Frame>, streams: map<nat, Stream>)
    requires id in st.history && st.history[id].owner in st.queues
    requires forall k :: k != id ==> (k in streams <==> k in st.streams) && (k in streams ==> streams[k] == st.streams[k])
    ensures OnlyChanges(st, Note(st.(streams := streams), id, Dropped(frames)), id, [])
  {
    FlatOfDropped(frames);
    FlatAppends(st.history[id].entries, Dropped(frames));
    var owner := st.history[id].owner;
    assert st.queues[owner := st.queues[owner]] == st.queues;
    assert st.queues[owner].log + [] == st.queues[owner].log;
  }

  lemma RemovedAgrees(st: State, id: nat, frames: seq<Frame>)
    requires id in st.history && GapSafe(id, st.history[id].entries)
    ensures Agrees(Note(st.(streams := st.streams - {id}), id, Dropped(frames)), id, None)
  {
    DroppingIsGapSafe(id, st.history[id].entries, frames);
  }

  lemma SafeStream(st: State, id: nat)
    requires Safe(st) && id in st.streams
    ensures id in st.history && st.history[id].owner in st.queues && GapSafe(id, st.history[id].entries)
  {
    assert LogInv(id, st.history[id], st.queues);
    assert Agrees(st, id, NextOf(st, id));
  }

  lemma RemoveLocalSafe(st: State, id: nat, frames: seq<Frame>)
    requires Safe(st) && id in st.streams
    ensures SafeBut(Note(st.(streams := st.streams - {id}), id, Dropped(frames)), id, None)
  {
    hide Safe, SafeBut, OnlyChanges, Agrees, NextOf, Note, Dropped, GapSafe;
    SafeStream(st, id);
    SafeIsSafeBut(st, id);
    WriteOffOnlyChanges(st, id, frames, st.streams - {id});
    RemovedAgrees(st, id, frames);
    ChangeKeepsSafe(st, Note(st.(streams := st.streams - {id}), id, Dropped(frames)), id, [], NextOf(st, id), None);
  }

  /** Removing is writing the buffer off, and a request. */
  lemma RemoveIsLocal(st: State, id: nat)
    requires id in st.streams
    ensures var p, l := Remove(st, id), Note(st.(streams := st.streams - {id}), id, Dropped(Buffered(st.streams[id])));
            && p.streams == l.streams && p.queues == l.queues && p.history == l.history && p.nextId == l.nextId
            && id !in l.streams
  {
    hide Dropped;
  }

  lemma RemoveSafely(st: State, id: nat)
    requires Safe(st)
    ensures Safe(Remove(st, id))
  {
    hide Safe, SafeBut, Remove, Note, Dropped, Buffered;
    if id in st.streams {
      var frames := Buffered(st.streams[id]);
      var p := Note(st.(streams := st.streams - {id}), id, Dropped(frames));
      RemoveLocalSafe(st, id, frames);
      RemoveIsLocal(st, id);
      SafeIsSafeBut(p, id);
      SafeReadsOnly(p, Remove(st, id));
    } else {
      RemoveNothing(st, id);
    }
  }

  lemma RemoveNothing(st: State, id: nat)
    requires id !in st.streams
    ensures Remove(st, id) == st
  {
  }

  lemma {:induction false} RemoveAllSafely(st: State, ids: seq<nat>)
    requires Safe(st)
    ensures Safe(RemoveAll(st, ids))
    decreases |ids|
  {
    if ids != [] {
      RemoveSafely(st, ids[0]);
      RemoveAllSafely(Remove(st, ids[0]), ids[1..]);
    }
  }

  /** Taking the buffer out leaves the first buffered frame as the next one pushed. */
  lemma TakenAgrees(st: State, id: nat)
    requires id in st.streams && id in st.history && st.streams[id].opening.Some? && Agrees(st, id, NextOf(st, id))
    ensures Agrees(st.(streams := st.streams[id := st.streams[id].(opening := None)]), id, NextOf(st, id))
  {
  }

  lemma TakingOnlyChanges(st: State, id: nat, t: Stream)
    requires id in st.history && st.history[id].owner in st.queues
    ensures OnlyChanges(st, st.(streams := st.streams[id := t]), id, [])
  {
    var r := st.history[id];
    assert st.history[id := r] == st.history && st.queues[r.owner := st.queues[r.owner]] == st.queues;
    assert Flat(r.entries) + [] == Flat(r.entries) && st.queues[r.owner].log + [] == st.queues[r.owner].log;
  }

  lemma TakingTheBuffer(st: State, id: nat)
    requires Safe(st) && id in st.streams && st.streams[id].opening.Some?
    ensures SafeBut(st.(streams := st.streams[id := st.streams[id].(opening := None)]), id, NextOf(st, id))
  {
    assert LogInv(id, st.history[id], st.queues);
    SafeIsSafeBut(st, id);
    var t := st.streams[id].(opening := None);
    TakingOnlyChanges(st, id, t);
    TakenAgrees(st, id);
    ChangeKeepsSafe(st, st.(streams := st.streams[id := t]), id, [], NextOf(st, id), NextOf(st, id));
  }

  lemma FlushSafely(taken: State, id: nat, frames: seq<Frame>)
    requires id in taken.streams && taken.streams[id].opening.None?
    requires SafeBut(taken, id, if frames == [] then None else Some(frames[0]))
    ensures Safe(PushAll(taken, id, frames))
  {
    if frames == [] {
      SafeIsSafeBut(taken, id);
    } else {
      PushKeepsSafe(taken, id, frames[0]);
      PushAllSafely(Push(taken, id, frames[0]), id, frames[1..]);
    }
  }

  lemma ActivateSafely(st: State, id: nat)
    requires Safe(st)
    ensures Safe(Activate(st, id))
  {
    if id in st.streams && st.streams[id].opening.Some? {
      var t := st.streams[id];
      var taken := st.(streams := st.streams[id := t.(opening := None)]);
      assert SafeBut(taken, id, if t.opening.value == [] then None else Some(t.opening.value[0])) by {
        TakingTheBuffer(st, id);
      }
      assert Activate(st, id) == PushAll(taken, id, t.opening.value);
      FlushSafely(taken, id, t.opening.value);
    }
  }

  /** The flags once the buffer is gone and the end is about to be pushed. */
  lemma EmptiedAgrees(st: State, id: nat, frames: seq<Frame>, end: Frame)
    requires id in st.streams && id in st.history && Agrees(st, id, NextOf(st, id)) && end.Ended?
    ensures var t := st.streams[id].(opening := None, lagging := false);
            Agrees(Note(st.(streams := st.streams[id := t]), id, Dropped(frames)), id, Some(end))
  {
    DroppingIsGapSafe(id, st.history[id].entries, frames);
  }

  lemma EmptiedSafely(st: State, id: nat, frames: seq<Frame>, end: Frame)
    requires Safe(st) && id in st.streams && frames == Buffered(st.streams[id]) && end.Ended?
    ensures var streams := st.streams[id := st.streams[id].(opening := None, lagging := false)];
            SafeBut(Note(st.(streams := streams), id, Dropped(frames)), id, Some(end))
  {
    SafeStream(st, id);
    assert Agrees(st, id, NextOf(st, id));
    hide Safe, SafeBut, OnlyChanges, Agrees, NextOf, Note, Dropped, LogInv;
    var streams := st.streams[id := st.streams[id].(opening := None, lagging := false)];
    WriteOffOnlyChanges(st, id, frames, streams);
    EmptiedAgrees(st, id, frames, end);
    SafeIsSafeBut(st, id);
    ChangeKeepsSafe(st, Note(st.(streams := streams), id, Dropped(frames)), id, [], NextOf(st, id), Some(end));
  }

  lemma EndedSafely(st: State, id: nat, end: Frame)
    requires id in st.streams && st.streams[id].opening.None? && SafeBut(st, id, Some(end))
    ensures Safe(Remove(Push(st, id, end), id))
  {
    hide Safe, SafeBut, Push, Remove;
    PushKeepsSafe(st, id, end);
    RemoveSafely(Push(st, id, end), id);
  }

  lemma CloseSafely(st: State, owner: nat, id: nat)
    requires Safe(st)
    ensures Safe(CloseStream(st, owner, id))
  {
    if id in st.streams && st.streams[id].owner == owner {
      hide Safe, SafeBut, Push, Remove, Dropped;
      var frames, end := Buffered(st.streams[id]), Ended(ClosedByDevice);
      var streams := st.streams[id := st.streams[id].(opening := None, lagging := false)];
      var emptied := Note(st.(streams := streams), id, Dropped(frames));
      EmptiedSafely(st, id, frames, end);
      EndedSafely(emptied, id, end);
    }
  }

  // ---- Opening, and what devices do ----

  lemma {:induction false} NothingOf(log: seq<Message>, id: nat)
    requires forall i :: 0 <= i < |log| ==> log[i].stream != id
    ensures Delivered(log, id) == []
  {
    if log != [] {
      NothingOf(log[..|log| - 1], id);
    }
  }

  lemma NewStreamLogs(st: State, id: nat, r: Record)
    requires Known(st) && LogsAgree(st) && id !in st.history && r.owner in st.queues && r.entries == []
    ensures LogsAgree(st.(history := st.history[id := r]))
  {
    var history := st.history[id := r];
    forall k | k in history ensures LogInv(k, history[k], st.queues) {
      if k == id {
        forall o | o in st.queues ensures Delivered(st.queues[o].log, id) == [] {
          NothingOf(st.queues[o].log, id);
        }
      } else {
        assert LogInv(k, st.history[k], st.queues);
      }
    }
  }

  lemma NewStreamAgrees(st: State, id: nat, r: Record, t: Stream, k: nat)
    requires k in st.history[id := r] && r.entries == []
    requires t.owner == r.owner && t.channel == r.channel && !t.ended
    requires k != id ==> Agrees(st, k, NextOf(st, k))
    ensures var p := st.(streams := st.streams[id := t], history := st.history[id := r]);
            Agrees(p, k, NextOf(p, k))
  {
    var p := st.(streams := st.streams[id := t], history := st.history[id := r]);
    assert k != id ==> StreamAt(p, k) == StreamAt(st, k) && NextOf(p, k) == NextOf(st, k);
  }

  lemma NewStreamKnown(st: State, p: State, id: nat, r: Record, t: Stream)
    requires Known(st) && id == st.nextId + 1 && id <= p.nextId
    requires p.queues == st.queues && p.streams == st.streams[id := t] && p.history == st.history[id := r]
    ensures Known(p)
  {
  }

  lemma NewStreamSafely(st: State, p: State, id: nat, r: Record, t: Stream)
    requires Safe(st) && id == st.nextId + 1 && id <= p.nextId && r.owner in st.queues
    requires r.entries == [] && t.owner == r.owner && t.channel == r.channel && !t.ended
    requires p.queues == st.queues && p.streams == st.streams[id := t] && p.history == st.history[id := r]
    ensures Safe(p)
  {
    NewStreamKnown(st, p, id, r, t);
    assert LogsAgree(p) by {
      assert id !in st.history;
      NewStreamLogs(st, id, r);
    }
    forall k | k in p.history ensures Agrees(p, k, NextOf(p, k)) {
      NewStreamAgrees(st, id, r, t, k);
      SameAgrees(st.(streams := st.streams[id := t], history := st.history[id := r]), p, k);
    }
  }

  lemma SameAgrees(a: State, b: State, k: nat)
    requires a.streams == b.streams && a.queues == b.queues && a.history == b.history
    requires k in a.history && Agrees(a, k, NextOf(a, k))
    ensures Agrees(b, k, NextOf(b, k))
  {
  }

  lemma OpenEffects(st: State, owner: nat, source: string, invocation: string)
    requires source in st.channels
    ensures var p := OpenStream(st, owner, source, invocation);
            var channel := st.channels[source].id;
            && p.nextId == st.nextId + 2 && p.queues == st.queues
            && p.streams == st.streams[st.nextId + 1 := Stream(source, channel, owner, Some([]), false, false)]
            && p.history == st.history[st.nextId + 1 := Record(owner, channel, [])]
  {
  }

  lemma OpenSafely(st: State, owner: nat, source: string, invocation: string)
    requires Safe(st) && owner in st.queues
    ensures Safe(OpenStream(st, owner, source, invocation))
  {
    var p := OpenStream(st, owner, source, invocation);
    if source in st.channels {
      var channel := st.channels[source].id;
      OpenEffects(st, owner, source, invocation);
      NewStreamSafely(st, p, st.nextId + 1, Record(owner, channel, []),
                      Stream(source, channel, owner, Some([]), false, false));
    } else {
      SafeReadsOnly(st, p);
    }
  }

  lemma ClosingKeepsInv(id: nat, r: Record, t: Option<Stream>, closed: bool, next: Option<Frame>)
    requires StreamInv(id, r, t, false, next)
    ensures StreamInv(id, r, t, closed, next)
  {
  }

  lemma SameLogsAgree(st: State, owner: nat, q: Queue)
    requires LogsAgree(st) && q.log == QueueOf(st, owner).log
    ensures LogsAgree(st.(queues := st.queues[owner := q]))
  {
    var p := st.(queues := st.queues[owner := q]);
    forall k | k in p.history ensures LogInv(k, p.history[k], p.queues) {
      assert LogInv(k, st.history[k], st.queues);
    }
  }

  lemma QueueStepAgrees(st: State, owner: nat, q: Queue, k: nat)
    requires k in st.history && Agrees(st, k, NextOf(st, k)) && st.history[k].owner in st.queues
    requires owner in st.queues ==> (st.queues[owner].closed ==> q.closed)
    ensures var p := st.(queues := st.queues[owner := q]);
            Agrees(p, k, NextOf(p, k))
  {
    var p, r := st.(queues := st.queues[owner := q]), st.history[k];
    if !QueueOf(st, r.owner).closed {
      ClosingKeepsInv(k, r, StreamAt(st, k), QueueOf(p, r.owner).closed, NextOf(st, k));
    }
  }

  /** Devices only free slots, lose slots to other traffic, connect, or go away for good. */
  lemma QueueStepSafely(st: State, owner: nat, q: Queue)
    requires Safe(st) && q.log == QueueOf(st, owner).log
    requires owner in st.queues ==> (st.queues[owner].closed ==> q.closed)
    ensures Safe(st.(queues := st.queues[owner := q]))
  {
    var p := st.(queues := st.queues[owner := q]);
    assert Known(p) by {
      hide LogsAgree, Agrees;
      assert forall o :: o in p.queues && o != owner ==> o in st.queues && p.queues[o] == st.queues[o];
    }
    SameLogsAgree(st, owner, q);
    forall k | k in p.history ensures Agrees(p, k, NextOf(p, k)) {
      assert LogInv(k, st.history[k], st.queues);
      QueueStepAgrees(st, owner, q, k);
    }
    hide Known, LogsAgree, Agrees, QueueOf;
  }

  lemma ChannelStepSafely(st: State, step: Step)
    requires Safe(st) && (step.AttachStep? || step.DetachStep?)
    ensures Safe(After(st, step))
  {
    hide Safe, EndAll;
    match step
    case AttachStep(source, order) =>
      var id := st.nextId + 1;
      var bound := st.(nextId := id, channels := st.channels[source := Channel(id, {})], wire := st.wire[id := []]);
      SafeReadsOnly(st, bound);
      EndAllSafely(bound, order, SourceUnavailable);
    case DetachStep(source, id, order) =>
      var dropped := if Current(st, source, id) then st.(channels := st.channels - {source}) else st;
      SafeReadsOnly(st, dropped);
      EndAllSafely(dropped, order, SourceUnavailable);
  }

  lemma QueueMoveSafely(st: State, step: Step)
    requires Safe(st) && (step.ConnectStep? || step.DrainStep? || step.FillStep? || step.DisconnectStep?)
    ensures Safe(After(st, step))
  {
    var p, owner := After(st, step), step.owner;
    if p != st {
      assert owner in p.queues && p == st.(queues := st.queues[owner := p.queues[owner]]);
      QueueStepSafely(st, owner, p.queues[owner]);
    }
  }

  lemma RequestStepEffects(st: State, step: Step)
    requires step.InputStep? || step.TimeoutStep? || step.AnswerStep?
    ensures var p := After(st, step);
            p.streams == st.streams && p.queues == st.queues && p.history == st.history && st.nextId <= p.nextId
  {
  }

  lemma RequestStepSafely(st: State, step: Step)
    requires Safe(st) && (step.InputStep? || step.TimeoutStep? || step.AnswerStep?)
    ensures Safe(After(st, step))
  {
    RequestStepEffects(st, step);
    SafeReadsOnly(st, After(st, step));
  }

  lemma StreamStepSafely(st: State, step: Step)
    requires Safe(st)
    requires step.ActivateStep? || step.AbandonStep? || step.CloseStep? || step.ReleaseStep? || step.FrameStep?
    ensures Safe(After(st, step))
  {
    match step
    case ActivateStep(id) => ActivateSafely(st, id);
    case AbandonStep(id) => RemoveSafely(st, id);
    case CloseStep(owner, id) => CloseSafely(st, owner, id);
    case ReleaseStep(owner, order) => RemoveAllSafely(st, order);
    case FrameStep(channel, id, frame) => PushSafely(st, id, frame);
  }

  lemma StepKeepsSafe(st: State, step: Step)
    requires Safe(st)
    ensures Safe(After(st, step))
  {
    if step.AttachStep? || step.DetachStep? {
      ChannelStepSafely(st, step);
    } else if step.InputStep? || step.TimeoutStep? || step.AnswerStep? {
      RequestStepSafely(st, step);
    } else if step.ConnectStep? || step.DrainStep? || step.FillStep? || step.DisconnectStep? {
      QueueMoveSafely(st, step);
    } else if step.OpenStep? {
      if step.owner in st.queues { OpenSafely(st, step.owner, step.source, step.invocation); }
    } else {
      StreamStepSafely(st, step);
    }
  }

  lemma {:induction false} RunIsSafe(steps: seq<Step>)
    ensures Safe(Run(steps))
  {
    if steps != [] {
      RunIsSafe(steps[..|steps| - 1]);
      StepKeepsSafe(Run(steps[..|steps| - 1]), steps[|steps| - 1]);
    }
  }

  /**
   * Over every run, for every stream ever opened: its own device's queue holds, for this stream,
   * the concatenation in source order of a prefix of each frame's messages; no other queue holds
   * any; after a wholly or partly dropped frame the next frame of which anything was sent is a
   * snapshot or the end; and nothing was sent after an end that was sent.
   */
  lemma DevicesSeeNoGaps(steps: seq<Step>, id: nat, o: nat)
    requires id in Run(steps).history && o in Run(steps).queues
    ensures var r, log := Run(steps).history[id], Run(steps).queues[o].log;
            && Delivered(log, id) == (if o == r.owner then Flat(r.entries) else [])
            && (forall i :: 0 <= i < |r.entries| ==> r.entries[i].sent <= DeviceMessages(id, r.entries[i].frame))
            && (forall i, j :: 0 <= i < j < |r.entries| && Loses(id, r.entries, i, j) ==> Restarts(r.entries[j].frame))
            && (forall i, j :: 0 <= i < j < |r.entries| && r.entries[i].frame.Ended? && r.entries[i].sent != []
                               ==> r.entries[j].sent == [])
  {
    RunIsSafe(steps);
    var h := Run(steps).history[id].entries;
    assert LogInv(id, Run(steps).history[id], Run(steps).queues);
    assert Agrees(Run(steps), id, NextOf(Run(steps), id));
    forall i | 0 <= i < |h| ensures h[i].sent <= DeviceMessages(id, h[i].frame) {
      EntryIsPrefix(id, h, i);
    }
    forall i, j | 0 <= i < j < |h| && Loses(id, h, i, j) ensures Restarts(h[j].frame) {
      GapsEndInARestart(id, h, i, j);
    }
    forall i, j | 0 <= i < j < |h| && h[i].frame.Ended? && h[i].sent != [] ensures h[j].sent == [] {
      NothingFollowsTheEnd(id, h, i, j);
    }
  }

  /** Frame `i` was not wholly sent, and frame `j` is the next of which anything was. */
  predicate Loses(id: nat, h: seq<Entry>, i: nat, j: nat)
    requires i < j < |h|
  {
    !Whole(id, h[i]) && h[j].sent != [] && forall k :: i < k < j ==> h[k].sent == []
  }
}
