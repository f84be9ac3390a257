/** Every frame handed to a stream is accounted for, in the order it was handed over. */
module RelayOrder {
  import opened Common
  import opened RelayStream
  import opened Relay
  import opened RelaySafety

  function Frames(h: seq<Entry>): seq<Frame> {
    if h == [] then [] else Frames(h[..|h| - 1]) + [h[|h| - 1].frame]
  }

  lemma FramesSnoc(h: seq<Entry>, e: Entry)
    ensures Frames(h + [e]) == Frames(h) + [e.frame]
  {
    Appended(h, e);
  }

  lemma {:induction false} FramesAppends(h: seq<Entry>, more: seq<Entry>)
    ensures Frames(h + more) == Frames(h) + Frames(more)
  {
    if more == [] {
      assert h + more == h;
    } else {
      hide Frames;
      var n := |more| - 1;
      FramesAppends(h, more[..n]);
      FramesSnoc(h + more[..n], more[n]);
      FramesSnoc(more[..n], more[n]);
      LastComesOff(h, more);
      Reassociate(Frames(h), Frames(more[..n]), [more[n].frame]);
    }
  }

  lemma {:induction false} FramesOfDropped(frames: seq<Frame>)
    ensures Frames(Dropped(frames)) == frames
  {
    if frames != [] {
      var n := |frames| - 1;
      FramesOfDropped(frames[..n]);
      Appended(Dropped(frames[..n]), Entry(frames[n], []));
    }
  }

  /** A push records or buffers the frame after everything handed over before it. */
  lemma PushAccounts(id: nat, t: Stream, q: Queue, frame: Frame)
    requires t.ended ==> t.opening.None?
    ensures var r := PushFrame(id, t, q, frame);
            Frames(r.entries) + Buffered(r.stream) == Buffered(t) + [frame]
  {
    var buffer := Buffered(t);
    FramesOfDropped(buffer);
    FramesOfDropped(buffer + [frame]);
    Appended([], Entry(frame, []));
    Appended([], Entry(frame, Enqueued(q, DeviceMessages(id, frame))));
    assert [] + [Entry(frame, [])] == [Entry(frame, [])];
    assert [] + [Entry(frame, Enqueued(q, DeviceMessages(id, frame)))] == [Entry(frame, Enqueued(q, DeviceMessages(id, frame)))];
  }

  /** Everything handed to a stream: what its record accounts for, then what is still buffered. */
  function Handed(st: State, id: nat): seq<Frame> {
    Frames(RecordOf(st, id).entries) + (if id in st.streams then Buffered(st.streams[id]) else [])
  }

  predicate EndedIsOpen(st: State) {
    forall id :: id in st.streams && st.streams[id].ended ==> st.streams[id].opening.None?
  }

  function HandedTo(live: bool, id: nat, k: nat, frames: seq<Frame>): seq<Frame> {
    if k == id && live then frames else []
  }

  lemma PushShape(st: State, id: nat, frame: Frame)
    requires id in st.streams
    ensures var p, t := Push(st, id, frame), st.streams[id];
            var r := PushFrame(id, t, QueueOf(st, t.owner), frame);
            && p.streams == st.streams[id := r.stream]
            && RecordOf(p, id).entries == RecordOf(st, id).entries + r.entries
            && (forall k :: k != id ==> RecordOf(p, k) == RecordOf(st, k))
  {
    hide PushFrame;
  }

  lemma PushedIsOpen(id: nat, t: Stream, q: Queue, frame: Frame)
    requires t.ended ==> t.opening.None?
    ensures var u := PushFrame(id, t, q, frame).stream; u.ended ==> u.opening.None?
  {
    hide Dropped, Enqueued, DeviceMessages;
  }

  lemma PushKeepsOpen(st: State, id: nat, frame: Frame)
    requires EndedIsOpen(st) && id in st.streams
    ensures EndedIsOpen(Push(st, id, frame)) && Push(st, id, frame).streams.Keys == st.streams.Keys
  {
    hide Push, PushFrame, RecordOf, QueueOf;
    PushShape(st, id, frame);
    PushedIsOpen(id, st.streams[id], QueueOf(st, st.streams[id].owner), frame);
  }

  /** `entries`, then the new buffer, is the old buffer and the frame. */
  lemma Rejoin<T>(h: seq<T>, entries: seq<T>, after: seq<T>, before: seq<T>, frame: T)
    requires entries + after == before + [frame]
    ensures (h + entries) + after == (h + before) + [frame]
  {
    Reassociate(h, entries, after);
    Reassociate(h, before, [frame]);
  }

  lemma PushHandsOne(st: State, id: nat, frame: Frame)
    requires EndedIsOpen(st) && id in st.streams
    ensures Handed(Push(st, id, frame), id) == Handed(st, id) + [frame]
  {
    hide Push, PushFrame, Frames, RecordOf, QueueOf, Buffered;
    var t := st.streams[id];
    var r := PushFrame(id, t, QueueOf(st, t.owner), frame);
    PushShape(st, id, frame);
    PushAccounts(id, t, QueueOf(st, t.owner), frame);
    FramesAppends(RecordOf(st, id).entries, r.entries);
    Rejoin(Frames(RecordOf(st, id).entries), Frames(r.entries), Buffered(r.stream), Buffered(t), frame);
  }

  lemma PushHands(st: State, id: nat, frame: Frame, k: nat)
    requires EndedIsOpen(st)
    ensures Handed(Push(st, id, frame), k) == Handed(st, k) + HandedTo(id in st.streams, id, k, [frame])
    ensures EndedIsOpen(Push(st, id, frame)) && Push(st, id, frame).streams.Keys == st.streams.Keys
  {
    assert Handed(st, k) + [] == Handed(st, k);
    if id in st.streams {
      PushKeepsOpen(st, id, frame);
      PushShape(st, id, frame);
      if k == id {
        PushHandsOne(st, id, frame);
      }
      hide Push, PushFrame, Frames, RecordOf, QueueOf, EndedIsOpen;
    }
  }

  lemma HandedToSplits(live: bool, id: nat, k: nat, frames: seq<Frame>)
    requires frames != []
    ensures HandedTo(live, id, k, [frames[0]]) + HandedTo(live, id, k, frames[1..]) == HandedTo(live, id, k, frames)
  {
  }

  lemma {:induction false} PushAllHands(st: State, id: nat, frames: seq<Frame>, k: nat)
    requires EndedIsOpen(st)
    ensures Handed(PushAll(st, id, frames), k) == Handed(st, k) + HandedTo(id in st.streams, id, k, frames)
    ensures EndedIsOpen(PushAll(st, id, frames))
    decreases |frames|
  {
    if frames == [] {
      assert Handed(st, k) + [] == Handed(st, k);
    } else {
      hide Handed, EndedIsOpen, Push, HandedTo;
      var live := id in st.streams;
      PushHands(st, id, frames[0], k);
      PushAllHands(Push(st, id, frames[0]), id, frames[1..], k);
      HandedToSplits(live, id, k, frames);
      Reassociate(Handed(st, k), HandedTo(live, id, k, [frames[0]]), HandedTo(live, id, k, frames[1..]));
    }
  }

  /** The ends that ending `ids` hands to stream `k`. */
  function Ends(ids: seq<nat>, k: nat, reason: EndReason): seq<Frame> {
    if ids == [] then [] else (if ids[0] == k then [Ended(reason)] else []) + Ends(ids[1..], k, reason)
  }

  function EndsFor(live: bool, ids: seq<nat>, k: nat, reason: EndReason): seq<Frame> {
    if live then Ends(ids, k, reason) else []
  }

  lemma {:induction false} EndAllHands(st: State, ids: seq<nat>, reason: EndReason, k: nat)
    requires EndedIsOpen(st)
    ensures Handed(EndAll(st, ids, reason), k) == Handed(st, k) + EndsFor(k in st.streams, ids, k, reason)
    ensures EndedIsOpen(EndAll(st, ids, reason))
    decreases |ids|
  {
    if ids == [] {
      assert Handed(st, k) + [] == Handed(st, k);
    } else {
      hide Handed, EndedIsOpen, Push;
      var live := k in st.streams;
      PushHands(st, ids[0], Ended(reason), k);
      EndAllHands(Push(st, ids[0], Ended(reason)), ids[1..], reason, k);
      var first := if k == ids[0] && live then [Ended(reason)] else [];
      assert first + EndsFor(live, ids[1..], k, reason) == EndsFor(live, ids, k, reason);
      Reassociate(Handed(st, k), first, EndsFor(live, ids[1..], k, reason));
    }
  }

  lemma RemoveShape(st: State, id: nat)
    requires id in st.streams
    ensures var p := Remove(st, id);
            && p.streams == st.streams - {id}
            && RecordOf(p, id).entries == RecordOf(st, id).entries + Dropped(Buffered(st.streams[id]))
            && (forall k :: k != id ==> RecordOf(p, k) == RecordOf(st, k))
  {
    hide Dropped;
  }

  /** Writing the buffer off moves it from the buffer to the record. */
  lemma WrittenOff(entries: seq<Entry>, frames: seq<Frame>)
    ensures Frames(entries + Dropped(frames)) + [] == Frames(entries) + frames
  {
    hide Frames, Dropped;
    FramesAppends(entries, Dropped(frames));
    FramesOfDropped(frames);
    NothingAdded(Frames(entries) + frames);
  }

  lemma RemoveHands(st: State, id: nat, k: nat)
    ensures Handed(Remove(st, id), k) == Handed(st, k)
  {
    if id in st.streams {
      RemoveShape(st, id);
      WrittenOff(RecordOf(st, id).entries, Buffered(st.streams[id]));
      hide Remove, RecordOf, Frames, Dropped, Buffered;
    }
  }

  lemma RemoveKeepsOpen(st: State, id: nat)
    requires EndedIsOpen(st)
    ensures EndedIsOpen(Remove(st, id))
  {
  }

  lemma {:induction false} RemoveAllHands(st: State, ids: seq<nat>, k: nat)
    requires EndedIsOpen(st)
    ensures Handed(RemoveAll(st, ids), k) == Handed(st, k) && EndedIsOpen(RemoveAll(st, ids))
    decreases |ids|
  {
    if ids != [] {
      hide Handed, EndedIsOpen, Remove;
      RemoveHands(st, ids[0], k);
      RemoveKeepsOpen(st, ids[0]);
      RemoveAllHands(Remove(st, ids[0]), ids[1..], k);
    }
  }

  /** What a step hands to stream `k`: the source's frame, or the ends the hub makes itself. */
  function Given(st: State, step: Step, k: nat): seq<Frame> {
    if k !in st.streams then []
    else
      match step
      case FrameStep(channel, id, frame) =>
        if id == k && st.streams[id].channel == channel then [frame] else []
      case AttachStep(source, order) =>
        if source in st.channels then Ends(order, k, SourceUnavailable) else []
      case DetachStep(_, _, order) => Ends(order, k, SourceUnavailable)
      case CloseStep(owner, id) =>
        if id == k && st.streams[id].owner == owner then [Ended(ClosedByDevice)] else []
      case _ => []
  }

  /** Taking the buffer out, and handing it over again. */
  lemma TakingHands(st: State, id: nat, k: nat)
    requires id in st.streams && st.streams[id].opening.Some?
    ensures var t := st.streams[id];
            var taken := st.(streams := st.streams[id := t.(opening := None)]);
            Handed(taken, k) + HandedTo(true, id, k, t.opening.value) == Handed(st, k)
  {
    hide Frames;
    var t := st.streams[id];
    var taken := st.(streams := st.streams[id := t.(opening := None)]);
    assert RecordOf(taken, k) == RecordOf(st, k);
    assert k != id ==> Handed(taken, k) + [] == Handed(st, k);
    var h := Frames(RecordOf(st, k).entries);
    assert h + [] + t.opening.value == h + t.opening.value;
  }

  lemma ActivateHands(st: State, id: nat, k: nat)
    requires EndedIsOpen(st)
    ensures Handed(Activate(st, id), k) == Handed(st, k) && EndedIsOpen(Activate(st, id))
  {
    hide PushAll, Handed, HandedTo;
    if id in st.streams && st.streams[id].opening.Some? {
      var t := st.streams[id];
      var taken := st.(streams := st.streams[id := t.(opening := None)]);
      PushAllHands(taken, id, t.opening.value, k);
      TakingHands(st, id, k);
    }
  }

  lemma EmptyingHands(st: State, id: nat, k: nat)
    requires EndedIsOpen(st) && id in st.streams
    ensures var t := st.streams[id].(opening := None, lagging := false);
            var p := Note(st.(streams := st.streams[id := t]), id, Dropped(Buffered(st.streams[id])));
            Handed(p, k) == Handed(st, k) && EndedIsOpen(p) && id in p.streams
  {
    var frames := Buffered(st.streams[id]);
    FramesAppends(RecordOf(st, id).entries, Dropped(frames));
    FramesOfDropped(frames);
    NothingAdded(Frames(RecordOf(st, id).entries) + frames);
    var t := st.streams[id].(opening := None, lagging := false);
    var p := Note(st.(streams := st.streams[id := t]), id, Dropped(Buffered(st.streams[id])));
    assert k != id ==> RecordOf(p, k) == RecordOf(st, k);
  }

  lemma EndAndRemoveHands(st: State, id: nat, end: Frame, k: nat)
    requires EndedIsOpen(st) && id in st.streams
    ensures Handed(Remove(Push(st, id, end), id), k) == Handed(st, k) + HandedTo(true, id, k, [end])
    ensures EndedIsOpen(Remove(Push(st, id, end), id))
  {
    hide Push, Remove, Handed, EndedIsOpen;
    PushHands(st, id, end, k);
    RemoveHands(Push(st, id, end), id, k);
    RemoveKeepsOpen(Push(st, id, end), id);
  }

  lemma CloseHands(st: State, owner: nat, id: nat, k: nat)
    requires EndedIsOpen(st)
    ensures Handed(CloseStream(st, owner, id), k) == Handed(st, k) + Given(st, CloseStep(owner, id), k)
    ensures EndedIsOpen(CloseStream(st, owner, id))
  {
    if id in st.streams && st.streams[id].owner == owner {
      EmptyingHands(st, id, k);
      var t := st.streams[id].(opening := None, lagging := false);
      EndAndRemoveHands(Note(st.(streams := st.streams[id := t]), id, Dropped(Buffered(st.streams[id]))),
                        id, Ended(ClosedByDevice), k);
      assert k == id ==> k in st.streams;
    } else {
      assert Handed(st, k) + [] == Handed(st, k);
    }
  }

  lemma ChannelStepHands(st: State, step: Step, k: nat)
    requires EndedIsOpen(st) && (step.AttachStep? || step.DetachStep?)
    ensures Handed(After(st, step), k) == Handed(st, k) + Given(st, step, k) && EndedIsOpen(After(st, step))
  {
    match step
    case AttachStep(source, order) =>
      var id := st.nextId + 1;
      var bound := st.(nextId := id, channels := st.channels[source := Channel(id, {})], wire := st.wire[id := []]);
      assert Handed(bound, k) == Handed(st, k);
      EndAllHands(bound, order, SourceUnavailable, k);
    case DetachStep(source, id, order) =>
      var dropped := if Current(st, source, id) then st.(channels := st.channels - {source}) else st;
      assert Handed(dropped, k) == Handed(st, k);
      EndAllHands(dropped, order, SourceUnavailable, k);
  }

  lemma OpenHands(st: State, owner: nat, source: string, invocation: string, k: nat)
    requires EndedIsOpen(st) && Known(st)
    ensures var p := OpenStream(st, owner, source, invocation);
            Handed(p, k) == Handed(st, k) && EndedIsOpen(p)
  {
    if source in st.channels {
      OpenEffects(st, owner, source, invocation);
      assert st.nextId + 1 !in st.history && st.nextId + 1 !in st.streams;
    }
  }

  lemma QuietStepHands(st: State, step: Step, k: nat)
    requires EndedIsOpen(st)
    requires step.InputStep? || step.TimeoutStep? || step.AnswerStep?
             || step.ConnectStep? || step.DrainStep? || step.FillStep? || step.DisconnectStep?
    ensures Handed(After(st, step), k) == Handed(st, k) && EndedIsOpen(After(st, step))
  {
    if step.InputStep? || step.TimeoutStep? || step.AnswerStep? {
      RequestStepEffects(st, step);
    }
    hide SendInput, DropPending, DeliverAnswer, Frames;
    assert After(st, step).streams == st.streams && After(st, step).history == st.history;
  }

  lemma StepHands(st: State, step: Step, k: nat)
    requires EndedIsOpen(st) && Known(st)
    ensures Handed(After(st, step), k) == Handed(st, k) + Given(st, step, k)
    ensures EndedIsOpen(After(st, step))
  {
    hide Handed, EndedIsOpen, Known, Attach, Detach, OpenStream, Activate, CloseStream, Remove, RemoveAll, Push;
    match step
    case AttachStep(_, _) => ChannelStepHands(st, step, k);
    case DetachStep(_, _, _) => ChannelStepHands(st, step, k);
    case OpenStep(owner, source, invocation) => OpenHands(st, owner, source, invocation, k);
    case ActivateStep(id) => ActivateHands(st, id, k);
    case AbandonStep(id) => RemoveHands(st, id, k); RemoveKeepsOpen(st, id);
    case CloseStep(owner, id) => CloseHands(st, owner, id, k);
    case ReleaseStep(_, order) => RemoveAllHands(st, order, k);
    case FrameStep(_, id, frame) => PushHands(st, id, frame, k);
    case _ => QuietStepHands(st, step, k);
  }

  /** Everything a run hands to stream `k`, in order. */
  function Offered(steps: seq<Step>, k: nat): seq<Frame> {
    if steps == [] then []
    else
      var n := |steps| - 1;
      Offered(steps[..n], k) + Given(Run(steps[..n]), steps[n], k)
  }

  /**
   * Over every run, a stream's record followed by its buffer is exactly what the source and the
   * hub handed to it, in that order: no frame is skipped, repeated or moved.
   */
  lemma {:induction false} FramesKeepSourceOrder(steps: seq<Step>, k: nat)
    ensures Handed(Run(steps), k) == Offered(steps, k) && EndedIsOpen(Run(steps))
  {
    if steps != [] {
      var n := |steps| - 1;
      FramesKeepSourceOrder(steps[..n], k);
      RunIsSafe(steps[..n]);
      StepHands(Run(steps[..n]), steps[n], k);
    }
  }
}
