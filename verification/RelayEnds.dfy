/**
 * When the end of a stream reaches its device: frames that arrive before activation are buffered,
 * and an overflowing buffer forgets an end it held (crates/sessiontap-hub/src/relay.rs:151-160, 411-423).
 */
module RelayEnds {
  import opened Common
  import opened RelayStream
  import opened Relay
  import opened RelayOrder
  import RelaySafety

  /** The opening buffer after one more frame. */
  function BufferOne(buffer: seq<Frame>, frame: Frame): seq<Frame> {
    if frame.Ended? then [frame] else if |buffer| >= OPENING_BUFFER then [] else buffer + [frame]
  }

  function BufferAll(buffer: seq<Frame>, frames: seq<Frame>): seq<Frame>
    decreases |frames|
  {
    if frames == [] then buffer
    else BufferOne(BufferAll(buffer, frames[..|frames| - 1]), frames[|frames| - 1])
  }

  lemma {:induction false} BufferJoins(buffer: seq<Frame>, x: seq<Frame>, y: seq<Frame>)
    ensures BufferAll(buffer, x + y) == BufferAll(BufferAll(buffer, x), y)
    decreases |y|
  {
    if y == [] {
      NothingAdded(x);
    } else {
      var n := |y| - 1;
      BufferJoins(buffer, x, y[..n]);
      LastComesOff(x, y);
      BufferSnoc(buffer, x + y[..n], y[n]);
      hide BufferOne;
    }
  }

  lemma BufferSnoc(buffer: seq<Frame>, frames: seq<Frame>, frame: Frame)
    ensures BufferAll(buffer, frames + [frame]) == BufferOne(BufferAll(buffer, frames), frame)
  {
    hide BufferOne;
    assert (frames + [frame])[..|frames|] == frames;
  }

  // ---- What a buffer holds ----

  predicate HasEnd(frames: seq<Frame>) {
    frames != [] && (frames[|frames| - 1].Ended? || HasEnd(frames[..|frames| - 1]))
  }

  /** How many frames follow the last end. */
  function Trailing(frames: seq<Frame>): nat {
    if frames == [] || frames[|frames| - 1].Ended? then 0 else Trailing(frames[..|frames| - 1]) + 1
  }

  predicate HoldsEnd(buffer: seq<Frame>) {
    buffer != [] && buffer[0].Ended?
  }

  /** There was an end, and fewer frames after it than the buffer takes. */
  predicate EndIsHeld(frames: seq<Frame>) {
    HasEnd(frames) && Trailing(frames) < 256
  }

  predicate NoEnd(frames: seq<Frame>) {
    forall i :: 0 <= i < |frames| ==> !frames[i].Ended?
  }

  /** An opening buffer holds an end, in front, if and only if fewer than 256 frames followed the last one. */
  lemma {:induction false} BufferHoldsEndIff(frames: seq<Frame>)
    ensures var buffer := BufferAll([], frames);
            && (HoldsEnd(buffer) <==> EndIsHeld(frames))
            && (HoldsEnd(buffer) ==> |buffer| == Trailing(frames) + 1)
            && (!HoldsEnd(buffer) ==> NoEnd(buffer))
  {
    if frames != [] {
      BufferHoldsEndIff(frames[..|frames| - 1]);
    }
  }

  lemma {:induction false} TrailingCounts(end: Frame, frames: seq<Frame>)
    requires end.Ended? && NoEnd(frames)
    ensures HasEnd([end] + frames) && Trailing([end] + frames) == |frames|
    decreases |frames|
  {
    if frames == [] {
      NothingAdded([end]);
    } else {
      TrailingCounts(end, frames[..|frames| - 1]);
      LastComesOff([end], frames);
      var most, last := [end] + frames[..|frames| - 1], frames[|frames| - 1];
      assert (most + [last])[..|most|] == most && !last.Ended?;
    }
  }

  /** The 256th frame after an end makes the opening buffer forget it. */
  lemma AFullBufferForgetsTheEnd(end: Frame, frames: seq<Frame>)
    requires end.Ended? && NoEnd(frames) && |frames| == OPENING_BUFFER
    ensures HoldsEnd(BufferAll([], [end] + frames[..OPENING_BUFFER - 1]))
    ensures !HoldsEnd(BufferAll([], [end] + frames))
  {
    TrailingCounts(end, frames);
    TrailingCounts(end, frames[..OPENING_BUFFER - 1]);
    BufferHoldsEndIff([end] + frames);
    BufferHoldsEndIff([end] + frames[..OPENING_BUFFER - 1]);
  }

  // ---- Buffers over runs ----

  /** A stream that is still opening was opening before, and its buffer took exactly `frames`. */
  predicate Takes(st: State, p: State, k: nat, frames: seq<Frame>) {
    k in p.streams && p.streams[k].opening.Some? ==>
      && k in st.streams && st.streams[k].opening.Some?
      && p.streams[k].opening.value == BufferAll(st.streams[k].opening.value, frames)
  }

  lemma TakesOn(st: State, m: State, p: State, k: nat, x: seq<Frame>, y: seq<Frame>)
    requires Takes(st, m, k, x) && Takes(m, p, k, y)
    ensures Takes(st, p, k, x + y)
  {
    hide BufferAll;
    if k in st.streams && st.streams[k].opening.Some? {
      BufferJoins(st.streams[k].opening.value, x, y);
    }
  }

  lemma SameTakes(st: State, p: State, k: nat)
    requires k in p.streams && p.streams[k].opening.Some? ==> k in st.streams && p.streams[k].opening == st.streams[k].opening
    ensures Takes(st, p, k, [])
  {
  }

  lemma PushedBuffer(id: nat, t: Stream, q: Queue, frame: Frame)
    requires t.ended ==> t.opening.None?
    ensures var u := PushFrame(id, t, q, frame).stream;
            u.opening.Some? ==> t.opening.Some? && u.opening.value == BufferOne(t.opening.value, frame)
  {
    hide Dropped, DeviceMessages, Enqueued, SendAll;
  }

  lemma PushTakes(st: State, id: nat, frame: Frame, k: nat)
    requires EndedIsOpen(st)
    ensures Takes(st, Push(st, id, frame), k, HandedTo(id in st.streams, id, k, [frame]))
  {
    var p := Push(st, id, frame);
    if id in st.streams {
      var t := st.streams[id];
      PushShape(st, id, frame);
      PushedBuffer(id, t, QueueOf(st, t.owner), frame);
      if k == id && t.opening.Some? {
        BufferSnoc(t.opening.value, [], frame);
        assert [] + [frame] == [frame];
      }
      hide Push, PushFrame, QueueOf, RecordOf, BufferOne;
    }
  }

  lemma {:induction false} PushAllTakes(st: State, id: nat, frames: seq<Frame>, k: nat)
    requires EndedIsOpen(st)
    ensures Takes(st, PushAll(st, id, frames), k, HandedTo(id in st.streams, id, k, frames))
    decreases |frames|
  {
    if frames != [] {
      hide Takes, Push, EndedIsOpen, Handed, HandedTo;
      var live, p := id in st.streams, Push(st, id, frames[0]);
      PushTakes(st, id, frames[0], k);
      PushHands(st, id, frames[0], k);
      PushAllTakes(p, id, frames[1..], k);
      TakesOn(st, p, PushAll(st, id, frames), k, HandedTo(live, id, k, [frames[0]]), HandedTo(live, id, k, frames[1..]));
      HandedToSplits(live, id, k, frames);
    }
  }

  lemma {:induction false} EndAllTakes(st: State, ids: seq<nat>, reason: EndReason, k: nat)
    requires EndedIsOpen(st)
    ensures Takes(st, EndAll(st, ids, reason), k, EndsFor(k in st.streams, ids, k, reason))
    decreases |ids|
  {
    if ids != [] {
      hide Takes, Push, EndedIsOpen, Handed;
      var live, p := k in st.streams, Push(st, ids[0], Ended(reason));
      PushTakes(st, ids[0], Ended(reason), k);
      PushHands(st, ids[0], Ended(reason), k);
      EndAllTakes(p, ids[1..], reason, k);
      var first := HandedTo(ids[0] in st.streams, ids[0], k, [Ended(reason)]);
      TakesOn(st, p, EndAll(st, ids, reason), k, first, EndsFor(live, ids[1..], k, reason));
      assert first + EndsFor(live, ids[1..], k, reason) == EndsFor(live, ids, k, reason);
    }
  }

  lemma RemoveTakes(st: State, id: nat, k: nat)
    ensures Takes(st, Remove(st, id), k, [])
  {
    if id in st.streams {
      RemoveShape(st, id);
      hide Remove, RecordOf, Dropped;
    }
  }

  lemma {:induction false} RemoveAllTakes(st: State, ids: seq<nat>, k: nat)
    ensures Takes(st, RemoveAll(st, ids), k, [])
    decreases |ids|
  {
    if ids != [] {
      hide Takes, Remove;
      RemoveTakes(st, ids[0], k);
      RemoveAllTakes(Remove(st, ids[0]), ids[1..], k);
      TakesOn(st, Remove(st, ids[0]), RemoveAll(st, ids), k, [], []);
    } else {
      SameTakes(st, st, k);
    }
  }

  lemma ActivateTakes(st: State, id: nat, k: nat)
    requires EndedIsOpen(st)
    ensures Takes(st, Activate(st, id), k, [])
  {
    if id in st.streams && st.streams[id].opening.Some? {
      hide PushAll, BufferAll;
      var t := st.streams[id];
      var taken := st.(streams := st.streams[id := t.(opening := None)]);
      PushAllTakes(taken, id, t.opening.value, k);
      if k != id {
        SameTakes(st, taken, k);
        TakesOn(st, taken, Activate(st, id), k, [], []);
      }
    } else {
      SameTakes(st, st, k);
    }
  }

  lemma CloseTakes(st: State, owner: nat, id: nat, k: nat)
    requires EndedIsOpen(st)
    ensures Takes(st, CloseStream(st, owner, id), k, Given(st, CloseStep(owner, id), k))
  {
    if id in st.streams && st.streams[id].owner == owner {
      EmptyingHands(st, id, k);
      var t := st.streams[id].(opening := None, lagging := false);
      var emptied := Note(st.(streams := st.streams[id := t]), id, Dropped(Buffered(st.streams[id])));
      var ended := Push(emptied, id, Ended(ClosedByDevice));
      SameTakes(st, emptied, k);
      hide Push, Remove, Dropped, Handed, EndedIsOpen, BufferAll;
      PushTakes(emptied, id, Ended(ClosedByDevice), k);
      RemoveTakes(ended, id, k);
      if k == id {
        RemoveLeavesNone(ended, id);
      } else {
        hide Takes;
        TakesOn(st, emptied, ended, k, [], []);
        TakesOn(st, ended, Remove(ended, id), k, [], []);
      }
    } else {
      SameTakes(st, st, k);
    }
  }

  lemma RemoveLeavesNone(st: State, id: nat)
    ensures id !in Remove(st, id).streams
  {
    hide Dropped;
  }

  lemma ChannelStepTakes(st: State, step: Step, k: nat)
    requires EndedIsOpen(st) && (step.AttachStep? || step.DetachStep?)
    ensures Takes(st, After(st, step), k, Given(st, step, k))
  {
    hide EndAll, BufferAll;
    match step
    case AttachStep(source, order) =>
      var id := st.nextId + 1;
      var bound := st.(nextId := id, channels := st.channels[source := Channel(id, {})], wire := st.wire[id := []]);
      EndAllTakes(bound, order, SourceUnavailable, k);
      SameTakes(st, bound, k);
    case DetachStep(source, id, order) =>
      var dropped := if Current(st, source, id) then st.(channels := st.channels - {source}) else st;
      EndAllTakes(dropped, order, SourceUnavailable, k);
  }

  lemma QuietStepTakes(st: State, step: Step, k: nat)
    requires step.InputStep? || step.TimeoutStep? || step.AnswerStep?
             || step.ConnectStep? || step.DrainStep? || step.FillStep? || step.DisconnectStep?
    ensures Takes(st, After(st, step), k, [])
  {
    if step.InputStep? || step.TimeoutStep? || step.AnswerStep? {
      RelaySafety.RequestStepEffects(st, step);
    }
    hide SendInput, DropPending, DeliverAnswer;
    SameTakes(st, After(st, step), k);
  }

  lemma FrameTakes(st: State, channel: nat, id: nat, frame: Frame, k: nat)
    requires EndedIsOpen(st)
    ensures Takes(st, DeliverFrame(st, channel, id, frame), k, Given(st, FrameStep(channel, id, frame), k))
  {
    PushTakes(st, id, frame, k);
    SameTakes(st, st, k);
    hide Push, BufferAll;
  }

  lemma StepTakes(st: State, step: Step, k: nat)
    requires EndedIsOpen(st) && !step.OpenStep?
    ensures Takes(st, After(st, step), k, Given(st, step, k))
  {
    hide Takes, EndedIsOpen, Attach, Detach, SendInput, Activate, CloseStream, Remove, RemoveAll, DeliverFrame;
    match step
    case AttachStep(_, _) => ChannelStepTakes(st, step, k);
    case DetachStep(_, _, _) => ChannelStepTakes(st, step, k);
    case ActivateStep(id) => ActivateTakes(st, id, k);
    case AbandonStep(id) => RemoveTakes(st, id, k);
    case CloseStep(owner, id) => CloseTakes(st, owner, id, k);
    case ReleaseStep(_, order) => RemoveAllTakes(st, order, k);
    case FrameStep(channel, id, frame) => FrameTakes(st, channel, id, frame, k);
    case _ => QuietStepTakes(st, step, k);
  }

  /** A new stream starts with an empty buffer; the others keep theirs. */
  lemma OpenTakes(st: State, owner: nat, source: string, invocation: string, k: nat)
    requires RelaySafety.Known(st)
    ensures var p := OpenStream(st, owner, source, invocation);
            if k in st.streams then Takes(st, p, k, [])
            else k in p.streams ==> p.streams[k].opening == Some([]) && k !in st.history
  {
    var p := OpenStream(st, owner, source, invocation);
    if source in st.channels {
      RelaySafety.OpenEffects(st, owner, source, invocation);
      assert st.nextId + 1 !in st.history && st.nextId + 1 !in st.streams;
      hide OpenStream;
    }
  }

  lemma NothingOffered(steps: seq<Step>, k: nat)
    requires k !in Run(steps).streams && k !in Run(steps).history
    ensures Offered(steps, k) == []
  {
    FramesKeepSourceOrder(steps, k);
    hide Run, Offered;
  }

  /** In every reachable state, an opening stream's buffer is what buffering everything handed to it gives. */
  lemma {:induction false} OpeningBufferIsOffered(steps: seq<Step>, k: nat)
    requires k in Run(steps).streams && Run(steps).streams[k].opening.Some?
    ensures Run(steps).streams[k].opening.value == BufferAll([], Offered(steps, k))
    decreases |steps|
  {
    assert steps != [];
    var n := |steps| - 1;
    var st, step := Run(steps[..n]), steps[n];
    FramesKeepSourceOrder(steps[..n], k);
    RelaySafety.RunIsSafe(steps[..n]);
    if step.OpenStep? && step.owner in st.queues {
      OpenTakes(st, step.owner, step.source, step.invocation, k);
    }
    if !step.OpenStep? {
      StepTakes(st, step, k);
    }
    hide After, Handed, EndedIsOpen, OpenStream, BufferOne;
    if k in st.streams {
      OpeningBufferIsOffered(steps[..n], k);
      BufferJoins([], Offered(steps[..n], k), Given(st, step, k));
    } else {
      NothingOffered(steps[..n], k);
    }
  }

  // ---- Activation ----

  /** The device has been sent the stream's end. */
  predicate EndSent(st: State, id: nat) {
    EndDelivered(RecordOf(st, id).entries)
  }

  lemma EndSentSnoc(h: seq<Entry>, e: Entry)
    ensures EndDelivered(h + [e]) <==> EndDelivered(h) || (e.frame.Ended? && e.sent != [])
  {
    Appended(h, e);
  }

  /** What a push on an active stream does to what was sent of its end. */
  lemma PushSendsEnd(st: State, id: nat, frame: Frame)
    requires id in st.streams && st.streams[id].opening.None?
    ensures var p, q := Push(st, id, frame), QueueOf(st, st.streams[id].owner);
            && id in p.streams && p.streams[id].opening.None?
            && (st.streams[id].ended ==> p.streams[id].ended && (EndSent(p, id) <==> EndSent(st, id)))
            && (!frame.Ended? ==> (EndSent(p, id) <==> EndSent(st, id)))
            && (!st.streams[id].ended && frame.Ended? ==>
                  && p.streams[id].ended
                  && (EndSent(p, id) <==> EndSent(st, id) || (!q.closed && q.room > 0)))
  {
    var t := st.streams[id];
    var q := QueueOf(st, t.owner);
    var r := PushFrame(id, t, q, frame);
    PushShape(st, id, frame);
    PushIsExact(id, t, q, frame);
    EndSentSnoc(RecordOf(st, id).entries, r.entries[0]);
    assert r.entries == [r.entries[0]];
    PushedEnd(id, t, q, frame);
    hide Push, RecordOf, QueueOf, EndDelivered, PushFrame;
  }

  lemma PushedEnd(id: nat, t: Stream, q: Queue, frame: Frame)
    requires t.opening.None?
    ensures var r := PushFrame(id, t, q, frame);
            && r.stream.opening.None? && |r.entries| == 1 && r.entries[0].frame == frame
            && (t.ended ==> r.stream.ended && r.entries[0].sent == [])
            && (!t.ended && frame.Ended? ==>
                  r.stream.ended && (r.entries[0].sent != [] <==> !q.closed && q.room > 0))
  {
    DeviceMessagesCarryTheFrame(id, frame);
    hide DeviceMessages;
  }

  lemma {:induction false} FlushAfterEnd(st: State, id: nat, frames: seq<Frame>)
    requires id in st.streams && st.streams[id].opening.None? && st.streams[id].ended
    ensures EndSent(PushAll(st, id, frames), id) <==> EndSent(st, id)
    decreases |frames|
  {
    if frames != [] {
      hide Push, EndSent, QueueOf;
      PushSendsEnd(st, id, frames[0]);
      FlushAfterEnd(Push(st, id, frames[0]), id, frames[1..]);
    }
  }

  lemma {:induction false} FlushWithoutEnd(st: State, id: nat, frames: seq<Frame>)
    requires id in st.streams && st.streams[id].opening.None? && NoEnd(frames)
    ensures EndSent(PushAll(st, id, frames), id) <==> EndSent(st, id)
    decreases |frames|
  {
    if frames != [] {
      hide Push, EndSent, QueueOf;
      PushSendsEnd(st, id, frames[0]);
      FlushWithoutEnd(Push(st, id, frames[0]), id, frames[1..]);
    }
  }

  lemma FlushSendsEndIff(st: State, id: nat, frames: seq<Frame>)
    requires id in st.streams && st.streams[id].opening.None? && !st.streams[id].ended && !EndSent(st, id)
    requires HoldsEnd(frames) || NoEnd(frames)
    ensures var q := QueueOf(st, st.streams[id].owner);
            EndSent(PushAll(st, id, frames), id) <==> HoldsEnd(frames) && !q.closed && q.room > 0
  {
    hide Push, EndSent, QueueOf;
    if HoldsEnd(frames) {
      PushSendsEnd(st, id, frames[0]);
      FlushAfterEnd(Push(st, id, frames[0]), id, frames[1..]);
    } else {
      FlushWithoutEnd(st, id, frames);
    }
  }

  lemma {:induction false} NothingMeansNoEnd(h: seq<Entry>)
    requires NothingDelivered(h)
    ensures !EndDelivered(h)
  {
    if h != [] {
      NothingMeansNoEnd(h[..|h| - 1]);
    }
  }

  lemma OpeningSentNothing(steps: seq<Step>, id: nat)
    requires id in Run(steps).streams && Run(steps).streams[id].opening.Some?
    ensures !Run(steps).streams[id].ended && !EndSent(Run(steps), id)
  {
    var st := Run(steps);
    RelaySafety.RunIsSafe(steps);
    assert id in st.history;
    assert RelaySafety.Agrees(st, id, RelaySafety.NextOf(st, id));
    NothingMeansNoEnd(st.history[id].entries);
  }

  /**
   * When a stream of any run is activated, its device is sent the end if and only if the stream was
   * ended while it was opening, fewer than 256 frames were handed to it after that, and the device's
   * queue is open and has room.
   */
  lemma EndReachesTheDeviceIff(steps: seq<Step>, id: nat)
    requires id in Run(steps).streams && Run(steps).streams[id].opening.Some?
    ensures var st := Run(steps);
            var q := QueueOf(st, st.streams[id].owner);
            EndSent(After(st, ActivateStep(id)), id) <==> EndIsHeld(Offered(steps, id)) && !q.closed && q.room > 0
  {
    hide Run, Offered, PushAll, BufferAll, EndDelivered, HasEnd, Trailing;
    var st := Run(steps);
    var t := st.streams[id];
    OpeningSentNothing(steps, id);
    OpeningBufferIsOffered(steps, id);
    BufferHoldsEndIff(Offered(steps, id));
    hide EndIsHeld, HoldsEnd, NoEnd;
    var taken := st.(streams := st.streams[id := t.(opening := None)]);
    assert RecordOf(taken, id) == RecordOf(st, id) && QueueOf(taken, t.owner) == QueueOf(st, t.owner);
    FlushSendsEndIff(taken, id, t.opening.value);
  }

  // ---- A run whose device is not sent its end ----

  /** A device connects, a source attaches, and the device opens a stream over it: stream 2, channel 1. */
  const OPENED: seq<Step> := [ConnectStep(1, 10), AttachStep("source", []), OpenStep(1, "source", "agent")]

  function FrameSteps(frames: seq<Frame>): seq<Step> {
    if frames == [] then [] else FrameSteps(frames[..|frames| - 1]) + [FrameStep(1, 2, frames[|frames| - 1])]
  }

  lemma RunSnoc(steps: seq<Step>, step: Step, k: nat)
    ensures Run(steps + [step]) == After(Run(steps), step)
    ensures Offered(steps + [step], k) == Offered(steps, k) + Given(Run(steps), step, k)
  {
    hide After, Given;
    assert (steps + [step])[..|steps|] == steps;
  }

  /** Stream 2 is there, over channel 1, and has not been activated. */
  predicate IsOpening(st: State) {
    2 in st.streams && st.streams[2].channel == 1 && st.streams[2].opening.Some? && !st.streams[2].ended
  }

  const CONNECTED := EMPTY.(queues := map[1 := Queue([], 10, false)])

  const ATTACHED := CONNECTED.(nextId := 1, channels := map["source" := Channel(1, {})], wire := map[1 := []])

  lemma ConnectThenAttach()
    ensures After(EMPTY, ConnectStep(1, 10)) == CONNECTED && After(CONNECTED, AttachStep("source", [])) == ATTACHED
  {
  }

  lemma OpenAttached()
    ensures IsOpening(After(ATTACHED, OpenStep(1, "source", "agent")))
  {
  }

  lemma NothingGiven()
    ensures Given(EMPTY, ConnectStep(1, 10), 2) == []
    ensures Given(CONNECTED, AttachStep("source", []), 2) == []
    ensures Given(ATTACHED, OpenStep(1, "source", "agent"), 2) == []
  {
  }

  lemma NoSteps()
    ensures Run([]) == EMPTY && Offered([], 2) == []
  {
  }

  lemma RunNext(steps: seq<Step>, step: Step, before: State, after: State)
    requires Run(steps) == before && Offered(steps, 2) == [] && After(before, step) == after && Given(before, step, 2) == []
    ensures Run(steps + [step]) == after && Offered(steps + [step], 2) == []
  {
    hide Run, After, Offered, Given;
    RunSnoc(steps, step, 2);
  }

  lemma OpenedIsOpening()
    ensures IsOpening(Run(OPENED)) && Offered(OPENED, 2) == []
  {
    hide Run, After, Offered, Given, IsOpening, CONNECTED, ATTACHED;
    var connect, attach, open := ConnectStep(1, 10), AttachStep("source", []), OpenStep(1, "source", "agent");
    NoSteps();
    ConnectThenAttach();
    NothingGiven();
    OpenAttached();
    RunNext([], connect, EMPTY, CONNECTED);
    RunNext([] + [connect], attach, CONNECTED, ATTACHED);
    RunNext([] + [connect] + [attach], open, ATTACHED, After(ATTACHED, open));
    assert OPENED == [] + [connect] + [attach] + [open];
  }

  lemma OpeningStays(st: State, frame: Frame)
    requires IsOpening(st)
    ensures IsOpening(After(st, FrameStep(1, 2, frame))) && Given(st, FrameStep(1, 2, frame), 2) == [frame]
  {
    PushShape(st, 2, frame);
    PushedOpening(2, st.streams[2], QueueOf(st, st.streams[2].owner), frame);
    hide Push, PushFrame, RecordOf, QueueOf;
  }

  lemma PushedOpening(id: nat, t: Stream, q: Queue, frame: Frame)
    requires t.opening.Some? && !t.ended
    ensures var u := PushFrame(id, t, q, frame).stream; u.opening.Some? && !u.ended && u.channel == t.channel
  {
    hide Dropped;
  }

  lemma {:induction false} FramesAreOffered(frames: seq<Frame>)
    ensures var steps := OPENED + FrameSteps(frames);
            IsOpening(Run(steps)) && Offered(steps, 2) == frames
    decreases |frames|
  {
    hide After, Run, Given, Offered, IsOpening;
    if frames == [] {
      NothingAdded(OPENED);
      OpenedIsOpening();
    } else {
      var n := |frames| - 1;
      FramesAreOffered(frames[..n]);
      var steps, step := OPENED + FrameSteps(frames[..n]), FrameStep(1, 2, frames[n]);
      Reassociate(OPENED, FrameSteps(frames[..n]), [step]);
      RunSnoc(steps, step, 2);
      OpeningStays(Run(steps), frames[n]);
    }
  }

  /**
   * A run whose stream is handed an end while it is opening and then 256 frames more: the stream is
   * still opening, and activating it does not send the device its end.
   */
  lemma AnEndIsNeverSent(end: Frame, frames: seq<Frame>)
    requires end.Ended? && NoEnd(frames) && |frames| == 256
    ensures var steps := OPENED + FrameSteps([end] + frames);
            && 2 in Run(steps).streams && Run(steps).streams[2].opening.Some?
            && HasEnd(Offered(steps, 2))
            && !EndSent(After(Run(steps), ActivateStep(2)), 2)
  {
    hide Run, Offered, FrameSteps, EndSent, After, HasEnd, Trailing;
    var steps := OPENED + FrameSteps([end] + frames);
    FramesAreOffered([end] + frames);
    TrailingCounts(end, frames);
    EndReachesTheDeviceIff(steps, 2);
  }
}
