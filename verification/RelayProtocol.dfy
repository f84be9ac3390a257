/**
 * The request protocol of the relay over every run: per stream `Open (Input | Resync)* Close?`, all
 * on one channel.
 */
module RelayProtocol {
  import opened Common
  import opened RelayStream
  import opened Relay

  /** The requests about one stream on one channel. */
  function About(wire: seq<Request>, id: nat): seq<Request> {
    if wire == [] then []
    else
      var n := |wire| - 1;
      About(wire[..n], id) + (if wire[n].stream == id then [wire[n]] else [])
  }

  /** `Open (Input | Resync)*` */
  predicate OpenWord(w: seq<Request>) {
    && w != []
    && var n := |w| - 1;
       if n == 0 then w[0].Open? else OpenWord(w[..n]) && (w[n].Input? || w[n].Resync?)
  }

  /** `Open (Input | Resync)* Close` */
  predicate ClosedWord(w: seq<Request>) {
    w != [] && w[|w| - 1].Close? && OpenWord(w[..|w| - 1])
  }

  /** A stream's requests, all on its own channel, follow the protocol. */
  predicate WordInv(id: nat, channel: nat, live: bool, wire: map<nat, seq<Request>>) {
    && channel in wire
    && (forall c :: c in wire && c != channel ==> About(wire[c], id) == [])
    && (OpenWord(About(wire[channel], id)) || (!live && ClosedWord(About(wire[channel], id))))
  }

  predicate Numbered(st: State) {
    && (forall id :: id in st.streams ==> id in st.history && st.streams[id].channel == st.history[id].channel)
    && (forall id :: id in st.history ==> id <= st.nextId)
    && (forall c :: c in st.wire ==> c <= st.nextId)
    && (forall s :: s in st.channels ==> st.channels[s].id in st.wire)
    && (forall c, i :: c in st.wire && 0 <= i < |st.wire[c]| ==> st.wire[c][i].stream in st.history)
  }

  predicate WordsOk(st: State) {
    forall id :: id in st.history ==> WordInv(id, st.history[id].channel, id in st.streams, st.wire)
  }

  predicate Orderly(st: State) {
    Numbered(st) && WordsOk(st)
  }

  lemma AboutAppends(wire: seq<Request>, r: Request, id: nat)
    ensures About(wire + [r], id) == if r.stream == id then About(wire, id) + [r] else About(wire, id)
  {
    assert (wire + [r])[..|wire|] == wire;
    assert About(wire, id) + [] == About(wire, id);
  }

  lemma {:induction false} AboutNothing(wire: seq<Request>, id: nat)
    requires forall i :: 0 <= i < |wire| ==> wire[i].stream != id
    ensures About(wire, id) == []
  {
    if wire != [] {
      AboutNothing(wire[..|wire| - 1], id);
    }
  }

  lemma WordGrows(w: seq<Request>, r: Request)
    requires OpenWord(w)
    ensures r.Input? || r.Resync? ==> OpenWord(w + [r])
    ensures r.Close? ==> ClosedWord(w + [r])
  {
    assert (w + [r])[..|w|] == w;
  }

  /** `p` keeps the channel of every record; its streams were there, on the same channels. */
  predicate SameStreams(st: State, p: State) {
    && p.nextId >= st.nextId
    && p.history.Keys == st.history.Keys
    && (forall id :: id in st.history ==> p.history[id].channel == st.history[id].channel)
    && (forall id :: id in p.streams ==> id in st.streams && p.streams[id].channel == st.streams[id].channel)
  }

  /** Nothing is sent; streams may only go away. */
  lemma QuietKeepsOrder(st: State, p: State)
    requires Orderly(st) && SameStreams(st, p) && p.wire == st.wire
    requires forall s :: s in p.channels ==> p.channels[s].id in p.wire
    ensures Orderly(p)
  {
    forall id | id in p.history ensures WordInv(id, p.history[id].channel, id in p.streams, p.wire) {
      assert WordInv(id, st.history[id].channel, id in st.streams, st.wire);
    }
  }

  lemma SentWord(st: State, id: nat, r: Request, live: bool, k: nat)
    requires id in st.history && k in st.history && r.stream == id
    requires WordInv(id, st.history[id].channel, true, st.wire)
    requires WordInv(k, st.history[k].channel, k in st.streams, st.wire)
    requires r.Input? || r.Resync? || (r.Close? && !live)
    ensures var c := st.history[id].channel;
            WordInv(k, st.history[k].channel, if k == id then live else k in st.streams,
                    st.wire[c := st.wire[c] + [r]])
  {
    hide OpenWord, ClosedWord, About;
    var c := st.history[id].channel;
    AboutAppends(st.wire[c], r, k);
    if k == id {
      WordGrows(About(st.wire[c], id), r);
    }
  }

  /** A live stream sends an input or a resync, or is removed and sends its close. */
  lemma SendKeepsOrder(st: State, p: State, id: nat, r: Request)
    requires Orderly(st) && SameStreams(st, p) && id in st.streams && r.stream == id
    requires r.Input? || r.Resync? || (r.Close? && id !in p.streams)
    requires var c := st.streams[id].channel;
             c in st.wire && p.wire == st.wire[c := st.wire[c] + [r]]
    requires forall s :: s in p.channels ==> p.channels[s].id in p.wire
    ensures Orderly(p)
  {
    var c := st.streams[id].channel;
    assert c == st.history[id].channel;
    assert WordInv(id, c, true, st.wire);
    forall k | k in p.history ensures WordInv(k, p.history[k].channel, k in p.streams, p.wire) {
      assert WordInv(k, st.history[k].channel, k in st.streams, st.wire);
      SentWord(st, id, r, id in p.streams, k);
    }
    SentNumbered(st, p, id, r);
  }

  lemma SentNumbered(st: State, p: State, id: nat, r: Request)
    requires Numbered(st) && SameStreams(st, p) && id in st.history && r.stream == id
    requires exists c :: c in st.wire && p.wire == st.wire[c := st.wire[c] + [r]]
    requires forall s :: s in p.channels ==> p.channels[s].id in p.wire
    ensures Numbered(p)
  {
    var c :| c in st.wire && p.wire == st.wire[c := st.wire[c] + [r]];
    forall d, i | d in p.wire && 0 <= i < |p.wire[d]| ensures p.wire[d][i].stream in p.history {
      if d == c {
        assert p.wire[d][i] == if i < |st.wire[c]| then st.wire[c][i] else r;
      }
    }
  }

  // ---- Operations ----

  lemma PushEffects(st: State, id: nat, frame: Frame)
    requires id in st.streams
    ensures var p, t := Push(st, id, frame), st.streams[id];
            && p.channels == st.channels && p.nextId == st.nextId && p.answers == st.answers
            && p.streams == st.streams[id := PushFrame(id, t, QueueOf(st, t.owner), frame).stream]
            && p.history.Keys == st.history.Keys + {id}
            && (forall k :: k in st.history ==> p.history[k].channel == st.history[k].channel)
            && (p.wire == st.wire ||
                (Current(st, t.source, t.channel)
                 && p.wire == st.wire[t.channel := WireOf(st, t.channel) + [Resync(id)]]))
  {
  }

  lemma PushWire(st: State, id: nat, frame: Frame)
    requires Numbered(st) && id in st.streams
    ensures var p := Push(st, id, frame);
            && SameStreams(st, p) && p.channels == st.channels
            && p.streams.Keys == st.streams.Keys
            && var c := st.streams[id].channel;
               p.wire == st.wire || (c in st.wire && p.wire == st.wire[c := st.wire[c] + [Resync(id)]])
  {
    PushEffects(st, id, frame);
    PushKeepsChannel(id, st.streams[id], QueueOf(st, st.streams[id].owner), frame);
    assert id in st.history;
  }

  lemma PushKeepsChannel(id: nat, t: Stream, q: Queue, frame: Frame)
    ensures PushFrame(id, t, q, frame).stream.channel == t.channel
  {
  }

  lemma PushKeepsOrder(st: State, id: nat, frame: Frame)
    requires Orderly(st)
    ensures Orderly(Push(st, id, frame))
  {
    if id in st.streams {
      PushWire(st, id, frame);
      var p := Push(st, id, frame);
      if p.wire == st.wire {
        QuietKeepsOrder(st, p);
      } else {
        SendKeepsOrder(st, p, id, Resync(id));
      }
    }
  }

  lemma {:induction false} PushAllKeepsOrder(st: State, id: nat, frames: seq<Frame>)
    requires Orderly(st)
    ensures Orderly(PushAll(st, id, frames))
    decreases |frames|
  {
    if frames != [] {
      PushKeepsOrder(st, id, frames[0]);
      PushAllKeepsOrder(Push(st, id, frames[0]), id, frames[1..]);
    }
  }

  lemma {:induction false} EndAllKeepsOrder(st: State, ids: seq<nat>, reason: EndReason)
    requires Orderly(st)
    ensures Orderly(EndAll(st, ids, reason))
    decreases |ids|
  {
    if ids != [] {
      PushKeepsOrder(st, ids[0], Ended(reason));
      EndAllKeepsOrder(Push(st, ids[0], Ended(reason)), ids[1..], reason);
    }
  }

  lemma RemoveEffects(st: State, id: nat)
    requires id in st.streams
    ensures var p, t := Remove(st, id), st.streams[id];
            && p.channels == st.channels && p.nextId == st.nextId && p.answers == st.answers
            && p.streams == st.streams - {id}
            && p.history.Keys == st.history.Keys + {id}
            && (forall k :: k in st.history ==> p.history[k].channel == st.history[k].channel)
            && (p.wire == st.wire ||
                (Current(st, t.source, t.channel)
                 && p.wire == st.wire[t.channel := WireOf(st, t.channel) + [Close(id)]]))
  {
  }

  lemma RemoveWire(st: State, id: nat)
    requires Numbered(st) && id in st.streams
    ensures var p := Remove(st, id);
            && SameStreams(st, p) && p.channels == st.channels && id !in p.streams
            && var c := st.streams[id].channel;
               p.wire == st.wire || (c in st.wire && p.wire == st.wire[c := st.wire[c] + [Close(id)]])
  {
    RemoveEffects(st, id);
    assert id in st.history;
  }

  lemma RemoveKeepsOrder(st: State, id: nat)
    requires Orderly(st)
    ensures Orderly(Remove(st, id))
  {
    if id in st.streams {
      RemoveWire(st, id);
      var p := Remove(st, id);
      if p.wire == st.wire {
        QuietKeepsOrder(st, p);
      } else {
        SendKeepsOrder(st, p, id, Close(id));
      }
    }
  }

  lemma {:induction false} RemoveAllKeepsOrder(st: State, ids: seq<nat>)
    requires Orderly(st)
    ensures Orderly(RemoveAll(st, ids))
    decreases |ids|
  {
    if ids != [] {
      RemoveKeepsOrder(st, ids[0]);
      RemoveAllKeepsOrder(Remove(st, ids[0]), ids[1..]);
    }
  }

  lemma TakenEffects(st: State, id: nat)
    requires id in st.streams
    ensures SameStreams(st, st.(streams := st.streams[id := st.streams[id].(opening := None)]))
  {
  }

  lemma ActivateKeepsOrder(st: State, id: nat)
    requires Orderly(st)
    ensures Orderly(Activate(st, id))
  {
    hide WordsOk, PushAll, SameStreams;
    if id in st.streams && st.streams[id].opening.Some? {
      var t := st.streams[id];
      var taken := st.(streams := st.streams[id := t.(opening := None)]);
      TakenEffects(st, id);
      QuietKeepsOrder(st, taken);
      hide Numbered;
      PushAllKeepsOrder(taken, id, t.opening.value);
    }
  }

  lemma EmptiedEffects(st: State, id: nat)
    requires id in st.streams && id in st.history
    ensures var t := st.streams[id].(opening := None, lagging := false);
            var p := Note(st.(streams := st.streams[id := t]), id, Dropped(Buffered(st.streams[id])));
            SameStreams(st, p) && p.wire == st.wire && p.channels == st.channels
  {
    hide Dropped;
  }

  lemma EmptiedKeepsOrder(st: State, id: nat)
    requires Orderly(st) && id in st.streams
    ensures var t := st.streams[id].(opening := None, lagging := false);
            Orderly(Note(st.(streams := st.streams[id := t]), id, Dropped(Buffered(st.streams[id]))))
  {
    hide Note, Dropped, WordsOk, SameStreams;
    assert id in st.history;
    EmptiedEffects(st, id);
    var t := st.streams[id].(opening := None, lagging := false);
    var p := Note(st.(streams := st.streams[id := t]), id, Dropped(Buffered(st.streams[id])));
    QuietKeepsOrder(st, p);
    hide Numbered;
  }

  lemma CloseKeepsOrder(st: State, owner: nat, id: nat)
    requires Orderly(st)
    ensures Orderly(CloseStream(st, owner, id))
  {
    hide Numbered, WordsOk, Push, Remove, Note, Dropped;
    if id in st.streams && st.streams[id].owner == owner {
      var t := st.streams[id].(opening := None, lagging := false);
      var emptied := Note(st.(streams := st.streams[id := t]), id, Dropped(Buffered(st.streams[id])));
      EmptiedKeepsOrder(st, id);
      PushKeepsOrder(emptied, id, Ended(ClosedByDevice));
      RemoveKeepsOrder(Push(emptied, id, Ended(ClosedByDevice)), id);
    }
  }

  lemma SendInputEffects(st: State, owner: nat, id: nat, keys: string)
    ensures var p, req := SendInput(st, owner, id, keys), st.nextId + 1;
            && p.nextId == req && p.answers == st.answers
            && p.streams == st.streams && p.history == st.history
            && (if InputOutcomeOf(st, owner, id).Forwarded? then
                  var t := st.streams[id];
                  && p.wire == st.wire[t.channel := WireOf(st, t.channel) + [Input(req, id, keys)]]
                  && p.channels == st.channels[t.source := Channel(t.channel, st.channels[t.source].pending + {req})]
                else p.wire == st.wire && p.channels == st.channels)
  {
  }

  lemma SendInputKeepsOrder(st: State, owner: nat, id: nat, keys: string)
    requires Orderly(st)
    ensures Orderly(SendInput(st, owner, id, keys))
  {
    SendInputEffects(st, owner, id, keys);
    var p := SendInput(st, owner, id, keys);
    if InputOutcomeOf(st, owner, id).Forwarded? {
      assert forall s :: s in p.channels ==> s in st.channels && p.channels[s].id == st.channels[s].id;
      SendKeepsOrder(st, p, id, Input(st.nextId + 1, id, keys));
    } else {
      QuietKeepsOrder(st, p);
    }
  }

  /** A new stream starts its word with its open. */
  lemma FirstWord(st: State, id: nat, c: nat, r: Request)
    requires Numbered(st) && id !in st.history && c in st.wire && r.Open? && r.stream == id
    ensures WordInv(id, c, true, st.wire[c := st.wire[c] + [r]])
  {
    hide OpenWord, ClosedWord, About;
    forall d | d in st.wire ensures About(st.wire[d], id) == [] {
      AboutNothing(st.wire[d], id);
    }
    AboutAppends(st.wire[c], r, id);
    OpenIsAWord(r);
    assert [] + [r] == [r];
  }

  lemma OpenIsAWord(r: Request)
    requires r.Open?
    ensures OpenWord([r])
  {
  }

  lemma {:induction false} OtherWord(wire: map<nat, seq<Request>>, k: nat, channel: nat, live: bool, c: nat, r: Request)
    requires WordInv(k, channel, live, wire) && c in wire && r.stream != k
    ensures WordInv(k, channel, live, wire[c := wire[c] + [r]])
  {
    var w, w' := About(wire[channel], k), About(wire[c := wire[c] + [r]][channel], k);
    AboutAppends(wire[c], r, k);
    assert w == w';
  }

  lemma OpenedWords(st: State, p: State, id: nat, c: nat, r: Request)
    requires Orderly(st) && id == st.nextId + 1 && c in st.wire && r.Open? && r.stream == id
    requires p.wire == st.wire[c := st.wire[c] + [r]]
    requires p.history.Keys == st.history.Keys + {id} && p.history[id].channel == c
    requires forall k :: k in st.history ==> p.history[k].channel == st.history[k].channel
    requires forall k :: k != id ==> (k in p.streams <==> k in st.streams)
    requires id in p.streams
    ensures WordsOk(p)
  {
    forall k | k in p.history ensures WordInv(k, p.history[k].channel, k in p.streams, p.wire) {
      if k == id {
        FirstWord(st, id, c, r);
      } else {
        assert WordInv(k, st.history[k].channel, k in st.streams, st.wire);
        OtherWord(st.wire, k, st.history[k].channel, k in st.streams, c, r);
      }
    }
  }

  lemma OpenWire(st: State, owner: nat, source: string, invocation: string)
    requires Numbered(st) && source in st.channels
    ensures var p := OpenStream(st, owner, source, invocation);
            var c := st.channels[source].id;
            && c in st.wire
            && p.wire == st.wire[c := st.wire[c] + [Open(st.nextId + 2, st.nextId + 1, invocation)]]
            && p.channels == st.channels[source := Channel(c, st.channels[source].pending + {st.nextId + 2})]
            && p.nextId == st.nextId + 2
            && p.history == st.history[st.nextId + 1 := Record(owner, c, [])]
            && p.streams == st.streams[st.nextId + 1 := Stream(source, c, owner, Some([]), false, false)]
            && p.answers == st.answers
  {
  }

  lemma OpenedShape(st: State, p: State, id: nat, c: nat, t: Stream)
    requires Numbered(st) && id == st.nextId + 1
    requires p.history == st.history[id := Record(t.owner, c, [])] && p.streams == st.streams[id := t]
    ensures id !in st.history && p.history.Keys == st.history.Keys + {id}
    ensures forall k :: k in st.history ==> k in p.history && p.history[k].channel == st.history[k].channel
  {
  }

  lemma OpenedNumbers(st: State, p: State, id: nat, c: nat, r: Request, t: Stream)
    requires Numbered(st) && id == st.nextId + 1 && c in st.wire && r.stream == id && t.channel == c
    requires st.nextId + 2 == p.nextId && p.wire == st.wire[c := st.wire[c] + [r]]
    requires p.history == st.history[id := Record(t.owner, c, [])] && p.streams == st.streams[id := t]
    requires forall s :: s in p.channels ==> s in st.channels && p.channels[s].id == st.channels[s].id
    ensures Numbered(p)
  {
    OpenedShape(st, p, id, c, t);
    OpenNumbered(st, p, id, c, r);
  }

  lemma OpenedKeepsOrder(st: State, p: State, id: nat, c: nat, r: Request, t: Stream)
    requires Orderly(st) && id == st.nextId + 1 && c in st.wire && r.Open? && r.stream == id && t.channel == c
    requires st.nextId + 2 == p.nextId && p.wire == st.wire[c := st.wire[c] + [r]]
    requires p.history == st.history[id := Record(t.owner, c, [])] && p.streams == st.streams[id := t]
    requires forall s :: s in p.channels ==> s in st.channels && p.channels[s].id == st.channels[s].id
    ensures Orderly(p)
  {
    OpenedNumbers(st, p, id, c, r, t);
    OpenedShape(st, p, id, c, t);
    OpenedWords(st, p, id, c, r);
  }

  lemma OpenKeepsOrder(st: State, owner: nat, source: string, invocation: string)
    requires Orderly(st)
    ensures Orderly(OpenStream(st, owner, source, invocation))
  {
    var p := OpenStream(st, owner, source, invocation);
    if source in st.channels {
      var c, id := st.channels[source].id, st.nextId + 1;
      OpenWire(st, owner, source, invocation);
      OpenedKeepsOrder(st, p, id, c, Open(st.nextId + 2, id, invocation),
                       Stream(source, c, owner, Some([]), false, false));
    } else {
      QuietKeepsOrder(st, p);
    }
  }

  lemma OpenNumbered(st: State, p: State, id: nat, c: nat, r: Request)
    requires Numbered(st) && c in st.wire && r.stream == id && id <= p.nextId && st.nextId <= p.nextId
    requires p.wire == st.wire[c := st.wire[c] + [r]]
    requires p.history.Keys == st.history.Keys + {id} && p.history[id].channel == c
    requires forall k :: k in st.history && k != id ==> p.history[k].channel == st.history[k].channel
    requires id in p.streams && p.streams[id].channel == c
    requires forall k :: k in p.streams && k != id ==> k in st.streams && p.streams[k].channel == st.streams[k].channel
    requires forall s :: s in p.channels ==> s in st.channels && p.channels[s].id == st.channels[s].id
    ensures Numbered(p)
  {
    forall d, i | d in p.wire && 0 <= i < |p.wire[d]| ensures p.wire[d][i].stream in p.history {
      if d == c {
        assert p.wire[d][i] == if i < |st.wire[c]| then st.wire[c][i] else r;
      }
    }
  }

  lemma NewChannelWord(k: nat, channel: nat, live: bool, wire: map<nat, seq<Request>>, id: nat)
    requires WordInv(k, channel, live, wire) && id !in wire
    ensures WordInv(k, channel, live, wire[id := []])
  {
    assert About([], k) == [];
    hide OpenWord, ClosedWord, About;
  }

  function Bound(st: State, source: string): State {
    var id := st.nextId + 1;
    st.(nextId := id, channels := st.channels[source := Channel(id, {})], wire := st.wire[id := []])
  }

  lemma BindNumbered(st: State, source: string)
    requires Numbered(st)
    ensures Numbered(Bound(st, source)) && st.nextId + 1 !in st.wire
  {
    var p := Bound(st, source);
    forall c, i | c in p.wire && 0 <= i < |p.wire[c]| ensures p.wire[c][i].stream in p.history {
      assert c in st.wire;
    }
  }

  lemma BindWords(st: State, source: string)
    requires WordsOk(st) && st.nextId + 1 !in st.wire
    ensures WordsOk(Bound(st, source))
  {
    hide WordInv;
    var p := Bound(st, source);
    forall k | k in p.history ensures WordInv(k, p.history[k].channel, k in p.streams, p.wire) {
      assert WordInv(k, st.history[k].channel, k in st.streams, st.wire);
      NewChannelWord(k, st.history[k].channel, k in st.streams, st.wire, st.nextId + 1);
    }
  }

  lemma BindKeepsOrder(st: State, source: string)
    requires Orderly(st)
    ensures Orderly(Bound(st, source))
  {
    hide Numbered, WordsOk;
    BindNumbered(st, source);
    BindWords(st, source);
  }

  lemma AttachKeepsOrder(st: State, source: string, order: seq<nat>)
    requires Orderly(st)
    ensures Orderly(Attach(st, source, order))
  {
    hide Orderly, EndAll;
    BindKeepsOrder(st, source);
    EndAllKeepsOrder(Bound(st, source), order, SourceUnavailable);
  }

  lemma DetachKeepsOrder(st: State, source: string, id: nat, order: seq<nat>)
    requires Orderly(st)
    ensures Orderly(Detach(st, source, id, order))
  {
    hide EndAll, WordsOk;
    var dropped := if Current(st, source, id) then st.(channels := st.channels - {source}) else st;
    QuietKeepsOrder(st, dropped);
    EndAllKeepsOrder(dropped, order, SourceUnavailable);
    hide Numbered;
  }

  lemma QuietStepKeepsOrder(st: State, step: Step)
    requires Orderly(st)
    requires step.TimeoutStep? || step.AnswerStep?
             || step.ConnectStep? || step.DrainStep? || step.FillStep? || step.DisconnectStep?
    ensures Orderly(After(st, step))
  {
    QuietStepEffects(st, step);
    QuietKeepsOrder(st, After(st, step));
  }

  lemma QuietStepEffects(st: State, step: Step)
    requires step.TimeoutStep? || step.AnswerStep?
             || step.ConnectStep? || step.DrainStep? || step.FillStep? || step.DisconnectStep?
    ensures var p := After(st, step);
            && p.wire == st.wire && p.history == st.history && p.streams == st.streams && p.nextId == st.nextId
            && (forall s :: s in p.channels ==> s in st.channels && p.channels[s].id == st.channels[s].id)
  {
  }

  lemma StepKeepsOrder(st: State, step: Step)
    requires Orderly(st)
    ensures Orderly(After(st, step))
  {
    hide Orderly, Attach, Detach, OpenStream, SendInput, Activate, CloseStream, Remove, RemoveAll, Push;
    match step
    case AttachStep(source, order) => AttachKeepsOrder(st, source, order);
    case DetachStep(source, id, order) => DetachKeepsOrder(st, source, id, order);
    case OpenStep(owner, source, invocation) => OpenKeepsOrder(st, owner, source, invocation);
    case InputStep(owner, id, keys) => SendInputKeepsOrder(st, owner, id, keys);
    case ActivateStep(id) => ActivateKeepsOrder(st, id);
    case AbandonStep(id) => RemoveKeepsOrder(st, id);
    case CloseStep(owner, id) => CloseKeepsOrder(st, owner, id);
    case ReleaseStep(_, order) => RemoveAllKeepsOrder(st, order);
    case FrameStep(_, id, frame) => PushKeepsOrder(st, id, frame);
    case _ => QuietStepKeepsOrder(st, step);
  }

  lemma {:induction false} RunIsOrderly(steps: seq<Step>)
    ensures Orderly(Run(steps))
  {
    if steps != [] {
      RunIsOrderly(steps[..|steps| - 1]);
      StepKeepsOrder(Run(steps[..|steps| - 1]), steps[|steps| - 1]);
    }
  }

  /**
   * Over every run, the requests about a stream are on one channel only and form
   * `Open (Input | Resync)* Close?`, with the close only once the stream is gone; requests about
   * streams that were never opened do not exist.
   */
  lemma RequestsFollowTheProtocol(steps: seq<Step>, id: nat, c: nat)
    requires c in Run(steps).wire
    ensures var st := Run(steps);
            var w := About(st.wire[c], id);
            if id in st.history && c == st.history[id].channel
            then OpenWord(w) || (ClosedWord(w) && id !in st.streams)
            else w == []
  {
    RunIsOrderly(steps);
    var st := Run(steps);
    if id in st.history {
      assert WordInv(id, st.history[id].channel, id in st.streams, st.wire);
    } else {
      AboutNothing(st.wire[c], id);
    }
  }
}
