/** What releasing a connection and dropping a channel leave behind (crates/sessiontap-hub/src/relay.rs:130-141, 261-272, 470-485). */
module RelayRelease {
  import opened Common
  import opened RelayStream
  import opened Relay

  lemma {:induction false} RemoveAllStreams(st: State, ids: seq<nat>)
    ensures forall s :: s in RemoveAll(st, ids).streams <==> s in st.streams && s !in ids
    ensures forall s :: s in RemoveAll(st, ids).streams ==> RemoveAll(st, ids).streams[s] == st.streams[s]
    decreases |ids|
  {
    if ids != [] {
      var mid := Remove(st, ids[0]);
      assert mid.streams == st.streams - {ids[0]};
      RemoveAllStreams(mid, ids[1..]);
      assert forall s :: s in ids <==> s == ids[0] || s in ids[1..];
    }
  }

  /** Releasing an owner removes exactly its streams and changes no other stream. */
  lemma ReleaseFreesTheOwner(st: State, owner: nat, order: seq<nat>)
    requires OrderOf(order, OwnedBy(st, owner))
    ensures var p := RemoveAll(st, order);
            && OwnedBy(p, owner) == {}
            && (forall s :: s in p.streams <==> s in st.streams && st.streams[s].owner != owner)
            && (forall s :: s in p.streams ==> p.streams[s] == st.streams[s])
  {
    RemoveAllStreams(st, order);
    forall s ensures s in order <==> s in st.streams && st.streams[s].owner == owner {
      assert s in order <==> s in OwnedBy(st, owner);
    }
  }

  /** The stream has ended, or will on activation before anything else is sent. */
  predicate Finished(t: Stream) {
    t.ended || (t.opening.Some? && t.opening.value != [] && t.opening.value[0].Ended?)
  }

  lemma EndFinishes(st: State, id: nat, reason: EndReason)
    ensures var p := Push(st, id, Ended(reason));
            && p.streams.Keys == st.streams.Keys
            && (id in st.streams ==> Finished(p.streams[id]) && p.streams[id].channel == st.streams[id].channel)
            && (forall s :: s in st.streams && s != id ==> p.streams[s] == st.streams[s])
  {
  }

  lemma {:induction false} EndAllFinishes(st: State, ids: seq<nat>, reason: EndReason)
    ensures var p := EndAll(st, ids, reason);
            && p.streams.Keys == st.streams.Keys
            && (forall s :: s in st.streams ==> p.streams[s].channel == st.streams[s].channel)
            && (forall s :: s in st.streams && (s in ids || Finished(st.streams[s])) ==> Finished(p.streams[s]))
    decreases |ids|
  {
    if ids != [] {
      EndFinishes(st, ids[0], reason);
      EndAllFinishes(Push(st, ids[0], Ended(reason)), ids[1..], reason);
    }
  }

  /** Once a channel is dropped, every stream that used it has ended or is about to. */
  lemma DetachFinishesItsStreams(st: State, source: string, id: nat, order: seq<nat>)
    requires OrderOf(order, LiveOn(st, id))
    ensures var p := Detach(st, source, id, order);
            && !Current(p, source, id)
            && forall s :: s in p.streams && p.streams[s].channel == id ==> Finished(p.streams[s])
  {
    var dropped := if Current(st, source, id) then st.(channels := st.channels - {source}) else st;
    EndAllFinishes(dropped, order, SourceUnavailable);
    EndAllChannels(dropped, order, SourceUnavailable);
    forall s | s in st.streams && st.streams[s].channel == id ensures s in order || Finished(st.streams[s]) {
      assert s in order <==> s in LiveOn(st, id);
    }
  }

  lemma {:induction false} EndAllChannels(st: State, ids: seq<nat>, reason: EndReason)
    ensures EndAll(st, ids, reason).channels == st.channels
    decreases |ids|
  {
    if ids != [] {
      EndAllChannels(Push(st, ids[0], Ended(reason)), ids[1..], reason);
    }
  }
}
