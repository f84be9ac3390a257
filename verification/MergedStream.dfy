/** The hub's merged live stream (crates/sessiontap-hub/src/listen.rs:166-223). */
module MergedStream {
  import opened Common
  import Domain

  type View = Domain.View

  /** An agent's place in the merged view: source and invocation. */
  datatype Key = Key(source: string, invocation: string)

  type Agents = map<Key, View>

  /** One committed store revision. */
  datatype Commit =
    | Updated(key: Key, view: View)
    | SnapshotApplied(source: string, views: map<string, View>)
    | Forgotten(key: Key)

  function Apply(agents: Agents, c: Commit): Agents {
    match c
    case Updated(key, view) => agents[key := view]
    case SnapshotApplied(source, views) =>
      (map key | key in agents && key.source != source :: agents[key])
      + (map id | id in views :: Key(source, id) := views[id])
    case Forgotten(key) => agents - {key}
  }

  /** The merged state after the commits of `log`; revision `r` is the state after `log[..r]`. */
  function Merged(log: seq<Commit>): Agents {
    if log == [] then map[] else Apply(Merged(log[..|log| - 1]), log[|log| - 1])
  }

  datatype Publication =
    | Update(revision: nat, key: Key, view: View)
    | Rebase(revision: nat)

  function Publish(log: seq<Commit>, i: nat): Publication
    requires i < |log|
  {
    match log[i]
    case Updated(key, view) => Update(i + 1, key, view)
    case _ => Rebase(i + 1)
  }

  datatype Received = Got(publication: Publication) | Lagged

  datatype Envelope =
    | Snapshot(revision: nat, agents: Agents)
    | Change(revision: nat, key: Key, view: View)

  /** What the consumer's copy becomes. */
  function Fold(copy: Agents, e: Envelope): Agents {
    match e
    case Snapshot(_, agents) => agents
    case Change(_, key, view) => copy[key := view]
  }

  function Baseline(log: seq<Commit>): Envelope {
    Snapshot(|log|, Merged(log))
  }

  /** The envelope sent for one receive, with the store as it is then. */
  function Respond(since: nat, received: Received, log: seq<Commit>): Option<Envelope> {
    match received
    case Got(Update(revision, key, view)) => if revision > since then Some(Change(revision, key, view)) else None
    case Got(Rebase(revision)) => if revision > since then Some(Baseline(log)) else None
    case Lagged => Some(Baseline(log))
  }

  /** The envelopes a whole stream sends, given the store at the baseline and at each receive. */
  function Sent(start: seq<Commit>, received: seq<Received>, logs: seq<seq<Commit>>): seq<Envelope>
    requires |received| == |logs|
  {
    if received == [] then [Baseline(start)]
    else
      var n := |received| - 1;
      var before := Sent(start, received[..n], logs[..n]);
      var e := Respond(LastRevision(before), received[n], logs[n]);
      before + (if e.Some? then [e.value] else [])
  }

  function LastRevision(envelopes: seq<Envelope>): nat {
    if envelopes == [] then 0 else envelopes[|envelopes| - 1].revision
  }

  /** The receive loop: `since` moves with every envelope written to the sink. */
  method StreamMerged(start: seq<Commit>, received: seq<Received>, logs: seq<seq<Commit>>)
    returns (sink: seq<Envelope>, since: nat)
    requires |received| == |logs|
    ensures sink == Sent(start, received, logs) && since == LastRevision(sink)
  {
    sink := [Baseline(start)];
    since := |start|;
    var i := 0;
    while i < |received|
      invariant i <= |received|
      invariant sink == Sent(start, received[..i], logs[..i]) && sink != [] && since == LastRevision(sink)
    {
      assert received[..i + 1][..i] == received[..i] && logs[..i + 1][..i] == logs[..i];
      match received[i] {
        case Got(Update(revision, key, view)) =>
          if revision > since {
            since := revision;
            sink := sink + [Change(revision, key, view)];
          }
        case Got(Rebase(revision)) =>
          if revision > since {
            sink := sink + [Baseline(logs[i])];
            since := |logs[i]|;
          }
        case Lagged =>
          sink := sink + [Baseline(logs[i])];
          since := |logs[i]|;
      }
      i := i + 1;
    }
    assert received[..i] == received && logs[..i] == logs;
  }

  // ---- The stream against a store that keeps committing ----

  /**
   * The store's log, how much of it is published, the receiver's position, and the consumer:
   * `since` and the copy it has folded, with the revisions emitted so far.
   */
  datatype System = System(
    log: seq<Commit>, published: nat, next: nat, since: nat, copy: Agents, emitted: seq<nat>)

  /** Subscribed first, baseline taken at any later moment. */
  predicate Started(s: System) {
    && s.next <= s.published <= |s.log|
    && s.since == |s.log| && s.copy == Merged(s.log) && s.emitted == [s.since]
  }

  datatype Step =
    | CommitStep(commit: Commit)
    | PublishStep
    | ReceiveStep
    | LagStep(oldest: nat)

  function Take(s: System, received: Received, next: nat): System {
    var e := Respond(s.since, received, s.log);
    if e.None? then s.(next := next)
    else s.(next := next, since := e.value.revision, copy := Fold(s.copy, e.value), emitted := s.emitted + [e.value.revision])
  }

  /** Publications go out in revision order after their commit; a slow receiver skips to `oldest`. */
  function After(s: System, step: Step): System {
    match step
    case CommitStep(c) => s.(log := s.log + [c])
    case PublishStep => if s.published < |s.log| then s.(published := s.published + 1) else s
    case ReceiveStep =>
      if s.next < s.published <= |s.log| then Take(s, Got(Publish(s.log, s.next)), s.next + 1) else s
    case LagStep(oldest) =>
      if s.next < oldest <= s.published then Take(s, Lagged, oldest) else s
  }

  function Run(s: System, steps: seq<Step>): System {
    if steps == [] then s else After(Run(s, steps[..|steps| - 1]), steps[|steps| - 1])
  }

  predicate NonDecreasing(revisions: seq<nat>) {
    forall i, j :: 0 <= i < j < |revisions| ==> revisions[i] <= revisions[j]
  }

  /** The copy is the store at `since`, and nothing the receiver has passed is missing from it. */
  predicate InStep(s: System) {
    && s.next <= s.published <= |s.log|
    && s.next <= s.since <= |s.log|
    && s.copy == Merged(s.log[..s.since])
    && NonDecreasing(s.emitted)
    && (forall i :: 0 <= i < |s.emitted| ==> s.emitted[i] <= s.since)
  }

  lemma MergedNext(log: seq<Commit>, r: nat)
    requires r < |log|
    ensures Merged(log[..r + 1]) == Apply(Merged(log[..r]), log[r])
  {
    assert log[..r + 1][..r] == log[..r];
  }

  lemma StepKeepsInStep(s: System, step: Step)
    requires InStep(s)
    ensures InStep(After(s, step))
  {
    hide Merged;
    match step
    case CommitStep(c) =>
      assert (s.log + [c])[..s.since] == s.log[..s.since];
    case PublishStep =>
    case ReceiveStep =>
      if s.next < s.published {
        MergedNext(s.log, s.next);
        assert s.log[..|s.log|] == s.log;
      }
    case LagStep(_) =>
      assert s.log[..|s.log|] == s.log;
  }

  /**
   * Through any mix of commits, updates, snapshot applications and lag, the consumer's folded copy
   * is the store's merged state at revision `since`, and emitted revisions never decrease.
   */
  lemma {:induction false} ConsumerFollowsTheStore(s: System, steps: seq<Step>)
    requires Started(s)
    ensures InStep(Run(s, steps))
  {
    if steps == [] {
      assert s.log[..|s.log|] == s.log;
    } else {
      ConsumerFollowsTheStore(s, steps[..|steps| - 1]);
      StepKeepsInStep(Run(s, steps[..|steps| - 1]), steps[|steps| - 1]);
    }
  }

  /** A consumer that has received everything published holds the whole store. */
  lemma CaughtUpMeansEqual(s: System, steps: seq<Step>)
    requires Started(s)
    ensures var e := Run(s, steps);
            e.next == e.published == |e.log| ==> e.since == |e.log| && e.copy == Merged(e.log)
  {
    ConsumerFollowsTheStore(s, steps);
    var e := Run(s, steps);
    if e.next == e.published == |e.log| {
      assert e.log[..e.since] == e.log;
    }
  }

  // ---- Why the publication order matters ----

  /** The commit changes nothing but the agent `key`. */
  predicate Own(c: Commit, key: Key) {
    !c.SnapshotApplied? && c.key == key
  }

  predicate AllOwn(commits: seq<Commit>, key: Key) {
    forall i :: 0 <= i < |commits| ==> Own(commits[i], key)
  }

  /** The two states agree at `k`. */
  predicate SameAt(a: Agents, b: Agents, k: Key) {
    (k in a <==> k in b) && (k in a ==> a[k] == b[k])
  }

  lemma MergedSnoc(log: seq<Commit>, c: Commit)
    ensures Merged(log + [c]) == Apply(Merged(log), c)
  {
    hide Apply;
    assert (log + [c])[..|log|] == log;
  }

  lemma OwnStaysOff(agents: Agents, c: Commit, key: Key, k: Key)
    requires Own(c, key) && k != key
    ensures SameAt(Apply(agents, c), agents, k)
  {
  }

  lemma {:induction false} OwnCommitsStayOff(prior: seq<Commit>, overtaken: seq<Commit>, key: Key, k: Key)
    requires AllOwn(overtaken, key) && k != key
    ensures SameAt(Merged(prior + overtaken), Merged(prior), k)
  {
    if overtaken == [] {
      NothingAdded(prior);
    } else {
      var n := |overtaken| - 1;
      OwnCommitsStayOff(prior, overtaken[..n], key, k);
      LastComesOff(prior, overtaken);
      hide Merged, Apply;
      MergedSnoc(prior + overtaken[..n], overtaken[n]);
      OwnStaysOff(Merged(prior + overtaken[..n]), overtaken[n], key, k);
    }
  }

  /** A commit that is not the agent's own changes another agent of some store. */
  lemma ForeignCommitStrays(overtaken: seq<Commit>, c: Commit, key: Key, view: View) returns (prior: seq<Commit>, k: Key)
    requires !Own(c, key)
    ensures k != key && !SameAt(Merged(prior + (overtaken + [c])), Merged(prior), k)
  {
    prior := [];
    match c {
      case Updated(other, _) => k := other;
      case Forgotten(other) => k := other; prior := [Updated(k, view)];
      case SnapshotApplied(source, views) =>
        if id :| id in views && Key(source, id) != key {
          k := Key(source, id);
        } else {
          k := Key(source, key.invocation + "x");
          prior := [Updated(k, view)];
        }
    }
    assert prior != [] ==> prior[..0] == [];
    Reassociate(prior, overtaken, [c]);
    MergedSnoc(prior + overtaken, c);
  }

  lemma {:induction false} ForeignCommitsStray(overtaken: seq<Commit>, key: Key, view: View) returns (prior: seq<Commit>, k: Key)
    requires !AllOwn(overtaken, key)
    ensures k != key && !SameAt(Merged(prior + overtaken), Merged(prior), k)
    decreases |overtaken|
  {
    var n := |overtaken| - 1;
    assert overtaken == overtaken[..n] + [overtaken[n]];
    if Own(overtaken[n], key) {
      prior, k := ForeignCommitsStray(overtaken[..n], key, view);
      LastComesOff(prior, overtaken);
      hide Merged, Apply;
      MergedSnoc(prior + overtaken[..n], overtaken[n]);
      OwnStaysOff(Merged(prior + overtaken[..n]), overtaken[n], key, k);
    } else {
      prior, k := ForeignCommitStrays(overtaken[..n], overtaken[n], key, view);
    }
  }

  /** Folding the update over a copy at `prior` gives the store after `overtaken` and the update. */
  ghost predicate FoldsRight(prior: seq<Commit>, overtaken: seq<Commit>, key: Key, view: View) {
    Fold(Merged(prior), Change(|prior + overtaken| + 1, key, view)) == Merged(prior + overtaken + [Updated(key, view)])
  }

  ghost predicate SameOff(a: Agents, b: Agents, key: Key) {
    forall k :: k != key ==> SameAt(a, b, k)
  }

  lemma SameOffIff(a: Agents, b: Agents, key: Key, view: View)
    ensures a[key := view] == b[key := view] <==> SameOff(a, b, key)
  {
    if a[key := view] == b[key := view] {
      forall k | k != key ensures SameAt(a, b, k) {
        assert k in a[key := view] <==> k in b[key := view];
        assert k in a ==> a[key := view][k] == b[key := view][k];
      }
    } else if SameOff(a, b, key) {
      assert forall k :: k in a[key := view] <==> k == key || k in a;
      assert forall k :: k in b[key := view] <==> k == key || k in b;
      assert forall k :: k in a && k != key ==> SameAt(a, b, k);
      assert forall k :: k in b && k != key ==> SameAt(a, b, k);
    }
  }

  lemma FoldsRightIff(prior: seq<Commit>, overtaken: seq<Commit>, key: Key, view: View)
    ensures FoldsRight(prior, overtaken, key, view) <==> SameOff(Merged(prior + overtaken), Merged(prior), key)
  {
    MergedSnoc(prior + overtaken, Updated(key, view));
    hide Merged, SameOff;
    SameOffIff(Merged(prior + overtaken), Merged(prior), key, view);
  }

  /**
   * An update may overtake these commits, whatever was committed before them, if and only if each
   * of them updates or forgets the update's own agent.
   */
  lemma OvertakingIsHarmlessIff(overtaken: seq<Commit>, key: Key, view: View)
    ensures (forall prior :: FoldsRight(prior, overtaken, key, view)) <==> AllOwn(overtaken, key)
  {
    hide FoldsRight, Merged, SameAt;
    if AllOwn(overtaken, key) {
      forall prior ensures FoldsRight(prior, overtaken, key, view) {
        FoldsRightIff(prior, overtaken, key, view);
        OwnCommitsKeepTheRest(prior, overtaken, key);
      }
    } else {
      var prior, k := ForeignCommitsStray(overtaken, key, view);
      FoldsRightIff(prior, overtaken, key, view);
    }
  }

  lemma OwnCommitsKeepTheRest(prior: seq<Commit>, overtaken: seq<Commit>, key: Key)
    requires AllOwn(overtaken, key)
    ensures SameOff(Merged(prior + overtaken), Merged(prior), key)
  {
    hide Merged, SameAt, AllOwn;
    forall k | k != key ensures SameAt(Merged(prior + overtaken), Merged(prior), k) {
      OwnCommitsStayOff(prior, overtaken, key, k);
    }
  }

  // ---- Runs with publications in any order ----

  /** The receiver gets the publication of any commit so far, in any order, or lags. */
  datatype FreeStep = Commits(commit: Commit) | Receives(index: nat) | Lags

  function FreeAfter(s: System, step: FreeStep): System {
    match step
    case Commits(c) => s.(log := s.log + [c])
    case Receives(i) => if i < |s.log| then Take(s, Got(Publish(s.log, i)), s.next) else s
    case Lags => Take(s, Lagged, s.next)
  }

  function FreeRun(s: System, steps: seq<FreeStep>): System {
    if steps == [] then s else FreeAfter(FreeRun(s, steps[..|steps| - 1]), steps[|steps| - 1])
  }

  predicate Follows(s: System) {
    s.since <= |s.log| && s.copy == Merged(s.log[..s.since])
  }

  /** An update that arrives early overtakes only commits of its own agent. */
  predicate OvertakesOwn(s: System, step: FreeStep) {
    step.Receives? && step.index < |s.log| && s.log[step.index].Updated? && s.since <= step.index ==>
      AllOwn(s.log[s.since..step.index], s.log[step.index].key)
  }

  lemma FreeStepFollows(s: System, step: FreeStep)
    requires Follows(s) && OvertakesOwn(s, step)
    ensures Follows(FreeAfter(s, step))
  {
    hide Merged, AllOwn;
    match step
    case Commits(c) => assert (s.log + [c])[..s.since] == s.log[..s.since];
    case Lags => assert s.log[..|s.log|] == s.log;
    case Receives(i) =>
      assert s.log[..|s.log|] == s.log;
      if i < |s.log| && s.log[i].Updated? && s.since <= i {
        var prior, overtaken := s.log[..s.since], s.log[s.since..i];
        OvertakingIsHarmlessIff(overtaken, s.log[i].key, s.log[i].view);
        assert FoldsRight(prior, overtaken, s.log[i].key, s.log[i].view);
        assert prior + overtaken + [s.log[i]] == s.log[..i + 1];
      }
  }

  /**
   * Whatever order publications arrive in, the consumer's copy is the store at `since` throughout,
   * as long as early updates overtake only commits of their own agent.
   */
  lemma {:induction false} ConsumerFollowsInAnyOrder(s: System, steps: seq<FreeStep>)
    requires Started(s)
    requires forall i :: 0 <= i < |steps| ==> OvertakesOwn(FreeRun(s, steps[..i]), steps[i])
    ensures Follows(FreeRun(s, steps))
  {
    if steps == [] {
      assert s.log[..|s.log|] == s.log;
    } else {
      var n := |steps| - 1;
      forall i | 0 <= i < n ensures OvertakesOwn(FreeRun(s, steps[..n][..i]), steps[..n][i]) {
        assert steps[..n][..i] == steps[..i];
      }
      ConsumerFollowsInAnyOrder(s, steps[..n]);
      FreeStepFollows(FreeRun(s, steps[..n]), steps[n]);
    }
  }

  function AllCommits(commits: seq<Commit>): seq<FreeStep> {
    if commits == [] then [] else AllCommits(commits[..|commits| - 1]) + [Commits(commits[|commits| - 1])]
  }

  /** The commits and the update are made, and the update's publication arrives before theirs. */
  function Overtaking(s: System, overtaken: seq<Commit>, key: Key, view: View): seq<FreeStep> {
    AllCommits(overtaken + [Updated(key, view)]) + [Receives(|s.log| + |overtaken|)]
  }

  lemma FreeRunSnoc(s: System, steps: seq<FreeStep>, step: FreeStep)
    ensures FreeRun(s, steps + [step]) == FreeAfter(FreeRun(s, steps), step)
  {
    hide FreeAfter;
    assert (steps + [step])[..|steps|] == steps;
  }

  lemma {:induction false} CommitsOnlyLog(s: System, commits: seq<Commit>)
    ensures FreeRun(s, AllCommits(commits)) == s.(log := s.log + commits)
  {
    if commits == [] {
      NothingAdded(s.log);
    } else {
      var n := |commits| - 1;
      CommitsOnlyLog(s, commits[..n]);
      FreeRunSnoc(s, AllCommits(commits[..n]), Commits(commits[n]));
      LastComesOff(s.log, commits);
    }
  }

  lemma ReceivesLast(s: System, key: Key, view: View)
    requires s.log != [] && s.log[|s.log| - 1] == Updated(key, view) && s.since < |s.log|
    ensures var p := FreeAfter(s, Receives(|s.log| - 1));
            p.log == s.log && p.since == |s.log| && p.copy == Fold(s.copy, Change(|s.log|, key, view))
  {
  }

  lemma CommitsThenArrival(s: System, commits: seq<Commit>, i: nat)
    ensures FreeRun(s, AllCommits(commits) + [Receives(i)]) == FreeAfter(s.(log := s.log + commits), Receives(i))
  {
    hide FreeRun, FreeAfter, AllCommits;
    CommitsOnlyLog(s, commits);
    FreeRunSnoc(s, AllCommits(commits), Receives(i));
  }

  lemma OvertakingArrives(s: System, overtaken: seq<Commit>, key: Key, view: View)
    ensures var log := s.log + overtaken + [Updated(key, view)];
            FreeRun(s, Overtaking(s, overtaken, key, view)) == FreeAfter(s.(log := log), Receives(|log| - 1))
  {
    hide FreeRun, FreeAfter, AllCommits;
    CommitsThenArrival(s, overtaken + [Updated(key, view)], |s.log| + |overtaken|);
    Reassociate(s.log, overtaken, [Updated(key, view)]);
  }

  lemma OvertakingEnds(s: System, overtaken: seq<Commit>, key: Key, view: View)
    requires Started(s)
    ensures Follows(FreeRun(s, Overtaking(s, overtaken, key, view))) <==> FoldsRight(s.log, overtaken, key, view)
  {
    hide Merged, FreeRun, FreeAfter, Overtaking;
    var log := s.log + overtaken + [Updated(key, view)];
    OvertakingArrives(s, overtaken, key, view);
    ReceivesLast(s.(log := log), key, view);
    assert log[..|log|] == log;
  }

  /**
   * Every consumer, at any store, still follows it after an update overtook these commits if and
   * only if each of them updates or forgets the update's own agent.
   */
  lemma OvertakingRunIff(overtaken: seq<Commit>, key: Key, view: View)
    ensures (forall s :: Started(s) ==> Follows(FreeRun(s, Overtaking(s, overtaken, key, view)))) <==> AllOwn(overtaken, key)
  {
    OvertakingIsHarmlessIff(overtaken, key, view);
    hide FoldsRight, AllOwn, Follows, FreeRun, Overtaking, Merged;
    if AllOwn(overtaken, key) {
      forall s | Started(s) ensures Follows(FreeRun(s, Overtaking(s, overtaken, key, view))) {
        assert FoldsRight(s.log, overtaken, key, view);
        OvertakingEnds(s, overtaken, key, view);
      }
    } else {
      var prior :| !FoldsRight(prior, overtaken, key, view);
      var s := System(prior, |prior|, |prior|, |prior|, Merged(prior), [|prior|]);
      assert Started(s);
      OvertakingEnds(s, overtaken, key, view);
    }
  }

  /** Two updates published in the wrong order: the first one is lost to the consumer. */
  lemma OutOfOrderLosesAnUpdate(a: View, b: View)
    ensures var k1, k2 := Key("s", "1"), Key("s", "2");
            var log := [Updated(k1, a), Updated(k2, b)];
            var received := [Got(Publish(log, 1)), Got(Publish(log, 0))];
            var sent := Sent([], received, [log, log]);
            && sent == [Snapshot(0, map[]), Change(2, k2, b)]
            && k1 in Merged(log) && k1 !in Fold(map[], sent[1])
  {
    var k1, k2 := Key("s", "1"), Key("s", "2");
    var log := [Updated(k1, a), Updated(k2, b)];
    var received := [Got(Publish(log, 1)), Got(Publish(log, 0))];
    assert received[..1] == [received[0]] && [log, log][..1] == [log];
    var none: seq<seq<Commit>> := [];
    assert received[..1][..0] == [] && [log][..0] == none;
    assert Sent([], [], none) == [Baseline([])];
    assert Sent([], received[..1], [log]) == [Baseline([]), Change(2, k2, b)];
    assert log[..1] == [Updated(k1, a)] && log[..1][..0] == [];
    assert Merged(log[..1]) == map[k1 := a];
  }

  /** An update is sent exactly when it is newer than everything sent; a rebase sends the store as it is. */
  lemma RespondIs(since: nat, received: Received, log: seq<Commit>)
    ensures var e := Respond(since, received, log);
            match received
            case Got(Update(revision, key, view)) => e == if revision > since then Some(Change(revision, key, view)) else None
            case Got(Rebase(revision)) => e == if revision > since then Some(Snapshot(|log|, Merged(log))) else None
            case Lagged => e == Some(Snapshot(|log|, Merged(log)))
  {
  }

  lemma SentIsSome(start: seq<Commit>, received: seq<Received>, logs: seq<seq<Commit>>)
    requires |received| == |logs|
    ensures Sent(start, received, logs) != []
    decreases |received|
  {
    if received != [] {
      SentIsSome(start, received[..|received| - 1], logs[..|received| - 1]);
    }
  }

  /** Whatever is received, in whatever order, every update sent is newer than the envelope sent before it. */
  lemma {:induction false} UpdatesAreNew(start: seq<Commit>, received: seq<Received>, logs: seq<seq<Commit>>, i: nat)
    requires |received| == |logs| && 0 < i < |Sent(start, received, logs)| && Sent(start, received, logs)[i].Change?
    ensures Sent(start, received, logs)[i].revision > Sent(start, received, logs)[i - 1].revision
    decreases |received|
  {
    if received != [] {
      var n := |received| - 1;
      SentIsSome(start, received[..n], logs[..n]);
      var before := Sent(start, received[..n], logs[..n]);
      if i < |before| {
        UpdatesAreNew(start, received[..n], logs[..n], i);
      } else {
        RespondIs(LastRevision(before), received[n], logs[n]);
      }
    }
  }
}
