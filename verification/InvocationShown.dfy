/**
 * What observers are shown of an invocation, in terms of its snapshot alone
 * (crates/sessiontap-core/src/domain.rs:316-396).
 */
module InvocationShown {
  import opened Common
  import opened Domain
  import opened Reducer
  import opened InvocationRuns
  import opened InvocationWitnesses

  /** The status of every view, each exactly under its condition. */
  lemma StatusIs(s: Snapshot, reason: Option<Reason>)
    ensures var status := Project(s, reason).status;
            && (status == PublicStatus.Running <==> s.lifecycle == Alive && s.activity == Activity.Working)
            && (status == PublicStatus.Blocked <==>
                  s.lifecycle == Alive && (s.activity == Activity.WaitingInput || s.activity == Activity.WaitingApproval))
            && (status == PublicStatus.Stopped <==>
                  s.lifecycle == Exited || s.lifecycle == Lost || (s.lifecycle == Alive && s.activity == Activity.Stopped))
            && (status == PublicStatus.Idle <==>
                  s.lifecycle == Starting
                  || (s.lifecycle == Alive && (s.activity == Activity.Idle || s.activity == Activity.Unknown)))
  {
  }

  /** The other fields of every view. */
  lemma FieldsAre(s: Snapshot, reason: Option<Reason>)
    ensures var v := Project(s, reason);
            && v.invocationId == s.launch.invocationId && v.provider == s.launch.provider && v.cwd == s.launch.cwd
            && v.createdAt == s.launch.createdAt && v.updatedAt == s.updatedAt
            && v.repository == s.launch.repository && v.metadata == s.metadata && v.usage == s.usage
            && (v.session.Some? <==> s.session.Some?)
            && (v.session.Some? ==>
                  && v.session.value.id == s.session.value.id && v.session.value.name == s.session.value.name
                  && v.session.value.startReason == s.session.value.startReason)
            && (v.terminal.Some? <==>
                  && s.launch.terminal && s.launch.hasMultiplexer && s.process.childPid.Some?
                  && s.lifecycle != Exited && s.lifecycle != Lost)
            && (v.terminal.Some? ==> v.terminal.value == s.launch.quickPick)
  {
  }

  /** A reason is shown exactly for these pairs of status and stored kind, with its summary. */
  lemma ReasonIs(s: Snapshot, reason: Option<Reason>)
    ensures var v := Project(s, reason);
            var kind := if reason.Some? then reason.value.kind else Enrichment;
            && (v.reason.Some? ==> reason.Some? && v.reason.value.summary == reason.value.summary)
            && (v.reason.Some? && v.reason.value.kind == Input <==>
                  v.status == PublicStatus.Blocked && kind == EventKind.WaitingInput)
            && (v.reason.Some? && v.reason.value.kind == Approval <==>
                  v.status == PublicStatus.Blocked && kind == EventKind.WaitingApproval)
            && (v.reason.Some? && v.reason.value.kind == PublicReasonKind.Completed <==>
                  v.status == PublicStatus.Stopped && kind == EventKind.Completed)
            && (v.reason.Some? && v.reason.value.kind == PublicReasonKind.Failed <==>
                  v.status == PublicStatus.Stopped && kind == EventKind.Failed)
  {
  }

  /** One child as it is shown. */
  predicate Shows(c: ChildState, v: ChildView) {
    && v.agentId == c.agentId && v.agentType == c.agentType && v.reason == c.reason
    && v.startedAt == c.startedAt && v.updatedAt == c.updatedAt
    && (v.status == PublicStatus.Running <==> c.activity == ChildActivity.Running)
    && (v.status == PublicStatus.Blocked <==> c.activity == ChildActivity.Blocked)
    && (v.status == PublicStatus.Stopped <==> c.activity == ChildActivity.Stopped)
  }

  /** Earlier start first, then the smaller identity. */
  predicate Before(a: ChildView, b: ChildView) {
    a.startedAt < b.startedAt || (a.startedAt == b.startedAt && a.agentId != b.agentId && TextLe(a.agentId, b.agentId))
  }

  lemma ViewShows(c: ChildState)
    ensures Shows(c, ViewChild(c))
  {
  }

  lemma {:induction false} InsertedLength(v: ChildView, sorted: seq<ChildView>)
    ensures |InsertView(v, sorted)| == |sorted| + 1
  {
    if sorted != [] {
      InsertedLength(v, sorted[1..]);
    }
  }

  lemma {:induction false} SortedLength(cs: seq<ChildState>)
    ensures |SortViews(ViewChildren(cs))| == |cs|
  {
    if cs != [] {
      SortedLength(cs[1..]);
      var views := ViewChildren(cs);
      assert views[1..] == ViewChildren(cs[1..]);
      InsertedLength(views[0], SortViews(views[1..]));
    }
  }

  lemma {:induction false} ListedIsOrdered(vs: seq<ChildView>, i: nat, j: nat)
    requires Listed(vs) && i < j < |vs|
    ensures Before(vs[i], vs[j])
  {
    if i == 0 {
      assert vs[j] in vs[1..];
    } else {
      ListedIsOrdered(vs[1..], i - 1, j - 1);
    }
  }

  /** The public list: none without children; else every child once, as it is, by start and identity. */
  lemma ChildrenAre(s: Snapshot, reason: Option<Reason>)
    requires UniqueIds(s.children)
    ensures var shown := Project(s, reason).children;
            && (shown.None? <==> s.children == [])
            && (shown.Some? ==>
                  && |shown.value| == |s.children|
                  && (forall i, j :: 0 <= i < j < |shown.value| ==> Before(shown.value[i], shown.value[j]))
                  && (forall v :: v in shown.value ==> exists c :: c in s.children && Shows(c, v))
                  && (forall c :: c in s.children ==> exists v :: v in shown.value && Shows(c, v)))
  {
    hide SortViews, ViewChildren, ViewChild, Shows, Before, Listed, UniqueIds;
    var cs := s.children;
    var shown := SortViews(ViewChildren(cs));
    SortedChildren(cs);
    SortedLength(cs);
    forall i, j | 0 <= i < j < |shown| ensures Before(shown[i], shown[j]) {
      ListedIsOrdered(shown, i, j);
    }
    forall v | v in shown ensures exists c :: c in cs && Shows(c, v) {
      var c :| c in cs && v == ViewChild(c);
      ViewShows(c);
    }
    forall c | c in cs ensures exists v :: v in shown && Shows(c, v) {
      ViewShows(c);
      assert ViewChild(c) in shown;
    }
  }

  /** Over any run, an observer fed only the reported fields shows the status of the invocation's life and activity. */
  lemma ObservedStatusIs(init: Prior, steps: seq<Step>)
    ensures var s, status := Run(init, steps).snapshot, Observed(init, steps).status;
            && (status == PublicStatus.Running <==> s.lifecycle == Alive && s.activity == Activity.Working)
            && (status == PublicStatus.Blocked <==>
                  s.lifecycle == Alive && (s.activity == Activity.WaitingInput || s.activity == Activity.WaitingApproval))
            && (status == PublicStatus.Stopped <==>
                  s.lifecycle == Exited || s.lifecycle == Lost || (s.lifecycle == Alive && s.activity == Activity.Stopped))
  {
    ObserverNeverDrifts(init, steps);
    hide Observed, Run;
    StatusIs(Run(init, steps).snapshot, Run(init, steps).reason);
  }

  /** A fresh invocation that is bound and then reports work is shown running. */
  lemma WorkIsShown(init: Prior, pid: nat, now: Time)
    requires Registered(init)
    ensures Observed(init, [Bind(pid, None, now), Deliver(Hook(EventKind.Working, None, None), Some("why"), now)]).status
         == PublicStatus.Running
  {
    var bind, work := Bind(pid, None, now), Deliver(Hook(EventKind.Working, None, None), Some("why"), now);
    AfterStamps(init, bind);
    BindRevives(init, bind);
    HookIsAccepted(After(init, bind), EventKind.Working, now);
    AcceptedEffects(After(init, bind), work);
    RunTwo(init, bind, work);
    hide After, Commit, Observed, Accepted, Run;
    ObservedStatusIs(init, [bind, work]);
  }
}
