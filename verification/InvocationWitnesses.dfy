/** Short runs from a fresh invocation that show what the exact conditions exclude. */
module InvocationWitnesses {
  import opened Common
  import opened Domain
  import opened Reducer
  import opened InvocationRuns
  import opened ChildIsolation

  lemma RunOne(p: Prior, a: Step)
    ensures Run(p, [a]) == After(p, a)
  {
    hide After;
    assert [a][..0] == [];
  }

  lemma RunTwo(p: Prior, a: Step, b: Step)
    ensures Run(p, [a, b]) == After(After(p, a), b)
  {
    hide After;
    RunOne(p, a);
    assert [a, b][..1] == [a];
  }

  /** A fresh invocation exits, and a bind brings it back to life. */
  lemma ABindBringsItBack(init: Prior, code: Option<int>, pid: nat, now: Time)
    requires Registered(init)
    ensures var exit, bind := Exit(code, None, now), Bind(pid, None, now);
            Ended(Run(init, [exit]).snapshot.lifecycle) && Run(init, [exit, bind]).snapshot.lifecycle == Alive
  {
    var exit, bind := Exit(code, None, now), Bind(pid, None, now);
    RunOne(init, exit);
    RunTwo(init, exit, bind);
    AfterStamps(init, exit);
    BindRevives(After(init, exit), bind);
    hide After, Commit;
  }

  /** A hook event that carries only its kind. */
  function Hook(kind: EventKind, sequence: Option<nat>, child: Option<ChildRef>): Event {
    Event(kind, Evidence(ManagedHook, AuthenticatedInvocation, None, None, sequence), 0,
          None, None, None, None, None, None, None, child)
  }

  lemma HookIsAccepted(p: Prior, kind: EventKind, now: Time)
    requires p.snapshot.sourceOrdering == [] && !TerminalTurn(p.snapshot) && !Ended(p.snapshot.lifecycle)
    ensures var step := Deliver(Hook(kind, None, None), Some("why"), now);
            Accepted(p, step) && Effective(p.snapshot, step.event) == step.event
  {
    assert Utf8Length("why") == 3 by {
      assert "why"[1..] == "hy" && "hy"[1..] == "y" && "y"[1..] == "";
    }
  }

  lemma StoredReason(p: Prior, kind: EventKind, now: Time)
    requires p.snapshot.sourceOrdering == [] && !TerminalTurn(p.snapshot) && !Ended(p.snapshot.lifecycle)
    requires Outcome(kind) || Waiting(kind)
    ensures var q := After(p, Deliver(Hook(kind, None, None), Some("why"), now));
            q.reason == Some(Reason(kind, "why")) && q.snapshot.lifecycle == p.snapshot.lifecycle
  {
    var step := Deliver(Hook(kind, None, None), Some("why"), now);
    HookIsAccepted(p, kind, now);
    AcceptedEffects(p, step);
    AfterStamps(p, step);
    hide After, Commit, Accepted, Effective;
  }

  /** The two ways a stored reason is hidden: a bound invocation interrupted, and one still starting. */
  lemma StoredReasonsAreHidden(init: Prior, pid: nat, now: Time)
    requires Registered(init)
    ensures var interrupted := Run(init, [Bind(pid, None, now), Deliver(Hook(Interrupted, None, None), Some("why"), now)]);
            var starting := Run(init, [Deliver(Hook(EventKind.WaitingInput, None, None), Some("why"), now)]);
            && interrupted.reason.Some? && Project(interrupted.snapshot, interrupted.reason).reason.None?
            && starting.reason.Some? && Project(starting.snapshot, starting.reason).reason.None?
  {
    var bind := Bind(pid, None, now);
    var stop, ask := Deliver(Hook(Interrupted, None, None), Some("why"), now),
        Deliver(Hook(EventKind.WaitingInput, None, None), Some("why"), now);
    AfterStamps(init, bind);
    StoredReason(After(init, bind), Interrupted, now);
    StoredReason(init, EventKind.WaitingInput, now);
    RunTwo(init, bind, stop);
    RunOne(init, ask);
    StoredReasonIsShownUnless(init, [bind, stop]);
    StoredReasonIsShownUnless(init, [ask]);
    hide After, Commit, Project;
  }

  /** A sequenced child event makes the root event with the same number stale. */
  lemma ASequencedChildEventIsNoticed(init: Prior, now: Time)
    requires Registered(init)
    ensures var child, root := Hook(EventKind.Working, Some(1), Some(ChildRef("a", "b"))), Hook(Enrichment, Some(1), None);
            && !Suppressed(init.snapshot, root)
            && Suppressed(Run(init, [Deliver(child, None, now)]).snapshot, root)
  {
    var child := Hook(EventKind.Working, Some(1), Some(ChildRef("a", "b")));
    var step := Deliver(child, None, now);
    RunOne(init, step);
    RecordedIsStale(init.snapshot.sourceOrdering, child.evidence);
    EchoSeesOnlyOrder(init.snapshot, child);
    EchoSeesOnlyOrder(After(init, step).snapshot, child);
    AfterStamps(init, step);
    hide After, Commit;
    assert Echo(child) == Hook(Enrichment, Some(1), None);
  }
}
