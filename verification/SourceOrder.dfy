/** Sequenced evidence takes effect at most once per source (reducer.rs:99, 177-190, 512-545, 751). */
module SourceOrder {
  import opened Common
  import opened Domain
  import opened Reducer
  import opened InvocationRuns
  import opened ChildIsolation

  /** A sequenced event, of the root or of a child, that passes every guard. */
  predicate TakesEffect(p: Prior, step: Step) {
    && step.Deliver?
    && ValidEvent(step.event, step.summary)
    && !Suppressed(p.snapshot, step.event)
    && step.event.evidence.sourceSequence.Some?
  }

  predicate Sequenced(step: Step) {
    step.Deliver? && step.event.evidence.sourceSequence.Some?
  }

  /** The sources that sequenced events of the run name. */
  function Named(steps: seq<Step>): set<Source> {
    if steps == [] then {}
    else
      var n := |steps| - 1;
      Named(steps[..n]) + (if Sequenced(steps[n]) then {SourceOf(steps[n].event.evidence)} else {})
  }

  lemma CursorsAfter(p: Prior, step: Step)
    ensures After(p, step).snapshot.sourceOrdering ==
            if TakesEffect(p, step) then RecordOrder(p.snapshot.sourceOrdering, step.event.evidence)
            else p.snapshot.sourceOrdering
  {
    var t := Transit(p, step);
    if t.Some? { CommitStamps(p, t.value, step.now); }
    if Accepted(p, step) {
      ReduceEffects(p.snapshot, Effective(p.snapshot, step.event));
      assert Effective(p.snapshot, step.event).evidence == step.event.evidence;
    }
  }

  /** Some cursor of `source` has reached `sequence`. */
  predicate Reached(cursors: seq<Cursor>, source: Source, sequence: nat) {
    exists k :: 0 <= k < |cursors| && cursors[k].source == source && cursors[k].sequence >= sequence
  }

  /** Recording an event evicts nobody. */
  predicate Roomy(cursors: seq<Cursor>, e: Evidence) {
    CursorIndex(cursors, SourceOf(e)) < |cursors| || |cursors| < SOURCE_ORDER_CURSOR_MAX
  }

  lemma RecordKeepsReached(cursors: seq<Cursor>, e: Evidence, source: Source, sequence: nat)
    requires e.sourceSequence.Some? && !StaleOrder(cursors, e) && Roomy(cursors, e)
    requires Reached(cursors, source, sequence)
    ensures Reached(RecordOrder(cursors, e), source, sequence)
  {
    var k :| 0 <= k < |cursors| && cursors[k].source == source && cursors[k].sequence >= sequence;
    var r := RecordOrder(cursors, e);
    assert r[k].source == source;
    assert cursors[k].source == SourceOf(e) ==> e.sourceSequence.value > cursors[k].sequence;
  }

  lemma RecordReaches(cursors: seq<Cursor>, e: Evidence)
    requires e.sourceSequence.Some?
    ensures Reached(RecordOrder(cursors, e), SourceOf(e), e.sourceSequence.value)
  {
    RecordedIsStale(cursors, e);
  }

  // ---- Counting sources ----

  function SourcesOf(cursors: seq<Cursor>): set<Source> {
    set k | 0 <= k < |cursors| :: cursors[k].source
  }

  lemma {:induction false} DistinctSourcesCount(cursors: seq<Cursor>)
    requires DistinctSources(cursors)
    ensures |SourcesOf(cursors)| == |cursors|
  {
    if cursors != [] {
      var n := |cursors| - 1;
      DistinctSourcesCount(cursors[..n]);
      assert SourcesOf(cursors) == SourcesOf(cursors[..n]) + {cursors[n].source};
      assert cursors[n].source !in SourcesOf(cursors[..n]);
    }
  }

  lemma {:induction false} CursorsAreNamed(init: Prior, steps: seq<Step>)
    requires Registered(init)
    ensures SourcesOf(Run(init, steps).snapshot.sourceOrdering) <= Named(steps)
  {
    if steps != [] {
      var n := |steps| - 1;
      CursorsAreNamed(init, steps[..n]);
      CursorsAfter(Run(init, steps[..n]), steps[n]);
      var before, step := Run(init, steps[..n]).snapshot.sourceOrdering, steps[n];
      var after := Run(init, steps).snapshot.sourceOrdering;
      forall k | 0 <= k < |after| ensures after[k].source in Named(steps) {
        if TakesEffect(Run(init, steps[..n]), step) && after[k].source != SourceOf(step.event.evidence) {
          SourceWasThere(before, step.event.evidence, k);
        }
      }
    }
  }

  lemma SourceWasThere(cursors: seq<Cursor>, e: Evidence, k: nat)
    requires k < |RecordOrder(cursors, e)| && RecordOrder(cursors, e)[k].source != SourceOf(e)
    ensures RecordOrder(cursors, e)[k].source in SourcesOf(cursors)
  {
  }

  lemma FewSourcesNeverEvict(init: Prior, steps: seq<Step>, step: Step)
    requires Registered(init) && |Named(steps + [step])| <= SOURCE_ORDER_CURSOR_MAX && Sequenced(step)
    ensures Roomy(Run(init, steps).snapshot.sourceOrdering, step.event.evidence)
  {
    var cursors := Run(init, steps).snapshot.sourceOrdering;
    var source := SourceOf(step.event.evidence);
    ReachableIsConsistent(init, steps);
    CursorsAreNamed(init, steps);
    DistinctSourcesCount(cursors);
    assert (steps + [step])[..|steps|] == steps;
    if CursorIndex(cursors, source) == |cursors| {
      assert source !in SourcesOf(cursors);
      assert |SourcesOf(cursors) + {source}| == |cursors| + 1;
      SubsetCount(SourcesOf(cursors) + {source}, Named(steps + [step]));
    }
  }

  lemma {:induction false} NamedGrows(steps: seq<Step>, i: nat)
    requires i <= |steps|
    ensures Named(steps[..i]) <= Named(steps)
    decreases |steps|
  {
    if i < |steps| {
      var n := |steps| - 1;
      NamedGrows(steps[..n], i);
      assert steps[..n][..i] == steps[..i];
    } else {
      assert steps[..i] == steps;
    }
  }

  lemma StepReaches(p: Prior, step: Step)
    requires TakesEffect(p, step)
    ensures Reached(After(p, step).snapshot.sourceOrdering,
                    SourceOf(step.event.evidence), step.event.evidence.sourceSequence.value)
  {
    CursorsAfter(p, step);
    RecordReaches(p.snapshot.sourceOrdering, step.event.evidence);
  }

  lemma StepKeepsReached(p: Prior, step: Step, source: Source, sequence: nat)
    requires TakesEffect(p, step) ==> Roomy(p.snapshot.sourceOrdering, step.event.evidence)
    requires Reached(p.snapshot.sourceOrdering, source, sequence)
    ensures Reached(After(p, step).snapshot.sourceOrdering, source, sequence)
  {
    CursorsAfter(p, step);
    if TakesEffect(p, step) {
      RecordKeepsReached(p.snapshot.sourceOrdering, step.event.evidence, source, sequence);
    }
  }

  /** Whatever took effect is still reached at every later point of the run. */
  lemma {:induction false} EffectsStayReached(init: Prior, steps: seq<Step>, i: nat)
    requires Registered(init) && |Named(steps)| <= SOURCE_ORDER_CURSOR_MAX
    requires i < |steps| && TakesEffect(Run(init, steps[..i]), steps[i])
    ensures Reached(Run(init, steps).snapshot.sourceOrdering,
                    SourceOf(steps[i].event.evidence), steps[i].event.evidence.sourceSequence.value)
  {
    hide After, Reached;
    var n := |steps| - 1;
    var p := Run(init, steps[..n]);
    if i == n {
      StepReaches(p, steps[n]);
    } else {
      NamedGrows(steps, n);
      SubsetCount(Named(steps[..n]), Named(steps));
      assert steps[..n][..i] == steps[..i];
      EffectsStayReached(init, steps[..n], i);
      assert steps[..n] + [steps[n]] == steps;
      if Sequenced(steps[n]) {
        FewSourcesNeverEvict(init, steps[..n], steps[n]);
      }
      StepKeepsReached(p, steps[n], SourceOf(steps[i].event.evidence), steps[i].event.evidence.sourceSequence.value);
    }
  }

  /** Steps `i < j` of the run both take effect under one source with numbers that do not grow. */
  predicate Repeats(init: Prior, steps: seq<Step>, i: nat, j: nat)
    requires i < j < |steps|
  {
    && TakesEffect(Run(init, steps[..i]), steps[i])
    && TakesEffect(Run(init, steps[..j]), steps[j])
    && SourceOf(steps[i].event.evidence) == SourceOf(steps[j].event.evidence)
    && steps[i].event.evidence.sourceSequence.value >= steps[j].event.evidence.sourceSequence.value
  }

  ghost predicate ExactlyOnce(init: Prior, steps: seq<Step>) {
    forall i, j :: 0 <= i < j < |steps| ==> !Repeats(init, steps, i, j)
  }

  /**
   * With at most 32 sources, the numbers that take effect under each source strictly increase; in
   * particular no sequenced event takes effect twice.
   */
  lemma FewSourcesTakeEffectOnce(init: Prior, steps: seq<Step>)
    requires Registered(init) && |Named(steps)| <= SOURCE_ORDER_CURSOR_MAX
    ensures ExactlyOnce(init, steps)
  {
    hide After;
    forall i, j | 0 <= i < j < |steps| ensures !Repeats(init, steps, i, j) {
      if TakesEffect(Run(init, steps[..i]), steps[i]) && Sequenced(steps[j]) {
        NamedGrows(steps, j);
        SubsetCount(Named(steps[..j]), Named(steps));
        assert steps[..j][..i] == steps[..i];
        EffectsStayReached(init, steps[..j], i);
        var e, f := steps[i].event.evidence, steps[j].event.evidence;
        assert SourceOf(e) == SourceOf(f) && f.sourceSequence.value <= e.sourceSequence.value ==>
            StaleOrder(Run(init, steps[..j]).snapshot.sourceOrdering, f);
      }
    }
  }

  // ---- One source too many ----

  predicate ValidSource(source: Source) {
    source.instance.Some? ==> Bounded(source.instance.value, COLLECTOR_INSTANCE_ID_MAX_CHARS)
  }

  /** The first event a source sends: enrichment that says nothing, with sequence 1. */
  function Greeting(source: Source): Step {
    var trust := if source.channel == ManagedHook then AuthenticatedInvocation else LocalObservation;
    var evidence := Evidence(source.channel, trust, source.revision, source.instance, Some(1));
    Deliver(Event(Enrichment, evidence, 0, None, None, None, None, None, None, None, None), None, 0)
  }

  lemma GreetingTakesEffectIff(p: Prior, source: Source)
    requires ValidSource(source)
    ensures Sequenced(Greeting(source)) && SourceOf(Greeting(source).event.evidence) == source
    ensures TakesEffect(p, Greeting(source)) <==> !Reached(p.snapshot.sourceOrdering, source, 1)
  {
    EchoSeesOnlyOrder(p.snapshot, Greeting(source).event);
    assert Echo(Greeting(source).event) == Greeting(source).event;
  }

  function Greetings(sources: seq<Source>): seq<Step> {
    seq(|sources|, i requires 0 <= i < |sources| => Greeting(sources[i]))
  }

  function FirstCursors(sources: seq<Source>): seq<Cursor> {
    seq(|sources|, i requires 0 <= i < |sources| => Cursor(sources[i], 1))
  }

  predicate DistinctValid(sources: seq<Source>) {
    && (forall i :: 0 <= i < |sources| ==> ValidSource(sources[i]))
    && (forall i, j :: 0 <= i < j < |sources| ==> sources[i] != sources[j])
  }

  lemma NextIsNew(sources: seq<Source>, n: nat)
    requires DistinctValid(sources) && n < |sources|
    ensures CursorIndex(FirstCursors(sources[..n]), sources[n]) == n
    ensures FirstCursors(sources[..n + 1]) == FirstCursors(sources[..n]) + [Cursor(sources[n], 1)]
  {
    hide ValidSource;
  }

  lemma GreetOneMore(p: Prior, sources: seq<Source>, n: nat)
    requires DistinctValid(sources) && n < |sources| && n < SOURCE_ORDER_CURSOR_MAX
    requires p.snapshot.sourceOrdering == FirstCursors(sources[..n])
    ensures After(p, Greeting(sources[n])).snapshot.sourceOrdering == FirstCursors(sources[..n + 1])
  {
    hide After, TakesEffect, ValidSource, CursorIndex;
    GreetingTakesEffectIff(p, sources[n]);
    CursorsAfter(p, Greeting(sources[n]));
    NextIsNew(sources, n);
    assert forall i :: 0 <= i < n ==> FirstCursors(sources[..n])[i].source != sources[n];
  }

  /** Greeting one source more than the table holds forgets the first. */
  lemma GreetOneTooMany(p: Prior, sources: seq<Source>)
    requires DistinctValid(sources) && |sources| == SOURCE_ORDER_CURSOR_MAX + 1
    requires p.snapshot.sourceOrdering == FirstCursors(sources[..SOURCE_ORDER_CURSOR_MAX])
    ensures !Reached(After(p, Greeting(sources[SOURCE_ORDER_CURSOR_MAX])).snapshot.sourceOrdering, sources[0], 1)
  {
    hide After, TakesEffect, ValidSource, CursorIndex, Reached, RecordOrder;
    var n := SOURCE_ORDER_CURSOR_MAX;
    NewIsNotReached(sources, n);
    GreetingTakesEffectIff(p, sources[n]);
    CursorsAfter(p, Greeting(sources[n]));
    FirstIsForgotten(sources, Greeting(sources[n]).event.evidence);
  }

  lemma NewIsNotReached(sources: seq<Source>, n: nat)
    requires DistinctValid(sources) && n < |sources|
    ensures !Reached(FirstCursors(sources[..n]), sources[n], 1)
  {
    hide ValidSource;
  }

  lemma FirstIsForgotten(sources: seq<Source>, e: Evidence)
    requires DistinctValid(sources) && |sources| == SOURCE_ORDER_CURSOR_MAX + 1
    requires SourceOf(e) == sources[SOURCE_ORDER_CURSOR_MAX] && e.sourceSequence == Some(1)
    ensures !Reached(RecordOrder(FirstCursors(sources[..SOURCE_ORDER_CURSOR_MAX]), e), sources[0], 1)
  {
    hide ValidSource, CursorIndex;
    var n := SOURCE_ORDER_CURSOR_MAX;
    var cursors := FirstCursors(sources[..n]);
    NextIsNew(sources, n);
    var r := RecordOrder(cursors, e);
    assert r == cursors[1..] + [Cursor(sources[n], 1)];
    forall k | 0 <= k < |r| ensures r[k].source != sources[0] {
      assert r[k].source == sources[k + 1];
    }
  }

  /** Greeting at most 32 distinct sources fills the table in order. */
  lemma {:induction false} GreetingsFillTheTable(init: Prior, sources: seq<Source>)
    requires Registered(init) && DistinctValid(sources) && |sources| <= SOURCE_ORDER_CURSOR_MAX
    ensures Run(init, Greetings(sources)).snapshot.sourceOrdering == FirstCursors(sources)
  {
    if sources != [] {
      hide After;
      var n := |sources| - 1;
      GreetingsFillTheTable(init, sources[..n]);
      assert Greetings(sources)[..n] == Greetings(sources[..n]);
      GreetOneMore(Run(init, Greetings(sources[..n])), sources, n);
      assert sources[..n + 1] == sources;
    } else {
      assert FirstCursors(sources) == [];
    }
  }

  lemma NothingReached(source: Source)
    ensures !Reached([], source, 1)
  {
  }

  /** 33 sources, then the first one again: its evicted cursor lets the replay take effect. */
  lemma ThirtyThreeSourcesRepeat(init: Prior, sources: seq<Source>)
    requires Registered(init) && DistinctValid(sources) && |sources| == SOURCE_ORDER_CURSOR_MAX + 1
    ensures !ExactlyOnce(init, Greetings(sources + [sources[0]]))
  {
    hide After, Reached;
    var n := SOURCE_ORDER_CURSOR_MAX;
    var steps := Greetings(sources + [sources[0]]);
    GreetingsFillTheTable(init, sources[..n]);
    assert steps[..n] == Greetings(sources[..n]) && steps[..0] == [];
    GreetOneTooMany(Run(init, steps[..n]), sources);
    assert steps[..n + 1][..n] == steps[..n] && steps[..n + 1][n] == steps[n] == Greeting(sources[n]);
    NothingReached(sources[0]);
    GreetingTakesEffectIff(init, sources[0]);
    GreetingTakesEffectIff(Run(init, steps[..n + 1]), sources[0]);
    hide TakesEffect;
    assert Repeats(init, steps, 0, n + 1);
  }

  lemma {:induction false} PickDistinct(pool: set<Source>, n: nat) returns (picked: seq<Source>)
    requires n <= |pool|
    ensures |picked| == n && (forall x :: x in picked ==> x in pool)
    ensures forall i, j :: 0 <= i < j < n ==> picked[i] != picked[j]
  {
    if n == 0 {
      picked := [];
    } else {
      var x :| x in pool;
      var rest := PickDistinct(pool - {x}, n - 1);
      picked := rest + [x];
    }
  }

  lemma {:induction false} GreetingsName(sources: seq<Source>, pool: set<Source>)
    requires forall x :: x in sources ==> x in pool
    ensures Named(Greetings(sources)) <= pool
  {
    if sources != [] {
      var n := |sources| - 1;
      GreetingsName(sources[..n], pool);
      assert Greetings(sources)[..n] == Greetings(sources[..n]);
      assert sources[n] in sources;
    }
  }

  /**
   * A set of sources is safe, in the sense that no run over it lets a sequenced event take effect
   * out of order or twice, exactly when it has at most 32 members.
   */
  lemma ExactlyOnceIffFewSources(init: Prior, pool: set<Source>)
    requires Registered(init) && forall x :: x in pool ==> ValidSource(x)
    ensures (forall steps :: Named(steps) <= pool ==> ExactlyOnce(init, steps)) <==> |pool| <= 32
  {
    if |pool| <= SOURCE_ORDER_CURSOR_MAX {
      forall steps | Named(steps) <= pool ensures ExactlyOnce(init, steps) {
        SubsetCount(Named(steps), pool);
        FewSourcesTakeEffectOnce(init, steps);
      }
    } else {
      var sources := PickDistinct(pool, SOURCE_ORDER_CURSOR_MAX + 1);
      assert forall i :: 0 <= i < |sources| ==> sources[i] in pool;
      GreetingsName(sources + [sources[0]], pool);
      ThirtyThreeSourcesRepeat(init, sources);
    }
  }
}
