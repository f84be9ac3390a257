/**
 * The managed-hook merge (crates/sessiontap-adapters/src/lib.rs:677-691, 735-799): owned handlers
 * are taken out of a provider's JSON configuration and, unless removing, put back at the end of
 * each managed event. Reading and rendering JSON text are parameters.
 */
module HookMerge {
  import opened Common

  datatype Json =
    | Null
    | Bool(bool)
    | Number(literal: string)
    | String(text: string)
    | Array(items: seq<Json>)
    | Object(fields: map<string, Json>)

  datatype Error = InvalidText | RootNotObject | HooksNotObject | EventNotArray | ExecutableNotText

  // ---- Handlers and groups ----

  function Get(j: Json, key: string): Option<Json> {
    if j.Object? && key in j.fields then Some(j.fields[key]) else None
  }

  predicate StartsAt(s: string, part: string, i: nat) {
    i + |part| <= |s| && s[i..i + |part|] == part
  }

  predicate Contains(s: string, part: string) {
    exists i :: 0 <= i <= |s| && StartsAt(s, part, i)
  }

  predicate Owned(handler: Json) {
    && Get(handler, "statusMessage") == Some(String("SessionTap observability"))
    && Get(handler, "command").Some? && Get(handler, "command").value.String?
    && Contains(Get(handler, "command").value.text, " hook emit ")
  }

  /** The handlers of a group, when it has an array of them. */
  function Handlers(group: Json): Option<seq<Json>> {
    match Get(group, "hooks")
    case Some(Array(items)) => Some(items)
    case _ => None
  }

  function Unowned(handlers: seq<Json>): seq<Json> {
    if handlers == [] then []
    else
      var n := |handlers| - 1;
      Unowned(handlers[..n]) + if Owned(handlers[n]) then [] else [handlers[n]]
  }

  function CleanGroup(group: Json): Json {
    if Handlers(group).Some? then Object(group.fields["hooks" := Array(Unowned(Handlers(group).value))]) else group
  }

  /** A group whose handlers are all gone is dropped. */
  predicate Keeps(group: Json) {
    Handlers(group) != Some([])
  }

  function CleanGroups(groups: seq<Json>): seq<Json> {
    if groups == [] then []
    else
      var n := |groups| - 1;
      CleanGroups(groups[..n]) + if Keeps(CleanGroup(groups[n])) then [CleanGroup(groups[n])] else []
  }

  // ---- Documents ----

  predicate AllArrays(hooks: map<string, Json>) {
    forall event :: event in hooks ==> hooks[event].Array?
  }

  function GroupsAt(hooks: map<string, Json>, event: string): seq<Json> {
    if event in hooks && hooks[event].Array? then hooks[event].items else []
  }

  function CleanValue(groups: Json): Json {
    Array(if groups.Array? then CleanGroups(groups.items) else [])
  }

  function CleanHooks(hooks: map<string, Json>): map<string, Json> {
    map event | event in hooks :: CleanValue(hooks[event])
  }

  /** Each event gets an array, and the group at its end if there is one. */
  function AddGroups(hooks: map<string, Json>, events: seq<string>, added: seq<Json>): map<string, Json>
    decreases |events|
  {
    if events == [] then hooks
    else
      var n := |events| - 1;
      var before := AddGroups(hooks, events[..n], added);
      before[events[n] := Array(GroupsAt(before, events[n]) + added)]
  }

  function HooksOf(root: Json): Option<map<string, Json>> {
    match Get(root, "hooks")
    case Some(Object(fields)) => Some(fields)
    case Some(_) => None
    case None => Some(map[])
  }

  function MergeHooks(hooks: map<string, Json>, events: seq<string>, added: seq<Json>): map<string, Json> {
    AddGroups(CleanHooks(hooks), events, added)
  }

  predicate WellFormed(root: Json) {
    root.Object? && HooksOf(root).Some? && AllArrays(HooksOf(root).value)
  }

  function MergeTree(root: Json, events: seq<string>, added: seq<Json>): Json
    requires WellFormed(root)
  {
    Object(root.fields["hooks" := Object(MergeHooks(HooksOf(root).value, events, added))])
  }

  function ShellQuote(s: string): string {
    "'" + Escaped(s) + "'"
  }

  function Escaped(s: string): string {
    if s == [] then [] else Escaped(s[..|s| - 1]) + if s[|s| - 1] == '\'' then "'\"'\"'" else [s[|s| - 1]]
  }

  function OwnedHandler(provider: string, executable: string): Json {
    Object(map[
        "type" := String("command"),
        "command" := String(ShellQuote(executable) + " hook emit " + ShellQuote(provider)),
        "timeout" := Number("3"),
        "statusMessage" := String("SessionTap observability")])
  }

  function OwnedGroup(provider: string, executable: string): Json {
    Object(map["hooks" := Array([OwnedHandler(provider, executable)])])
  }

  // ---- Groups: what cleaning does ----

  lemma BuiltHandlerIsOwned(provider: string, executable: string)
    ensures Owned(OwnedHandler(provider, executable))
  {
    var a, b := ShellQuote(executable), ShellQuote(provider);
    var command := a + " hook emit " + b;
    assert StartsAt(command, " hook emit ", |a|);
  }

  lemma BuiltGroupGoes(provider: string, executable: string)
    ensures !Keeps(CleanGroup(OwnedGroup(provider, executable)))
  {
    BuiltHandlerIsOwned(provider, executable);
    var h := OwnedHandler(provider, executable);
    assert [h][..0] == [];
    assert Unowned([h]) == [];
  }

  lemma {:induction false} UnownedAgain(handlers: seq<Json>)
    ensures Unowned(Unowned(handlers)) == Unowned(handlers)
  {
    if handlers != [] {
      var n := |handlers| - 1;
      UnownedAgain(handlers[..n]);
      var u := Unowned(handlers[..n]);
      if Owned(handlers[n]) {
        assert u + [] == u;
      } else {
        assert (u + [handlers[n]])[..|u|] == u;
      }
    }
  }

  lemma CleanGroupAgain(group: Json)
    ensures CleanGroup(CleanGroup(group)) == CleanGroup(group)
  {
    if Handlers(group).Some? {
      UnownedAgain(Handlers(group).value);
    }
  }

  lemma CleanGroupsSnoc(groups: seq<Json>, group: Json)
    ensures CleanGroups(groups + [group]) ==
            CleanGroups(groups) + if Keeps(CleanGroup(group)) then [CleanGroup(group)] else []
  {
    assert (groups + [group])[..|groups|] == groups;
  }

  lemma {:induction false} CleanGroupsAgain(groups: seq<Json>)
    ensures CleanGroups(CleanGroups(groups)) == CleanGroups(groups)
  {
    if groups != [] {
      var n := |groups| - 1;
      CleanGroupsAgain(groups[..n]);
      CleanGroupAgain(groups[n]);
      var before, group := CleanGroups(groups[..n]), CleanGroup(groups[n]);
      if Keeps(group) {
        CleanGroupsSnoc(before, group);
      } else {
        assert before + [] == before;
      }
    }
  }

  /** `n` copies of what a managed event gets. */
  function Copies(added: seq<Json>, n: nat): seq<Json> {
    if n == 0 then [] else Copies(added, n - 1) + added
  }

  /** Nothing is added, or one group that cleaning drops. */
  predicate Managed(added: seq<Json>) {
    added == [] || (|added| == 1 && !Keeps(CleanGroup(added[0])))
  }

  function Extended(groups: seq<Json>, group: Json, n: nat): seq<Json> {
    if n == 0 then groups else Extended(groups, group, n - 1) + [group]
  }

  lemma {:induction false} ExtendedByCopies(groups: seq<Json>, group: Json, n: nat)
    ensures Extended(groups, group, n) == groups + Copies([group], n)
    decreases n
  {
    if n > 0 {
      ExtendedByCopies(groups, group, n - 1);
    }
  }

  lemma NoCopies(n: nat)
    ensures Copies([], n) == []
  {
  }

  lemma {:induction false} ExtendedGoes(groups: seq<Json>, group: Json, n: nat)
    requires !Keeps(CleanGroup(group))
    ensures CleanGroups(Extended(groups, group, n)) == CleanGroups(groups)
    decreases n
  {
    if n > 0 {
      ExtendedGoes(groups, group, n - 1);
      var most := Extended(groups, group, n - 1);
      CleanGroupsSnoc(most, group);
      assert CleanGroups(most) + [] == CleanGroups(most);
    }
  }

  lemma CopiesGo(groups: seq<Json>, added: seq<Json>, n: nat)
    requires Managed(added)
    ensures CleanGroups(groups + Copies(added, n)) == CleanGroups(groups)
  {
    if added == [] {
      NoCopies(n);
      assert groups + [] == groups;
    } else {
      assert added == [added[0]];
      ExtendedByCopies(groups, added[0], n);
      ExtendedGoes(groups, added[0], n);
    }
  }

  // ---- Documents: event by event ----

  function Occurrences(events: seq<string>, event: string): nat {
    if events == [] then 0
    else Occurrences(events[..|events| - 1], event) + if events[|events| - 1] == event then 1 else 0
  }

  lemma AddOne(hooks: map<string, Json>, added: seq<Json>, event: string, groups: seq<Json>, n: nat, e: string)
    requires GroupsAt(hooks, event) == groups + Copies(added, n)
    ensures GroupsAt(hooks[e := Array(GroupsAt(hooks, e) + added)], event)
         == groups + Copies(added, n + if e == event then 1 else 0)
  {
    Reassociate(groups, Copies(added, n), added);
  }

  lemma {:induction false} AddedKeys(hooks: map<string, Json>, events: seq<string>, added: seq<Json>)
    requires AllArrays(hooks)
    ensures var p := AddGroups(hooks, events, added);
            AllArrays(p) && p.Keys == hooks.Keys + set e | e in events
    decreases |events|
  {
    if events != [] {
      var n := |events| - 1;
      AddedKeys(hooks, events[..n], added);
      assert events == events[..n] + [events[n]];
    }
  }

  lemma {:induction false} AddedAt(hooks: map<string, Json>, events: seq<string>, added: seq<Json>, event: string)
    ensures GroupsAt(AddGroups(hooks, events, added), event)
         == GroupsAt(hooks, event) + Copies(added, Occurrences(events, event))
    decreases |events|
  {
    if events != [] {
      var n := |events| - 1;
      AddedAt(hooks, events[..n], added, event);
      AddOne(AddGroups(hooks, events[..n], added), added, event, GroupsAt(hooks, event),
             Occurrences(events[..n], event), events[n]);
    } else {
      assert GroupsAt(hooks, event) + [] == GroupsAt(hooks, event);
    }
  }

  /** Every event after a merge: its cleaned groups, then one new group each time it is managed. */
  lemma MergedAt(hooks: map<string, Json>, events: seq<string>, added: seq<Json>, event: string)
    ensures var p := MergeHooks(hooks, events, added);
            && AllArrays(p)
            && (event in p <==> event in hooks || event in events)
            && GroupsAt(p, event) == CleanGroups(GroupsAt(hooks, event)) + Copies(added, Occurrences(events, event))
  {
    AddedKeys(CleanHooks(hooks), events, added);
    AddedAt(CleanHooks(hooks), events, added, event);
  }

  lemma SameHooks(a: map<string, Json>, b: map<string, Json>)
    requires AllArrays(a) && AllArrays(b)
    requires forall event :: event in a <==> event in b
    requires forall event :: event in a ==> GroupsAt(a, event) == GroupsAt(b, event)
    ensures a == b
  {
    forall event | event in a ensures a[event] == b[event] {
      assert GroupsAt(a, event) == GroupsAt(b, event);
    }
  }

  /** The earlier merge leaves no trace: only what the later one adds is there. */
  lemma MergeTwice(hooks: map<string, Json>, events: seq<string>, first: seq<Json>, second: seq<Json>)
    requires Managed(first)
    ensures MergeHooks(MergeHooks(hooks, events, first), events, second) == MergeHooks(hooks, events, second)
  {
    var once := MergeHooks(hooks, events, first);
    var twice, direct := MergeHooks(once, events, second), MergeHooks(hooks, events, second);
    forall event ensures (event in twice <==> event in direct) && GroupsAt(twice, event) == GroupsAt(direct, event) {
      MergedAt(hooks, events, first, event);
      MergedAt(once, events, second, event);
      MergedAt(hooks, events, second, event);
      var groups := CleanGroups(GroupsAt(hooks, event));
      CopiesGo(groups, first, Occurrences(events, event));
      CleanGroupsAgain(GroupsAt(hooks, event));
    }
    MergedAt(once, events, second, "");
    MergedAt(hooks, events, second, "");
    SameHooks(twice, direct);
  }

  lemma MergedIsWellFormed(root: Json, events: seq<string>, added: seq<Json>)
    requires WellFormed(root)
    ensures WellFormed(MergeTree(root, events, added))
    ensures HooksOf(MergeTree(root, events, added)) == Some(MergeHooks(HooksOf(root).value, events, added))
  {
    MergedAt(HooksOf(root).value, events, added, "");
  }

  lemma TreeTwice(root: Json, events: seq<string>, first: seq<Json>, second: seq<Json>)
    requires WellFormed(root) && Managed(first)
    ensures WellFormed(MergeTree(root, events, first))
    ensures MergeTree(MergeTree(root, events, first), events, second) == MergeTree(root, events, second)
  {
    MergedIsWellFormed(root, events, first);
    MergeTwice(HooksOf(root).value, events, first, second);
  }

  // ---- What stays: the user's groups ----

  /** The positions of the elements that pass, in order. */
  function Picks<T>(s: seq<T>, keep: T -> bool): seq<nat> {
    if s == [] then []
    else
      var n := |s| - 1;
      Picks(s[..n], keep) + if keep(s[n]) then [n] else []
  }

  /** `picks` are strictly increasing, and are the positions of exactly the elements that pass. */
  predicate Picked<T>(s: seq<T>, picks: seq<nat>, keep: T -> bool) {
    && (forall j :: 0 <= j < |picks| ==> picks[j] < |s| && keep(s[picks[j]]))
    && (forall i, j :: 0 <= i < j < |picks| ==> picks[i] < picks[j])
    && (forall i :: 0 <= i < |s| && keep(s[i]) ==> i in picks)
  }

  lemma {:induction false} PicksArePicked<T>(s: seq<T>, keep: T -> bool)
    ensures Picked(s, Picks(s, keep), keep)
  {
    if s != [] {
      var n := |s| - 1;
      PicksArePicked(s[..n], keep);
      var before, picks := Picks(s[..n], keep), Picks(s, keep);
      forall i | 0 <= i < |s| && keep(s[i]) ensures i in picks {
        if i < n {
          assert s[..n][i] == s[i];
          assert i in before;
        } else {
          assert picks[|picks| - 1] == n;
        }
      }
      assert forall j :: 0 <= j < |before| ==> picks[j] == before[j] < n && s[..n][before[j]] == s[before[j]];
    }
  }

  lemma PicksAreBelow<T>(s: seq<T>, keep: T -> bool)
    ensures forall j :: 0 <= j < |Picks(s, keep)| ==> Picks(s, keep)[j] < |s|
  {
    PicksArePicked(s, keep);
    hide Picks;
  }

  /** `chosen` are the elements of `s` that pass, in order. */
  predicate Selects<T(==)>(s: seq<T>, chosen: seq<T>, keep: T -> bool) {
    var picks := Picks(s, keep);
    && |chosen| == |picks|
    && Picked(s, picks, keep)
    && forall j :: 0 <= j < |picks| ==> chosen[j] == s[picks[j]]
  }

  function ByUser(): Json -> bool {
    handler => !Owned(handler)
  }

  lemma {:induction false} UnownedSelects(handlers: seq<Json>)
    ensures Selects(handlers, Unowned(handlers), ByUser())
  {
    PicksArePicked(handlers, ByUser());
    if handlers != [] {
      var n := |handlers| - 1;
      UnownedSelects(handlers[..n]);
      var before := Picks(handlers[..n], ByUser());
      assert forall j :: 0 <= j < |before| ==> handlers[..n][before[j]] == handlers[before[j]];
    }
  }

  /** A group goes when it has a handler array without a single user handler. */
  predicate Vanishes(group: Json) {
    Handlers(group).Some? && forall i :: 0 <= i < |Handlers(group).value| ==> Owned(Handlers(group).value[i])
  }

  function Survives(): Json -> bool {
    group => !Vanishes(group)
  }

  lemma {:induction false} UnownedEmptyIff(handlers: seq<Json>)
    ensures Unowned(handlers) == [] <==> forall i :: 0 <= i < |handlers| ==> Owned(handlers[i])
  {
    hide Owned;
    if handlers != [] {
      var n := |handlers| - 1;
      UnownedEmptyIff(handlers[..n]);
      if Owned(handlers[n]) {
        forall i | 0 <= i < n && Unowned(handlers) == [] ensures Owned(handlers[i]) {
          assert handlers[..n][i] == handlers[i];
        }
      }
    }
  }

  lemma CleanedHandlers(group: Json)
    requires Handlers(group).Some?
    ensures Handlers(CleanGroup(group)) == Some(Unowned(Handlers(group).value))
  {
    hide Unowned;
  }

  lemma KeepsIff(group: Json)
    ensures Keeps(CleanGroup(group)) <==> !Vanishes(group)
  {
    hide Unowned, Owned;
    if Handlers(group).Some? {
      CleanedHandlers(group);
      UnownedEmptyIff(Handlers(group).value);
      hide CleanGroup, Handlers;
    }
  }

  /** The same group with its owned handlers taken out: other fields as they were, user handlers in order. */
  predicate Matches(before: Json, after: Json) {
    if Handlers(before).None? then after == before
    else
      && after.Object? && after.fields - {"hooks"} == before.fields - {"hooks"}
      && Handlers(after).Some? && Selects(Handlers(before).value, Handlers(after).value, ByUser())
  }

  lemma CleanMatches(group: Json)
    ensures Matches(group, CleanGroup(group))
  {
    if Handlers(group).Some? {
      UnownedSelects(Handlers(group).value);
      hide Unowned, Selects, Owned;
      assert CleanGroup(group).fields - {"hooks"} == group.fields - {"hooks"};
    }
  }

  /** `after` are the groups of `before` that survive, in order, each without its owned handlers. */
  predicate KeptGroups(before: seq<Json>, after: seq<Json>) {
    var picks := Picks(before, Survives());
    && |after| == |picks|
    && Picked(before, picks, Survives())
    && forall j :: 0 <= j < |picks| ==> Matches(before[picks[j]], after[j])
  }

  lemma {:induction false} CleanKeepsGroups(groups: seq<Json>)
    ensures KeptGroups(groups, CleanGroups(groups))
  {
    hide Matches, Keeps, CleanGroup, Vanishes, Picked;
    PicksArePicked(groups, Survives());
    if groups != [] {
      var n := |groups| - 1;
      CleanKeepsGroups(groups[..n]);
      KeepsIff(groups[n]);
      CleanMatches(groups[n]);
      var before := Picks(groups[..n], Survives());
      PicksAreBelow(groups[..n], Survives());
      assert forall j :: 0 <= j < |before| ==> groups[..n][before[j]] == groups[before[j]];
    }
  }

  /** The groups of an event in a document. */
  function GroupsOf(root: Json, event: string): seq<Json>
    requires WellFormed(root)
  {
    GroupsAt(HooksOf(root).value, event)
  }

  /**
   * For every event of every document: a group disappears if and only if it has a handler array
   * without a user handler; the others keep their order, their other fields and their user handlers
   * in order. Installing then adds one owned group for each time the event is managed, at the end.
   */
  lemma MergeKeepsUserGroups(root: Json, events: seq<string>, provider: string, executable: string, event: string)
    requires WellFormed(root)
    ensures var ensured := MergeTree(root, events, [OwnedGroup(provider, executable)]);
            var removed := MergeTree(root, events, []);
            && WellFormed(ensured) && WellFormed(removed)
            && KeptGroups(GroupsOf(root, event), GroupsOf(removed, event))
            && GroupsOf(ensured, event) ==
               GroupsOf(removed, event) + Copies([OwnedGroup(provider, executable)], Occurrences(events, event))
  {
    var group, hooks, n := OwnedGroup(provider, executable), HooksOf(root).value, Occurrences(events, event);
    MergedIsWellFormed(root, events, [group]);
    MergedIsWellFormed(root, events, []);
    MergedAt(hooks, events, [group], event);
    MergedAt(hooks, events, [], event);
    CleanKeepsGroups(GroupsAt(hooks, event));
    NoCopies(n);
    NothingAdded(CleanGroups(GroupsAt(hooks, event)));
    hide MergeHooks, CleanGroups, KeptGroups, Copies, OwnedGroup;
  }

  const EMPTY_GROUP := Object(map["matcher" := String("Bash"), "hooks" := Array([])])

  lemma EmptyGroupCleans()
    ensures CleanGroups([EMPTY_GROUP]) == []
  {
    assert [EMPTY_GROUP][..0] == [];
    assert Vanishes(EMPTY_GROUP);
    KeepsIff(EMPTY_GROUP);
    hide Keeps, CleanGroup, Vanishes;
  }

  /** A user's group with an empty handler array is deleted, with its matcher, even by a removal. */
  lemma AnEmptyUserGroupIsDropped(event: string)
    ensures var root := Object(map["hooks" := Object(map[event := Array([EMPTY_GROUP])])]);
            && WellFormed(root) && GroupsOf(root, event) == [EMPTY_GROUP]
            && WellFormed(MergeTree(root, [], [])) && GroupsOf(MergeTree(root, [], []), event) == []
  {
    hide CleanGroups, MergeHooks;
    var root := Object(map["hooks" := Object(map[event := Array([EMPTY_GROUP])])]);
    MergedIsWellFormed(root, [], []);
    MergedAt(HooksOf(root).value, [], [], event);
    EmptyGroupCleans();
    NoCopies(Occurrences([], event));
  }

  // ---- What stays: the user's handlers, event by event ----

  /** A group without a handler array, or a user handler with the other fields of its group. */
  datatype Item = Whole(group: Json) | Handler(context: map<string, Json>, handler: Json)

  function HandlerItems(context: map<string, Json>, handlers: seq<Json>, owned: bool): seq<Item> {
    if handlers == [] then []
    else
      var n := |handlers| - 1;
      HandlerItems(context, handlers[..n], owned)
      + if Owned(handlers[n]) == owned then [Handler(context, handlers[n])] else []
  }

  function GroupItems(group: Json, owned: bool): seq<Item> {
    match Handlers(group)
    case Some(handlers) => HandlerItems(group.fields - {"hooks"}, handlers, owned)
    case None => if owned then [] else [Whole(group)]
  }

  /** The user's handlers and other groups of an event in order, or the owned handlers of it. */
  function Items(groups: seq<Json>, owned: bool): seq<Item> {
    if groups == [] then []
    else Items(groups[..|groups| - 1], owned) + GroupItems(groups[|groups| - 1], owned)
  }

  lemma {:induction false} UnownedItems(context: map<string, Json>, handlers: seq<Json>)
    ensures HandlerItems(context, Unowned(handlers), false) == HandlerItems(context, handlers, false)
    ensures HandlerItems(context, Unowned(handlers), true) == []
  {
    if handlers != [] {
      var n := |handlers| - 1;
      UnownedItems(context, handlers[..n]);
      var u := Unowned(handlers[..n]);
      if Owned(handlers[n]) {
        assert u + [] == u;
      } else {
        assert (u + [handlers[n]])[..|u|] == u;
      }
    }
  }

  lemma CleanGroupItems(group: Json)
    ensures GroupItems(CleanGroup(group), false) == GroupItems(group, false)
    ensures GroupItems(CleanGroup(group), true) == []
    ensures !Keeps(CleanGroup(group)) ==> GroupItems(CleanGroup(group), false) == []
  {
    if Handlers(group).Some? {
      UnownedItems(group.fields - {"hooks"}, Handlers(group).value);
      assert CleanGroup(group).fields - {"hooks"} == group.fields - {"hooks"};
    }
  }

  lemma ItemsSnoc(groups: seq<Json>, group: Json, owned: bool)
    ensures Items(groups + [group], owned) == Items(groups, owned) + GroupItems(group, owned)
  {
    assert (groups + [group])[..|groups|] == groups;
  }

  lemma {:induction false} CleanItems(groups: seq<Json>)
    ensures Items(CleanGroups(groups), false) == Items(groups, false)
    ensures Items(CleanGroups(groups), true) == []
  {
    if groups != [] {
      var n := |groups| - 1;
      CleanItems(groups[..n]);
      var before, group := CleanGroups(groups[..n]), CleanGroup(groups[n]);
      CleanGroupItems(groups[n]);
      if Keeps(group) {
        ItemsSnoc(before, group, false);
        ItemsSnoc(before, group, true);
      } else {
        assert before + [] == before;
      }
    }
  }

  function Repeat(item: Item, n: nat): seq<Item> {
    if n == 0 then [] else Repeat(item, n - 1) + [item]
  }

  /** `n` groups without user content, each with one owned handler. */
  lemma {:induction false} ExtendedContent(groups: seq<Json>, group: Json, n: nat)
    requires GroupItems(group, false) == []
    ensures Items(Extended(groups, group, n), false) == Items(groups, false)
    decreases n
  {
    if n > 0 {
      ExtendedContent(groups, group, n - 1);
      var most := Extended(groups, group, n - 1);
      ItemsSnoc(most, group, false);
      assert Items(most, false) + [] == Items(most, false);
    }
  }

  lemma {:induction false} ExtendedOwned(groups: seq<Json>, group: Json, n: nat, item: Item)
    requires GroupItems(group, true) == [item] && Items(groups, true) == []
    ensures Items(Extended(groups, group, n), true) == Repeat(item, n)
    decreases n
  {
    if n > 0 {
      ExtendedOwned(groups, group, n - 1, item);
      ItemsSnoc(Extended(groups, group, n - 1), group, true);
    }
  }

  lemma BuiltGroupItems(provider: string, executable: string)
    ensures var group := OwnedGroup(provider, executable);
            GroupItems(group, false) == [] && GroupItems(group, true) == [Handler(map[], OwnedHandler(provider, executable))]
  {
    var h := OwnedHandler(provider, executable);
    assert OwnedGroup(provider, executable).fields - {"hooks"} == map[];
    assert Owned(h) by { BuiltHandlerIsOwned(provider, executable); }
    OneHandler(h);
  }

  lemma OneHandler(h: Json)
    requires Owned(h)
    ensures HandlerItems(map[], [h], false) == [] && HandlerItems(map[], [h], true) == [Handler(map[], h)]
  {
    assert [h][..0] == [];
  }

  /** The user's content of an event in a document, and its owned handlers. */
  function Content(root: Json, event: string, owned: bool): seq<Item>
    requires WellFormed(root)
  {
    Items(GroupsAt(HooksOf(root).value, event), owned)
  }

  /**
   * Read across group boundaries: installing and removing keep the sequence of an event's user
   * handlers, each with the other fields of its group, and of its groups without a handler array,
   * and every field outside the hooks. Afterwards the owned handlers are none, or exactly the
   * installed one as often as the event is managed.
   */
  lemma MergeKeepsUserContent(root: Json, events: seq<string>, provider: string, executable: string, event: string)
    requires WellFormed(root)
    ensures var ensured := MergeTree(root, events, [OwnedGroup(provider, executable)]);
            var removed := MergeTree(root, events, []);
            && WellFormed(ensured) && WellFormed(removed)
            && Content(ensured, event, false) == Content(root, event, false)
            && Content(removed, event, false) == Content(root, event, false)
            && Content(removed, event, true) == []
            && Content(ensured, event, true) ==
               Repeat(Handler(map[], OwnedHandler(provider, executable)), Occurrences(events, event))
            && ensured.fields - {"hooks"} == root.fields - {"hooks"}
            && removed.fields - {"hooks"} == root.fields - {"hooks"}
  {
    var group, hooks, n := OwnedGroup(provider, executable), HooksOf(root).value, Occurrences(events, event);
    MergedIsWellFormed(root, events, [group]);
    MergedIsWellFormed(root, events, []);
    MergedAt(hooks, events, [group], event);
    MergedAt(hooks, events, [], event);
    var cleaned := CleanGroups(GroupsAt(hooks, event));
    CleanItems(GroupsAt(hooks, event));
    NoCopies(n);
    assert cleaned + [] == cleaned;
    BuiltGroupItems(provider, executable);
    var item := Handler(map[], OwnedHandler(provider, executable));
    ExtendedByCopies(cleaned, group, n);
    ExtendedContent(cleaned, group, n);
    ExtendedOwned(cleaned, group, n, item);
  }

  // ---- Files ----

  datatype Action = Ensure | Remove | Doctor

  datatype Report = Report(changed: bool, healthy: bool)

  /** The report and the file's text afterwards, or a refusal that leaves the file alone. */
  datatype Outcome = Merged(report: Report, text: Option<string>) | Refused(error: Error)

  datatype Format = Format(parse: string -> Option<Json>, render: Json -> string)

  datatype Setup = Setup(events: seq<string>, provider: string, executable: Option<string>)

  /** A missing file reads as an empty object. */
  function Original(text: Option<string>): string {
    if text.Some? then text.value else "{}"
  }

  function Refusal(format: Format, text: Option<string>, action: Action, setup: Setup): Option<Error> {
    match format.parse(Original(text))
    case None => Some(InvalidText)
    case Some(root) =>
      if !root.Object? then Some(RootNotObject)
      else if HooksOf(root).None? then Some(HooksNotObject)
      else if !AllArrays(HooksOf(root).value) then Some(EventNotArray)
      else if action != Remove && setup.events != [] && setup.executable.None? then Some(ExecutableNotText)
      else None
  }

  function Added(action: Action, setup: Setup): seq<Json> {
    if action == Remove || setup.executable.None? then []
    else [OwnedGroup(setup.provider, setup.executable.value)]
  }

  function Rendered(format: Format, text: Option<string>, action: Action, setup: Setup): string
    requires Refusal(format, text, action, setup).None?
  {
    format.render(MergeTree(format.parse(Original(text)).value, setup.events, Added(action, setup)))
  }

  function Merge(format: Format, text: Option<string>, action: Action, setup: Setup): Outcome {
    match Refusal(format, text, action, setup)
    case Some(error) => Refused(error)
    case None =>
      var rendered := Rendered(format, text, action, setup);
      var changed := rendered != Original(text);
      if action == Doctor then Merged(Report(false, !changed), text)
      else Merged(Report(changed, true), Some(rendered))
  }

  lemma AddedIsManaged(action: Action, setup: Setup)
    ensures Managed(Added(action, setup))
  {
    if Added(action, setup) != [] {
      BuiltGroupGoes(setup.provider, setup.executable.value);
    }
  }

  /** What an action writes parses back to the tree it rendered. */
  predicate ReadsBack(format: Format, text: Option<string>, action: Action, setup: Setup)
    requires Refusal(format, text, action, setup).None?
  {
    format.parse(Rendered(format, text, action, setup)) ==
    Some(MergeTree(format.parse(Original(text)).value, setup.events, Added(action, setup)))
  }

  /**
   * What one action wrote never shows in what the next one writes: a second Ensure changes nothing,
   * and Remove after Ensure writes what Remove alone would have written.
   */
  lemma ActionsForgetEachOther(format: Format, text: Option<string>, first: Action, second: Action, setup: Setup)
    requires Refusal(format, text, first, setup).None? && Refusal(format, text, second, setup).None?
    requires first != Doctor && ReadsBack(format, text, first, setup)
    ensures var after := Merge(format, text, first, setup).text;
            && Refusal(format, after, second, setup).None?
            && Rendered(format, after, second, setup) == Rendered(format, text, second, setup)
  {
    var root := format.parse(Original(text)).value;
    AddedIsManaged(first, setup);
    TreeTwice(root, setup.events, Added(first, setup), Added(second, setup));
  }

  lemma EnsureIsIdempotent(format: Format, text: Option<string>, setup: Setup)
    requires Refusal(format, text, Ensure, setup).None? && ReadsBack(format, text, Ensure, setup)
    ensures var after := Merge(format, text, Ensure, setup).text;
            && Merge(format, after, Ensure, setup) == Merged(Report(false, true), after)
            && Merge(format, after, Doctor, setup) == Merged(Report(false, true), after)
  {
    ActionsForgetEachOther(format, text, Ensure, Ensure, setup);
    ActionsForgetEachOther(format, text, Ensure, Doctor, setup);
  }

  lemma RemoveAfterEnsure(format: Format, text: Option<string>, setup: Setup)
    requires Refusal(format, text, Ensure, setup).None? && ReadsBack(format, text, Ensure, setup)
    ensures var after := Merge(format, text, Ensure, setup).text;
            && Merge(format, after, Remove, setup).Merged? && Merge(format, text, Remove, setup).Merged?
            && Merge(format, after, Remove, setup).text == Merge(format, text, Remove, setup).text
  {
    ActionsForgetEachOther(format, text, Ensure, Remove, setup);
  }

  /** Doctor reports healthy exactly when Ensure would leave the text as it is, and never writes. */
  lemma DoctorAgreesWithEnsure(format: Format, text: Option<string>, setup: Setup)
    requires Refusal(format, text, Ensure, setup).None?
    ensures var d, e := Merge(format, text, Doctor, setup), Merge(format, text, Ensure, setup);
            && d.text == text && !d.report.changed
            && (d.report.healthy <==> !e.report.changed)
            && (d.report.healthy <==> e.text == Some(Original(text)))
  {
  }

  // ---- The merge, in place ----

  method RetainUnowned(handlers: seq<Json>) returns (left: seq<Json>)
    ensures left == Unowned(handlers)
  {
    left := [];
    for i := 0 to |handlers|
      invariant left == Unowned(handlers[..i])
    {
      assert handlers[..i + 1][..i] == handlers[..i];
      if !Owned(handlers[i]) {
        left := left + [handlers[i]];
      }
    }
    assert handlers[..|handlers|] == handlers;
  }

  /** The groups of one event: first every group is cleaned, then the emptied ones go. */
  method CleanEvent(groups: seq<Json>) returns (left: seq<Json>)
    ensures left == CleanGroups(groups)
  {
    var cleaned := groups;
    for i := 0 to |groups|
      invariant |cleaned| == |groups|
      invariant forall k :: 0 <= k < i ==> cleaned[k] == CleanGroup(groups[k])
      invariant forall k :: i <= k < |groups| ==> cleaned[k] == groups[k]
    {
      var handlers := Handlers(groups[i]);
      if handlers.Some? {
        var unowned := RetainUnowned(handlers.value);
        cleaned := cleaned[i := Object(groups[i].fields["hooks" := Array(unowned)])];
      }
    }
    left := [];
    for i := 0 to |groups|
      invariant left == CleanGroups(groups[..i])
    {
      assert groups[..i + 1][..i] == groups[..i];
      if Keeps(cleaned[i]) {
        left := left + [cleaned[i]];
      }
    }
    assert groups[..|groups|] == groups;
  }

  /** Cleans every event; the first value that is not an array stops it. */
  method CleanEvents(hooks: map<string, Json>) returns (cleaned: Option<map<string, Json>>)
    ensures cleaned == if AllArrays(hooks) then Some(CleanHooks(hooks)) else None
  {
    hide CleanGroups;
    var result: map<string, Json> := map[];
    var left := hooks.Keys;
    while left != {}
      invariant left <= hooks.Keys && result.Keys == hooks.Keys - left
      invariant forall e :: e in result ==> hooks[e].Array? && result[e] == CleanValue(hooks[e])
      decreases |left|
    {
      var event :| event in left;
      if !hooks[event].Array? {
        return None;
      }
      var groups := CleanEvent(hooks[event].items);
      result := result[event := Array(groups)];
      left := left - {event};
    }
    assert result == CleanHooks(hooks);
    return Some(result);
  }

  method AddToEvents(hooks: map<string, Json>, events: seq<string>, added: seq<Json>) returns (merged: map<string, Json>)
    requires AllArrays(hooks)
    ensures merged == AddGroups(hooks, events, added)
  {
    merged := hooks;
    for i := 0 to |events|
      invariant merged == AddGroups(hooks, events[..i], added) && AllArrays(merged)
    {
      assert events[..i + 1][..i] == events[..i];
      if events[i] !in merged {
        merged := merged[events[i] := Array([])];
      }
      merged := merged[events[i] := Array(merged[events[i]].items + added)];
      assert merged == AddGroups(hooks, events[..i + 1], added);
    }
    assert events[..|events|] == events;
  }

  /** A provider's configuration file. */
  class ConfigFile {
    var text: Option<string>

    method Apply(format: Format, action: Action, setup: Setup) returns (r: Outcome)
      modifies this
      ensures r == Merge(format, old(text), action, setup)
      ensures text == if r.Merged? then r.text else old(text)
    {
      var original := if text.Some? then text.value else "{}";
      var parsed := format.parse(original);
      if parsed.None? {
        return Refused(InvalidText);
      }
      var root := parsed.value;
      if !root.Object? {
        return Refused(RootNotObject);
      }
      var hooks := HooksOf(root);
      if hooks.None? {
        return Refused(HooksNotObject);
      }
      var cleaned := CleanEvents(hooks.value);
      if cleaned.None? {
        return Refused(EventNotArray);
      }
      var added := [];
      if action != Remove && setup.events != [] {
        if setup.executable.None? {
          return Refused(ExecutableNotText);
        }
        added := [OwnedGroup(setup.provider, setup.executable.value)];
      }
      var merged := AddToEvents(cleaned.value, setup.events, added);
      var rendered := format.render(Object(root.fields["hooks" := Object(merged)]));
      var changed := rendered != original;
      if action == Doctor {
        return Merged(Report(false, !changed), text);
      }
      text := Some(rendered);
      return Merged(Report(changed, true), text);
    }
  }

  // ---- What is owned, written and refused, spelled out ----

  /** A handler is owned exactly when it has the status message and a command with ` hook emit ` in it. */
  lemma OwnedIff(handler: Json)
    ensures Owned(handler) <==>
            && handler.Object?
            && "statusMessage" in handler.fields && handler.fields["statusMessage"] == String("SessionTap observability")
            && "command" in handler.fields
            && exists a: string, b: string :: handler.fields["command"] == String(Emitting(a, b))
  {
    if handler.Object? && "command" in handler.fields && handler.fields["command"].String? {
      EmitsIff(handler.fields["command"].text);
    }
    hide Contains, Emitting;
  }

  function Emitting(a: string, b: string): string {
    a + " hook emit " + b
  }

  lemma EmitsIff(command: string)
    ensures Contains(command, " hook emit ") <==> exists a: string, b: string :: command == Emitting(a, b)
  {
    var part := " hook emit ";
    if Contains(command, part) {
      var i :| 0 <= i <= |command| && StartsAt(command, part, i);
      assert command == Emitting(command[..i], command[i + |part|..]);
    }
    if a: string, b: string :| command == Emitting(a, b) {
      assert StartsAt(command, part, |a|);
    }
  }

  /** The installed handler: its four fields, the command being the quoted executable, the verb and the quoted provider. */
  lemma HandlerIs(provider: string, executable: string)
    ensures var h := OwnedHandler(provider, executable);
            && h.Object? && h.fields.Keys == {"type", "command", "timeout", "statusMessage"}
            && h.fields["type"] == String("command") && h.fields["timeout"] == Number("3")
            && h.fields["statusMessage"] == String("SessionTap observability")
            && h.fields["command"].String?
            && exists a, b :: h.fields["command"].text == Emitting(a, b)
                              && ShellWord(a, Bare) == Some(executable) && ShellWord(b, Bare) == Some(provider)
  {
    QuotingIsUndone(executable);
    QuotingIsUndone(provider);
    var a, b := ShellQuote(executable), ShellQuote(provider);
    assert OwnedHandler(provider, executable).fields["command"].text == Emitting(a, b);
    hide ShellWord, ShellQuote, Emitting;
  }

  datatype Quoting = Bare | Single | Double

  /** How a shell reads a word made of quoted parts; anything else outside quotes is no such word. */
  function ShellWord(s: string, mode: Quoting): Option<string>
    decreases |s|
  {
    if s == [] then (if mode == Bare then Some([]) else None)
    else
      match mode
      case Bare =>
        if s[0] == '\'' then ShellWord(s[1..], Single) else if s[0] == '"' then ShellWord(s[1..], Double) else None
      case Single =>
        if s[0] == '\'' then ShellWord(s[1..], Bare) else Then([s[0]], ShellWord(s[1..], Single))
      case Double =>
        if s[0] == '"' then ShellWord(s[1..], Bare)
        else if s[0] == '$' || s[0] == '`' || s[0] == '\\' then None
        else Then([s[0]], ShellWord(s[1..], Double))
  }

  function Then(a: string, b: Option<string>): Option<string> {
    if b.Some? then Some(a + b.value) else None
  }

  lemma QuotedCharacter(c: char, rest: string)
    ensures ShellWord((if c == '\'' then "'\"'\"'" else [c]) + rest, Single) == Then([c], ShellWord(rest, Single))
  {
    if c == '\'' {
      var s := "'\"'\"'" + rest;
      assert s[1..] == "\"'\"'" + rest;
      assert s[1..][1..] == "'\"'" + rest;
      assert s[1..][1..][1..] == "\"'" + rest;
      assert s[1..][1..][1..][1..] == "'" + rest;
      assert s[1..][1..][1..][1..][1..] == rest;
      assert ShellWord("'" + rest, Bare) == ShellWord(rest, Single);
      assert ShellWord("\"'" + rest, Double) == ShellWord("'" + rest, Bare);
      assert ShellWord("'\"'" + rest, Double) == Then("'", ShellWord("\"'" + rest, Double));
    } else {
      assert ([c] + rest)[1..] == rest;
    }
  }

  lemma {:induction false} EscapedIsRead(s: string, rest: string)
    ensures ShellWord(Escaped(s) + rest, Single) == Then(s, ShellWord(rest, Single))
    decreases |s|
  {
    if s == [] {
      assert Escaped(s) + rest == rest;
      if ShellWord(rest, Single).Some? {
        assert [] + ShellWord(rest, Single).value == ShellWord(rest, Single).value;
      }
    } else {
      var n := |s| - 1;
      var piece := if s[n] == '\'' then "'\"'\"'" else [s[n]];
      EscapedIsRead(s[..n], piece + rest);
      Reassociate(Escaped(s[..n]), piece, rest);
      QuotedCharacter(s[n], rest);
      hide ShellWord;
      assert s == s[..n] + [s[n]];
      if ShellWord(rest, Single).Some? {
        Reassociate(s[..n], [s[n]], ShellWord(rest, Single).value);
      }
    }
  }

  /** A shell reads a quoted text back as the text, whatever characters it has. */
  lemma QuotingIsUndone(s: string)
    ensures ShellWord(ShellQuote(s), Bare) == Some(s)
  {
    EscapedIsRead(s, "'");
    assert ShellQuote(s)[1..] == Escaped(s) + "'";
    assert ShellWord("'", Single) == Some([]) by { assert "'"[1..] == []; }
    NothingAdded(s);
  }

  /** Each refusal exactly under its condition, in this order; a missing file reads as an empty object. */
  lemma RefusalIff(format: Format, text: Option<string>, action: Action, setup: Setup)
    ensures var refusal := Refusal(format, text, action, setup);
            var parsed := format.parse(if text.Some? then text.value else "{}");
            && (refusal == Some(InvalidText) <==> parsed.None?)
            && (refusal == Some(RootNotObject) <==> parsed.Some? && !parsed.value.Object?)
            && (parsed.Some? && parsed.value.Object? ==>
                  var fields := parsed.value.fields;
                  var shaped := "hooks" in fields ==> fields["hooks"].Object?;
                  var listed := "hooks" in fields && fields["hooks"].Object? ==>
                                  forall e :: e in fields["hooks"].fields ==> fields["hooks"].fields[e].Array?;
                  && (refusal == Some(HooksNotObject) <==> !shaped)
                  && (refusal == Some(EventNotArray) <==> shaped && !listed)
                  && (refusal == Some(ExecutableNotText) <==>
                        shaped && listed && action != Remove && setup.events != [] && setup.executable.None?))
  {
  }

  /** What is written: the cleaned document, with the installed group in every managed event unless removing. */
  lemma WrittenIs(format: Format, text: Option<string>, setup: Setup, executable: string)
    requires setup.executable == Some(executable) && Refusal(format, text, Ensure, setup).None?
    ensures var root := format.parse(Original(text)).value;
            && Refusal(format, text, Remove, setup).None?
            && Merge(format, text, Ensure, setup).text ==
               Some(format.render(MergeTree(root, setup.events, [OwnedGroup(setup.provider, executable)])))
            && Merge(format, text, Remove, setup).text == Some(format.render(MergeTree(root, setup.events, [])))
  {
  }
}
