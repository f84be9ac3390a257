# SessionTap state machines, modelled and proved

SessionTap watches coding agents: provider hooks and side channels report events, a reducer folds
them into one snapshot per invocation, a hub merges the snapshots of several sources, and paired
remote devices listen to the merged view and attach to agents' terminals through a relay. This
project models the parts of that with the most interacting state and proves what they keep over
whole runs.

| files | component |
|---|---|
| `Domain`, `Reducer`, `ReducerDraft` | the invocation reducer and the public projection; `ReducerDraft` is the in-place form |
| `InvocationRuns`, `InvocationLaws`, `ChildIsolation`, `SourceOrder`, `InvocationWitnesses` | what any run of events, sweeps and process observations keeps |
| `InvocationExact`, `InvocationShown` | which events pass and what each changes, field by field; what observers are shown |
| `RelayStream`, `Relay`, `RelayHub` | the terminal relay; `RelayHub` is the in-place form |
| `RelaySafety`, `RelayOrder`, `RelayProtocol`, `RelayAnswers`, `RelayRelease`, `RelayResync`, `RelayEnds` | what any run of the relay keeps |
| `RelayExact` | what each relay operation sends, and when |
| `DeviceGate`, `DeviceHub`, `DeviceSafety`, `DeviceRevocation`, `DeviceExact` | paired devices, connections, revocation and scope withdrawal |
| `Pairing`, `PairRate`, `Admission`, `Tally` | the pairing window, its rate limiter, connection admission |
| `MergedStream` | the merged live stream of the hub |
| `JsonlTail`, `Utf8Text`, `HookMerge`, `Keys` | the JSONL tail, the managed-hook merge, terminal key text |
| `Common` | options, text order, bounded text |

Code that updates state in place (the reducer's draft, the relay, the hub's registry, pairing, the
limiter, admission, the tail, the configuration file) is a class whose methods are proved equal to a
function of the old state; the run theorems are about those functions. A run is any finite sequence
of steps, with environment steps (queues draining, lag, appends, closes outside the gate) among them.

Clocks, randomness, MAC verification, JSON parsing and rendering, and the order in which a hash map
is iterated are parameters. Serialized JSON objects are sorted maps, as the parser is configured.

## Findings

Some tempting statements are false of the code. Each has a lemma with an input that shows it, given
first, and one with the exact condition.

- Exactly-once by source holds for a set of sources exactly when it has at most 32 members: the
  cursor table evicts its first entry, and a replay under an evicted source takes effect again
  (`SourceOrder.ThirtyThreeSourcesRepeat`, `SourceOrder.ExactlyOnceIffFewSources`).
- A child event is invisible to the root exactly when it carries no sequence number or is
  suppressed, because cursors are shared (`InvocationWitnesses.ASequencedChildEventIsNoticed`,
  `ChildIsolation.ChildEventIsInvisibleIff`).
- A stored reason can be missing from the public view, exactly for an interruption or while the
  invocation is starting (`InvocationWitnesses.StoredReasonsAreHidden`,
  `InvocationRuns.StoredReasonIsShownUnless`).
- A local bind brings an exited or lost invocation back to life, and nothing else does: it is ended
  at every state up to the next bind (`InvocationWitnesses.ABindBringsItBack`,
  `InvocationRuns.EndedThroughoutIff`).
- The end of a stream that is still opening can be forgotten: it reaches the device exactly when
  fewer than 256 frames came after it and the device's queue is open and has room
  (`RelayEnds.AnEndIsNeverSent`, `RelayEnds.EndReachesTheDeviceIff`).
- A terminal stream can outlive the revocation of its device, exactly when its owner was already
  closing by itself and out of the registry: an admitted open may act after an ordinary close
  (`DeviceRevocation.AnOpenOutlivesItsConnection`, `DeviceRevocation.SurvivorsWereClosing`).
- A refused admission leaves a zero entry exactly when the per-address limit is zero, both
  semaphores had room and the address has no entry yet (`Admission.AZeroLimitLeavesAnEntry`, `Admission.AdmitOutcome`).
- An update whose publication overtakes others is folded correctly, whatever the store held, exactly
  when every commit it overtook updates or forgets its own agent
  (`MergedStream.OutOfOrderLosesAnUpdate`, `MergedStream.OvertakingIsHarmlessIff`).
- An append torn inside a UTF-8 character makes the tail lose the complete lines read in the same
  poll, for good. Nothing is lost exactly when no poll is made at a moment when the first piece ahead
  completes an acceptable line and the rest of the file is not clean
  (`JsonlTail.TornCharacterLosesALine`, `JsonlTail.EverythingIsReturnedIff`).
- The hook merge deletes a user's group that has an empty handler array, with its matcher: a group
  goes exactly when it has a handler array without a user handler
  (`HookMerge.AnEmptyUserGroupIsDropped`, `HookMerge.MergeKeepsUserGroups`).
- Function keys outside 1 to 12 and control characters do not survive printing and parsing; every
  other key does (`Keys.UnprintableKeysAreLost`, `Keys.ParsePrintIff`).

## Model

| member | source | states |
|---|---|---|
| `InvocationRuns.ReachableIsConsistent` | crates/sessiontap-core/src/reducer.rs:82-414 | in every reachable state the reason's kind matches the activity, a recorded outcome belongs to the current turn and rules out activity, children and cursors are bounded with unique keys, none once the process is gone, and the status is derived |
| `InvocationRuns.StoredReasonIsShownUnless` | crates/sessiontap-core/src/domain.rs:316-372 | a stored reason is missing from the public view if and only if it is an interruption or the lifecycle is starting; shown, it has the stored kind and summary |
| `InvocationRuns.OneOutcomePerTurn` | crates/sessiontap-core/src/reducer.rs:114-132 | over any run the outcomes that took effect never exceed the turns that took effect by more than the current turn's own outcome |
| `InvocationRuns.EndedStaysEndedIff` | crates/sessiontap-core/src/reducer.rs:92-97 | an exited or lost invocation stays ended through a step if and only if the step is not a bind |
| `InvocationRuns.EndedThroughoutIff` | crates/sessiontap-storage/src/lib.rs:144-164 | over any run an ended invocation is ended at every state if and only if the run has no bind |
| `InvocationWitnesses.ABindBringsItBack` | crates/sessiontap-storage/src/lib.rs:144-186 | every fresh invocation has a run that exits and is then alive again |
| `InvocationWitnesses.StoredReasonsAreHidden` | crates/sessiontap-core/src/domain.rs:330-347 | every fresh invocation has runs that store a reason the view hides: interrupted, and still starting |
| `InvocationWitnesses.ASequencedChildEventIsNoticed` | crates/sessiontap-core/src/reducer.rs:177-190 | every fresh invocation has a child event after which a root event is stale that was not |
| `InvocationRuns.ActiveChildLeavesOnlyBy` | crates/sessiontap-core/src/reducer.rs:200-270 | a running or blocked child leaves only by a new turn, a session change, the process ending or, when running, a sweep that finds it stale |
| `InvocationRuns.NothingStaleSurvivesASweep` | crates/sessiontap-core/src/reducer.rs:294-350 | after a sweep nothing is stale, and a sweep declines exactly when nothing was |
| `InvocationRuns.FreshChildrenMembers` | crates/sessiontap-core/src/reducer.rs:300-302 | the sweep keeps exactly the children that are not stale |
| `InvocationRuns.ReportsAreExact` | crates/sessiontap-core/src/reducer.rs:393-406 | a step reports no field exactly when the view is unchanged, stamps `updated_at` only then, and suppressed or rejected events report nothing |
| `InvocationRuns.ObserverNeverDrifts` | crates/sessiontap-core/src/domain.rs:399-442 | an observer that copies only the reported fields has the current view after every run |
| `InvocationLaws.ClockFollowsActivity` | crates/sessiontap-core/src/reducer.rs:685-692 | the state clock restarts exactly when the activity changes, at the time of what changed it |
| `InvocationLaws.SessionChangesOnlyAtAStart` | crates/sessiontap-core/src/reducer.rs:693-720 | a session's identity changes only with an effective session start, which advances its generation and drops old usage; it is never forgotten |
| `InvocationLaws.GenerationCountsSessions` | crates/sessiontap-core/src/reducer.rs:693-720 | over any run the generation counts the changes of identity, up to the counter's end, and these are at most the session starts that took effect |
| `InvocationLaws.ArtifactsOnlyEnrich` | crates/sessiontap-core/src/reducer.rs:481-509 | no run of artifact events changes activity, lifecycle, turn, reason, permission mode or a known model |
| `InvocationLaws.NoToolNewsUntilTheNextTurn` | crates/sessiontap-core/src/reducer.rs:114-132 | from a turn's outcome to the next turn that takes effect, at every state, the tool is the one there was or none |
| `InvocationLaws.NoToolNewsUntilBound` | crates/sessiontap-core/src/reducer.rs:92-97 | from the end of the process to the next bind, likewise |
| `InvocationLaws.ToolAfterAnOutcomeIsItsOwn` | crates/sessiontap-core/src/reducer.rs:579-618 | in every reachable state a tool that is current after a turn's outcome was started by an effective outcome since which the turn has been terminal at every state |
| `InvocationLaws.CallRunsUntilEnded` | crates/sessiontap-core/src/reducer.rs:567-642 | a tool call stays current with its start time through any run in which no boundary, other start, own finish, sweep or process end comes |
| `InvocationLaws.StartThenFinish` | crates/sessiontap-core/src/reducer.rs:82-163 | an accepted start, any such run and the call's accepted finish leave no tool, and the call is current at every state between |
| `InvocationLaws.AddressedChild` | crates/sessiontap-core/src/reducer.rs:200-270 | when there is room, the addressed child has the event's activity and time and keeps its own start |
| `InvocationLaws.OtherChild` | crates/sessiontap-core/src/reducer.rs:224-246 | every other child is unchanged, except the oldest stopped one when a full table makes room |
| `InvocationExact.RejectedIff` | crates/sessiontap-core/src/reducer.rs:63-80 | an event is rejected exactly when its trust does not fit its channel or one of its texts is empty, too long or has control characters, with every limit in figures |
| `InvocationExact.SuppressedIff` | crates/sessiontap-core/src/reducer.rs:91-129 | a root event is suppressed if and only if, in its own and the snapshot's fields, it is out of order, names another session without starting it, names another turn without beginning it, or is turn news after the outcome, channel by channel |
| `InvocationExact.ChildSuppressedIff` | crates/sessiontap-core/src/reducer.rs:177-186 | a child event is suppressed if and only if it is out of order or names another session |
| `InvocationExact.RefusedChangesNothing` | crates/sessiontap-core/src/reducer.rs:127-138 | in every reachable state a rejected or suppressed event changes nothing at all |
| `InvocationExact.EffectiveIs` | crates/sessiontap-core/src/reducer.rs:481-509 | what each channel may say of kind, session, turn, tool, metadata and usage, on a living and on an ended process |
| `InvocationExact.AcceptedTurn` | crates/sessiontap-core/src/reducer.rs:645-684 | activity, lifecycle, turn and outcome after an accepted event, for every kind and channel |
| `InvocationExact.AcceptedReasonIs` | crates/sessiontap-core/src/reducer.rs:139-157 | the private reason after an accepted event, for every kind |
| `InvocationExact.AcceptedSession` | crates/sessiontap-core/src/reducer.rs:693-720 | session and usage after an accepted event: kept, replaced or refreshed |
| `InvocationExact.AcceptedMetadata` | crates/sessiontap-core/src/reducer.rs:721-747 | every metadata field after an accepted event, by channel |
| `InvocationExact.AcceptedTool` | crates/sessiontap-core/src/reducer.rs:579-642 | the tool after an accepted event for every phase, by correlation or label |
| `InvocationExact.AcceptedChildren` | crates/sessiontap-core/src/reducer.rs:649-699 | the children go with a new turn, the process's end or another session, and stay otherwise |
| `InvocationExact.AcceptedRest` | crates/sessiontap-core/src/reducer.rs:685-753 | evidence, assertion time and confirmation; launch facts and process stay |
| `InvocationExact.NewTurnBegins` | crates/sessiontap-core/src/reducer.rs:107-114 | a valid hook of the known session, in order, on a living process begins a turn under any turn id |
| `InvocationExact.SessionStarts` | crates/sessiontap-core/src/reducer.rs:99-106 | a session starts under any new id, with its own usage and no children |
| `InvocationExact.ChildEventTells` | crates/sessiontap-core/src/reducer.rs:166-270 | the addressed child's activity, reason kind and summary for each event kind written out; other kinds, channels and full tables leave the table, and the root is untouched |
| `InvocationExact.LossIs` | crates/sessiontap-core/src/reducer.rs:275-288 | the whole state after a loss |
| `InvocationExact.ExitIs` | crates/sessiontap-storage/src/lib.rs:166-186 | the whole state after an exit |
| `InvocationExact.BindIs` | crates/sessiontap-storage/src/lib.rs:144-164 | the whole state after a bind |
| `InvocationExact.SweepIs` | crates/sessiontap-core/src/reducer.rs:294-353 | the whole state after a sweep, with thirty minutes in figures |
| `InvocationShown.StatusIs` | crates/sessiontap-core/src/domain.rs:316-328 | running, blocked, stopped and idle each exactly under its condition on lifecycle and activity |
| `InvocationShown.FieldsAre` | crates/sessiontap-core/src/domain.rs:330-372 | every other field of the view against the snapshot, and when there is a terminal |
| `InvocationShown.ReasonIs` | crates/sessiontap-core/src/domain.rs:335-347 | each public reason exactly for its status and stored kind |
| `InvocationShown.ChildrenAre` | crates/sessiontap-core/src/domain.rs:375-396 | the public list has every child once, as it is, by start and identity, and is absent without children |
| `InvocationShown.ObservedStatusIs` | crates/sessiontap-core/src/domain.rs:316-328 | over any run an observer fed only the reported fields shows the status of the invocation's life and activity |
| `InvocationShown.WorkIsShown` | crates/sessiontap-core/src/domain.rs:323-324 | a fresh invocation that is bound and reports work is observed running |
| `ChildIsolation.ErasingChildEventsKeepsTheRoot` | crates/sessiontap-core/src/reducer.rs:166-197 | in runs whose child events carry no sequence, erasing them leaves the same root snapshot and reason |
| `ChildIsolation.ErasingChildEventsKeepsSuppression` | crates/sessiontap-core/src/reducer.rs:98-129 | and the same suppressed flag for every root event |
| `ChildIsolation.ChildEventIsInvisibleIff` | crates/sessiontap-core/src/reducer.rs:177-190 | a child event is invisible to root events if and only if it has no sequence or is suppressed |
| `SourceOrder.FewSourcesTakeEffectOnce` | crates/sessiontap-core/src/reducer.rs:512-545 | with at most 32 sources, sequence numbers that take effect strictly increase per source |
| `SourceOrder.ThirtyThreeSourcesRepeat` | crates/sessiontap-core/src/reducer.rs:536-538 | any 33 sources have a run in which one event takes effect twice |
| `SourceOrder.ExactlyOnceIffFewSources` | crates/sessiontap-core/src/reducer.rs:512-545 | a set of sources is exactly-once over all runs if and only if it has at most 32 members |
| `Domain.PublicChildrenIgnoreStoredOrder` | crates/sessiontap-core/src/domain.rs:375-396 | the public child list is the same for every internal order of the same children |
| `Domain.CollectChangedFields` | crates/sessiontap-core/src/domain.rs:399-442 | the in-place collection of changed fields gives exactly the fields that differ |
| `Domain.ChangedFieldsSuffice` | crates/sessiontap-core/src/domain.rs:399-442 | the set is empty exactly when the views are equal, and patching the changed fields gives the new view |
| `ReducerDraft.Draft.RecordSourceOrder` | crates/sessiontap-core/src/reducer.rs:524-545 | the in-place cursor table update is the model's |
| `ReducerDraft.Draft.ReduceToolActivity` | crates/sessiontap-core/src/reducer.rs:579-642 | the in-place tool update is the model's |
| `ReducerDraft.Draft.ReduceChild` | crates/sessiontap-core/src/reducer.rs:200-270 | the in-place child update, with its search and eviction loops, is the model's |
| `ReducerDraft.Draft.FindOldestStopped` | crates/sessiontap-core/src/reducer.rs:229-243 | the eviction search finds the stopped child that is first by start and identity |
| `ReducerDraft.Draft.ReduceRoot` | crates/sessiontap-core/src/reducer.rs:645-753 | the step-by-step reduction of a root event is the model's, in every field |
| `ReducerDraft.Draft.RetainFreshChildren` | crates/sessiontap-core/src/reducer.rs:300-302 | the in-place sweep of children is the model's |
| `ReducerDraft.Draft.FinalizeInto` | crates/sessiontap-core/src/reducer.rs:393-406 | finalizing in place stamps and reports as the model does |
| `Reducer.OldestStopped` | crates/sessiontap-core/src/reducer.rs:229-243 | none exactly when no child has stopped; otherwise a stopped child no other stopped child precedes |
| `RelaySafety.DevicesSeeNoGaps` | crates/sessiontap-hub/src/relay.rs:143-212 | over any run each device queue holds prefixes of its stream's frames in source order, the next message after a dropped frame is a snapshot or the end, and nothing follows a delivered end |
| `RelaySafety.RunIsSafe` | crates/sessiontap-hub/src/relay.rs:143-212 | the flags of every live stream agree with what its device has been sent |
| `RelayOrder.FramesKeepSourceOrder` | crates/sessiontap-hub/src/relay.rs:143-180 | over any run every frame handed to a stream is accounted for once, in the order it was handed over |
| `RelayStream.ChunksCarryTheData` | crates/sessiontap-hub/src/relay.rs:192-212 | split output chunks are bounded and concatenate to the source bytes |
| `RelayStream.DeviceMessagesCarryTheFrame` | crates/sessiontap-hub/src/relay.rs:192-212 | a frame's messages carry its stream, its sequence and all of its data |
| `RelayStream.PushKeepsGapSafety` | crates/sessiontap-hub/src/relay.rs:143-180 | one push keeps the stream gap-safe whatever room its device queue has |
| `RelayStream.PushIsExact` | crates/sessiontap-hub/src/relay.rs:159-180 | a frame is wholly sent exactly when the stream is live, the frame may restart it if it fell behind, and the open queue has room; a resync is requested exactly when this push loses something |
| `RelayProtocol.RequestsFollowTheProtocol` | crates/sessiontap-hub/src/relay.rs:117-188 | over any run the requests about a stream are `Open (Input or Resync)* Close?` on one channel, and nothing is sent about a stream never opened |
| `RelayExact.GoneMeansClosed` | crates/sessiontap-hub/src/relay.rs:426-485 | in every run a stream a step takes away while its channel is current has told its source: its requests end in a close |
| `RelayExact.ReleaseCloses` | crates/sessiontap-hub/src/relay.rs:470-485 | releasing an owner appends on every channel exactly one close for each of its streams linked to it, and nothing else |
| `RelayExact.RemoveIs` | crates/sessiontap-hub/src/relay.rs:426-432 | a removed stream is gone and its source is told exactly when it is still linked |
| `RelayExact.CloseIs` | crates/sessiontap-hub/src/relay.rs:435-466 | closing changes nothing for unknown and foreign streams; otherwise the stream goes, the others stay and a linked source gets one close |
| `RelayExact.InputOutcomeIff` | crates/sessiontap-hub/src/relay.rs:324-376 | each refusal of input exactly under its condition |
| `RelayExact.InputIs` | crates/sessiontap-hub/src/relay.rs:324-376 | only the owner's keys for a live linked stream reach the source, as one request that then waits |
| `RelayExact.OpenIs` | crates/sessiontap-hub/src/relay.rs:280-322 | opening sends one open on the source's channel and waits, or takes only its ids |
| `RelayExact.AnswerIs` | crates/sessiontap-hub/src/relay.rs:507-519 | an answer reaches its waiter exactly when it waits on the current channel, and then waits no more |
| `RelayExact.TimeoutIs` | crates/sessiontap-hub/src/relay.rs:379-405 | a timeout forgets its waiter and nothing else |
| `RelayExact.AttachIs` | crates/sessiontap-hub/src/relay.rs:241-258 | a new channel without waiters; other sources keep theirs and every stream over the old one has ended or holds its end |
| `RelayExact.DetachIs` | crates/sessiontap-hub/src/relay.rs:261-272 | the channel goes exactly when it is still that one, and nothing is sent |
| `RelayExact.BufferingIs` | crates/sessiontap-hub/src/relay.rs:151-160 | before activation nothing is sent, an end replaces the buffer, and a full one is dropped with a resync |
| `RelayAnswers.RequestsAreAnsweredOnce` | crates/sessiontap-hub/src/relay.rs:379-405 | over any run request ids are never reused, and a request is answered at most once, by a channel that carried it |
| `RelayRelease.ReleaseFreesTheOwner` | crates/sessiontap-hub/src/relay.rs:470-485 | releasing an owner removes exactly its streams and changes no other |
| `RelayRelease.DetachFinishesItsStreams` | crates/sessiontap-hub/src/relay.rs:261-272 | right after a channel is dropped every stream over it has ended or holds an end in its opening buffer |
| `RelayEnds.EndReachesTheDeviceIff` | crates/sessiontap-hub/src/relay.rs:151-160 | when a stream of any run is activated its device is sent the end if and only if one was handed to it, fewer than 256 frames came after, and the queue is open with room |
| `RelayEnds.OpeningBufferIsOffered` | crates/sessiontap-hub/src/relay.rs:151-160 | in every reachable state an opening stream's buffer is what buffering everything handed to it gives |
| `RelayEnds.AnEndIsNeverSent` | crates/sessiontap-hub/src/relay.rs:151-160 | a run, for any 256 frames, whose stream is handed an end while opening and then those frames: activating it does not send its device the end |
| `RelayEnds.AFullBufferForgetsTheEnd` | crates/sessiontap-hub/src/relay.rs:155-158 | the 256th frame after an end makes the buffer forget it, and the 255th does not |
| `RelayResync.LaggingHasAsked` | crates/sessiontap-hub/src/relay.rs:155-188 | in every reachable state a stream that lags on its source's current channel had a resync sent there by some step, and has lagged at every state since |
| `RelayHub.Hub.PushToStream` | crates/sessiontap-hub/src/relay.rs:143-180 | the in-place push, with its queue loop, is the model's |
| `RelayHub.Hub.EndChannel` | crates/sessiontap-hub/src/relay.rs:130-141 | ending a channel pushes one end to each live stream over it |
| `RelayHub.Hub.AttachChannel` | crates/sessiontap-hub/src/relay.rs:241-258 | attaching replaces the channel and ends the streams of the old one |
| `RelayHub.Hub.DetachChannel` | crates/sessiontap-hub/src/relay.rs:261-272 | detaching drops only the channel it names and ends its streams |
| `RelayHub.Hub.OpenOn` | crates/sessiontap-hub/src/relay.rs:280-322 | opening takes two ids, registers the waiter and sends one open, or fails without a channel |
| `RelayHub.Hub.InputFor` | crates/sessiontap-hub/src/relay.rs:324-376 | input is refused for unknown, foreign, ended and orphaned streams and forwarded otherwise |
| `RelayHub.Hub.ForgetWaiter` | crates/sessiontap-hub/src/relay.rs:379-405 | an answer that does not come in time only forgets its waiter |
| `RelayHub.Hub.ActivateStream` | crates/sessiontap-hub/src/relay.rs:411-423 | activation flushes the opening buffer in order |
| `RelayHub.Hub.CloseFor` | crates/sessiontap-hub/src/relay.rs:435-466 | closing ends the device's view and releases the stream, for its owner only |
| `RelayHub.Hub.ReleaseOwner` | crates/sessiontap-hub/src/relay.rs:470-485 | the in-place release is the model's |
| `RelayHub.Hub.Deliver` | crates/sessiontap-hub/src/relay.rs:493-506 | a frame reaches a stream only from the stream's own channel |
| `RelayHub.Hub.Answer` | crates/sessiontap-hub/src/relay.rs:507-519 | an answer reaches a waiter only on the source's current channel, once |
| `DeviceSafety.ReachableIsAuthorised` | crates/sessiontap-hub/src/remote.rs:645-744 | in every reachable state a terminal stream's device has `watch` now unless its connection is closing by itself, an admitted request still has its scope when it acts, and unwithdrawn connections hold no stream scope their device lacks |
| `DeviceExact.AnswerIff` | crates/sessiontap-hub/src/remote.rs:651-689 | silence, `unauthorized`, `unknown_method`, `forbidden` and admission each exactly under its condition on connection, stored scopes, remote control and verb |
| `DeviceExact.RequestsAreEntitled` | crates/sessiontap-hub/src/remote.rs:664-689 | in every reachable state a request under way belongs to a paired device whose stored scopes entitle it to that very request: `control` to type, `watch` to open and close, `read` to listen, `manage` to forget, terminal scopes only with remote control on |
| `DeviceExact.BeginIs` | crates/sessiontap-hub/src/remote.rs:335-358 | asking authenticates exactly an answerable connection of a paired key, also when it is then refused |
| `DeviceExact.WatchingIsNotTyping` | crates/sessiontap-hub/src/remote.rs:664-689 | a device paired to watch only may open a terminal and may not type |
| `DeviceExact.PairIs` | crates/sessiontap-hub/src/service.rs:345-368 | in every reachable state pairing is refused exactly for a taken identity; otherwise exactly the registered connections with a stream that needs a missing scope are withdrawn, with their streams |
| `DeviceExact.RevokeIs` | crates/sessiontap-hub/src/service.rs:304-321 | revoking deletes the device, cancels exactly its registered connections and removes exactly their streams |
| `DeviceExact.RegisterIs` | crates/sessiontap-hub/src/service.rs:371-377 | the connection comes after those of its device that are not cancelled; other devices keep theirs |
| `DeviceExact.UnregisterIs` | crates/sessiontap-hub/src/service.rs:380-389 | exactly the cancelled connections of a device go |
| `DeviceExact.ConnectIs` | crates/sessiontap-hub/src/remote.rs:418-424 | a new connection is authenticated and registered exactly when its key is paired |
| `DeviceExact.IdentityIs` | crates/sessiontap-hub/src/service.rs:541-543 | a device is identified by the first sixteen characters of its key |
| `DeviceRevocation.RevocationIsFinal` | crates/sessiontap-hub/src/service.rs:301-320 | after `revoke`, forever: a connection that was registered for the device is cancelled, owns no stream and has nothing carried out |
| `DeviceRevocation.RevocationReachesEveryOpenConnection` | crates/sessiontap-hub/src/service.rs:371-377 | every authenticated, uncancelled connection of a paired device is registered for it |
| `DeviceRevocation.RevokedKeyIsRefused` | crates/sessiontap-hub/src/remote.rs:648-672 | until the key is paired again every request under it other than `pair.begin` and `pair.complete`, on old or new connections, gets `unauthorized` or silence and none is carried out |
| `DeviceRevocation.SurvivorsWereClosing` | crates/sessiontap-hub/src/remote.rs:544-549 | a stream of the key survives `revoke` if and only if its owner is out of the registry, and then the owner was closing |
| `DeviceRevocation.AnOpenOutlivesItsConnection` | crates/sessiontap-hub/src/remote.rs:544-549 | a run in which an admitted open acts after an ordinary close and outlives the revocation |
| `DeviceHub.Hub.RegisterConnection` | crates/sessiontap-hub/src/service.rs:371-377 | registering drops cancelled handles and appends the new one |
| `DeviceHub.Hub.UnregisterConnection` | crates/sessiontap-hub/src/service.rs:380-389 | unregistering drops cancelled handles and an emptied entry |
| `DeviceHub.Hub.RevokeDevice` | crates/sessiontap-hub/src/service.rs:304-321 | the in-place revocation loop is the model's |
| `DeviceHub.Hub.PairDevice` | crates/sessiontap-hub/src/service.rs:345-368 | the in-place withdrawal loop is the model's, and a taken identity is refused |
| `DeviceHub.Hub.BeginRequest` | crates/sessiontap-hub/src/remote.rs:648-699 | the checks of a request: silence, `unauthorized`, `unknown_method`, `forbidden` or admission, and the connection authenticated on the way |
| `DeviceHub.Hub.AuthenticateConnection` | crates/sessiontap-hub/src/remote.rs:335-344 | the first authentication registers the connection, later ones do not |
| `Pairing.PairingState.TakeGeneration` | crates/sessiontap-hub/src/service.rs:392-424 | generations are never reused |
| `Pairing.PairingState.Install` | crates/sessiontap-hub/src/service.rs:392-424 | a new window replaces the open one and forgives all failures |
| `Pairing.PairingState.ClosePairing` | crates/sessiontap-hub/src/service.rs:436-445 | an old generation cannot close a newer window |
| `Pairing.PairingState.AttemptPairing` | crates/sessiontap-hub/src/service.rs:451-495 | each outcome exactly under its condition; both sums stay equal to the total, the counters within 3, 5 and 20, an open window means fewer than 20 failures, and no window is claimed twice |
| `Pairing.PairingState.CountFailure` | crates/sessiontap-hub/src/service.rs:484-494 | a failure counts once in all three counters, and the last allowed one burns the window |
| `PairRate.NoMoreThanBurstPlusRefill` | crates/sessiontap-hub/src/service.rs:132-161 | in any interval of any run an address is allowed at most burst plus elapsed refill, and the table never exceeds 1024 entries |
| `PairRate.AllowedIff` | crates/sessiontap-hub/src/service.rs:139-161 | a call is allowed if and only if its address has a token and, when new to a table of 1024, fewer than 1024 addresses are short of their burst |
| `PairRate.RefillIs` | crates/sessiontap-hub/src/service.rs:132-137 | tokens come back at the given rate up to the burst and no further |
| `PairRate.TokensAreConserved` | crates/sessiontap-hub/src/service.rs:132-161 | tokens spent plus tokens left never exceed tokens at hand plus tokens regained |
| `PairRate.CallSpendsItsToken` | crates/sessiontap-hub/src/service.rs:139-161 | a call changes only its own address's level, by exactly the token it spends |
| `PairRate.PruningChangesNoDecision` | crates/sessiontap-hub/src/service.rs:139-161 | every decision but a full-table refusal is that of an unbounded, never-pruned limiter fed the other calls |
| `PairRate.PairRateLimiter.AllowCall` | crates/sessiontap-hub/src/service.rs:139-161 | the in-place limiter is the model's |
| `Admission.RunIsAccounted` | crates/sessiontap-hub/src/remote.rs:110-176 | over any interleaving each address count is its live tickets, counts sum to the tickets, the semaphores account for every permit held and no cap is exceeded |
| `Admission.CountsSumToPermits` | crates/sessiontap-hub/src/remote.rs:119-141 | at rest the address counts sum to the unauthenticated permits in use |
| `Admission.AdmitOutcome` | crates/sessiontap-hub/src/remote.rs:155-175 | admission succeeds exactly when all three have room; a refusal changes nothing if and only if it leaves no zero entry, which a limit of at least 1 guarantees |
| `Admission.AZeroLimitLeavesAnEntry` | crates/sessiontap-hub/src/remote.rs:159-165 | with a per-address limit of zero a refusal leaves an entry |
| `Admission.MappedPeersGroup` | crates/sessiontap-hub/src/remote.rs:97-107 | a mapped IPv6 address counts as its IPv4 address |
| `Admission.NetworksGroup` | crates/sessiontap-hub/src/remote.rs:97-107 | other IPv6 addresses count together exactly when their first 64 bits agree |
| `Admission.TicketRoundTrip` | crates/sessiontap-hub/src/remote.rs:131-141 | admitting and dropping the ticket restores every unauthenticated counter, and leaving restores the rest |
| `Admission.RemoteGate.AdmitPeer` | crates/sessiontap-hub/src/remote.rs:155-175 | the in-place admission is the model's |
| `Admission.RemoteGate.DropTicketOf` | crates/sessiontap-hub/src/remote.rs:131-141 | the in-place drop is the model's and never goes below zero |
| `MergedStream.ConsumerFollowsTheStore` | crates/sessiontap-hub/src/listen.rs:176-223 | through any mix of updates, snapshot applications and lag the consumer's copy is the store at `since`, and revisions never decrease |
| `MergedStream.CaughtUpMeansEqual` | crates/sessiontap-hub/src/listen.rs:176-211 | a consumer that received everything published holds the whole store |
| `MergedStream.OvertakingIsHarmlessIff` | crates/sessiontap-hub/src/listen.rs:187-199 | for every earlier log an update folded early gives the store after the overtaken commits and the update, if and only if each overtaken commit updates or forgets the update's own agent |
| `MergedStream.OvertakingRunIff` | crates/sessiontap-hub/src/listen.rs:187-199 | every consumer still follows the store after such an overtaking run if and only if the same condition holds |
| `MergedStream.ConsumerFollowsInAnyOrder` | crates/sessiontap-hub/src/listen.rs:176-211 | with publications in any order, snapshots and lag, the copy is the store at `since` throughout as long as early updates overtake only commits of their own agent |
| `MergedStream.OutOfOrderLosesAnUpdate` | crates/sessiontap-hub/src/listen.rs:187-203 | two updates published in the wrong order lose the first |
| `MergedStream.UpdatesAreNew` | crates/sessiontap-hub/src/listen.rs:187-199 | whatever is received in whatever order, every update sent is newer than the envelope before it |
| `MergedStream.StreamMerged` | crates/sessiontap-hub/src/listen.rs:176-211 | the receive loop sends exactly the envelopes of the model |
| `JsonlTail.TailIsAWholeRead` | crates/sessiontap-adapters/src/qwen.rs:54-86 | for every interleaving of appends, replacements and polls the tail's state and all values met are those of reading the consumed bytes one by one; what was read is clean unless a poll failed on an overlong or unparseable line; exactly the values met by polls that failed are lost |
| `JsonlTail.PollLosesIff` | crates/sessiontap-adapters/src/qwen.rs:54-86 | from any state whatever, a poll loses values if and only if, before it, the first piece ahead completes an acceptable line and the rest of the file is not clean |
| `JsonlTail.EverythingIsReturnedIff` | crates/sessiontap-adapters/src/qwen.rs:54-86 | over every run the values returned since the last start are all those of the bytes consumed if and only if no poll since then met that condition |
| `JsonlTail.PollSucceedsIff` | crates/sessiontap-adapters/src/qwen.rs:54-86 | from any state whatever, a poll succeeds if and only if nothing is ahead, or the first piece ahead continues the unfinished line acceptably and the rest is clean |
| `JsonlTail.PollCompletesTheRead` | crates/sessiontap-adapters/src/qwen.rs:54-86 | in every reachable state a successful poll completes the reading of all that is ahead; for a file only appended to and not spoiled, also after torn-character failures and restarts, it succeeds if and only if the file is clean, and the values met are then those of all complete lines |
| `JsonlTail.RotationStartsOver` | crates/sessiontap-adapters/src/qwen.rs:63-68 | a shorter or another file is read as a new tail would; any other is read on |
| `Utf8Text.Utf8Iff` | crates/sessiontap-adapters/src/qwen.rs:73 | bytes pass as text if and only if they encode some sequence of Unicode scalar values, as section 4 of RFC 3629 has it |
| `JsonlTail.FeedIsLineByLine` | crates/sessiontap-adapters/src/qwen.rs:73-84 | where every line parses and fits, reading byte by byte gives the values of the lines |
| `JsonlTail.OverlongIsStuck` | crates/sessiontap-adapters/src/qwen.rs:76-78 | after a line over the limit no poll returns a value until the tail starts over |
| `JsonlTail.TornCharacterLosesALine` | crates/sessiontap-adapters/src/qwen.rs:73-84 | a run in which an append torn inside a character is completed, the file is clean and the next poll succeeds, and its one complete line is never returned |
| `JsonlTail.QwenJsonlTail.PollFile` | crates/sessiontap-adapters/src/qwen.rs:54-86 | the in-place poll loop is the model's, in result and state |
| `HookMerge.MergeKeepsUserGroups` | crates/sessiontap-adapters/src/lib.rs:744-776 | for every event a group goes if and only if it has a handler array without a user handler; the others keep their order, other fields and user handlers, and installing adds one owned group per managed event at the end |
| `HookMerge.AnEmptyUserGroupIsDropped` | crates/sessiontap-adapters/src/lib.rs:762-768 | a user's group with an empty handler array is deleted even by a removal |
| `HookMerge.MergeKeepsUserContent` | crates/sessiontap-adapters/src/lib.rs:735-781 | read across groups, the sequence of user handlers with their group's other fields and all fields outside the hooks are kept; afterwards owned handlers are none, or exactly the installed one per managed event |
| `HookMerge.EnsureIsIdempotent` | crates/sessiontap-adapters/src/lib.rs:735-799 | a second Ensure changes nothing and Doctor is then healthy |
| `HookMerge.RemoveAfterEnsure` | crates/sessiontap-adapters/src/lib.rs:735-799 | Remove after Ensure writes what Remove alone writes |
| `HookMerge.ActionsForgetEachOther` | crates/sessiontap-adapters/src/lib.rs:735-799 | what one action wrote never shows in what the next one writes |
| `HookMerge.DoctorAgreesWithEnsure` | crates/sessiontap-adapters/src/lib.rs:779-790 | Doctor writes nothing and is healthy exactly when Ensure would leave the text alone |
| `HookMerge.BuiltHandlerIsOwned` | crates/sessiontap-adapters/src/lib.rs:677-691 | the handler that is installed is recognised as owned, for every provider and executable |
| `HookMerge.OwnedIff` | crates/sessiontap-adapters/src/lib.rs:751-759 | a handler is owned exactly when it has the status message and a command with ` hook emit ` in it |
| `HookMerge.HandlerIs` | crates/sessiontap-adapters/src/lib.rs:677-691 | the installed handler's four fields; its command is two words around ` hook emit `, which a shell reads back as the executable and the provider |
| `HookMerge.QuotingIsUndone` | crates/sessiontap-adapters/src/lib.rs:673-675 | a shell reads a quoted text back as the text, whatever characters it has |
| `HookMerge.RefusalIff` | crates/sessiontap-adapters/src/lib.rs:735-775 | each refusal exactly under its condition |
| `HookMerge.WrittenIs` | crates/sessiontap-adapters/src/lib.rs:770-792 | Ensure writes the cleaned document with the installed group in every managed event, Remove the one without |
| `HookMerge.CleanEvent` | crates/sessiontap-adapters/src/lib.rs:748-768 | the nested cleaning loops of one event are the model's |
| `HookMerge.CleanEvents` | crates/sessiontap-adapters/src/lib.rs:744-769 | every event is cleaned, or the merge is refused when one is not an array |
| `HookMerge.ConfigFile.Apply` | crates/sessiontap-adapters/src/lib.rs:735-799 | the whole merge with its refusals, none of which touches the file |
| `Keys.ParsePrintIff` | crates/sessiontap-core/src/terminal.rs:241-291 | a key survives printing and parsing if and only if its base is a listed named key or not a control character |
| `Keys.UnprintableKeysAreLost` | crates/sessiontap-core/src/terminal.rs:184 | a thirteenth function key comes back as the first, a newline not at all |
| `Keys.PrintParse` | crates/sessiontap-core/src/terminal.rs:241-275 | every accepted text prints back to itself |
| `Keys.NamesAre` | crates/sessiontap-core/src/terminal.rs:162-187 | the names in full |
| `Keys.SpellingIs` | crates/sessiontap-core/src/terminal.rs:277-291 | control before alt before the base; printable ASCII characters are keys, control characters are not |
| `Keys.NameIsFound` | crates/sessiontap-core/src/terminal.rs:132-187 | every listed name is found as the key that prints it |
| `Keys.FromStr` | crates/sessiontap-core/src/terminal.rs:252-270 | the in-place parser is the model's |

## Left out

- SQLite storage: event-id deduplication, the outbox, retention pruning, tombstones and revision numbers; a commit is one function of the prior state.
- `HubStore` itself: the merged stream uses a revision log, device operations a map of devices.
- Startup reconciliation that restores activity as unconfirmed.
- Overflow of 64-bit ids and of the turn counter; the session generation does saturate.
- Rounding of the limiter's floating point: tokens are `real`.
- TLS, WebSocket and HTTP transport, timeouts and task scheduling, except as steps that may happen at any time.
- MAC computation, nonces and the pairing conversation; an attempt takes the outcome of the check.
- DeviceRevocation.RevokedKeyIsRefused: `pair.begin` and `pair.complete` are not among the modelled requests, because they answer before a device is known; that a pairing may follow a revocation is a step of its own.
- Resolving a device by identity prefix; revocation names the key.
- Sending the answer to a terminal request after the gate is released, and activation in that path; the relay model has both as steps of their own.
- MergedStream.ConsumerFollowsTheStore: assumes publications in revision order after their commit, because the publishing tasks of crates/sessiontap-hub/src/main.rs:189-195 do not enforce it; the lemmas on overtaking show what is lost otherwise.
- JsonlTail.TailIsAWholeRead: a poll reads the file as it is when the poll begins, because appends during one poll look like appends before the next; JSON decoding is a parameter.
- HookMerge.EnsureIsIdempotent: assumes that the text written parses back to the tree rendered, because the JSON library is not part of this model; locks, symlinks and atomic writes are left out as well.
- Filesystem checks, provider payload tables, path normalisation, discovery, endpoints, routing and configuration: they would add only members that one branch settles.
