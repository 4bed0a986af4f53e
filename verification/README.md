# Watch-event aggregation in IOWatchServiceExecutorImpl

This project models the core of UberFire's `IOWatchServiceExecutorImpl`.
One call takes the watch events drained from a watch key in one poll cycle,
together with a drop-filter, and fires at most one resource event:

- nothing;
- one typed event (updated, added, renamed or deleted) to the matching sink;
- or one batch event that maps each affected path to the changes recorded
  for it.

The five CDI event sinks become a returned value,
`Outcome = Result<Option<Dispatch>, Fault>`. `Dispatch` has the cases
`Updated`, `Added`, `Renamed`, `Deleted` and `Batch`. A `Fault` is a null
dereference the Java code would throw.

Modules:

- `Wrappers`: `Option` (a nullable reference) and `Result`.
- `WatchTypes`: kinds, watch contexts, events, resource changes, session
  info, dispatches and faults.
- `Classifier`: `sessionInfo`, `message`, `buildChange`, `toEvent` and
  `buildEvent`.
- `Executor`: `execute`. This covers the multi-event loop as a left fold
  (`Collect`), the decision after the loop (`Decide`) and the single-event
  branch (`ExecuteSingle`).
- `Reference`: a declarative account of the grouping, written
  independently of the loop. It defines the kept events, their
  classifications, the set of affected paths, the changes per path and the
  group.
- `Properties`: proves that the loop builds exactly the reference group,
  and what each branch then dispatches.
- `Scenarios`: concrete poll cycles and their outcomes.

The filter returns true to drop an event. It is modelled as a total
function `WatchEvent -> bool`.

## Behaviour as written

- **Line 114 is a one-key test.** `changes.values().size()` counts the
  entries of the map, so it always equals `changes.size()`. The model keeps
  the test as written (`ValuesViewSize`). A natural reading of the decision
  rule is "one path with exactly one change". Under that reading, one path
  with several changes would dispatch nothing. The code instead fires the
  first change recorded for that path as a typed event. See
  `Scenarios.RepeatedModify` and `Properties.CollapseToTyped`.
- **The first context may come from an unclassified event.** It is taken
  from the first event the filter keeps, before that event is classified.
  The collapsed event and the batch event take their message and attribution
  from this context. They ignore the message stored in the change. A
  collapsed event equals what the classified event would produce alone when
  that event is also the first kept event (`Properties.CollapseMatchesSingle`).
  Otherwise the two can differ, because the message and attribution come from
  the first kept context (`Scenarios.MessageFromUnclassifiedFirst`).
- **The single-event branch can fault.** Suppose a lone kept event has a
  recognised kind but no affected path. Then `buildEvent` returns null and
  `.getK2()` dereferences it. This is modelled as `Failure(NullBuiltEvent)`.
- **The multi-event branch never faults.** The decision dereferences
  `firstContext`, which is modelled as `Failure(NullFirstContext)` when it
  is missing. `Collect` proves the context is always present when the group
  is non-empty. So `Execute` can fault only on a lone event.

## Model

| member | source | states |
|---|---|---|
| Classifier.SessionInfoOf | uberfire-backend/uberfire-backend-server/src/main/java/org/uberfire/backend/server/io/watch/IOWatchServiceExecutorImpl.java:258-274 | A missing session id or user becomes "<system>". A present one passes through unchanged. |
| Classifier.Message | uberfire-backend/uberfire-backend-server/src/main/java/org/uberfire/backend/server/io/watch/IOWatchServiceExecutorImpl.java:158-163 | A missing context has no message. Otherwise the context's own message is used. |
| Classifier.BuildChange | uberfire-backend/uberfire-backend-server/src/main/java/org/uberfire/backend/server/io/watch/IOWatchServiceExecutorImpl.java:204-232 | An event is classified exactly when its kind is recognised and its required path is present. CREATE affects the new path; MODIFY, RENAME and DELETE affect the old path. The change's variant matches the kind and carries the context message. A rename keeps the new path as its destination. |
| Classifier.ToEvent | uberfire-backend/uberfire-backend-server/src/main/java/org/uberfire/backend/server/io/watch/IOWatchServiceExecutorImpl.java:234-256 | A typed event of the change's variant, at the given path. Its message and attribution come from the context, never from the change. A rename keeps the change's destination. |
| Classifier.BuildEvent | uberfire-backend/uberfire-backend-server/src/main/java/org/uberfire/backend/server/io/watch/IOWatchServiceExecutorImpl.java:165-202 | The result is null for an unrecognised kind or a missing affected path. Otherwise the affected path is the new path for CREATE and the old path for the other kinds, and the event is a typed event of the event's kind at that path, with the event's own message and attribution. A rename's destination is the new path. |
| Classifier.BuildEventFactorsThroughBuildChange | uberfire-backend/uberfire-backend-server/src/main/java/org/uberfire/backend/server/io/watch/IOWatchServiceExecutorImpl.java:165-256 | With the same context, `toEvent` applied to the classifier's result gives the same event as `buildEvent`, and both are null under the same conditions. |
| Executor.Record | uberfire-backend/uberfire-backend-server/src/main/java/org/uberfire/backend/server/io/watch/IOWatchServiceExecutorImpl.java:105-111 | Appending a change adds its path to the keys and extends only that path's list, by one element at the end. |
| Executor.Step | uberfire-backend/uberfire-backend-server/src/main/java/org/uberfire/backend/server/io/watch/IOWatchServiceExecutorImpl.java:99-112 | A dropped event leaves the state unchanged. A kept event always leaves a first context set, and never replaces one already set. An iteration never removes a key and keeps every list non-empty. |
| Executor.Collect | uberfire-backend/uberfire-backend-server/src/main/java/org/uberfire/backend/server/io/watch/IOWatchServiceExecutorImpl.java:95-113 | After the loop, every key has a non-empty list. The first context is missing exactly when the filter drops every event, and then the group is empty. |
| Executor.Decide | uberfire-backend/uberfire-backend-server/src/main/java/org/uberfire/backend/server/io/watch/IOWatchServiceExecutorImpl.java:114-137 | An empty group gives nothing. One key, whatever its list length, gives a typed event at that key: it has the kind of the key's first change, and the first context's message and attribution. Two or more keys give one batch carrying the whole group. A missing first context with a non-empty group faults. |
| Executor.ExecuteSingle | uberfire-backend/uberfire-backend-server/src/main/java/org/uberfire/backend/server/io/watch/IOWatchServiceExecutorImpl.java:138-155 | A dropped event or an unrecognised kind gives nothing. The branch faults exactly when a kept, recognised event has no affected path. Otherwise it dispatches `toEvent` of the event's own classification. |
| Executor.Execute | uberfire-backend/uberfire-backend-server/src/main/java/org/uberfire/backend/server/io/watch/IOWatchServiceExecutorImpl.java:92-156 | At most one dispatch per call. An empty cycle, or one in which every event is dropped, gives nothing. A fault happens only on a lone event. A batch happens only for two or more events touching two or more paths. |
| Reference.Kept | uberfire-backend/uberfire-backend-server/src/main/java/org/uberfire/backend/server/io/watch/IOWatchServiceExecutorImpl.java:99-100 | An event is processed only when the filter returns false. Nothing is kept exactly when the filter drops every event. |
| Reference.ChangesAt | uberfire-backend/uberfire-backend-server/src/main/java/org/uberfire/backend/server/io/watch/IOWatchServiceExecutorImpl.java:106-110 | A path's list is non-empty exactly when some classified change affects that path. |
| Properties.CollectMatchesReference | uberfire-backend/uberfire-backend-server/src/main/java/org/uberfire/backend/server/io/watch/IOWatchServiceExecutorImpl.java:97-113 | The loop computes the context of the first kept event and, for every path, the changes of the kept, classified events that affect it, in arrival order. |
| Properties.GroupKeysAreAffectedPaths | uberfire-backend/uberfire-backend-server/src/main/java/org/uberfire/backend/server/io/watch/IOWatchServiceExecutorImpl.java:99-113 | A path is a key of the group exactly when some kept event classifies to a change at that path. |
| Properties.MultiNothingIff | uberfire-backend/uberfire-backend-server/src/main/java/org/uberfire/backend/server/io/watch/IOWatchServiceExecutorImpl.java:97-137 | With two or more events, no fault occurs. Nothing is dispatched exactly when no kept event classifies. |
| Properties.CollapseToTyped | uberfire-backend/uberfire-backend-server/src/main/java/org/uberfire/backend/server/io/watch/IOWatchServiceExecutorImpl.java:114-132 | With one affected path, the first classified change is fired as a typed event at that path. Its message and attribution come from the first kept event. |
| Properties.BatchDispatch | uberfire-backend/uberfire-backend-server/src/main/java/org/uberfire/backend/server/io/watch/IOWatchServiceExecutorImpl.java:133-136 | With two or more affected paths, one batch is fired. It carries the reference group, with the first kept event's message and attribution. |
| Properties.CollapseMatchesSingle | uberfire-backend/uberfire-backend-server/src/main/java/org/uberfire/backend/server/io/watch/IOWatchServiceExecutorImpl.java:97-155 | When the first kept event is also the only classified one, the multi-event result equals what that event produces on its own. |
| Scenarios.RepeatedModify | uberfire-backend/uberfire-backend-server/src/main/java/org/uberfire/backend/server/io/watch/IOWatchServiceExecutorImpl.java:114-119 | Two modifications of one path fire an update with the first change, not nothing. |
| Scenarios.MessageFromUnclassifiedFirst | uberfire-backend/uberfire-backend-server/src/main/java/org/uberfire/backend/server/io/watch/IOWatchServiceExecutorImpl.java:101-103 | An unclassified first kept event supplies the message of the collapsed update. |
| Scenarios.LoneRenameWithoutOldPath | uberfire-backend/uberfire-backend-server/src/main/java/org/uberfire/backend/server/io/watch/IOWatchServiceExecutorImpl.java:147-149 | A lone rename without an old path faults on the null pair. |
| Scenarios.LoneCreate | uberfire-backend/uberfire-backend-server/src/main/java/org/uberfire/backend/server/io/watch/IOWatchServiceExecutorImpl.java:144-146 | A lone kept CREATE at /a fires an added event at /a, attributed to the system actor. |
| Scenarios.LoneDropped | uberfire-backend/uberfire-backend-server/src/main/java/org/uberfire/backend/server/io/watch/IOWatchServiceExecutorImpl.java:138-140 | A lone event the filter drops fires nothing. |
| Scenarios.AllDropped | uberfire-backend/uberfire-backend-server/src/main/java/org/uberfire/backend/server/io/watch/IOWatchServiceExecutorImpl.java:97-113 | Three events that are all dropped fire nothing and raise no fault. |
| Scenarios.SoleRename | uberfire-backend/uberfire-backend-server/src/main/java/org/uberfire/backend/server/io/watch/IOWatchServiceExecutorImpl.java:124-127 | A rename from /a to /b that is the only classified event of a cycle collapses to a rename of /a with destination /b. |
| Scenarios.TwoPaths | uberfire-backend/uberfire-backend-server/src/main/java/org/uberfire/backend/server/io/watch/IOWatchServiceExecutorImpl.java:133-136 | A modification of /a and a creation at /b make a single batch of both. |

## Left out

- The EJB and CDI annotations, the injected `Event` fields and `setEvents`
  (lines 58-89) are container wiring. The sinks are replaced by the returned
  `Dispatch`.
- `WatchKey.pollEvents()` (line 94) is I/O. The poll cycle's events are a
  parameter.
- `Paths.convert` is not part of this model. Contexts carry already-converted
  optional paths, and `None` stands for a conversion that yields null.
- `SessionInfoImpl` and `UserImpl` are reduced to a (session id, user)
  string pair.
- HashMap iteration order is not modelled. The group is a Dafny map, and the
  order is observable only through the sole key of a one-key group.
- The filter is a pure, total function. A filter with side effects or one
  that throws is not modelled.
- A null event context, and a null `WatchEvent`, are not modelled. Every
  event carries a context.
- Exceptions thrown by a sink's `fire` are outside the model.
- The unchecked casts to the typed event classes always succeed. `toEvent`
  and `buildEvent` pick the same variant as the sink chosen. So one
  `Dispatch` value stands for the pair (sink, event).
- `ServerUsernameProviderTest.java` tests a class that is not part of this
  model. It has no logic modelled here.
