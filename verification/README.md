# ev: a Dafny model of the event store

`ev` keeps append-only logs of events, one per stream, with optimistic concurrency. Aggregates are folds
over those logs; middleware around the drivers derives pointers (projecter), follows them (resolve-links)
and feeds subscribers (streamer). This project models that core and proves what holds over runs and
interleavings of it. `dafny verify dfyconfig.toml` checks everything.

How the modules build on each other:

- `Words`, `Text`, `Events`, `Codec`, `StreamIDs`: wrapping `uint64`/`int64`, string splitting and
  decimals, event objects and their stamping, the record and pointer codecs, and which positions a read
  asks for.
- `Logs`: one abstract log, and what each driver's code computes, as functions on values. `MemStore` and
  `DiskStore` are the drivers as objects; every method is proved against its function. `Refinement` shows
  that both functions behave as the abstract log over every run.
- `Aggregates` (with the object `AggregateRoot`), `Stores`, `EventStore`: the bookkeeping of an aggregate,
  and `Load`, `Save`, `Create`, `Update`, `Upsert` as functions and as methods on objects.
- `Protocol`: any number of clients whose `FirstIndex`, `Read` and `Append` interleave as separate steps
  with plain appends and front truncations. `Books`: one aggregate over any raises and saves.
- `Projection`: client appends and background tasks in any interleaving. `Links`: the resolver.
  `Following`: the resolver on what the projecter stored.
- `Streamer`, `Delivery`, `Registry`: the cursor and the subscriber lists as objects, what one subscriber
  is given over every run, and who is told of a Send over every run.
- `Paging`: the paging flags and a client's walk. `Chain`: how options stack drivers.

A method over objects states its result or its new state through a function on values; the lemmas are
about those functions and about runs of them. The runs of `Registry` number the subscriptions and share
`Removed`, `Sent` and `Started` with the objects of `Streamer`; `Registry.RemovedAlike` and
`Registry.AddedAlike` say that the lists of objects and of numbers stay alike.

Where the code does not do what its names or comments suggest, the model keeps the code and a lemma says
exactly when the expected property holds: `Commit` takes the length of the list for the version
(`Aggregates.CommitExact`, `Books.SaveTwice`); a second `Raise` counts from the stream version again
(`Aggregates.RaisePositions`); a torn `Load` can slip through `Create`'s check, though never into the log
(`Protocol.TornCreate`, `Protocol.TornNeverWrites`, on the run of `Protocol.TornReached`); the mem-store
keeps half of a batch it cannot encode (`Logs.HalfWritten`, `Logs.HalfBatch`); `resolvelinks` writes slot
`i` and not `ptr[i]`, so events that were no links are overwritten when links come behind them
(`Links.ResolveLinks`, `Following.PagesResolve`), and it follows a link that leads to itself or round in
a circle for ever (`Links.ChainEndsIff`); a Send that finds a subscriber between `Events` and `Recv`
makes it skip (`Delivery.ContiguousIff`); a Send of no events sends it back to the start of the stream
(`Delivery.InOrderIff`, `Delivery.DeliveredTwice`, `Delivery.WaitsUnread`); a first `Close` under a dead
context leaves the subscription registered for good (`Registry.DeadCloseStays`); a page asked for at the
end of the log sends the client back to the start (`Paging.EndMoves`).

Assumptions made explicit: `math.PagerBox` is not part of the repository; `StreamIDs.PagerBox` is a
definition of it, of which only the stated contract is used. The write-ahead log is a sequence of records
with consecutive indices whose front truncation never empties it. The text of an event id and the payload
codecs are parameters that invert themselves (`Codec.Lawful`). A client's function sees the aggregate
only through its fold. The events of one list are distinct objects, and the shared nil event is never
stamped, so its positions stay 0.

## Model

| member | source | states |
|---|---|---|
| Words.Sub | ev.go:162-177 | `first - 1` and the other differences of positions on uint64 wrap, and adding back undoes them |
| Text.JoinSplit | event/reflect.go:192-205 | joining the parts of a limited split gives the text back |
| Text.SplitJoin | event/reflect.go:155-205 | splitting n joined parts into n gives them back when all but the last are free of the separator |
| Text.ParseDecimal | event/events.go:180-196 | parsing the decimal form of a uint64 gives it back |
| Text.NoLeadingZero | event/events.go:180-182 | the decimal form starts with a zero only for 0 |
| Text.ScanFails | event/events.go:185-196 | a rejected number leaves 0, or the largest one when the digits read so far overflowed |
| Events.NewEvents | event/events.go:39-50 | every event of the list gets its index as position, the id drawn for it, and an actual position only if it had none; streams and payload stay |
| Events.SetStreamID | event/events.go:104-113 | every event gets the stream id, and an actual one only if it had none; ids, positions and payload stay; objects listed twice included |
| Events.SetPosition | event/events.go:123-128 | both positions are set and nothing else |
| Codec.PtrRoundTrip | event/events.go:180-196 | unmarshalling a marshalled pointer gives it back for every stream id, with `@` or without, and every position |
| Codec.PtrReparse | event/events.go:180-196 | what was accepted once prints and parses to the same pointer, whatever the object held before |
| Codec.PtrAccepts | event/events.go:185-196 | a text is accepted as a pointer exactly when it spells it: the id up to the last `@`, then decimal digits of a uint64 |
| Codec.PtrRejects | event/events.go:185-196 | what a rejected text with an `@` leaves in the fields: the stream in front of the last `@`, and as position 0 or the largest one |
| Codec.PtrMissing | event/events.go:185-191 | a text without `@` is rejected and leaves the fields as they were |
| Codec.EventPtr.MarshalBinary | event/events.go:180-182 | the text of a pointer, which parses back to its fields whatever the parsing object held |
| Codec.EventPtr.UnmarshalBinary | event/events.go:185-196 | the object's fields and the error after unmarshalling, also on rejected input |
| Codec.RecordRoundTrip | event/reflect.go:155-237 | a record read back gives id, stream, type and any payload, tabs included, at the position asked for, with the actual place set from the stored one |
| Codec.TooFewTabs | event/reflect.go:192-205 | a record is rejected for its format exactly when it has fewer than three tabs |
| Codec.RecordText | event/reflect.go:155-190 | a record is the printed id, the stream, the type name and the payload in this order with tabs between, and there is none when the payload cannot be written |
| Codec.BuiltInText | event/events.go:159-182 | the record of a pointer ends in its text under `event.EventPtr`, that of the nil event in nothing under `event.nilEvent` |
| Codec.BadID | event/reflect.go:192-237 | a record with four fields is refused for its id exactly when the id does not parse |
| Codec.RegisteredIsPlain | event/reflect.go:122-153 | a well-formed record whose type name is in the registered set, and is not the library's own, becomes an event of that type, or the error of its unmarshaller |
| Codec.BuiltInDecodes | event/reflect.go:122-153 | a record under `event.EventPtr` or its old name becomes a pointer or a payload error, one under `event.nilEvent` the nil event |
| Codec.UnregisteredIsUnknown | event/reflect.go:122-153 | a well-formed record whose type name is not in the registered set, nor the library's own, decodes to an unknown event that keeps its name and values |
| Codec.HeaderKept | event/reflect.go:155-237 | whatever decodes encodes to a record with the same stream and type, except that the old name of a pointer's type becomes the new one; its id is printed anew, which gives the same text for ids that were printed, not for other texts the parser takes |
| Codec.HeaderDecodes | event/reflect.go:192-237 | whatever comes back of a written record comes back under its own stream, and its own id when ids are read as they were printed, even when its payload was not meant to |
| Codec.EncodeEvents | event/reflect.go:254-265 | the records of all events, or the first error |
| Codec.DecodeEvents | event/reflect.go:240-252 | fresh, distinct events for all records with the list index as position, or the first error |
| Codec.BatchRoundTrip | event/reflect.go:240-265 | encoding and decoding a batch gives the entries it becomes at positions 0, 1, ... |
| Codec.BatchIdentity | event/reflect.go:240-265 | for a list numbered by NewEvents and stamped by SetStreamID the round trip is the identity, in all five metadata fields, exactly when no event brought an actual place of its own that differs |
| StreamIDs.FillPage | driver/driver.go:49-68 | the loop on wrapping integers fills exactly the run from start, up by one for a positive count and down by one for a negative one, as long as the count or as what is left in that direction, also at 2^64-1 and below 1 |
| StreamIDs.GenerateStreamIDs | driver/driver.go:43-69 | the positions a read asks for, all inside the log and at most as many as counted |
| StreamIDs.PageOrder | driver/driver.go:49-68 | the ids of a boxed page by index: start, start+1, ... or start, start-1, ..., and how many there are |
| StreamIDs.PageMembers | driver/driver.go:43-69 | a page holds a position exactly when it is in the log, on the side of the count and nearer than the count |
| StreamIDs.ForwardMembers | driver/driver.go:43-69 | what a forward read asks for, position by position |
| StreamIDs.WholeLog | ev.go:165-166 | reading from 0 with AllEvents asks for every position once, in order |
| Logs.CoderLaws | event/reflect.go:155-237 | the library's codec keeps every header and all of an encodable event, also of one that was stored before |
| Logs.ReadAll | ev.go:165-166 | `Read(0, AllEvents)` returns the log, also a truncated one |
| Logs.ReadForward | driver/disk-store/disk-store.go:265-304 | a forward read returns the slice of the log behind `after`, cut at the count |
| Logs.ReadBackward | driver/disk-store/disk-store.go:265-304 | a read that is boxed backwards returns the entries from start down, newest first, as many as counted or left |
| Logs.AppendAnswers | driver/disk-store/disk-store.go:199-230 | an append goes in exactly on the log's last index or on 2^64-1, keeping ids and payloads in order at the next positions; else it is a version error and nothing changes |
| Logs.HalfWritten | driver/mem-store/mem-store.go:92-110 | the mem-store is left with part of a failed batch exactly when the version fits, the first event can be copied and a later one cannot; the disk-store never is |
| Logs.HalfBatch | driver/mem-store/mem-store.go:92-110 | such a batch: a pointer followed by an event whose payload cannot be written leaves the pointer in the mem-store, and nothing in the disk-store |
| MemStore.EventLog.Append | driver/mem-store/mem-store.go:75-114 | new contents, error and count of an append, and that the caller's objects are stamped with the stream id and do not become the log's |
| MemStore.EventLog.Push | driver/mem-store/mem-store.go:92-110 | the loop pushes fresh clones up to the first that fails |
| MemStore.EventLog.ReadN | driver/mem-store/mem-store.go:117-141 | fresh copies of the entries asked for, or the first failure, an index outside the stream being a panic |
| MemStore.EventLog.Read | driver/mem-store/mem-store.go:144-175 | fresh copies of the page, stamped with the stream id; the log keeps its own objects |
| MemStore.EventLog.FirstIndex | driver/mem-store/mem-store.go:178-184 | the position of the first entry, 0 when there is none |
| MemStore.EventLog.LastIndex | driver/mem-store/mem-store.go:187-193 | the position of the last entry, 0 when there is none |
| MemStore.AppendKeepsFiled | driver/mem-store/mem-store.go:75-114 | entry i keeps stating position i+1 and the stream's id, also after appends that fail half-way |
| MemStore.Isolation | driver/mem-store/mem-store.go:92-239 | every object a Read and a ReadN handed out, and any others not the log's own, have been overwritten, and both reads return what they returned before |
| MemStore.AppendIsolated | driver/mem-store/mem-store.go:92-110 | the objects handed to an append may be overwritten as well: all later reads return what the append stored |
| DiskStore.EventLog.Append | driver/disk-store/disk-store.go:182-238 | new records, error and count; after success the caller's events have the positions behind the last index, after a wrong version, which is reported exactly then, the positions they came with |
| DiskStore.EventLog.Encode | driver/disk-store/disk-store.go:212-230 | the append loop encodes up to the first error and stamps exactly those events |
| DiskStore.EventLog.ReadN | driver/disk-store/disk-store.go:239-264 | fresh events for all indices, or not-found at the first outside the log |
| DiskStore.EventLog.Read | driver/disk-store/disk-store.go:265-304 | fresh events of the page, stamped with the stream id |
| DiskStore.EventLog.TruncateFront | driver/disk-store/disk-store.go:343-362 | keeps index and everything behind it readable as before and leaves the last index alone; outside the log it refuses and changes nothing |
| Refinement.CallRefines | driver/disk-store/disk-store.go:182-397 | one call on both drivers gives the abstract log's answer and keeps both in correspondence with it |
| Refinement.TruncateRefines | driver/disk-store/disk-store.go:343-362 | front truncation of the records is front truncation of the abstract log |
| Refinement.DriversAgree | driver/mem-store/mem-store.go:75-239 | over every run with encodable events both drivers return the same events, metadata, indices, counts and version errors; the two places where the mem-store answers otherwise are named |
| Refinement.MemAlwaysFiled | driver/mem-store/mem-store.go:75-114 | the log invariant of the mem-store in every reachable state, decodable events or not |
| Aggregates.CommitExact | event/aggregate.go:82-86 | a commit brings the stream version to the version exactly when the stream was never cut at the front |
| Aggregates.RaisePositions | event/aggregate.go:108-134 | a raised event is numbered behind the version exactly when nothing was waiting to be committed |
| Aggregates.RaisedFields | event/aggregate.go:23-28 | a raised event field by field: the id drawn for it, the aggregate's stream, the position behind lastIndex, its payload, and an actual place only if it had none; what was held is untouched |
| AggregateRoot.IsAggregate.Raise | event/aggregate.go:23-28 | the objects given are kept, with the id drawn, the owner and the positions raising gives them; the events held already are not touched |
| AggregateRoot.IsAggregate.Append | event/aggregate.go:118-126 | the objects given are kept, renumbered from lastIndex, and counted as committed |
| AggregateRoot.IsAggregate.Events | event/aggregate.go:87-100 | the whole list, or the part behind the cut, or a panic when the cut lies beyond the list |
| AggregateRoot.IsAggregate.PosStartAt | event/aggregate.go:128-134 | positions count on from lastIndex on wrapping integers |
| AggregateRoot.IsAggregate.Commit | event/aggregate.go:82-82 | lastIndex becomes the length of the list, whatever firstIndex is |
| Stores.LoadedBooks | ev.go:149-184 | a loaded aggregate has applied what was read, has nothing to commit, and is on the read's version exactly when both reads saw the same front; else it is below |
| Stores.PrepareBooks | ev.go:333-423 | what a call is about to save and on which version, also when `first - 1` wrapped |
| Stores.PrepareAnswers | ev.go:333-423 | on any two reads: Create is refused exactly on a version other than 0, Update with not-found on nothing read and with should-exist on version 0; then the client's function refuses, or the call is too long, or it is ready with what was raised behind what was read; an Upsert left on version 0 is refused |
| Stores.CallAnswers | ev.go:333-423 | with nobody else at the log, cut or not: Create of a stream with events is should-not-exist, Update of one without is not-found, a refusal by the client's function is passed on, an Upsert that raises nothing on an empty stream is should-exist, and in all other cases with room the call succeeds with what was raised behind the old payloads, in the log and in the aggregate; a failed call leaves the log alone |
| Stores.LoadRenumbers | ev.go:149-184 | renumbering gives every entry its own position back exactly when the first index it started from is the log's |
| EventStore.Load | ev.go:149-184 | the aggregate and error after a load over the mem-store; the log and its objects stay apart from it |
| EventStore.Save | ev.go:120-148 | the stream, the aggregate and the outcome after a save, on any stream version |
| EventStore.Decided | ev.go:343-358 | the checks and the raising of Create, Update and Upsert on the loaded object, as in the function whose answers are `Stores.PrepareAnswers` |
| EventStore.Prepared | ev.go:333-423 | everything a call does before its save, on objects of its own |
| EventStore.Perform | ev.go:333-423 | a whole Create, Update or Upsert: new stream contents and the aggregate handed back, or the error |
| EventStore.PerformIsCall | ev.go:333-423 | over the mem-store, with entries and drafts the codec carries, a whole call does exactly what it does to the abstract log |
| EventStore.EncodableCarries | event/reflect.go:155-237 | encodable payloads survive the codec under any tab-free stream id |
| Protocol.Run | ev.go:120-183 | the invariant of every reachable state of any number of clients with plain appends and front truncations in between |
| Protocol.Serializable | ev.go:333-423 | the history is the committed batches in commit order, and each batch of a Create, Update or Upsert is what its function makes of exactly the history in front of it (what truncation had left at its read) |
| Protocol.SaveSucceeds | ev.go:120-148 | a prepared save goes into the log exactly when its two reads agree and nothing was written since; else it is a version error and nothing changes |
| Protocol.TornNeverWrites | ev.go:162-177 | a call whose load was torn is on a version strictly below the last index, never AppendOnly, and its save never writes |
| Protocol.TornReached | ev.go:162-177 | a run that gets there: a plain append between the two reads of a Create leaves it past its check on a stream with an event, on version 0 and with an event to save |
| Protocol.TornRefused | ev.go:120-148 | and its save is refused as a version error |
| Protocol.TornCreate | ev.go:343-358 | a torn load hides the stream from Create's check exactly when it read one event behind an empty front |
| Protocol.CreateOnce | ev.go:333-363 | over every run at most one Create writes, and its batch is the stream's first |
| Protocol.Undisturbed | ev.go:333-423 | in every reachable state the four steps of a call that nothing comes between leave the log, and answer, as the whole call does |
| Protocol.Between | driver/disk-store/disk-store.go:182-362 | what comes between calls: a plain append goes in behind the history, a cut inside the log moves its front, and no client notices |
| Protocol.ReplayIsWritePath | ev.go:149-184 | the last writer's aggregate and a fresh load agree on the version, and on the state when nothing was truncated in between; load gives back the store's positions, and the stream versions agree exactly when the writer had read an uncut stream |
| Protocol.TiledIsFlat | driver/mem-store/mem-store.go:81-113 | a history tiled by commits is their concatenation |
| Books.Bookkeeping | event/aggregate.go:82-134 | on a stream that was never cut, over any raises, saves and foreign appends the version counts committed and waiting events, `Events(true)` is what waits, and a save writes just that behind a log seen in full, or changes nothing |
| Books.SaveTwice | event/aggregate.go:82-82 | after a successful save on a cut stream no later save succeeds; on an uncut one the next has nothing to write |
| Books.Overtaken | ev.go:120-148 | once others have appended, over any raises and saves before, what waits cannot be saved: a version error that changes neither log nor aggregate |
| Projection.Derive | driver/projecter/projecter.go:92-106 | the loops collect, event by event, what every projection derives |
| Projection.DerivedInOrder | driver/projecter/projecter.go:92-106 | what is derived of a first event comes in front of what is derived of the rest |
| Projection.ProjectedInOrder | driver/projecter/projecter.go:92-106 | and what the first projection makes of an event in front of what the others make of it |
| Projection.DefaultNames | driver/projecter/projecter.go:136-153 | the default projection makes three pointers to the event, for `$all`, `$type-T` and `$pkg-P` in this order, with P the part of T in front of its first dot, or all of T when it has none |
| Projection.ClientWrites | driver/projecter/projecter.go:80-106 | a client's append puts its events, with their ids and payloads, behind the last of the stream, and stamps the caller's events with those positions |
| Projection.ClientTask | driver/projecter/projecter.go:92-106 | the task it leaves behind is derived from the events as that append left them |
| Projection.TaskWrites | driver/projecter/projecter.go:108-122 | a task appends the first event it holds to that event's stream, behind its last, under the id drawn for it, and holds the rest |
| Projection.RunConserves | driver/projecter/projecter.go:80-122 | for any projections, in every reachable state each derived event is owed as often as it is stored or pending |
| Projection.ExactlyOnce | driver/projecter/projecter.go:136-153 | every event a client appended has exactly one pointer in each of `$all`, `$type-T` and `$pkg-P`, P being T up to its first dot, stored or pending and never both |
| Projection.PointersLead | driver/projecter/projecter.go:136-153 | every stored pointer is in a stream for its event's type, leads to that client's event, and was stored after it; no pointer is projected |
| Projection.DrainedStreams | driver/projecter/projecter.go:80-122 | once the tasks are done `$all` holds one pointer for each client's event, `$type-T` one for each of type T, `$pkg-P` one for each whose type is P up to its first dot, and nothing else |
| Projection.LogAt | driver/disk-store/disk-store.go:215-228 | reading a record's stream at its position finds it, in every reachable state |
| Projection.SitesDiffer | driver/disk-store/disk-store.go:215-228 | two records of a stream are never at one position, and later ones are further on |
| Links.ReadN | driver/resolve-links/resolve-links.go:67-78 | nothing when a position is missing; else every slot holds the end of its chain under its outermost link's place if the batch is orderly, some slot still holds a link if not, and when just its links are orderly slot m holds what the m-th link resolves to, whatever was in slot m. Commit order is the measure of the recursion |
| Links.ResolveLinks | driver/resolve-links/resolve-links.go:101-133 | the same for a slice of events, resolved in place, whatever order the streams are taken in |
| Links.Group | driver/resolve-links/resolve-links.go:101-110 | the maps hold exactly the links, by stream, in slot order |
| Links.Patch | driver/resolve-links/resolve-links.go:122-130 | slot i is overwritten with id, stream, position and payload of what was read for the i-th link, and the actual stream and position of that link, wherever the link is; the slots behind are untouched |
| Links.ResolvedFields | driver/resolve-links/resolve-links.go:122-130 | what an entry resolves to, field by field: id, stream, position and payload are those of the event its chain ends at, which leads nowhere further, and the actual stream and position are the entry's own |
| Links.AnswerTells | driver/resolve-links/resolve-links.go:101-133 | a batch was orderly exactly when no slot of the result holds a link |
| Links.ChainEndsIff | driver/resolve-links/resolve-links.go:67-78 | in any store, links to anywhere included, the chain of an index ends exactly when it never comes back to an entry |
| Links.SelfLink | driver/resolve-links/resolve-links.go:101-133 | a link to itself never ends |
| Links.GroundedEnds | driver/resolve-links/resolve-links.go:67-78 | when links lead back a chain is no longer than what was committed before it |
| Links.SingleOrderly | driver/resolve-links/resolve-links.go:67-78 | a single index is orderly exactly when its chain, of any length, ends at something else than a link |
| Links.OrderlyEnds | driver/resolve-links/resolve-links.go:101-133 | no event of an orderly batch resolves to a link |
| Links.Grows | driver/resolve-links/resolve-links.go:101-133 | an append at a new place whose link leads back keeps every link leading back, and changes what none of them resolves to |
| Following.ReachableClosed | driver/projecter/projecter.go:80-122 | in every reachable state of the projecter every link leads to an event stored before it |
| Following.PointerResolves | driver/projecter/projecter.go:136-153 | every pointer resolves to the client's event it was made for: that event's id, stream, position and payload, with the pointer's own stream and position as the actual ones |
| Following.PagesResolve | driver/resolve-links/resolve-links.go:101-133 | a page of a `$` stream comes back resolved, in the same fields, exactly when its pointers lead into one stream |
| Streamer.Subscription.Recv | driver/streamer/streamer.go:227-268 | the cursor after Recv, and that it blocks exactly on size 0, leaving the wake-up channel set |
| Streamer.Subscription.Events | driver/streamer/streamer.go:286-313 | what is read at the cursor, and the cursor after it |
| Streamer.Subscription.Notify | driver/streamer/streamer.go:99-119 | the cursor after a Send, with the wake-up channel used up |
| Streamer.Subscribers.Subscribe | driver/streamer/streamer.go:66-86 | a new subscription before start, at the end of its topic's list |
| Streamer.Subscribers.Send | driver/streamer/streamer.go:89-127 | every cursor of the topic is updated and nothing else |
| Streamer.Subscribers.Delete | driver/streamer/streamer.go:136-150 | the last subscription takes the place of the one that leaves; a stranger changes nothing |
| Streamer.Subscribers.Close | driver/streamer/streamer.go:316-328 | only a first Close with a live context removes anything |
| Streamer.RemovedCounts | driver/streamer/streamer.go:136-150 | swap-with-last removal takes one occurrence away and keeps all others |
| Streamer.RemovedAt | driver/streamer/streamer.go:136-150 | place by place: the others stay where they are, and the last takes the place of the first occurrence |
| Delivery.DeliveredInOrder | gql/graph.go:103-120 | over every run in which neither Recv nor Events is called out of step, what is delivered are entries behind start, in order and never twice, wherever the Sends land |
| Delivery.WaitingMeansAccounted | driver/streamer/streamer.go:237-268 | over those runs, when the subscriber waits, each event behind start was delivered or else lost to a Send that found it idle |
| Delivery.BlockedWaits | driver/streamer/streamer.go:237-268 | over every run a blocked subscriber has nothing to read and its wake-up channel set |
| Delivery.SendWakes | driver/streamer/streamer.go:99-119 | over every run the next append that goes through makes it ready and uses the channel up |
| Delivery.ContiguousIff | driver/streamer/streamer.go:99-119 | over those runs the delivered events are the stream behind start without a gap exactly when no Send of events found the subscriber idle |
| Delivery.RunKeeps | driver/streamer/streamer.go:76-79 | the cursor's invariant over those runs: its index and size span the log to its end, or it is where it started, or a Send of no events has put it out of step |
| Delivery.NeverStrays | driver/streamer/streamer.go:99-119 | when every append has events, no call is ever out of step |
| Delivery.InOrderIff | driver/streamer/streamer.go:286-302 | over every run in which Events never reads backwards, with appends of no events, what is delivered is in order exactly when Events is never called with the cursor back at 0 by a subscriber that was given events or asked for later ones |
| Delivery.WaitingWhere | driver/streamer/streamer.go:237-268 | over those runs a subscriber that waits is at the end of the log, with everything delivered or lost, or out of step at its start |
| Delivery.EmptySend | driver/streamer/streamer.go:111-111 | a Send of no events changes nothing but the cursor, and puts it out of step exactly when the log has events |
| Delivery.DeliveredTwice | driver/streamer/streamer.go:227-302 | from a fresh subscription: after an append of no events a caught-up subscriber has the whole stream delivered a second time |
| Delivery.WaitsUnread | driver/streamer/streamer.go:237-258 | from a fresh subscription: an append of no events before the first Recv leaves it waiting with nothing delivered of a stream that has events |
| Delivery.CaughtUpIff | gql/graph.go:103-120 | a caught-up subscriber is given nothing twice exactly when the next append it hears of has events |
| Registry.ListsAreLive | driver/streamer/streamer.go:136-150 | over every run each topic lists its live subscriptions once and no other |
| Registry.LiveAreTold | driver/streamer/streamer.go:93-126 | a Send updates each live cursor of its topic once, and no other cursor |
| Registry.JoinedIsTold | driver/streamer/streamer.go:66-127 | over every run a new subscription starts at the position asked for, and the next Send to its topic is the first it is told of |
| Registry.DeadCloseStays | driver/streamer/streamer.go:316-327 | a subscription whose first Close had a dead context is listed for ever |
| Registry.RemovedAlike | driver/streamer/streamer.go:136-150 | removal does to a list of subscription objects what it does to the list of their numbers |
| Registry.AddedAlike | driver/streamer/streamer.go:82-85 | so does subscribing |
| Paging.EventsPage | gql/graph.go:35-70 | the edges are the page read, Begin and End the places of its first and last event or 0, Next compares End with the last index and Prev Begin with the first, each as its own call finds the log |
| Paging.NextMeans | gql/graph.go:60-65 | Next says whether there was more at LastIndex; of an empty page, whether there is anything |
| Paging.PrevMeans | gql/graph.go:60-65 | Prev says whether the page has events in front of it, and is false of an empty page |
| Paging.EndMoves | gql/graph.go:60-65 | End lies behind `after` exactly when there was something to read; otherwise it is 0, the start of the stream |
| Paging.WalkVisits | gql/graph.go:39-69 | following pages visits each event behind the start once, in order, with appends between all calls, and all of them when it ends |
| Paging.WalkEnds | gql/graph.go:39-69 | when nothing is appended a walk ends within as many pages as there are events left |
| Chain.EventStore.constructor | ev.go:110-114 | the options are applied in order |
| Chain.EventStore.Apply | driver/projecter/projecter.go:23-37 | a projector joins the one in the chain, anything else goes on top |
| Chain.EventStore.EventStream | ev.go:272-285 | the outermost streamer, if there is one |
| Chain.OneProjector | driver/projecter/projecter.go:23-56 | after any options there is at most one projector and it has all projections in the order given |
| Chain.ChainIs | ev.go:110-114 | the chain any options make: all that are not projectors in reverse order, the last one given outermost, and one projector with all projections in the order given, on top of what was given in front of the first projector |
| Chain.HoldsEach | driver/resolve-links/resolve-links.go:21-24 | a streamer or a resolver is in the chain exactly as often as it was given |
| Chain.StreamsFromTheLast | ev.go:272-285 | subscribers go to the streamer given last, whatever is above it |

## Left out

- Tracing, metrics, context cancellation inside calls and the locker's internals: each locked body is one atomic step.
- Files, the LRU of open logs, directory migration and `mkDirName` of the disk-store; its write-ahead log is abstract.
- JSON, reflection, type registration and ULID generation: payload codecs are parameters, and so are the ids drawn and their printing to 26 tab-free characters and parsing.
- mem-store truncation, back-truncation of the disk-store and `EventStore.Truncate`: they break the index invariant, let version numbers recur, or report an error after succeeding.
- Subscriber wake-ups as liveness, Sends out of order, negative start positions, truncation under a subscriber: the code makes no promise there.
- The mem-store under the default projection or the streamer: the caller's events carry no store positions there.
- Errors of the background tasks' appends, which the projecter records and skips.
- Appends while a batch of links is being resolved: `Links.ReadN` reads one history throughout; `Links.Grows` says that later appends change no resolved link.
- Callers that reuse event objects while a background task still reads them.
- The registration of drivers by name, `Open`, the lookup of a stream's log, and the GraphQL resolvers other than `Events` and the loop of `EventAdded`.
- Logs and lists longer than an int64 counts: a step that would make one is disabled or a panic.
- StreamIDs.PagerBox: stands for a function of another repository; a negative count or start has only the stated bounds.
- Delivery.InOrderIff: covers runs without a backward read, which Events makes when a Send of no events lands between Recv and Events; what it returns depends on `math.PagerBox`.
- Delivery.SendWakes: waiting starts with the locked step of Recv; that its goroutine reads the channel once more after leaving the lock is not modelled.
- Delivery.WaitingMeansAccounted: exactly-one only while in step; once a subscriber was out of step `Delivery.WaitingWhere` says where it waits and, at the end of the log, that nothing is missing.
- Links.ReadN: for stores whose links lead back, which is where a batch is sure to end; for one index in any store `Links.ChainEndsIff` gives the exact condition.
- Links.ResolveLinks: likewise. For a page whose links lead into several streams, or are not orderly by themselves, only that a link is left is stated, as the streams are taken in no particular order.
- Events.NewEvents: an event object listed twice is not modelled; it would keep the number and id of its last place.
- DiskStore.EventLog.Append: the same, for the position an object listed twice is stamped with.
- DiskStore.EventLog.Encode: the same.
- AggregateRoot.IsAggregate.Raise: the same, and objects the aggregate holds already.
- AggregateRoot.IsAggregate.Append: the same.
- AggregateRoot.IsAggregate.PosStartAt: the same.
- Paging.NextMeans: for forward pages; a negative `after` or count is boxed by `math.PagerBox`. `Paging.EventsPage` holds for all.
- Paging.PrevMeans: likewise.
- Paging.EndMoves: likewise.
- Books.Bookkeeping: for streams that were never cut; on a cut one `Books.SaveTwice` says that the second save fails.
- Books.SaveTwice: for a cut stream it says that later saves fail, not with which error once the cut of the list panics.
- EventStore.PerformIsCall: over the mem-store only; for the disk-store the functions are related by `Refinement.DriversAgree`.
- Projection.DrainedStreams: compares payloads of the `$` streams as multisets; the order of pointers in them depends on the interleaving.
