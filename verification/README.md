# Verified model of the user service

The user service keeps user profiles in a PostgreSQL table whose trigger writes an
outbox, serves them through a Redis read model, and is driven by Kafka (formerly NATS)
consumers. This project models its three stateful parts and proves what they keep over
whole runs.

- **Pull-consumer runtime** (`PullPlan`, `PullRuntime`): one fetcher, a bounded channel, N
  workers, a wait group and a cancellation signal as a system of atomic steps under any
  schedule, and the class that takes those steps.
- **Kafka consume loop** (`RetryHeaders`, `KafkaConsumers`, `EventClaims`, `OffsetLedger`,
  `SkippedWork`, `KafkaBroker`): any number of consumers on any partitions sharing a claim
  table, with crashes and restarts at every call, and the loop itself as a method that is
  proved to do what the step system does.
- **User store** (`UserTable`, `Outbox`, `ReadModel`, `DetailedUser`, `UserService`,
  `CommandHandlers`): table, trigger, caches, service, handlers and projection as classes
  over specification functions. `CallOutcomes` and `CommandOutcomes` say what each call and
  command does to table, cache and topics. `CacheRefinement` and `DetailedProfiles` treat
  requests as atomic; `Interleaving`, `OverlapAgreement`, `OverlapDiscipline`, `AvatarUrls`,
  `HistorySoundness` and `ResultAccounting` break them into single calls that overlap,
  fail and die; `AtomicRequests` shows that the first view is part of the second.

Every outgoing call has a fate: it goes through, it never takes effect, or it takes
effect and its reply is lost (`Domain.Fault`). Clock readings, the file service, the
handler's verdicts and the order of steps are parameters that the results quantify over.

Assumptions about code outside the repository: claiming an event is an atomic
insert-if-absent, releasing it deletes the row, a Kafka consumer starts at the committed
offset, and a retry copy carries its attempt number as the only stamp in its headers
(`RetryHeaders.AppendedStampReadsBack` shows what depends on "only"). Envelope unwrapping
and JSON lose nothing; a payload that does not decode is a case of its own.

The repository's README calls Redis derived data. The code does not keep it in step in
four places; for each the exact condition is proved, beside a run that shows the failure:

- a row is deleted and its preview stays, because the drop from the cache or the reply of
  the database is lost (`CacheRefinement.AgreementIsKept`, `OrphanIsServed`);
- requests overlap (`OverlapAgreement.AgreementUnderOverlap` and `TidinessByStep`, with
  `OverlapDiscipline.OverlapLeavesDeletedUserCached` and `RefillRevivesDeletedUser`);
- a row with a cached detailed profile is deleted
  (`DetailedProfiles.ProfilesAgreeUntilDeletion`, `LookedUpThenDeleted`);
- usernames are checked trimmed but stored as given
  (`UsernameAvailability.AvailabilityIsReliableIffTrimmed`).

Nor does a failed creation mean that there is no such user
(`ResultAccounting.FailedReportIffLeftBehind`), and a dead-lettered message is not passed
(`KafkaBroker.PoisonMessageRepeats`, `MalformedMessageIsPassed`).

`dafny verify dfyconfig.toml` checks the project.

## Model

The last rows, of classes and their methods, tie code that updates its state in place to
the functions that the rows before them are about.

| member | source | states |
|---|---|---|
| PullRuntime.FetchOrderIsKept | internal/presentation/event_broker/nats/pull_consumer_runtime.go:94-163 | In every reachable state of any interleaving, received messages are a prefix of fetch order, and what is left (queue, then undispatched batch) is exactly the rest of it |
| PullRuntime.SettlementsFollowReplies | internal/presentation/event_broker/nats/pull_consumer_runtime.go:109-131 | Each received message has at most one settlement, Ack exactly when its handler returned nil and Nak otherwise, and is unsettled exactly while a worker holds it |
| PullRuntime.ReplyDecidesSettlement | internal/presentation/event_broker/nats/pull_consumer_runtime.go:109-131 | What a handler returned decides the settlement of its message: from then on, in any run, it is acknowledged exactly if that was nil |
| PullRuntime.ChannelIsClosedLast | internal/presentation/event_broker/nats/pull_consumer_runtime.go:82-104 | The wait group equals the number of live workers; `jobs` is closed at most once, after every worker has left, nothing can be sent afterwards, and no worker can ever see the closed channel |
| PullRuntime.NothingStopsUncancelled | internal/presentation/event_broker/nats/pull_consumer_runtime.go:97-100 | Without cancellation no worker exits, the fetcher does not stop and the channel stays open |
| PullRuntime.QueueIsBounded | internal/presentation/event_broker/nats/pull_consumer_runtime.go:73-79 | The queue never exceeds QueueSize |
| PullRuntime.BlockedFetcherHasWorker | internal/presentation/event_broker/nats/pull_consumer_runtime.go:234-241 | For every accepted configuration, whenever the uncancelled fetcher is blocked on a send some worker can step |
| PullRuntime.BlockedFetcherIsServed | internal/presentation/event_broker/nats/pull_consumer_runtime.go:94-104 | However the workers are scheduled, every uncancelled run of more than two steps per worker from a blocked send receives a message |
| PullRuntime.TakeUnblocks | internal/presentation/event_broker/nats/pull_consumer_runtime.go:234-241 | The first message received from a full queue lets the blocked fetcher send |
| PullRuntime.WorkInProgressIsBounded | internal/presentation/event_broker/nats/pull_consumer_runtime.go:78-104 | Fetched and not yet settled messages never exceed workers, queue size and one batch together, over every run |
| PullRuntime.NoWorkersNoProgress | internal/presentation/event_broker/nats/pull_consumer_validator.go:27-32 | The check on Workers is needed: if it is the only one that fails, a reachable state has the fetcher blocked and cancellation as its only next step |
| PullRuntime.StepsShrinkAfterCancel | internal/presentation/event_broker/nats/pull_consumer_runtime.go:136-176 | After cancellation every step of every goroutine makes one lexicographic measure smaller |
| PullRuntime.CancelledRuntimeCanStep | internal/presentation/event_broker/nats/pull_consumer_runtime.go:136-163 | After cancellation some step is always open until all workers have returned and the channel is closed |
| PullRuntime.ShutdownCompletes | internal/presentation/event_broker/nats/pull_consumer_runtime.go:136-163 | Every schedule reaches the end after cancellation: workers gone, channel closed once, every received message settled, the untouched messages a suffix of fetch order |
| PullRuntime.RecordsTellRun | internal/presentation/event_broker/nats/pull_consumer_runtime.go:94-163 | The fetched messages, the checks and the numbers of received and settled messages that these results speak of are those of the steps of the run |
| PullRuntime.RunKeepsInv | internal/presentation/event_broker/nats/pull_consumer_runtime.go:82-163 | Conservation of messages, ownership of work, settlement, coordination, the plan in force and the count of work in progress hold after any run from a state that has them |
| PullRuntime.Execute | internal/presentation/event_broker/nats/pull_consumer_runtime.go:82-163 | A new runtime under any schedule ends where the schedule leads in the step system, in a reachable state |
| PullPlan.Validate | internal/presentation/event_broker/nats/pull_consumer_validator.go:11-55 | Accepts exactly the usable configurations |
| PullPlan.ErrorNamesFault | internal/presentation/event_broker/nats/pull_consumer_validator.go:11-55 | The error of a refused configuration names a fault that the configuration has |
| PullPlan.TierFollowsBacklog | internal/presentation/event_broker/nats/pull_consumer_runtime.go:196 | A larger reported backlog never gets a lower tier, except exactly when the unsigned count wraps to a negative int while the smaller one had left the low tier |
| PullRuntime.FetchesUsePlanInForce | internal/presentation/event_broker/nats/pull_consumer_runtime.go:140-154 | At every moment of every run, for any clock readings and consumer-info replies or failures, the next fetch uses a positive batch and wait, under the plan resolved at the last answered due check (base before any) |
| PullRuntime.FetchesFollowBacklog | internal/presentation/event_broker/nats/broker.go:202-215 | At every moment of every run the next fetch uses the high batch and wait exactly if the last answered due check reported the high threshold or more, the medium ones exactly from the medium threshold on, the low ones below; and the base ones before any answer or without adaptation |
| PullPlan.DueChecksAreApart | internal/presentation/event_broker/nats/pull_consumer_runtime.go:178-183 | A check is due exactly a full interval after the due one before it, whether that one was answered or not |
| PullPlan.FirstDueCheck | internal/presentation/event_broker/nats/pull_consumer_runtime.go:141-146 | The first check is due exactly a full interval after the start, if adaptation is on |
| PullPlan.InForceExtends | internal/presentation/event_broker/nats/pull_consumer_runtime.go:178-204 | One more check, due or not, answered or not, leaves the fetch state with the plan in force and the right time of the last check |
| PullPlan.InForceIsUnique | internal/presentation/event_broker/nats/pull_consumer_runtime.go:178-204 | The history of checks determines the plan |
| PullRuntime.BaseIsNotReentered | internal/presentation/event_broker/nats/pull_consumer_runtime.go:178-204 | A run that has left the base plan never fetches under it again |
| RetryHeaders.RetryAttempt | internal/presentation/event_broker/kafka/broker.go:140-149 | The attempt number is at least 1 and is that of the first usable attempt header, or 1 without one |
| RetryHeaders.AtoiReads | internal/presentation/event_broker/kafka/broker.go:142-145 | A header value is read as a number if it is an optional sign before at least one digit with a value in range |
| RetryHeaders.AtoiReadsNothingElse | internal/presentation/event_broker/kafka/broker.go:142-145 | Nothing else is read as a number |
| RetryHeaders.StampReadsBack | internal/presentation/event_broker/kafka/broker.go:117-124 | The number stamped on a retry copy is the number read back, through decimal text in both directions |
| RetryHeaders.AppendedStampReadsBack | internal/presentation/event_broker/kafka/broker.go:124 | If the stamp were only appended it would read back exactly when no earlier usable stamp disagrees |
| RetryHeaders.RetryChainIsBounded | internal/presentation/event_broker/kafka/broker.go:117-132 | Along every chain of retries of retries the counter goes up by one, and no chain is longer than MaxAttempts, whatever headers its root had |
| EventClaims.EventsAreHandledOnce | internal/presentation/event_broker/kafka/broker.go:98-120 | With the claim table, over every run of any number of consumers with crashes, restarts, duplicates, retries and failing releases: no event has two handler calls in flight, and at most one call per event ever succeeds |
| EventClaims.NoTableNoExclusion | internal/presentation/event_broker/kafka/broker.go:98 | Without the table one event can succeed twice |
| EventClaims.OnlyFailuresDropClaims | internal/presentation/event_broker/kafka/broker.go:97-132 | A step leaves a claim without an end and without an owner exactly when it is a crash of the owner, a lost release, a lost dead letter of a malformed message, or a new claim whose reply is lost, and the event was not dead-lettered before |
| EventClaims.ClaimsHaveOwners | internal/presentation/event_broker/kafka/broker.go:97-132 | At every point of a run each claimed event was handled, was dead-lettered or is being worked on by its owner, exactly if none of these failures happens in the run |
| EventClaims.ClaimsSwallowNothing | internal/presentation/event_broker/kafka/broker.go:97-132 | Over every run without crashes in which claims are answered and releases and dead letters take effect, with any number of readers: a claimed event was handled, was dead-lettered or is being worked on by its owner; when all consumers are at a loop boundary one of the first two, so each skipped duplicate is accounted for |
| EventClaims.OnlyLostClaimsSwallow | internal/presentation/event_broker/kafka/broker.go:97-132 | Counting also consumers that are on their way to a retry or dead letter: a step leaves a claimed event to nobody exactly when it gives up an event whose claim stands and that nothing else accounts for, by a crash, a queued retry, a lost dead letter or a claim whose reply is lost |
| EventClaims.WorkStaysInHand | internal/presentation/event_broker/kafka/broker.go:97-132 | Over a whole run that is so at every point exactly if no step gives up an event so |
| EventClaims.LostReleaseIsFinal | internal/presentation/event_broker/kafka/broker.go:97-130 | After a lost release the queued retry is in vain: over every further run the event is never handled and every copy of it is skipped |
| OffsetLedger.NothingIsLost | internal/presentation/event_broker/kafka/broker.go:90-137 | Over every run, every offset below a committed offset was handled successfully, has its next attempt on the retry topic, or, only with the claim table, was skipped because its event had been claimed |
| SkippedWork.PassedWorkIsOnItsWay | internal/presentation/event_broker/kafka/broker.go:90-137 | No work is lost by skipping: with one reader per partition, over every run with crashes, restarts and failing calls, the event of every offset below a committed one was handled or dead-lettered, has a retry copy queued, is in the hands of a consumer, waits at an uncommitted offset that no reader has passed, or is claimed still; and the last only if a failure left its claim behind |
| OffsetLedger.CommitsOnlyAdvance | internal/presentation/event_broker/kafka/broker.go:133-136 | With one reader per partition no committed offset goes back between any two points of any run |
| OffsetLedger.TwoReadersCanRecede | internal/presentation/event_broker/kafka/broker.go:133-136 | With two readers on one partition a late commit can move the committed offset back |
| OffsetLedger.RetryCopyIsNextAttempt | internal/presentation/event_broker/kafka/broker.go:124 | A queued copy keeps the event and carries the parent attempt plus one, at most MaxAttempts |
| OffsetLedger.RetriesStayWithinLimit | internal/presentation/event_broker/kafka/broker.go:117-130 | Over every run all attempts on the retry topic are between 2 and MaxAttempts |
| KafkaBroker.LoopIsRun | internal/presentation/event_broker/kafka/broker.go:90-137 | A whole session of the loop is a run of the consumer system in which only that consumer moves |
| KafkaBroker.PassWithoutMessage | internal/presentation/event_broker/kafka/broker.go:91-107 | A pass that gets no message, or no answer to its claim, ends the session and changes nothing, except that a claim whose reply is lost stays |
| KafkaBroker.ClaimedMessageIsSkipped | internal/presentation/event_broker/kafka/broker.go:105-107 | A message whose event is claimed already is passed over without a commit |
| KafkaBroker.HandledPass | internal/presentation/event_broker/kafka/broker.go:115-137 | A handled message is committed exactly if the commit arrives, and the loop goes on exactly if it is answered |
| KafkaBroker.FailedPass | internal/presentation/event_broker/kafka/broker.go:117-132 | A failed handler call, with any fate of the calls after it: nothing is committed; the claim is gone exactly if its release arrives; the message is dead-lettered and the session ends exactly if the failure is permanent or no attempt is left; otherwise its next attempt is queued and the loop goes on exactly if that is answered |
| KafkaBroker.RetriedPass | internal/presentation/event_broker/kafka/broker.go:122-129 | A failure worth retrying is retried: with these calls answered, a failing pass dead-letters exactly if the message is given up, and otherwise queues its next attempt and moves on, with claims, commits and successes unchanged |
| KafkaBroker.MalformedPass | internal/presentation/event_broker/kafka/broker.go:108-112 | A message that does not open is dead-lettered, ends the session and keeps its claim |
| KafkaBroker.GoodPassCommits | internal/presentation/event_broker/kafka/broker.go:90-137 | A pass without failures handles a new event once and commits the offset behind its message |
| KafkaBroker.GoodSessionCommits | internal/presentation/event_broker/kafka/broker.go:90-137 | A session of passes without failures handles the next messages of the partition, each once and in order, and commits the offset behind the last |
| KafkaBroker.PoisonMessageRepeats | internal/presentation/event_broker/kafka/broker.go:108-132 | Dead-lettering does not commit: a message at the committed offset that every session gives up, because it is refused for good or out of attempts, or malformed where there is no claim table, is dead-lettered once per session and stays where it is |
| KafkaBroker.RefusedMessageStays | internal/presentation/event_broker/kafka/broker.go:108-132 | One such session for every given-up message, with and without claim table: no commit, one dead letter, and only a malformed message keeps its claim |
| KafkaBroker.MalformedMessageIsPassed | internal/presentation/event_broker/kafka/broker.go:98-112 | With the claim table a malformed message is skipped as a duplicate by the next session and passed for good by the commit of the message after it |
| Outbox.OutboxReplaysToTable | migration/postgres/000005_create_outbox_events.up.sql:16-29 | For every run of statements, refused and failing ones included, folding the outbox rebuilds exactly the table |
| Outbox.EventsFormLives | migration/postgres/000005_create_outbox_events.up.sql:16-29 | The events of a user form (created updated* deactivated)* with an open life exactly while the row exists; created minus deactivated is 0 or 1 and equals row presence |
| Outbox.StatusAndNamesAreConsistent | internal/infra/write/postgres/query.go:4-50 | In every reachable table and payload activity means status active, and usernames are unique |
| Outbox.PendingNeedsRecreation | internal/infra/write/postgres/query.go:35-50 | A row that left pending_registration is pending again only after a deletion and a re-creation |
| Outbox.RunIsLawful | internal/infra/write/postgres/query.go:4-50 | All of these laws are kept by every run from any table that has them |
| Outbox.ReplayedRowHasEvent | migration/postgres/000005_create_outbox_events.up.sql:20-22 | Every row of a replayed table is the payload of one of its own events |
| UsernameAvailability.AvailabilityIsReliableIffTrimmed | internal/application/service.go:165-171 | "Not taken" guarantees a conflict-free creation on every lawful table exactly when the username is trimmed, because the check trims and creation does not |
| ReadModel.KeysAreDistinct | internal/infra/read/redis/repository.go:255-264 | No two ids, no two usernames and no id and username share a cache key |
| Text.TrimSpaceParts | internal/domain/display_name.go:8-9 | Trimming removes only outer space and leaves none |
| Text.TrimSpaceUnique | internal/domain/display_name.go:8-9 | The trimmed text is the only one with that property |
| Text.DisplayNameIsStable | internal/domain/display_name.go:7-20 | A display name is the trimmed first name, a space and the trimmed last name, trimmed; so it is trimmed, is empty only for two blank names, and ignores space around the names |
| DetailedUser.ProjectionRoundTrip | internal/presentation/event_broker/kafka/detailed_user.go:98-136 | Publish, project, cache, read and publish again yields the first event for every user with a non-blank username; for every other user the projection refuses |
| DetailedUser.ProjectedDocument | internal/infra/read/redis/mapper/user_mapper.go:27-42 | The document projected from a trimmed event holds its fields unchanged |
| DetailedUser.ProjectionIsIdempotent | internal/presentation/event_broker/kafka/detailed_user.go:98-109 | Projecting an event again changes nothing, however often it came and however many events of other users came between, with any faults |
| DetailedUser.ProjectionKeepsServedDocument | internal/application/service.go:252-269 | The projection triggered by a lookup leaves the document that the lookup stored exactly when avatar id, URL and about text needed no trimming |
| CallOutcomes.CreationChangesTable | internal/application/service.go:69-96 | A creation inserts its row and logs it exactly if its id is a fresh UUID, its name is free and the statement arrives |
| CallOutcomes.CreationAnswers | internal/application/service.go:69-96 | A creation succeeds, with the new user, exactly if nothing fails, and tells a malformed id, a taken id, a taken name and a failed cache write apart, the first that applies |
| CallOutcomes.CreationChangesCache | internal/application/service.go:91-94 | The preview of the new user is stored, and no other document changes |
| CallOutcomes.DeletionOutcome | internal/application/service.go:98-118 | Row, log, preview and answer of a deletion, for every state and fate |
| CallOutcomes.ActivationChangesTable | internal/application/service.go:120-141 | An activation sets status, activity and time of the row and logs it exactly if there is one and the statement arrives |
| CallOutcomes.ActivationAnswers | internal/application/service.go:120-141 | Its answer has every field of the active row |
| CallOutcomes.ActivationChangesPreview | internal/application/service.go:134 | It stores the preview of the row, active and without URL |
| CallOutcomes.DeactivationChangesTable | internal/application/service.go:143-163 | A deactivation sets status, activity and time of the row and logs it exactly if there is one and the statement arrives |
| CallOutcomes.DeactivationAnswers | internal/application/service.go:143-163 | Its answer, and the preview dropped |
| CallOutcomes.ExistsOutcome | internal/application/service.go:165-171 | Availability is about the trimmed name: "taken" exactly if some row has it |
| CallOutcomes.TableReadOutcome | internal/application/service.go:214-221 | A read of the table answers with every field of the row and the URL of its avatar |
| CallOutcomes.CachedReadOutcome | internal/application/service.go:173-198 | A read that finds a preview answers with it; it fills in and stores the URL exactly if it lacks it and the file service has it |
| CallOutcomes.MissedReadOutcome | internal/application/service.go:199-212 | A read that finds none answers as the table read does and stores what it found, and fails if it cannot store it |
| CallOutcomes.MissedLookupOutcome | internal/application/service.go:223-272 | A lookup that misses answers from the row of the name with display name and avatar URL, the URL that a table read answers; it caches the same profile and publishes it trimmed |
| CallOutcomes.CachedLookupOutcome | internal/application/service.go:229-233 | A lookup that finds a profile answers with its fields and does nothing else |
| CallOutcomes.AbsentLookupOutcome | internal/application/service.go:235-239 | A lookup without profile and row finds no one and does nothing |
| CallOutcomes.BlankReads | internal/application/service.go:173-227 | Blank ids and names are refused before anything is asked |
| CallOutcomes.ProjectionOutcome | internal/presentation/event_broker/kafka/detailed_user.go:98-109 | A projected event is stored with all its fields trimmed under its trimmed username, or refused without one, and no other document changes |
| CacheRefinement.AgreementIsKept | internal/application/service.go:69-221 | From agreement, a request of any kind with any faults keeps every preview describing its row exactly unless it deletes a row and leaves the preview |
| CacheRefinement.ActivityIsKept | internal/application/service.go:120-163 | The cached activity flag stays right exactly unless an activation or deactivation changes the row and leaves a preview with the old flag |
| CacheRefinement.CachedReadIsTableRead | internal/application/service.go:173-221 | After any run that orphans no preview, a cached read returns the same profile as the uncached one, the same URL when the file service answers, and not-found where the table has no row |
| CacheRefinement.AgreementLastsIffNoOrphans | internal/application/service.go:69-221 | From an empty cache, previews agree with the table after every request of a run exactly when no request of it deletes a row and leaves the preview |
| CacheRefinement.ReliableWritesAreEnough | internal/application/service.go:69-163 | Runs in which every cache write goes through and no reply of the database is lost orphan nothing and leave no old flag |
| CacheRefinement.OrphanIsServed | internal/application/service.go:111-114 | The excluded failure is real: after it a deleted user is still served |
| CacheRefinement.UrlsStayGenuine | internal/application/service.go:120-221 | A request of any kind, with any faults and on any table, keeps every cached URL empty or the URL of the trimmed avatar id |
| CacheRefinement.UrlsAreAlwaysGenuine | internal/application/service.go:120-221 | So it is over every run from an empty cache, lost deletions and orphaned previews included |
| AvatarUrls.CachedUrlsAreGenuine | internal/application/service.go:120-298 | And over every run of overlapping requests, whichever path wrote the preview and whatever became of its row |
| AvatarUrls.CachedProfileUrlsAreGenuine | internal/application/service.go:241-272 | Over every run of overlapping lookups, relays and projections the URL of every cached profile and every event is empty or that of its avatar id, up to the space around them |
| CacheRefinement.ActivationKeepsAvatar | internal/application/service.go:120-198 | Activation blanks the cached URL and the next cached read with a working file service returns and stores it again |
| DetailedProfiles.CachedAfterRequest | internal/application/service.go:223-272 | A name has a cached profile after a request exactly if it had one or the request stores one: a lookup that misses and finds the row, or an applied projection of that name |
| DetailedProfiles.CachedIffStored | internal/application/service.go:98-272 | The same over whole runs: no request ever drops a profile |
| DetailedProfiles.ProfileAgreementIsKept | internal/application/service.go:98-272 | A request of any kind with any faults keeps every cached profile that of its row exactly unless it deletes the row of a cached profile or projects an event that shows no row |
| DetailedProfiles.ProfilesAgreeIffNothingOutdated | internal/application/service.go:98-272 | For any projected events: from an empty cache, profiles agree with the table after every request of a run exactly when no request of it does so |
| DetailedProfiles.ProfilesAgreeUntilDeletion | internal/application/service.go:98-272 | For the events the code itself publishes, relays and projects: from empty caches and topics, profiles agree with the table after every request of a run exactly when no request of it deletes a row whose profile is cached |
| DetailedProfiles.TopicsStayCurrent | internal/presentation/event_broker/kafka/detailed_user.go:71-136 | Until such a deletion every event in the topics has a username, has its profile cached, and shows the row of that name |
| DetailedProfiles.LookupFollowsTable | internal/application/service.go:223-272 | After such a run a lookup by name answers with the profile of the row that has the name, and not-found where no row has it |
| DetailedProfiles.DeletedProfileIsServed | internal/application/service.go:98-118 | After the deletion of a row whose profile is cached, lookups answer with the deleted user for as long as nothing stores that name again |
| DetailedProfiles.LookedUpThenDeleted | internal/application/service.go:98-231 | That happens without any failure: create, look up, delete, and the deleted user is served |
| OverlapAgreement.AgreementUnderOverlap | internal/application/service.go:69-221 | Any single step of overlapping requests keeps previews and table in agreement exactly unless it deletes the row of a cached preview or writes a preview that no longer fits its row |
| OverlapAgreement.TidinessByStep | internal/application/service.go:69-221 | A step keeps every stale preview covered by a pending drop, and every pending write fitting, exactly unless it is out of order: a deletion under a pending write, a lost reply or a lost or dead last drop of a stale preview, or a refill of a stale preview |
| OverlapAgreement.TidyIffOrderly | internal/application/service.go:69-221 | Over a whole run of overlapping requests that is so at every point exactly if no step is out of order |
| OverlapAgreement.OrderlyRunsAgree | internal/application/service.go:69-221 | Then every preview describes its row unless its drop is under way, and the cache agrees with the table whenever no request is open |
| OverlapDiscipline.CarefulRunsAreOrderly | internal/application/service.go:98-212 | It is enough that a row is deleted only while no write of its preview is pending and with the reply arriving, that drops are neither lost nor cut short, and that no preview is refilled while its drop is pending |
| OverlapDiscipline.OverlapLeavesDeletedUserCached | internal/application/service.go:98-212 | With overlapping requests, and no failure at all, a preview loaded before a deletion and stored after it outlives the row |
| OverlapDiscipline.RefillRevivesDeletedUser | internal/application/service.go:98-198 | So does one whose URL is refilled between the deletion and its drop |
| HistorySoundness.CachesHoldOnlyHistory | internal/application/service.go:69-298 | Under any overlap and any failures every preview equals, field by field, a recorded row version of its id, and every detailed profile a recorded version of its username up to trimming, with the display name of that row |
| HistorySoundness.StepIsSound | internal/application/service.go:69-298 | Each single call of a request keeps the caches, the topics and what requests carry within recorded history |
| HistorySoundness.ProjectedProfileIsSound | internal/presentation/event_broker/kafka/detailed_user.go:98-109 | Projecting a sound event, however often, stores a sound profile |
| ResultAccounting.ReportsAreCovered | internal/presentation/event_broker/kafka/saga.go:92-120 | Over every run with redeliveries, retries and overlap, reported creations of a user are at most its created events and reported deletions at most its deactivated events |
| ResultAccounting.RunIsCovered | internal/presentation/event_broker/kafka/recovery_subscriber.go:41-97 | The same for saga results and completed recoveries together, from any lawful state that has it |
| ResultAccounting.FailedReportIffLeftBehind | internal/presentation/event_broker/kafka/saga.go:98-108 | When a creation is about to be reported failed, whatever else ran meanwhile about other users, the user is present exactly if it was before, or the row was inserted and either its reply or the write of its preview failed |
| ResultAccounting.FailedReportForPresentUser | internal/presentation/event_broker/kafka/saga.go:98-108 | So a failed creation result does not mean that the user is absent: a retry after a lost acknowledgement reports it for a user created before |
| CommandHandlers.RedeliveredRecoveryAddsNothing | internal/presentation/event_broker/kafka/recovery_subscriber.go:41-97 | A completed recovery command that is delivered again, with any faults, adds nothing: a creation or deletion fails, publishes nothing and changes no row; an activation or deactivation changes no more than the time of the row |
| CommandHandlers.FailedCreationLeavesUser | internal/application/service.go:69-96 | After a failed creation the user is present exactly if it was before, or the insert was legal and its reply was lost or the preview write failed |
| CommandHandlers.ReportedFailureLeavesUser | internal/presentation/event_broker/kafka/saga.go:92-109 | The same for every failure that the saga reports |
| CommandOutcomes.SagaCreation | internal/presentation/event_broker/kafka/saga.go:92-109 | What a saga creation inserts, logs and reports, and whether its message is done, for every state and fate |
| CommandOutcomes.SagaDeletion | internal/presentation/event_broker/kafka/saga.go:111-120 | A saga deletion removes the row of its user and no other, logs it, drops the preview and reports success exactly if the row was there and nothing failed, for every state and fate |
| CommandOutcomes.ReportedFailureOfDeletion | internal/presentation/event_broker/kafka/saga.go:111-120 | After a deletion reported as failed the user is present exactly if it was and the statement did not arrive |
| CommandOutcomes.RecoveryDeletion | internal/presentation/event_broker/kafka/recovery_subscriber.go:75-97 | A recovery deletion acts on the user of the aggregate and no other, and publishes completion for it exactly on success |
| CommandOutcomes.RecoveryOfStatus | internal/presentation/event_broker/kafka/recovery_subscriber.go:78-97 | The same for activation and deactivation |
| CommandOutcomes.RecoveryCreation | internal/presentation/event_broker/kafka/recovery_subscriber.go:53-97 | A recovery creation is for the user of the payload if it names one, else of the aggregate, else for the principal, and fails for good without any |
| CommandOutcomes.RecoveryOfNothing | internal/presentation/event_broker/kafka/recovery_subscriber.go:46-88 | Commands about other aggregates, with other operations or without a payload for a creation change and publish nothing |
| CommandOutcomes.CaseDoesNotMatter | internal/presentation/event_broker/kafka/recovery_subscriber.go:52 | Operations are recognised in any case |
| CommandOutcomes.UndecodedCommands | internal/presentation/event_broker/kafka/saga.go:92-115 | Commands that do not decode change nothing and fail |
| CommandHandlers.ReportedCreationIsStored | internal/presentation/event_broker/kafka/saga.go:98-108 | A reported creation has its row and its preview in place |
| AtomicRequests.RequestIsRun | internal/application/service.go:69-298 | Every whole request is one of the interleavings |
| AtomicRequests.CommandIsRun | internal/presentation/event_broker/kafka/saga.go:92-129 | So is every handler call, including the publication of its result |
| PullRuntime.PullConsumerRuntime.Start | internal/presentation/event_broker/nats/pull_consumer_runtime.go:82-92 | One turn of the starting loop counts a worker in before launching it, and launches the fetcher after the last |
| PullRuntime.PullConsumerRuntime.RunWorker | internal/presentation/event_broker/nats/pull_consumer_runtime.go:94-134 | A worker step changes the shared state exactly as the step system does |
| PullRuntime.PullConsumerRuntime.RunFetcher | internal/presentation/event_broker/nats/pull_consumer_runtime.go:136-176 | A fetcher step changes the shared state exactly as the step system does |
| PullPlan.FetchState.MaybeUpdateAdaptivePlan | internal/presentation/event_broker/nats/pull_consumer_runtime.go:178-214 | The in-place update, early returns included, is one step of the plan and of the time of the last check |
| RetryHeaders.ScanRetryAttempt | internal/presentation/event_broker/kafka/broker.go:140-149 | The scanning loop returns that attempt number for every header list |
| KafkaBroker.Broker.RunPullConsumer | internal/presentation/event_broker/kafka/broker.go:76-138 | The consume loop, under any fate of its calls, has exactly the effect of its passes in the consumer system, from the committed offset until it returns |
| KafkaBroker.Broker.ConsumeOne | internal/presentation/event_broker/kafka/broker.go:90-137 | One pass: fetch, claim, skip a duplicate, unwrap, handle, release, retry or dead-letter, commit; it tells whether the loop continues |
| KafkaBroker.Broker.HandleFailure | internal/presentation/event_broker/kafka/broker.go:117-132 | A failed handler call releases the claim and then retries while attempts are left and the failure is not permanent, or else dead-letters and returns |
| KafkaBroker.Broker.ClaimEvent | internal/presentation/event_broker/kafka/broker.go:98-107 | An atomic insert-if-absent of the event id, its failure included |
| KafkaBroker.Broker.DeadLetterMessage | internal/presentation/event_broker/kafka/broker.go:151-166 | Writes the message to the dead-letter topic if the write goes through, and ends the loop either way |
| UserTable.PostgresRepository.CaptureOutboxEvent | migration/postgres/000005_create_outbox_events.up.sql:16-25 | One event per row change, carrying the new row or, for a deletion, the old one |
| UserTable.PostgresRepository.Create | internal/infra/write/postgres/repository.go:36-75 | INSERT with its refusals in order (malformed id, taken id, taken username) and its event |
| UserTable.PostgresRepository.UpdateStatus | internal/infra/write/postgres/query.go:35-50 | The UPDATE of status, activity and timestamp, refused for malformed and absent ids |
| UserTable.PostgresRepository.ActivateByID | internal/infra/write/postgres/repository.go:169-200 | The row becomes active; an absent row is not found |
| UserTable.PostgresRepository.DeactivateByID | internal/infra/write/postgres/repository.go:202-242 | The row becomes registration_failed; no affected row means not found |
| UserTable.PostgresRepository.DeleteByID | internal/infra/write/postgres/repository.go:244-282 | The row is removed with its event; no affected row means not found |
| UserTable.PostgresRepository.GetByID | internal/infra/write/postgres/repository.go:77-108 | The row of the id, not found, or a failure |
| UserTable.PostgresRepository.GetByUsername | internal/infra/write/postgres/repository.go:110-143 | The only row with the username, not found, or a failure |
| UserTable.PostgresRepository.ExistsByUsername | internal/infra/write/postgres/repository.go:145-167 | Whether any row has the username |
| ReadModel.RedisRepository.Put | internal/infra/read/redis/repository.go:34-81 | Stores the preview document under the id key, if the write goes through |
| ReadModel.RedisRepository.PutByUsername | internal/infra/read/redis/repository.go:83-129 | Stores the detailed document under the username key, if the write goes through |
| ReadModel.RedisRepository.DropByID | internal/infra/read/redis/repository.go:131-151 | Removes the preview of an id and nothing else |
| ReadModel.RedisRepository.Get | internal/infra/read/redis/repository.go:175-213 | The stored preview as a user, not found, or a failure |
| ReadModel.RedisRepository.GetDetailed | internal/infra/read/redis/repository.go:215-253 | The stored detailed profile as a user, not found, or a failure |
| UserService.Service.Create | internal/application/service.go:69-96 | Row, event and preview, and every way the call can fail half-way |
| UserService.Service.Delete | internal/application/service.go:98-118 | Row removed, then preview dropped; a failed drop leaves the row removed |
| UserService.Service.Activate | internal/application/service.go:120-141 | Row activated, then preview stored from the row, without its avatar URL |
| UserService.Service.Deactivate | internal/application/service.go:143-163 | Row deactivated, then preview dropped |
| UserService.Service.Exists | internal/application/service.go:165-171 | Blank names are refused; others are looked up trimmed |
| UserService.Service.Load | internal/application/service.go:274-298 | The row as a user, with the avatar URL when it can be had |
| UserService.Service.GetPreview | internal/application/service.go:173-212 | A cached preview, its missing URL filled in and stored back, or the row loaded and stored |
| UserService.Service.GetDetailed | internal/application/service.go:223-272 | A cached profile, or the row with URL and display name, stored and then published |
| UserService.Service.Relay | internal/presentation/event_broker/kafka/detailed_user.go:71-78 | Forwards an event to the projection topic |
| UserService.Service.ProjectDetailed | internal/presentation/event_broker/kafka/detailed_user.go:98-109 | Stores the trimmed profile of an event, and refuses one without a username |
| CommandHandlers.Handlers.OnCreate | internal/presentation/event_broker/kafka/saga.go:92-109 | Creates, then publishes success or failure; only decoding and publishing make the handler fail |
| CommandHandlers.Handlers.OnDelete | internal/presentation/event_broker/kafka/saga.go:111-120 | Deletes, then publishes success or failure |
| CommandHandlers.Handlers.ResolveCommand | internal/presentation/event_broker/kafka/recovery_subscriber.go:41-81 | The operation and the user id of a command, the id from the payload, the aggregate or the principal in this order, or its refusal |
| CommandHandlers.Handlers.OnRecovery | internal/presentation/event_broker/kafka/recovery_subscriber.go:41-97 | Checks the envelope, resolves operation and user id, calls the service and publishes completion only on success |

## Left out

- Dependency wiring, configuration loading, logging, metrics, tracing, constructors' nil checks and the delays between retries: no state of their own.
- The client libraries for Kafka, NATS, Redis, SQL and gRPC: each call is one atomic step with a fate; the choice of batch within one NATS fetch, partition assignment by the Kafka group and redelivery after an unacknowledged NATS message are arbitrary here. A fetch returns at most the requested batch.
- The relay from the retry topic back to the subject: any message may be appended to any partition at any time, which covers it.
- Text of user ids: a UUID is its canonical lower-case form; other spellings that PostgreSQL would accept and rewrite count as malformed.
- Strings are sequences of Unicode code points; invalid UTF-8 and NUL, which PostgreSQL refuses, are not modelled.
- Timestamps of cached documents, which are written and never read back; row timestamps are kept.
- The classification of PostgreSQL error texts and the wording of failure reasons: errors are an enumeration.
- The NATS saga handlers, mappers and detailed-user adapters, stream set-up and migrations: they repeat the Kafka logic or only perform I/O.
- Panics of handlers and goroutines, and the unbuffered channel of a queue size 0, which the validator refuses.
- PullPlan.TierFollowsBacklog: stated for adaptive plans only, since without them the base plan is always chosen.
- OffsetLedger.CommitsOnlyAdvance: assumes one reader per partition, which the Kafka group provides and `OffsetLedger.TwoReadersCanRecede` shows to be needed.
- SkippedWork.PassedWorkIsOnItsWay: assumes one reader per partition in the same way.
