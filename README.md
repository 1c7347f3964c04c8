# Queue job lifecycle, modelled in Dafny

This project models the job-lifecycle core of the CakePHP queue plugin
(`cakephp/queue`). The core is the control logic between the enqueue broker
client and the job classes, together with its legacy `Queue\Queue` forms. It
proves properties of that model.

- **Registry and publish path** (`Registry`, `UniqueStore`). `QueueManager` is
  a class whose fields are the static configuration map, the client cache and
  the messages it has published. The unique-job cache is a class holding named
  sets of dedup ids. `push` is specified by `PlanPush`: the client, queue,
  message and dedup slot, or the exception thrown. The dedup id of
  `getUniqueId` is class + method + the sorted JSON texts of the data's values.
  The md5 digest is taken as collision-free, so the text stands for it.
- **Message envelopes** (`Envelope`). The broker message, the job `Message`
  wrapper (with the legacy `Message`, `JobData` and `Job\Base` lookups) and the
  verdicts a delivery ends with.
- **Dispatcher** (`Dispatch`). `Processor::process` is a method that appends
  lifecycle events to a trace. The job is an oracle that returns a value or
  throws. The method is proved against the pure function `Dispatch`.
- **Retry governor** (`Attempts`). `LimitAttemptsExtension::onResult` is
  proved against `Govern`. The lemma about repeated deliveries shows that an
  always-failing job runs exactly its maximum number of times.
- **Loop governors** (`LoopLimits`). `QueueExtension` and
  `LimitConsumedMessagesExtension` are classes with counters. The clock is a
  whole-number parameter `now`.
- **Dedup release** (`UniqueRelease`). `RemoveUniqueJobIdFromCacheExtension`
  deletes exactly one id, whatever the verdict.
- **Failure archive** (`FailedJobs`, `Commands`).
  - The failed-jobs table is a class over a sequence of rows.
  - Its validator is a predicate on records.
  - The listener's insert is gated by `storeFailedJobs`.
  - The `requeue` and `purge_failed` commands are modelled. The console
    prompt answer is an input, and output lines are returned as a sequence.
- **Client configuration** (`ClientConfig`). `SimpleClientConfig`.
- **Legacy registries and extension** (`Legacy`). `Queue\Queue\Queue`,
  `Queue\Queue\QueueManager` and `Queue\Queue\QueueExtension`.
- **Broker effect** (`Registry.Broker`). What a push leaves behind (clients,
  published messages and dedup ids) is one value. `PushEffect` gives it after
  a push, and the requeue command is specified by folding it over the rows
  the loop pushes.

PHP values are modelled by `Php.Value`: null, booleans, integers, strings,
lists and ordered string-keyed arrays. It includes PHP truthiness (`empty()`),
`??`, flat-key `Hash::get` (which throws on anything but an array, treats a
stored null as missing, and reaches list positions through their canonical
decimal keys), and decimal integer text. An exception or error is a `Throwable` with a kind, so
`catch (Exception)` versus `catch (Error)` can be told apart. State that
changes in place in the source (static registries, extension counters, the
cache, the table, the dispatcher's event trace) is a class field, and every
method that changes it is proved against a pure specification function.

### Behaviour of the code worth knowing

The model follows the code.

- The dedup id is released after every result, requeues included (not only
  after terminal verdicts).
- `sort()` in `getUniqueId` sorts the data's values and drops their keys. It
  does not sort keys.
- A job without any maximum attempt count is left as REQUEUE with nothing
  republished. It is not republished indefinitely.
- A job result other than ACK and REJECT becomes a plain REQUEUE without a
  reason.
- `QueueExtension` skips any result that carries a reason, including the
  governor's terminal reject. It does not count "terminal verdicts".
- A runtime budget of 0 disables that budget; it does not stop at once.
- `requeue` catches only `Exception`. Requeueing a job whose configuration
  has been removed raises a `TypeError` (an `Error`, from `null + array`),
  which escapes and aborts the rest of the batch instead of being counted as
  one failure (`Commands.RemovedConfigIsAnError`,
  `Commands.RequeueAbortsOnError`).
- Two job `Message` classes exist. The legacy `Queue\Queue\Message`
  (src/Job/Message.php) reads its arguments from `args[0]`. The current
  `Cake\Queue\Job\Message`, which the listeners and extensions import,
  reads the body's `data` entry first (`Envelope.CurrentArguments`,
  `Envelope.GetCurrentArgument`).

## Model

| member | source | states |
|---|---|---|
| Registry.Routing | src/QueueManager.php:104-121 | the routing client options map exactly router_topic, router_queue and default_queue, all to the queue |
| Registry.Normalize | src/QueueManager.php:104-134 | a stored configuration keeps its queue and unique-cache settings and satisfies the stored invariant (non-empty url; the cache key derived from the name) |
| Registry.NormalizeRoutesToQueue | src/QueueManager.php:104-134 | without a queue the url is kept; a DSN url becomes a transport whose client routes to the queue; an array url keeps its transport and client options and gains only the routing keys it lacks; logger, timeout and storeFailedJobs are untouched |
| Registry.CacheSettings | src/QueueManager.php:124-133 | the cache settings are the configured ones plus `duration`, which defaults to "+24 hours" only when not supplied |
| Registry.Register | src/QueueManager.php:96-102 | registration fails exactly when the name is taken or the url is empty, with the two BadMethodCallException messages; a success is normalised and stored |
| Registry.RegisterEntry | src/QueueManager.php:83-136 | a failed entry changes neither the configurations nor the cache settings; an entry succeeds exactly when its name is free, it has a url and its unique cache's key is not already configured (otherwise Cache::setConfig's BadMethodCallException for that key); a success stores the normalised configuration and the unique cache's settings |
| Registry.ReregisteringAfterDropThrows | src/QueueManager.php:133-159 | drop keeps the unique cache's configuration, so registering the same name again with a unique cache throws "Cannot reconfigure existing key" for the cache key and leaves the name unregistered |
| Registry.RegisterAll | src/QueueManager.php:83-91 | batch registration never loses a configuration, and when it passes every entry's name is registered |
| Registry.RegisterAllStops | src/QueueManager.php:87-89 | once an entry throws, later entries are not registered |
| Registry.RegisterAllKeepsStored | src/QueueManager.php:81-137 | every form of registration preserves the stored-configuration invariant |
| Registry.RegisteringTakenNameChangesNothing | src/QueueManager.php:96-98 | registering a taken name, singly or in a batch, throws "Cannot reconfigure existing key" and leaves the registry as it was |
| Registry.PushBodyReadsBack | src/QueueManager.php:254-263 | the pushed body yields target [class, method], `data`, `args[0]` (both equal to the data) and requeueOptions config, priority and queue |
| Registry.PlanPush | src/QueueManager.php:214-275 | push fails exactly for an unknown class (InvalidArgumentException), an unknown configuration (TypeError) or a unique class without a unique cache (an InvalidArgumentException naming the class); otherwise it names the configuration, chooses options.queue, then config.queue, then "default", builds the body, passes delay/expires/priority only when set, and has a dedup slot exactly for a unique class |
| Registry.SecondPushIsIgnored | src/QueueManager.php:232-249 | after a unique job is published and its id recorded, pushing it again with the same data, or with values that sort() orders strictly reordered or under other keys, is recognised as a duplicate |
| Registry.QueueManager.constructor | src/QueueManager.php:81-188 | the registry starts with no configurations, clients or published messages |
| Registry.QueueManager.Drop | src/QueueManager.php:156-159 | drop removes the name's configuration and its cached client and nothing else; getConfig then returns null |
| Registry.QueueManager.SetConfig | src/QueueManager.php:81-137 | setConfig leaves the registry and cache settings exactly as the registration specification says, including the two LogicException forms and the refusal of a unique cache already configured, and touches no client |
| Registry.QueueManager.SetBatch | src/QueueManager.php:83-91 | the entries are registered in order up to the first that throws, as RegisterAll says |
| Registry.QueueManager.SetOne | src/QueueManager.php:96-136 | a refused name or url, or a unique cache whose key Cache::setConfig already holds, changes nothing and throws; an accepted one stores the normalised configuration and configures its unique cache |
| Registry.QueueManager.Engine | src/QueueManager.php:167-188 | the cached client is returned unchanged; otherwise exactly one new client is built from the configuration and cached; an unknown name is a TypeError |
| Registry.QueueManager.ClientFor | src/QueueManager.php:169-187 | a configured name always ends with its client cached, built once |
| Registry.QueueManager.Push | src/QueueManager.php:214-286 | a failing push publishes nothing; a duplicate unique push publishes nothing and leaves the cache; otherwise exactly one message is appended on the name's client and the dedup id is then recorded; existing clients are never replaced; the clients, messages and ids afterwards are those PushEffect gives for the plan |
| Registry.PushPublishesOnce | src/QueueManager.php:238-284 | a push that is planned and not a duplicate extends the published messages by exactly its message on its configuration's client, keeps every existing client, builds the missing one with the next serial, and leaves its dedup id recorded |
| Registry.UniquePushIsIdempotent | src/QueueManager.php:232-249 | pushing a unique job a second time after it was published leaves clients, messages and ids exactly as after the first |
| UniqueStore.UniqueCache.Add | src/QueueManager.php:284 | adding an id to a store adds exactly it and leaves every other store alone |
| UniqueStore.UniqueCache.Delete | src/Consumption/RemoveUniqueJobIdFromCacheExtension.php:51 | deleting an id removes exactly it from its store |
| UniqueStore.UniqueCache.Configure | src/QueueManager.php:133 | Cache::setConfig refuses a name already configured with "Cannot reconfigure existing key" and changes nothing; otherwise it sets exactly that settings entry; the ids are untouched |
| UniqueStore.EncodingsRespectMultiset | src/QueueManager.php:294-305 | data whose values are equal as multisets have JSON texts that are equal as multisets |
| UniqueStore.UniqueIdIgnoresKeysAndOrder | src/QueueManager.php:294-305 | for values that sort() orders strictly (all integers, or all digit-free strings), getUniqueId depends on the data only through the multiset of its values: reordering or renaming keys keeps the id |
| UniqueStore.EscapedQuotesKeepIdsApart | src/QueueManager.php:298-302 | a string holding `","` and the two strings around it give different dedup ids, because json_encode escapes the quotes |
| Php.EscapeChar | src/QueueManager.php:301 | json_encode escapes exactly the quote, backslash, slash and control characters below U+0020, and writes every other character as it is |
| Php.UnescapeHeadOfEscape | src/QueueManager.php:301 | the first character of an escaped string, and the length of its escape, can be read back off the text whatever follows |
| Php.EscapeInjective | src/QueueManager.php:301 | different strings have different escaped JSON bodies |
| Sorting.Sort | src/QueueManager.php:296 | the sorted list is ordered and a permutation of its input |
| Sorting.SortCanonical | src/QueueManager.php:296 | two lists sort to the same list if and only if they are permutations of each other |
| Php.HashGet | src/Job/Message.php:44 | Hash::get throws the InvalidArgumentException "Invalid data type, must be an array or \ArrayAccess instance." exactly when its data is not an array |
| Php.ListKeysArePositions | src/Queue/JobData.php:53 | on a list, the decimal text of a position reads the entry there (the default when it is null), and the same position with a leading zero reads the default |
| Php.ValuesOf | src/QueueManager.php:296 | the values `sort()` keeps are a list's items or an array's values in order |
| Envelope.WrapperRoundTrip | src/Job/Message.php:18-64 | the wrapper returns its context, its original message and, from getParsedBody and jsonSerialize, the body unchanged |
| Envelope.GetCallable | src/Job/Message.php:42-45 | getCallable throws Hash::get's InvalidArgumentException exactly when the body is not an array; otherwise it is null exactly when the body has no `class` entry or a null one, and else that entry, unchecked |
| Envelope.ArgumentLookups | src/Queue/JobData.php:47-54 | getArgument() is `args[0]`; with a key it throws Hash::get's InvalidArgumentException when `args[0]` is not an array, and is otherwise the set value under that key, else the default; the current wrapper throws a TypeError from array_key_exists for a body that is not an array, and reads `data` instead when the body has it |
| Envelope.CurrentArguments | tests/TestCase/Job/MessageTest.php:34-93 | the job data is the body's `data` entry when present and the legacy `args[0]` otherwise |
| Envelope.TargetOf | src/Listener/FailedJobsListener.php:49 | a target exists exactly when `class` is a pair of strings, and is that pair; otherwise a RuntimeException (the same getTarget is called at src/Consumption/RemoveUniqueJobIdFromCacheExtension.php:41) |
| Envelope.Data | src/Queue/Job/Base.php:27-38 | data() is `args[0]`; with a key it is the stored value whenever the key exists, null included, and the default only when it is absent |
| Envelope.BaseJobRoundTrip | src/Queue/Job/Base.php:40-63 | item and jsonSerialize return the body unchanged; acknowledge is ACK and reject is REJECT |
| Envelope.DataVersusGetArgument | src/Queue/Job/Base.php:33-37 | for an array first argument, Base::data and getArgument agree on a key unless the stored value is null and the default is not |
| Dispatch.ProcessMessage | src/Queue/Processor.php:120-129 | a job returning nothing acknowledges; every other value and every throw passes through unchanged |
| Dispatch.DispatchLifecycle | src/Queue/Processor.php:68-114 | the trace starts with seen and ends with one terminal event; ACK iff success, REQUEUE iff failure, a reasoned requeue iff exception; invalid iff the trace is [seen, invalid], rejecting; start iff the job resolves |
| Dispatch.CleanRunHasThreeEvents | src/Queue/Processor.php:82-113 | a job that does not throw produces exactly seen, start and one terminal event |
| Dispatch.ResponseDecidesVerdict | src/Queue/Processor.php:96-113 | nothing or ACK acknowledges, REJECT rejects, and REQUEUE, any other string or any object requeues |
| Dispatch.Processor.Process | src/Queue/Processor.php:68-114 | process returns the specified verdict and appends exactly the specified events to the trace |
| Attempts.EffectiveMax | src/Consumption/LimitAttemptsExtension.php:55 | the job's declared maximum wins; the extension's default applies only without one |
| Attempts.Govern | src/Consumption/LimitAttemptsExtension.php:45-90 | non-requeue results and jobs without a maximum are untouched; otherwise exactly one of a copy or a failed event; the failed event iff attempts + 1 reaches the maximum, with the job exception and the logger; the copy goes to the consumer's queue with attempts + 1; both reject with a reason |
| Attempts.CopyChangesOnlyAttempts | src/Consumption/LimitAttemptsExtension.php:79-85 | the copy keeps the body and the recorded exception; only the attempt count grows by one |
| Attempts.DeliveryCountsAttempts | src/Consumption/LimitAttemptsExtension.php:61-80 | the k-th delivery of an always-requeued job carries attempts = k and the original body |
| Attempts.AlwaysFailingJobRunsMaxTimes | src/Consumption/LimitAttemptsExtension.php:55-89 | with maximum n an always-failing job is republished after each of its first n - 1 runs and fails on run n |
| Attempts.LimitAttemptsExtension.OnResult | src/Consumption/LimitAttemptsExtension.php:45-90 | onResult changes the result, sends the copies and fires the events exactly as Govern says |
| LoopLimits.PreConsume | src/Consumption/QueueExtension.php:125-135 | pre-consume updates only the runtime and interrupts, with one maxRuntime event, iff a positive runtime budget is spent |
| LoopLimits.PostMessageReceived | src/Consumption/QueueExtension.php:93-116 | a result with a reason changes nothing; otherwise one more iteration, the runtime event iff its budget is spent, the iterations event iff its budget is spent, in that order, and an interrupt iff an event fired |
| LoopLimits.RunCountsUnreasoned | src/Consumption/QueueExtension.php:95-109 | a run of callbacks counts exactly the deliveries without a reason |
| LoopLimits.IterationBudgetTripsOnTheNth | src/Consumption/QueueExtension.php:109-115 | from a fresh extension the iterations event fires exactly from the maxIterations-th unreasoned delivery on |
| LoopLimits.GovernedRetriesAreNotCounted | src/Consumption/QueueExtension.php:95-98 | a requeue the retry governor handled carries a reason, so this extension does not count it |
| LoopLimits.QueueExtension.constructor | src/Consumption/QueueExtension.php:75-83 | the start time is the creation time and the counters start at zero |
| LoopLimits.QueueExtension.OnPostMessageReceived | src/Consumption/QueueExtension.php:93-116 | the counters, events and interrupt are those of PostMessageReceived |
| LoopLimits.QueueExtension.OnPreConsume | src/Consumption/QueueExtension.php:125-135 | the counters, events and interrupt are those of PreConsume |
| LoopLimits.PostConsumeStopsAtLimit | src/Consumption/LimitConsumedMessagesExtension.php:61-88 | the i-th post-consume interrupts iff i has reached the limit: first on the limit-th call, and every call after |
| LoopLimits.LimitConsumedMessagesExtension.constructor | src/Consumption/LimitConsumedMessagesExtension.php:29-37 | the consumed count starts at zero |
| LoopLimits.LimitConsumedMessagesExtension.OnPreConsume | src/Consumption/LimitConsumedMessagesExtension.php:46-52 | pre-consume changes nothing and interrupts iff the count has reached the limit, so a limit of 0 stops before the first message |
| LoopLimits.LimitConsumedMessagesExtension.OnPostConsume | src/Consumption/LimitConsumedMessagesExtension.php:61-68 | post-consume adds exactly one and interrupts iff the limit is reached |
| UniqueRelease.Forget | src/Consumption/RemoveUniqueJobIdFromCacheExtension.php:51 | after the delete the cache holds every id it held except that one |
| UniqueRelease.ReleaseSlot | src/Consumption/RemoveUniqueJobIdFromCacheExtension.php:34-52 | a malformed target throws; a job that is not unique releases nothing; a unique job releases, in the configured cache, the id of its class, method and job data read `data`-first as the current `Message::getArgument()` does; non-array job data is a TypeError |
| UniqueRelease.PushThenReleaseForgetsId | src/Consumption/RemoveUniqueJobIdFromCacheExtension.php:38-51 | the message a unique push publishes releases exactly the id the push recorded, and after it the cache no longer holds that id |
| UniqueRelease.RemoveUniqueJobIdFromCacheExtension.OnResult | src/Consumption/RemoveUniqueJobIdFromCacheExtension.php:34-52 | onResult deletes exactly the released id and nothing else, whatever the result, and never changes the result |
| FailedJobs.CreateNeedsClassMethodAndData | src/Model/Table/FailedJobsTable.php:58-73 | on create class, method and data are present, non-empty and scalar, and class and method fit 255 characters |
| FailedJobs.OptionalFields | src/Model/Table/FailedJobsTable.php:54-92 | config and queue are optional but must be non-empty; priority, exception and, on create only, id may be empty |
| FailedJobs.LengthBounds | src/Model/Table/FailedJobsTable.php:70-92 | config, queue and priority longer than 255 are refused; long data and exception are not |
| FailedJobs.RowOf | src/Listener/FailedJobsListener.php:66-77 | the stored row carries the new id, the decoded data, and the record's class and method |
| FailedJobs.FailedJobsTable.Insert | src/Listener/FailedJobsListener.php:77 | a save appends exactly one row under a fresh id and keeps ids distinct |
| FailedJobs.FailedJobsTable.DeleteMany | src/Command/PurgeFailedCommand.php:124 | the bulk delete removes exactly the rows with the given ids, keeping order and distinct ids |
| FailedJobs.FailedJobsTable.Delete | src/Command/RequeueCommand.php:142 | deleteOrFail removes exactly the row with that id |
| FailedJobs.Without | src/Command/PurgeFailedCommand.php:124 | a row survives the delete iff it was there and its id is not deleted |
| FailedJobs.ImplementedEvents | src/Listener/FailedJobsListener.php:33-38 | the only event handled is the retry governor's failed event, routed to storeFailedJob |
| FailedJobs.Archive | src/Listener/FailedJobsListener.php:44-100 | a malformed target throws; the job is saved iff its configuration exists with storeFailedJobs and the record validates; the record is class, method, encoded data, requeueOptions config/priority/queue and the exception; a configuration name that is not a string is a TypeError; an unknown or non-storing configuration is ignored; a validation failure is logged with a PSR logger, otherwise throws a RuntimeException saying the logger is undefined (falsy) or not a LoggerInterface |
| FailedJobs.PushedJobIsArchived | src/Listener/FailedJobsListener.php:49-77 | the failure of a job pushed to a configuration that stores failed jobs is archived with the push's class, method, data, configuration, priority and queue |
| FailedJobs.FailedJobsListener.StoreFailedJob | src/Listener/FailedJobsListener.php:44-100 | storeFailedJob throws, logs or inserts exactly one row as Archive says, and otherwise leaves the table alone |
| Commands.IdSet | src/Command/RequeueCommand.php:86-93 | the ids argument names exactly the integers among its comma-separated parts |
| Commands.Find | src/Command/RequeueCommand.php:84-106 | the matches are exactly the rows satisfying all given filters |
| Commands.IdsOf | src/Command/PurgeFailedCommand.php:124 | the ids deleted are exactly those of the matched rows |
| Commands.PurgeJobs | src/Command/PurgeFailedCommand.php:77-127 | no match prints "0 jobs found." and deletes nothing; an unconfirmed purge deletes nothing; a confirmed one deletes the matches and reports the count taken before deleting |
| Commands.PurgeDeletesExactlyMatches | src/Command/PurgeFailedCommand.php:84-124 | a confirmed purge deletes every matching row and keeps every other row |
| Commands.RequeueLoop | src/Command/RequeueCommand.php:126-151 | unless a throwable escapes, succeeded + failed equals the number of matches; what escapes is never a caught kind |
| Commands.LoopDeletesPassedRows | src/Command/RequeueCommand.php:131-150 | only rows whose push returned are deleted, and, if nothing escaped, all of them |
| Commands.NothingEscapes | src/Command/RequeueCommand.php:145-150 | when every failing push throws an Exception, the loop runs to the end |
| Commands.RequeueIsolatesEveryFailure | src/Command/RequeueCommand.php:124-159 | when every failing push throws an Exception, a matching row is deleted iff its push returned, every other row stays, and the counts add up to the matches |
| Commands.RemovedConfigIsAnError | src/QueueManager.php:223-227 | pushing a failed job whose configuration was removed throws a TypeError, an Error |
| Commands.RequeueAbortsOnError | src/Command/RequeueCommand.php:129-151 | an Error from the first job escapes the loop: the second job is not deleted and the broker sees only the first job's push attempt, never the second's; catching every throwable would push and delete it |
| Commands.RequeuedRowIsPublished | src/Command/RequeueCommand.php:131-140 | a failed job whose push returns is published with its own class, method, data, configuration, priority and queue and its dedup id recorded, unless the cache already holds that id; a push that throws changes nothing |
| Commands.PushesEveryMatch | src/Command/RequeueCommand.php:129-151 | when nothing escapes, the loop pushes every matching row, in order |
| Commands.RequeueBrokerCases | src/Command/RequeueCommand.php:108-122 | with no match, or without confirmation, the broker and cache are unchanged; otherwise they are what the loop's pushes leave |
| Commands.PushRow | src/Command/RequeueCommand.php:131-140 | the push's outcome is that of the failed job's class, method, data and requeue options, and the broker afterwards is RowEffect of the row |
| Commands.RequeueRow | src/Command/RequeueCommand.php:131-144 | a row is pushed with its own class, method, data, configuration, priority and queue, the broker and cache change as that push does, and the row is deleted only when the push returned |
| Commands.RequeueStep | src/Command/RequeueCommand.php:131-150 | one pass of the loop body counts, deletes, reports or escapes exactly as the requeue loop specification's step does, and changes the broker as the row's push does |
| Commands.RequeueMatched | src/Command/RequeueCommand.php:129-151 | the loop's counters, error lines, escaping throwable and deletions are those of RequeueLoop, and the broker and cache are those the pushes of the rows before any escape leave |
| Commands.RequeueAndReport | src/Command/RequeueCommand.php:124-159 | after confirmation the table, printed lines and escaping throwable are those of the confirmed requeue: header, the loop's error lines, then the summary unless a throwable escaped; the broker is what the loop's pushes leave |
| Commands.RequeueCommand.Execute | src/Command/RequeueCommand.php:79-160 | requeue prints "0 jobs found." for no match, does nothing unconfirmed, and otherwise leaves the table, lines and escaping throwable the requeue specification gives, reporting failures and successes only when non-zero; the broker and cache end as RequeueBroker says |
| Commands.PurgeFailedCommand.Execute | src/Command/PurgeFailedCommand.php:77-127 | the table and printed lines are those of PurgeJobs |
| ClientConfig.AsReturnedString | src/Config/SimpleClientConfig.php:33-36 | a string queue is returned as is; null or an array cannot be returned as a string (TypeError) |
| ClientConfig.ConfigArrayReadsBack | src/Config/SimpleClientConfig.php:46-66 | the transport is the configuration's url unchanged; all three routing entries hold the chosen queue; prefix "enqueue", separator ".", app_name "app"; both extensions false |
| ClientConfig.RoutingAgreesWithRegistry | src/Config/SimpleClientConfig.php:57-59 | with a named queue every routing key maps to it, as QueueManager's routing for that queue does |
| ClientConfig.ReportedQueueIsRouted | src/Config/SimpleClientConfig.php:33-59 | getQueue reports the queue the array routes to; a named queue is returned as given; "default" without a configured queue throws |
| ClientConfig.SimpleClientConfig.constructor | src/Config/SimpleClientConfig.php:18-36 | the queue is the argument unless it is "default", then the configuration's queue; get returns the built array and getQueue the chosen queue |
| ClientConfig.SimpleClientConfig.Create | src/Config/SimpleClientConfig.php:46-66 | create sets the chosen queue and the built array |
| Legacy.Register | src/Queue/Queue.php:76-84 | registration fails exactly when the name is taken ("Cannot reconfigure existing key") or the url is empty ('Must specify "url" key'), and otherwise stores the settings unchanged |
| Legacy.RegisterAllStops | src/Queue/Queue.php:69-71 | once an entry throws, later entries are not registered |
| Legacy.RegisterAllKeeps | src/Queue/QueueManager.php:73-75 | batch registration never loses a configuration |
| Legacy.FreshBatchRegistersAll | src/Queue/Queue.php:65-84 | a batch of fresh, distinct names with urls registers every entry with its own settings and nothing else |
| Legacy.LegacyRegistry.constructor | src/Queue/Queue.php:63-118 | a registry starts with no configurations, clients or sent events |
| Legacy.LegacyRegistry.SetConfig | src/Queue/QueueManager.php:67-89 | setConfig leaves the configurations and outcome the registration specification gives, including the LogicException and the array-offset TypeError |
| Legacy.LegacyRegistry.SetBatch | src/Queue/Queue.php:65-73 | the entries are registered in order up to the first throwable |
| Legacy.LegacyRegistry.SetOne | src/Queue/Queue.php:76-84 | a refused name or url changes nothing; an accepted one stores the settings |
| Legacy.LegacyRegistry.Engine | src/Queue/QueueManager.php:108-126 | the cached client is returned; otherwise one new client is built and cached; an unknown name makes Hash::get throw |
| Legacy.BodyReadsBack | src/Queue/QueueManager.php:142-146 | the body yields its queue, its class and, as `args[0]`, the pushed arguments |
| Legacy.PlanPush | src/Queue/QueueManager.php:136-165 | for the `array $args` the signature demands, push fails exactly for an unknown configuration; the queue is the configuration's set queue or "default"; Queue sends only the body, QueueManager adds delay, expires_at and priority each only when set |
| Legacy.QueueOptionIsIgnored | src/Queue/Queue.php:130-132 | the `queue` option never changes what is pushed |
| Legacy.PushedArgumentsReadBack | src/Queue/Queue.php:134-137 | a consumer's getArgument() and Base::data() return the pushed arguments and getCallable the pushed callable |
| Legacy.LegacyRegistry.Push | src/Queue/Queue.php:128-144 | for array arguments, a failing push sends nothing; otherwise exactly one message is appended on the name's client |
| Legacy.PushedEventReadsBack | src/Queue/QueueManager.php:175-184 | for the `array $data` the signature demands, a pushed event reaches the consumer as EventJob::dispatchEvent with className (default Event), eventName and data |
| Legacy.PushEvent | src/Queue/QueueManager.php:175-184 | for array data, pushEvent sends exactly the EventJob message through the Queue registry |
| Legacy.LegacyPreConsume | src/Queue/QueueExtension.php:43-55 | runtime is checked first, iterations only otherwise: at most one event, and an interrupt iff a positive budget is spent |
| Legacy.PostConsumesCount | src/Queue/QueueExtension.php:61-64 | k post-consumes add exactly k iterations and leave the runtime |
| Legacy.IterationBudgetTripsAfterN | src/Queue/QueueExtension.php:50-63 | without a runtime budget the pre-consume after k post-consumes interrupts iff maxIterations is positive and k has reached it |
| Legacy.LegacyQueueExtension.OnPreConsume | src/Queue/QueueExtension.php:43-55 | the counters, events and interrupt are those of LegacyPreConsume |
| Legacy.LegacyQueueExtension.OnPostConsume | src/Queue/QueueExtension.php:61-64 | post-consume adds exactly one iteration and fires nothing |
| Legacy.LegacyPreConsumeAsWritten | src/Queue/QueueExtension.php:43-55 | as written, whenever a budget is spent the callback throws an Error before firing any event or interrupting |
| Legacy.BudgetTripThrows | src/Queue/QueueExtension.php:47-52 | with maxIterations 1 the pre-consume after one post-consume throws instead of firing maxIterations |
| Legacy.AsWrittenAgreesWhenNothingTrips | src/Queue/QueueExtension.php:43-55 | when no budget is spent the code as written and the corrected callback agree |

## Left out

- Broker and transport: `SimpleClient`, `setupBroker`, producers and receive timeouts. A client is a serial number plus what it was built from, and publishing appends to a sequence.
- `md5`, `uniqid` and `microtime`: the dedup id is its hash input; the legacy item's `id` and `queue_time` are not modelled; the clock is a whole number of seconds.
- `json_encode` of non-ASCII characters: the model writes them as they are, where `json_encode` writes `\uXXXX` escapes (and fails on invalid UTF-8). Quotes, backslashes, slashes and control characters are escaped as `json_encode` escapes them.
- UniqueStore.GetUniqueId: values are ordered by their JSON text, not by PHP 8's loose comparison with its stable sort. Where two values compare loosely equal but encode differently (`1` and `"1"`, `true` and `1`, `"1"` and `"1.0"`), the code's id depends on their input order and the model's does not. So the order-independence lemmas (`UniqueStore.UniqueIdIgnoresKeysAndOrder`, `Registry.SecondPushIsIgnored`) are stated only for data whose values are all integers or all strings without digits.
- `Cache::setConfig` (CakePHP's static configuration, which is not part of this model) is taken to refuse an existing key with the same BadMethodCallException text as the registry's own check; its engine and class checks are not modelled.
- Cache expiry and cache engines: the cache is a set of ids per store. Concurrent producers (the check-then-add race) are not modelled.
- `App::className`, `class_exists`, static `$shouldBeUnique` and `$maxAttempts`, the callable built by `getCallable`, and `getTarget`/`getMaxAttempts` (not in the shown `Message`): all are inputs (a class catalog, a handler oracle, and the `[class, method]` pair of the body).
- Php.Throwable.Describe: `(string)$e` is modelled as the exception's kind and message. The real text also has the file, the line and the stack trace, which the model has no notion of. So the requeue reason set in `Processor::process` (`Dispatch.Dispatch`) and the second error line of the requeue command (`Commands.ExceptionReport`) carry less text than PHP prints.
- Logging text, `Log::engine` resolution and debug lines: the client records the logger name, and logged text is at most a returned string.
- The event manager: events are an appended trace of names.
- ORM internals: the query builder, timestamps, `decoded_data` (JSON decoding), storage failures other than validation, and ORM casting of id strings. An id part that is not decimal integer text matches nothing, and filters compare strings exactly.
- Console prompt text and verbose lines: the answer is an input, and only `out`, `err` and `success` lines are returned.
- `Hash::get` dot paths: keys are flat.
- `Hash::get` on data that is not an array throws the InvalidArgumentException of CakePHP's `Hash` (`Php.HashGet`); `ArrayAccess` objects are not modelled, as `Php.Value` has no objects.
- Injected adapter instances in `setConfig`: a configuration is an array.
- Integer keys in a batch `setConfig`: names are strings.
- Legacy.NewClient: `Queue::engine` and `QueueManager::engine` record the logger name, not the `Log::engine` instance.
- ClientConfig.AsReturnedString: floats coerced by weak-mode string returns are not modelled (there are no floats in `Php.Value`).
- WorkerCommand, WorkerShell, the job bake task, the plugin bootstrap, and the mailer and event job handlers are not part of this model.

## Findings

| source | as written | input that shows it | evidently intended | confidence | as-written member | corrected member |
|---|---|---|---|---|---|---|
| src/Queue/QueueExtension.php:47 | `LogLevel::DEBUG` is used in namespace `Queue\Queue` without importing `Psr\Log\LogLevel`, so evaluating the log call's arguments throws an Error whenever a budget trips, before the event is fired or execution interrupted | maxIterations 1, maxRuntime 0, one post-consume, then a pre-consume | fire `Processor.maxIterations` (or `Processor.maxRuntime`) and interrupt the consumer | high for the missing import; not executed | Legacy.LegacyPreConsumeAsWritten | Legacy.LegacyQueueExtension.OnPreConsume |
