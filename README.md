# stream-listener-starter, modelled in Dafny

stream-listener-starter is a Spring Boot starter. It turns methods annotated
with `@StreamListener` into polling consumers. For each annotated method,
`StreamListenerPostProcessor` builds a `StreamListenerEndpoint` and
resolves the endpoint's settings along fallback chains: first the
annotation attribute, then a global `${stream-listener.*}` property, then a
hard default. It registers the endpoint with `StreamEventPublisher`. At
startup the publisher either drives each endpoint at once (auto-startup) or
hands it to the cron registrar. Driving an endpoint means running poll
cycles in `StreamListenerExecutionService`:

- `receive` a list of records from the endpoint's data provider;
- filter them through the optional `RecordFilterStrategy`;
- invoke the listener method, one record at a time or with the whole batch;
- report failures to the optional `StreamEventListenerErrorHandler`;
- convert every outcome into a `ResponseStatus` with
  `EventDataToResponseStatusConverter`;
- `commit` the statuses.

An auto-started endpoint runs its next cycle right after a short sleep.
Any other endpoint has its next cycle scheduled on the executor.

The model follows the code's shape. The project has these modules:

- `Lang`: the little of java.lang the code relies on. This covers null as
  `Option`, exceptions, `hasText`, `isEmpty`, `trim`, `Boolean.parseBoolean`
  and `Long.parseLong`.
- `Records`: the record identities.
- `Support`: `ResponseStatus`, a class with four independent setters.
- `Converter`: `update`, `convert` and `convertList`.
- `Listener`: `filterBatch` working in place on a mutable list, and the
  default single-record error handler.
- `Model`: `StreamListenerEndpoint`, a class with setters.
- `Service`: one poll cycle.
  - Pure functions give what the cycle does: the trace of calls into the
    collaborators and how the cycle ends.
  - Methods on the mutable record list are proved equal to those functions.
- `ServiceProperties`: what a cycle guarantees.
- `Publisher`: `StreamEventPublisher`, a class with the registered endpoints,
  the ids being driven, the executor, the cron registrar and the sleeps
  taken.
- `Processor`: the post-processor's fallback chains as functions of a
  resolver, plus its bean hooks.

The code's own behaviour is modelled where it may surprise a reader:

- In single-record mode, a record is marked SKIPPED when `filter` returns
  **false**. The filter's documentation says that `true` means "discard".
  In batch mode, `filterBatch` removes the records for which `filter` is
  true, so the two modes split the records in opposite ways
  (`ModesSplitRecords`).
- In batch mode, the SKIPPED statuses are built from the list that
  `filterBatch` returns. That list is the filtered list itself, so each kept
  record gets a SKIPPED status and also an OK or ERROR status. A discarded
  record gets no status (`BatchFilterDivergence`).
- `setState(SKIPPED)` leaves `success` alone, so a skipped status still
  reports success.

## Model

| member | source | states |
|---|---|---|
| Lang.HasText | src/main/java/de/microtema/stream/listener/processor/StreamListenerPostProcessor.java:243-262 | a value with text is non-empty; a present value without text holds only whitespace |
| Lang.TrimLeading | src/main/java/de/microtema/stream/listener/processor/StreamListenerPostProcessor.java:443 | drops exactly the leading characters at or below U+0020: every dropped character is at or below U+0020, and what is left is empty or starts above it |
| Lang.TrimTrailing | src/main/java/de/microtema/stream/listener/processor/StreamListenerPostProcessor.java:443 | drops exactly the trailing characters at or below U+0020: every dropped character is at or below U+0020, and what is left is empty or ends above it |
| Lang.ParseBoolean | src/main/java/de/microtema/stream/listener/processor/StreamListenerPostProcessor.java:150-176 | true exactly for a non-null string whose ASCII lower-case form is "true" |
| Lang.LowerAsciiString | src/main/java/de/microtema/stream/listener/processor/StreamListenerPostProcessor.java:150-176 | lower-cases each character on its own and keeps the length |
| Lang.ParseLong | src/main/java/de/microtema/stream/listener/processor/StreamListenerPostProcessor.java:180-195 | a failure is a NumberFormatException naming the input; a parsed value comes from a non-empty string and is negative only after a leading minus |
| Lang.ParseLongOfDecimal | src/main/java/de/microtema/stream/listener/processor/StreamListenerPostProcessor.java:180-195 | printing a non-negative long in decimal and parsing it back gives the same value |
| Lang.ParseLongOfSignedDecimal | src/main/java/de/microtema/stream/listener/processor/StreamListenerPostProcessor.java:180-195 | a leading minus negates the value, down to the smallest long; a leading plus leaves it as it is |
| Lang.ParseLongRejectsOverflow | src/main/java/de/microtema/stream/listener/processor/StreamListenerPostProcessor.java:180-195 | a decimal above the largest long, or a negated one below the smallest, is a NumberFormatException naming the input |
| Lang.ParseLongRejectsNonDigit | src/main/java/de/microtema/stream/listener/processor/StreamListenerPostProcessor.java:180-195 | a character other than a decimal digit anywhere but as the leading sign is a NumberFormatException naming the input |
| Lang.ParseLongRejectsNoDigits | src/main/java/de/microtema/stream/listener/processor/StreamListenerPostProcessor.java:180-195 | the empty string and a sign alone are a NumberFormatException |
| Lang.HexDigits | src/main/java/de/microtema/stream/listener/processor/StreamListenerPostProcessor.java:329-336 | exactly the given number of lower-case hexadecimal digits |
| Support.ResponseStatus.constructor | src/main/java/de/microtema/stream/listener/support/ResponseStatus.java:3-8 | a new status has a null id, is not successful, and has no state and no message |
| Support.ResponseStatus.SetId | src/main/java/de/microtema/stream/listener/support/ResponseStatus.java:14-16 | sets the id and leaves the other three fields unchanged |
| Support.ResponseStatus.SetSuccess | src/main/java/de/microtema/stream/listener/support/ResponseStatus.java:22-24 | sets the success flag and leaves the other three fields unchanged |
| Support.ResponseStatus.SetState | src/main/java/de/microtema/stream/listener/support/ResponseStatus.java:30-32 | sets the state and leaves the other three fields unchanged |
| Support.ResponseStatus.SetErrorMessage | src/main/java/de/microtema/stream/listener/support/ResponseStatus.java:38-40 | sets the message and leaves the other three fields unchanged |
| Support.SkippedAfterSuccess | src/main/java/de/microtema/stream/listener/support/ResponseStatus.java:22-32 | nothing ties the fields together: a status can be SKIPPED and successful at the same time |
| Converter.Converted | src/main/java/de/microtema/stream/listener/converter/EventDataToResponseStatusConverter.java:17-32 | the status keeps the record's id and carries the message; it is successful exactly when the message is null or empty; OK exactly when successful, ERROR exactly when not |
| Converter.Update | src/main/java/de/microtema/stream/listener/converter/EventDataToResponseStatusConverter.java:17-32 | after the four setter calls, the destination holds `Converted(orig, meta)`, whatever it held before |
| Converter.UpdateWithoutMessage | src/main/java/de/microtema/stream/listener/converter/EventDataToResponseStatusConverter.java:11-15 | without a message, the status is always a successful OK status with the record's id and no message |
| Converter.Convert | src/main/java/de/microtema/stream/listener/converter/EventDataToResponseStatusConverter.java:11-32 | a fresh status holding the converted contents |
| Converter.ConvertedList | src/main/java/de/microtema/stream/listener/converter/EventDataToResponseStatusConverter.java:17-32 | one converted status per record, in the same order |
| Converter.ErrorOnMessage | src/main/java/de/microtema/stream/listener/converter/EventDataToResponseStatusConverter.java:17-32 | a non-empty message always gives a failed ERROR status that carries the message |
| Listener.Retained | src/main/java/de/microtema/stream/listener/listener/RecordFilterStrategy.java:25-30 | exactly the records the filter does not discard remain, and the list never grows |
| Listener.RetainedOccurrences | src/main/java/de/microtema/stream/listener/listener/RecordFilterStrategy.java:25-30 | a kept record keeps every one of its occurrences; a discarded record loses all of them |
| Listener.RetainedInOrder | src/main/java/de/microtema/stream/listener/listener/RecordFilterStrategy.java:25-30 | the remaining records keep their original relative order |
| Listener.RetainedCons | src/main/java/de/microtema/stream/listener/listener/RecordFilterStrategy.java:25-30 | the filter decides on the head of the list independently of the rest |
| Listener.RetainedNothingDiscarded | src/main/java/de/microtema/stream/listener/listener/RecordFilterStrategy.java:25-30 | a filter that discards nothing leaves the list unchanged |
| Listener.AllDiscarded | src/main/java/de/microtema/stream/listener/listener/RecordFilterStrategy.java:18-30 | filtering out every record gives an empty list, not null |
| Listener.RecordList.constructor | src/main/java/de/microtema/stream/listener/listener/RecordFilterStrategy.java:25 | a mutable list holding the given records |
| Listener.FilterBatch | src/main/java/de/microtema/stream/listener/listener/RecordFilterStrategy.java:25-30 | `removeIf` shrinks the list in place to the retained records, and the same list object is returned |
| Model.StreamListenerEndpoint.constructor | src/main/java/de/microtema/stream/listener/model/StreamListenerEndpoint.java:14-35 | a new endpoint has null references, false flags, delay 0 and the every-minute cron `0 */1 * ? * *` |
| Model.StreamListenerEndpoint.SetId | src/main/java/de/microtema/stream/listener/model/StreamListenerEndpoint.java:41-43 | only the id changes |
| Model.StreamListenerEndpoint.SetGroupId | src/main/java/de/microtema/stream/listener/model/StreamListenerEndpoint.java:49-51 | only the group id changes |
| Model.StreamListenerEndpoint.SetBeanName | src/main/java/de/microtema/stream/listener/model/StreamListenerEndpoint.java:73-75 | only the bean name changes |
| Model.StreamListenerEndpoint.SetBatch | src/main/java/de/microtema/stream/listener/model/StreamListenerEndpoint.java:81-83 | only the batch flag changes |
| Model.StreamListenerEndpoint.SetTopic | src/main/java/de/microtema/stream/listener/model/StreamListenerEndpoint.java:89-91 | only the topic changes |
| Model.StreamListenerEndpoint.SetCron | src/main/java/de/microtema/stream/listener/model/StreamListenerEndpoint.java:97-99 | only the cron expression changes |
| Model.StreamListenerEndpoint.SetAutoStartup | src/main/java/de/microtema/stream/listener/model/StreamListenerEndpoint.java:105-107 | only the auto-startup flag changes |
| Model.StreamListenerEndpoint.SetConcurrency | src/main/java/de/microtema/stream/listener/model/StreamListenerEndpoint.java:113-115 | only the concurrency flag changes |
| Model.StreamListenerEndpoint.SetErrorHandler | src/main/java/de/microtema/stream/listener/model/StreamListenerEndpoint.java:145-147 | only the error handler changes |
| Model.StreamListenerEndpoint.SetRecordFilterStrategy | src/main/java/de/microtema/stream/listener/model/StreamListenerEndpoint.java:153-155 | only the filter strategy changes |
| Model.StreamListenerEndpoint.SetDelay | src/main/java/de/microtema/stream/listener/model/StreamListenerEndpoint.java:177-179 | only the delay changes |
| Service.MarkSkipped | src/main/java/de/microtema/stream/listener/service/StreamListenerExecutionService.java:166 | every status becomes SKIPPED and keeps its other fields, `success` included |
| Service.FilterRecordIfNecessary | src/main/java/de/microtema/stream/listener/service/StreamListenerExecutionService.java:171-188 | a status comes back exactly when a filter is set and it returns false for the record; that status is SKIPPED and successful, with the record's id and no message |
| Service.HandleRecordError | src/main/java/de/microtema/stream/listener/service/StreamListenerExecutionService.java:190-199 | without an error handler nothing happens; with one, its single-record form is called once with the record and exception; its answer is ignored and it ends with an exception exactly when the error handler throws one, which is that exception |
| Service.HandleBatchError | src/main/java/de/microtema/stream/listener/service/StreamListenerExecutionService.java:201-210 | without an error handler nothing happens; with one, its list form is called once with the records and exception; its answer is ignored and it ends with an exception exactly when the error handler throws one, which is that exception |
| Service.ExecuteRecord | src/main/java/de/microtema/stream/listener/service/StreamListenerExecutionService.java:100-127 | a record's status keeps its id; nothing is called exactly when the filter skips it, and otherwise the first thing done is invoking the handler with that record |
| Service.ExecuteRecords | src/main/java/de/microtema/stream/listener/service/StreamListenerExecutionService.java:72 | single-record mode gives one status per record, in order, each with its record's id |
| Service.ExecuteBatchSpec | src/main/java/de/microtema/stream/listener/service/StreamListenerExecutionService.java:129-154 | batch mode first invokes the handler once with the records the filter kept; it gives two statuses per kept record with a filter, one without |
| Service.Process | src/main/java/de/microtema/stream/listener/service/StreamListenerExecutionService.java:58-80 | when the records are processed without an exception, the last action is a commit that did not throw, and the result is true |
| Service.Cycle | src/main/java/de/microtema/stream/listener/service/StreamListenerExecutionService.java:38-56 | a receive that throws ends the cycle with that exception and nothing else called; the cycle returns false exactly when the receive gave null or an empty list |
| Service.FilterRecordsIfNecessary | src/main/java/de/microtema/stream/listener/service/StreamListenerExecutionService.java:156-169 | without a filter: no statuses and the list is untouched; with one: the list shrinks in place, and the SKIPPED statuses are built from the shrunken list |
| Service.ExecuteBatch | src/main/java/de/microtema/stream/listener/service/StreamListenerExecutionService.java:129-154 | on the mutable list, the batch run is exactly `ExecuteBatchSpec` of the records received, and the list is left filtered |
| Service.ExecuteImpl | src/main/java/de/microtema/stream/listener/service/StreamListenerExecutionService.java:58-80 | builds the statuses in batch or single-record mode, then commits them; the outcome is exactly `Process` of the records received |
| Service.ExecuteEndpointMethod | src/main/java/de/microtema/stream/listener/service/StreamListenerExecutionService.java:38-56 | one cycle is exactly `Cycle`; a failing receive propagates with nothing else called; a null or empty receive returns false with nothing else called |
| ServiceProperties.RecordStatus | src/main/java/de/microtema/stream/listener/service/StreamListenerExecutionService.java:100-127 | when the error handler does not throw, one record gives exactly one status: SKIPPED (and successful) when the filter rejects it; otherwise OK, or ERROR with the message naming the endpoint and the event. The handler is invoked only for a record that is not skipped, and the error handler only when the handler throws |
| ServiceProperties.RecordTrace | src/main/java/de/microtema/stream/listener/service/StreamListenerExecutionService.java:100-127 | when the error handler does not throw, one record runs to a status; the handler is invoked with that record unless it is skipped, the error handler is called only when that invocation threw, and nothing is committed |
| ServiceProperties.RecordInvocations | src/main/java/de/microtema/stream/listener/service/StreamListenerExecutionService.java:100-127 | when the error handler does not throw, one record runs to a status and the handler is invoked with it exactly when it is not skipped |
| ServiceProperties.SingleModeStatuses | src/main/java/de/microtema/stream/listener/service/StreamListenerExecutionService.java:72 | single-record mode gives one status per record, in order, each as `RecordStatus` describes |
| ServiceProperties.SingleModeInvocations | src/main/java/de/microtema/stream/listener/service/StreamListenerExecutionService.java:72 | the handler is invoked once per record that is not skipped, one record at a time, in order |
| ServiceProperties.SingleModeErrorCalls | src/main/java/de/microtema/stream/listener/listener/StreamEventListenerErrorHandler.java:25-28 | the error handler's list form is called once per failed record, with a one-element list holding exactly that record and the handler's exception; it is never called without an error handler |
| ServiceProperties.BatchModeTrace | src/main/java/de/microtema/stream/listener/service/StreamListenerExecutionService.java:129-154 | batch mode invokes the handler exactly once, with the filtered records; the error handler is called once with those records when the handler throws and an error handler is set |
| ServiceProperties.BatchModeStatuses | src/main/java/de/microtema/stream/listener/service/StreamListenerExecutionService.java:129-154 | with a filter, one SKIPPED (and successful) status per kept record, then one OK or ERROR status per kept record; without a filter, only the latter. An ERROR status carries the message naming the endpoint and the record count |
| ServiceProperties.BatchCompletion | src/main/java/de/microtema/stream/listener/service/StreamListenerExecutionService.java:135-153 | the statuses are the SKIPPED copies of the kept records followed by their conversion, with the failure message if the handler threw |
| ServiceProperties.BatchFilterDivergence | src/main/java/de/microtema/stream/listener/service/StreamListenerExecutionService.java:156-169 | with a filter, every status belongs to a record the filter kept; each kept record gets both a SKIPPED status and an OK or ERROR status; a discarded record gets no status |
| ServiceProperties.ModesSplitRecords | src/main/java/de/microtema/stream/listener/service/StreamListenerExecutionService.java:171-188 | the records single-record mode processes and the records batch mode processes are complementary: each occurrence of a record goes to exactly one of the two |
| ServiceProperties.RecordFailureMessageNames | src/main/java/de/microtema/stream/listener/service/StreamListenerExecutionService.java:123 | the single-record failure message is never empty and names the endpoint id and the event id |
| ServiceProperties.BatchFailureMessageNames | src/main/java/de/microtema/stream/listener/service/StreamListenerExecutionService.java:148 | the batch failure message is never empty and names the endpoint id and the record count |
| ServiceProperties.RecordsHaveNoCommit | src/main/java/de/microtema/stream/listener/service/StreamListenerExecutionService.java:100-127 | processing records never commits |
| ServiceProperties.BatchHasNoCommit | src/main/java/de/microtema/stream/listener/service/StreamListenerExecutionService.java:129-154 | processing a batch never commits |
| ServiceProperties.CycleCommitsOnce | src/main/java/de/microtema/stream/listener/service/StreamListenerExecutionService.java:38-80 | a cycle commits at most once, and only as its last action on non-empty records. It returns true exactly when it committed and the commit did not throw, and false exactly when the receive was null or empty, in which case nothing was called |
| ServiceProperties.SingleModeCycle | src/main/java/de/microtema/stream/listener/service/StreamListenerExecutionService.java:58-80 | in single-record mode, when the error handler never throws, a cycle over non-empty records commits exactly the statuses single-record mode builds: one per record, in record order, each SKIPPED, OK or ERROR as `StatusFor` gives it for that record. The cycle returns true unless the commit throws, and then its exception propagates |
| ServiceProperties.BatchModeCycle | src/main/java/de/microtema/stream/listener/service/StreamListenerExecutionService.java:58-80 | in batch mode, a cycle over non-empty records commits exactly the batch statuses; the commit's exception propagates |
| ServiceProperties.ErrorHandlerFailureEscapes | src/main/java/de/microtema/stream/listener/service/StreamListenerExecutionService.java:58-80 | in single-record mode, for any record whose handler call threw after every earlier record went through: when the error handler throws, the cycle ends with that exception and nothing is committed |
| ServiceProperties.BatchErrorHandlerFailureEscapes | src/main/java/de/microtema/stream/listener/service/StreamListenerExecutionService.java:129-154 | in batch mode, when the handler throws on the kept records and the error handler throws, the cycle ends with the error handler's exception and nothing is committed |
| ServiceProperties.RecordRaises | src/main/java/de/microtema/stream/listener/service/StreamListenerExecutionService.java:100-127 | one record ends with an exception exactly when it is not skipped, its handler call threw, and an error handler is set and throws; the exception is the error handler's |
| ServiceProperties.SingleModeRaisesAt | src/main/java/de/microtema/stream/listener/service/StreamListenerExecutionService.java:72 | single-record mode stops at the first record that ends with an exception, and ends with that exception |
| ServiceProperties.RecordErrorIsBatchOfOne | src/main/java/de/microtema/stream/listener/listener/StreamEventListenerErrorHandler.java:25-28 | handling one record's error is handling the error of the one-element list holding that record, with the same exception and endpoint |
| ServiceProperties.RecordReplyIgnored | src/main/java/de/microtema/stream/listener/service/StreamListenerExecutionService.java:190-199 | what the error handler returns does not affect a record's outcome |
| ServiceProperties.SingleModeReplyIgnored | src/main/java/de/microtema/stream/listener/service/StreamListenerExecutionService.java:190-199 | what the error handler returns does not affect single-record mode |
| ServiceProperties.BatchModeReplyIgnored | src/main/java/de/microtema/stream/listener/service/StreamListenerExecutionService.java:201-210 | what the error handler returns does not affect batch mode |
| ServiceProperties.ErrorReplyIgnored | src/main/java/de/microtema/stream/listener/service/StreamListenerExecutionService.java:190-210 | what the error handler returns does not affect a whole cycle |
| Publisher.ScheduledExecutor.constructor | src/main/java/de/microtema/stream/listener/publisher/StreamEventPublisher.java:27 | an executor starts with no pending tasks |
| Publisher.ScheduledExecutor.Schedule | src/main/java/de/microtema/stream/listener/publisher/StreamEventPublisher.java:98-103 | scheduling appends one delayed `publishEvent` task with the endpoint's delay |
| Publisher.TaskRegistrar.constructor | src/main/java/de/microtema/stream/listener/publisher/StreamEventPublisher.java:30 | a registrar starts with no cron tasks and is not destroyed |
| Publisher.TaskRegistrar.AddCronTask | src/main/java/de/microtema/stream/listener/publisher/StreamEventPublisher.java:54 | adding a cron task appends it and nothing else changes |
| Publisher.TaskRegistrar.Destroy | src/main/java/de/microtema/stream/listener/publisher/StreamEventPublisher.java:62 | destroying marks the registrar destroyed and keeps its tasks |
| Publisher.Slept | src/main/java/de/microtema/stream/listener/publisher/StreamEventPublisher.java:106-121 | a delay below one millisecond sleeps not at all; otherwise the sleep is exactly the delay |
| Publisher.Verdict | src/main/java/de/microtema/stream/listener/publisher/StreamEventPublisher.java:86-103 | the drive goes on exactly when the cycle returned true for an auto-started endpoint; a thrown exception propagates; false ends the drive idle; true without auto-startup reschedules |
| Publisher.Drive | src/main/java/de/microtema/stream/listener/publisher/StreamEventPublisher.java:86-103 | a drive runs no more cycles than the script holds and never ends as contended |
| Publisher.Publish | src/main/java/de/microtema/stream/listener/publisher/StreamEventPublisher.java:65-104 | a call is contended exactly when the endpoint's id is already being driven, and runs no more cycles than the script holds |
| Publisher.VisitsFollowAppend | src/main/java/de/microtema/stream/listener/publisher/StreamEventPublisher.java:46-57 | one more visit, of the next endpoint in order, extends the visits of the endpoints before it |
| Publisher.NoneFailedAppend | src/main/java/de/microtema/stream/listener/publisher/StreamEventPublisher.java:46-57 | one more visit whose drive did not throw keeps startup going |
| Publisher.Cycles | src/main/java/de/microtema/stream/listener/publisher/StreamEventPublisher.java:80-84 | one cycle outcome per scripted cycle |
| Publisher.CyclesAt | src/main/java/de/microtema/stream/listener/publisher/StreamEventPublisher.java:80-84 | the k-th outcome is the cycle run with the k-th collaborators |
| Publisher.DriveStep | src/main/java/de/microtema/stream/listener/publisher/StreamEventPublisher.java:86-103 | after a cycle: stop when nothing was processed, when the cycle threw, or after rescheduling an endpoint that is not auto-started; otherwise sleep the delay and drive the next cycle |
| Publisher.JoinJoin | src/main/java/de/microtema/stream/listener/publisher/StreamEventPublisher.java:90-97 | consecutive re-drives combine by concatenating their cycles and their sleeps |
| Publisher.DriveFollowsScript | src/main/java/de/microtema/stream/listener/publisher/StreamEventPublisher.java:65-104 | the cycles one call runs are a prefix of the scripted cycles, in order |
| Publisher.DriveStopsAtFirstVerdict | src/main/java/de/microtema/stream/listener/publisher/StreamEventPublisher.java:86-103 | the drive stops at the first cycle that returns false, throws, or gets rescheduled, and that cycle decides how the drive ends; every earlier cycle asked to go on |
| Publisher.OneCycleWithoutAutoStartup | src/main/java/de/microtema/stream/listener/publisher/StreamEventPublisher.java:98-103 | an endpoint that is not auto-started runs at most one cycle per call and never sleeps |
| Publisher.DriveSleeps | src/main/java/de/microtema/stream/listener/publisher/StreamEventPublisher.java:90-97 | the drive sleeps the delay once between two consecutive cycles, never after the last one, and not at all for a delay below one millisecond |
| Publisher.GuardDecides | src/main/java/de/microtema/stream/listener/publisher/StreamEventPublisher.java:71-76 | a call returns at once with no cycle and no sleep exactly when the endpoint's id is already being driven |
| Publisher.CronTasksOf | src/main/java/de/microtema/stream/listener/publisher/StreamEventPublisher.java:49-56 | at most one cron task per visited endpoint |
| Publisher.CronTasksOfVisits | src/main/java/de/microtema/stream/listener/publisher/StreamEventPublisher.java:49-56 | every endpoint that is not auto-started gets a cron task with its own cron expression; auto-started endpoints get none |
| Publisher.CronTasksOfAppend | src/main/java/de/microtema/stream/listener/publisher/StreamEventPublisher.java:46-57 | one more visit adds at most its own cron task to the end |
| Publisher.SleptDuringAppend | src/main/java/de/microtema/stream/listener/publisher/StreamEventPublisher.java:46-57 | one more visit adds only its own drive's sleeps to the end |
| Publisher.IterationOrder | src/main/java/de/microtema/stream/listener/publisher/StreamEventPublisher.java:46 | iterating over the endpoint set visits every member exactly once |
| Publisher.StreamEventPublisher.constructor | src/main/java/de/microtema/stream/listener/publisher/StreamEventPublisher.java:24-35 | a publisher starts with no endpoints, no ids being driven, no registrar and no sleeps |
| Publisher.StreamEventPublisher.RegisterStreamListenerEndpoint | src/main/java/de/microtema/stream/listener/publisher/StreamEventPublisher.java:37-42 | registering adds the endpoint, by identity, to the set; nothing else changes |
| Publisher.RegisterSameIdTwice | src/main/java/de/microtema/stream/listener/publisher/StreamEventPublisher.java:25 | two endpoints with the same id are two members of the set |
| Publisher.StreamEventPublisher.SleepTill | src/main/java/de/microtema/stream/listener/publisher/StreamEventPublisher.java:106-121 | records exactly `Slept(delay)`; nothing else changes |
| Publisher.StreamEventPublisher.PublishEvent | src/main/java/de/microtema/stream/listener/publisher/StreamEventPublisher.java:65-104 | the call behaves exactly as `Publish`. The set of ids being driven is the same afterwards, even when a cycle threw. The sleeps are those of the drive. One delayed task is scheduled exactly when the drive ended by rescheduling |
| Publisher.StreamEventPublisher.RunCycle | src/main/java/de/microtema/stream/listener/publisher/StreamEventPublisher.java:80-84 | the i-th cycle of a drive gives the i-th scripted outcome and changes no publisher state |
| Publisher.StreamEventPublisher.Startup | src/main/java/de/microtema/stream/listener/publisher/StreamEventPublisher.java:44-58 | stores the registrar and visits registered endpoints, each at most once. An auto-started endpoint is driven and any other gets a cron task. The first drive that throws ends startup with its exception; when none throws, every endpoint has been visited. The cron tasks and sleeps are exactly those of the visits, in order |
| Publisher.StreamEventPublisher.StartAll | src/main/java/de/microtema/stream/listener/publisher/StreamEventPublisher.java:46-57 | visits a prefix of the given order, stopping right after the first drive that throws; the cron tasks and sleeps are exactly those of the visits |
| Publisher.StreamEventPublisher.StartNext | src/main/java/de/microtema/stream/listener/publisher/StreamEventPublisher.java:48-56 | one more visit extends the cron tasks and the sleeps of the visits so far |
| Publisher.StreamEventPublisher.StartEndpoint | src/main/java/de/microtema/stream/listener/publisher/StreamEventPublisher.java:48-56 | drives an auto-started endpoint, or adds one cron task with its cron expression, and nothing else |
| Publisher.StreamEventPublisher.Destroy | src/main/java/de/microtema/stream/listener/publisher/StreamEventPublisher.java:60-63 | destroys the registrar; before startup there is none, and the call throws a NullPointerException |
| Processor.ResolveExpressionAsString | src/main/java/de/microtema/stream/listener/processor/StreamListenerPostProcessor.java:433-452 | null stays null; a String that is still a `${` placeholder becomes null; any other String is returned as it is; any other object is an IllegalStateException naming the attribute, the class and the value. Each case holds in both directions |
| Processor.GetDelay | src/main/java/de/microtema/stream/listener/processor/StreamListenerPostProcessor.java:178-196 | the annotation's delay when it resolves to text, else the global delay property when that does, else 250; the text that wins is parsed as a long; a value that is not a String fails |
| Processor.GenerateHash | src/main/java/de/microtema/stream/listener/processor/StreamListenerPostProcessor.java:329-336 | the hash is seven lower-case hexadecimal digits |
| Processor.GetEndpointId | src/main/java/de/microtema/stream/listener/processor/StreamListenerPostProcessor.java:239-262 | the annotation's id as it is, when it resolves to text; otherwise the global id property, or else the bean name, followed by `_` and the hash |
| Processor.GetEndpointGroupId | src/main/java/de/microtema/stream/listener/processor/StreamListenerPostProcessor.java:264-296 | in order of preference: the annotation's group id, the global group-id property, HOSTNAME, the endpoint id when `idIsGroup` is set, and finally whatever `spring.application.name` resolves to |
| Processor.GetEndpointTopic | src/main/java/de/microtema/stream/listener/processor/StreamListenerPostProcessor.java:299-327 | the first topic when it resolves to text, else the global topics property, else the first topic unresolved; with no topic at all, the call fails with an index error |
| Processor.IsBatchConsumer | src/main/java/de/microtema/stream/listener/processor/StreamListenerPostProcessor.java:137-148 | an explicit `batch` text is parsed as a boolean without resolution; otherwise the result is whether the first parameter is a Collection, and a method with no parameters fails |
| Processor.ParsedFlag | src/main/java/de/microtema/stream/listener/processor/StreamListenerPostProcessor.java:150-176 | a flag is true exactly when its value resolves to a String that reads "true" in any case; a value that is not a String fails |
| Processor.IsAutoStartup | src/main/java/de/microtema/stream/listener/processor/StreamListenerPostProcessor.java:150-162 | a given annotation value alone decides auto-startup; otherwise the global auto-startup property decides |
| Processor.IsConcurrency | src/main/java/de/microtema/stream/listener/processor/StreamListenerPostProcessor.java:164-176 | a given annotation value alone decides concurrency; otherwise the global concurrency property decides |
| Processor.PlaceholderIsNotTrue | src/main/java/de/microtema/stream/listener/processor/StreamListenerPostProcessor.java:443-447 | a value that stays a placeholder never reads as true |
| Processor.NothingIsNotTrue | src/main/java/de/microtema/stream/listener/processor/StreamListenerPostProcessor.java:150-176 | a value that resolves to nothing reads as false |
| Processor.TrueIsText | src/main/java/de/microtema/stream/listener/processor/StreamListenerPostProcessor.java:443-447 | "true" in any letter case has text and is not a placeholder |
| Processor.BareSettings | src/main/java/de/microtema/stream/listener/processor/StreamListenerPostProcessor.java:150-196 | with nothing configured, an annotation left at its defaults gets delay 250, no auto-startup and no concurrency |
| Processor.BareIdentity | src/main/java/de/microtema/stream/listener/processor/StreamListenerPostProcessor.java:239-327 | with nothing configured, an annotation left at its defaults gets the id bean name + `_` + hash and HOSTNAME or else that id as its group; reading its topic fails |
| Processor.GeneratedIdShape | src/main/java/de/microtema/stream/listener/processor/StreamListenerPostProcessor.java:253-261 | a generated id starts with its base and `_`, and is eight characters longer than the base |
| Processor.AutoStartupDoesNotFallBack | src/main/java/de/microtema/stream/listener/processor/StreamListenerPostProcessor.java:150-162 | an annotation value that resolves to nothing means false, even when the global property says true, which it would follow if the attribute were empty |
| Processor.UnresolvedTopicKept | src/main/java/de/microtema/stream/listener/processor/StreamListenerPostProcessor.java:299-327 | a first topic that stays a placeholder is returned unresolved when the global property gives nothing either |
| Processor.StreamListenerPostProcessor.constructor | src/main/java/de/microtema/stream/listener/processor/StreamListenerPostProcessor.java:63-66 | the post-processor holds the publisher it is given, which may be null |
| Processor.StreamListenerPostProcessor.RequiresDestruction | src/main/java/de/microtema/stream/listener/processor/StreamListenerPostProcessor.java:68-71 | every bean requires destruction |
| Processor.StreamListenerPostProcessor.PostProcessBeforeInitialization | src/main/java/de/microtema/stream/listener/processor/StreamListenerPostProcessor.java:73-76 | the bean is returned unchanged |
| Processor.StreamListenerPostProcessor.PostProcessAfterInitialization | src/main/java/de/microtema/stream/listener/processor/StreamListenerPostProcessor.java:78-88 | every created endpoint is registered and nothing else in the publisher changes; the bean is returned unchanged; with a null publisher the first registration throws a NullPointerException |
| Processor.StreamListenerPostProcessor.PostProcessBeforeDestruction | src/main/java/de/microtema/stream/listener/processor/StreamListenerPostProcessor.java:63-66 | without a publisher, nothing happens; otherwise the publisher is destroyed, and its NullPointerException before startup propagates |

## Left out

- Threads and concurrency are not modelled. The id set is a synchronized
  set in the code, but the model runs one call at a time, so the "race
  condition" guard is modelled only as a membership test on the ids being
  driven.
- `Thread.sleep` is recorded as the length slept. Interruption is left out.
- The scheduled executor and the cron registrar keep the pending tasks
  they are given. Cron expression semantics and the later running of
  those tasks are left out.
- Publisher.StreamEventPublisher.PublishEvent: a drive is limited to the
  finite script of cycles it is given. An auto-started endpoint that keeps
  finding records would recurse forever; the model ends such a drive with
  `ScriptEnded` when the script runs out.
- Publisher.StreamEventPublisher.PublishEvent: the endpoint is taken not to
  change while it is being driven. The code re-reads `autoStartup` and
  `delay` at each recursive call.
- Publisher.StreamEventPublisher.Startup: the iteration order of the
  endpoint set is some order that visits each member once. The hash-set
  order is not modelled.
- Service.ExecuteEndpointMethod: the data provider, the listener method and
  the commit are given per cycle as collaborators. Reflection
  (`Method.invoke`, unwrapping `InvocationTargetException`), the extra
  method parameters, logging and the measured duration are left out.
- The error handler's return value is an arbitrary integer. The engine
  ignores it.
- Processor.ResolveExpressionAsString: Spring's placeholder resolution and
  SpEL evaluation are a `Resolver` parameter. The bean factory, the
  listener scope and the expression context are not modelled.
- Processor.GenerateHash: `UUID.randomUUID()` is a parameter. The code turns
  the UUID into 16 bytes and back; that round trip is taken to give the
  same UUID. The hash is its top 28 bits as hex digits, so the contract
  states the length and the alphabet, not the randomness.
- Processor.GetEndpointGroupId: the HOSTNAME environment variable is a
  parameter.
- Processor.IsBatchConsumer: reflection on the method's parameter types is
  given as a list saying, for each parameter, whether it is a Collection.
- Processor.StreamListenerPostProcessor.PostProcessAfterInitialization: the
  annotated methods the introspection finds and the endpoints that
  `createStreamListenerEndpoint` builds for them are given as a list.
  `createStreamListenerEndpoint` itself is not modelled: its wiring of
  the bean, method, error handler, data provider, converter and filter
  beans, `resolveStreamProperties`, `loadProperty` and
  `setApplicationContext` are Spring bean lookups. Its exceptions are not
  modelled either.
- The endpoint fields that hold foreign objects are not modelled: the
  bean, the method, the parameters, the record type, the consumer
  properties, the converter and the data provider.
- The getters of StreamListenerEndpoint and ResponseStatus are field reads.
  The model reads the fields directly.
- Converter.Convert: the external converter library's `convert` and
  `convertList` are taken to mean "a fresh status, then `update`" and
  "that, element by element, in order".
- The configuration classes, the annotations, `ListenerScope` and the
  provider packages are not part of this model.
- Listener.ErrorHandler.HandleRecord: the default single-record form is
  a one-line delegation to the list form with a one-element list. It has
  no contract of its own; what it implies is stated by
  `ServiceProperties.RecordErrorIsBatchOfOne`,
  `ServiceProperties.RecordStatus` and `ServiceProperties.SingleModeErrorCalls`.
  An error handler that overrides the single-record form is not modelled:
  an error handler is its list form only, so those three lemmas describe
  error handlers that keep the default.
- Service.ExecuteBatch: the listener method and the error handler are
  taken to leave the list they are handed unchanged. The code hands them
  the same mutable list it then converts into the OK or ERROR statuses and
  counts for the failure message, so a listener that clears, shrinks or
  grows that list would change those statuses and that count;
  `ServiceProperties.BatchModeStatuses`, `ServiceProperties.BatchCompletion`
  and `ServiceProperties.BatchFilterDivergence` hold only for listeners
  that leave it alone.
- Lang.ParseLong: only the ASCII digits '0' to '9' are accepted. Java's
  `Long.parseLong` also reads other Unicode decimal digits, such as the
  full-width ones, which the model rejects with a NumberFormatException.
- Service.ExecuteRecord: the handler's outcome models only exceptions. A
  `java.lang.Error` thrown by the listener method, which
  `rethrowRuntimeException` passes on, escapes the `catch (Exception)` of
  both modes: the error handler is not called and nothing is committed.
- Service.FilterRecordsIfNecessary: a record filter is a total function
  and the received list is always mutable. A filter that throws, or
  `removeIf` on an immutable list (UnsupportedOperationException), would
  end the cycle with no commit; the model does not reach those paths.
- Where the documentation and the code disagree, the model follows the
  code. This applies to the meaning of `filter`'s result in single-record
  mode and to the SKIPPED statuses built from the filtered list.
