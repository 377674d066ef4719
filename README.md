# Auto-start Lambda: a Dafny model

An AWS Lambda, triggered on a schedule, that starts EC2 instances. It works in four steps:

1. It loads a configuration table of auto-start schedules from S3.
2. `ScheduleParser` validates the table: the cron rule, `instanceId` and `region` of every entry, in index order. It then selects the entries that are due, meaning enabled and with the rule's previous firing strictly within 60 000 ms of now.
3. It starts the due instances in one batch. `EC2Service.startInstance` makes up to three attempts of describe, decide and start, with a linear backoff of `5000 * attempt` ms between attempts. It uses one cached SDK client per region.
4. It mails a summary of the results and rethrows any error to the caller.

The model has four modules, one per source unit:

- `Types` (`types.dfy`): the records shared by the other modules. These are `Schedule`, `Instance` and `StartResult`. The module also covers JavaScript's thrown values and the `instanceof Error ? message : 'Unknown error'` idiom, `value || fallback` on strings, and the decimal rendering of an index in a message.
- `ScheduleParsing` (`schedule_parser.dfy`): the `ScheduleParser` class. The cron library is a parameter, `CronLibrary`. It says what `parse(cron)` throws and what `prev()` gives for a rule, a timezone and an instant. Validation is a loop proved against the reference function `FirstInvalid`. Selection is the filter `DueSchedules`.
- `Ec2` (`ec2_service.dfy`): the `EC2Service` class, with its client map, the retry loop and the batch.
  - The EC2 API, the timer and the clock form the `Platform` class. Its describe and start replies are scripted by call number. It logs every command, with the region of the client it went through, and every sleep. Its clock advances by the time slept.
  - The retry loop is proved against `Retry`, a recursive function giving the final outcome, the number of describe and start commands, and the sleeps. `Retry` is in turn checked against attempt-by-attempt reference definitions (`AttemptAt`, `StartsBefore`, `Backoff`).
- `AutoStartHandler` (`handler.dfy`): the `handler` pipeline. The configuration store, the platform and the mailer are objects passed in, and the handler's settling is a `Completion`, either normal or abrupt with the thrown value.

A required string field that the configuration leaves out is the empty string here, since JavaScript treats both as falsy. The `dist` copies (`dist/services/*.js` and the bundle `dist/handlers/autoStartHandler.js`) have the same branches, constants and messages as `src` and `dist/services/scheduleParser.js`. The table cites them beside the `src` lines.

## Model

| member | source | states |
|---|---|---|
| ScheduleParsing.EntryError | dist/services/scheduleParser.js:12-26 | An entry is valid iff the rule parses and `instanceId` and `region` are non-empty. The checks run in order: a parse error gives its own message (or `'Unknown error'`), then `'instanceId is required'`, then, for a parsing rule with an id, `'region is required'` exactly when the region is empty. |
| ScheduleParsing.FirstInvalidFrom | dist/services/scheduleParser.js:10-27 | A report from index `i` on names an index at or after `i` and inside the table, and its reason is that entry's own error. |
| ScheduleParsing.FirstInvalid | dist/services/scheduleParser.js:10-27 | A validation failure names an index inside the table whose entry fails with exactly the reported reason. |
| ScheduleParsing.ValidationMessage | dist/services/scheduleParser.js:25 | The message starts with `Invalid schedule at index ` and ends with `: ` followed by the entry's reason. |
| ScheduleParsing.Timezone | dist/services/scheduleParser.js:38 | The rule is evaluated in the entry's timezone when it is present and non-empty, and in `'UTC'` otherwise. |
| ScheduleParsing.IsDue | dist/services/scheduleParser.js:33-43 | An entry is due iff it is not disabled and its rule has a previous firing, in its timezone, strictly less than 60 000 ms from now on either side. An evaluation that fails makes it not due. |
| ScheduleParsing.DueSchedules | dist/services/scheduleParser.js:32 | The selection is no longer than the table, and every entry in it is in the table and due. |
| ScheduleParsing.ValidateEntry | dist/handlers/autoStartHandler.js:35-46 | The bundled per-entry `try`/`catch` computes exactly `EntryError`. |
| ScheduleParsing.FirstInvalidSpec | dist/services/scheduleParser.js:9-28 | Validation fails iff some entry is invalid. It then reports the lowest invalid index with that entry's reason. Every entry before that index is valid. |
| ScheduleParsing.ScheduleParser.ValidateSchedules | dist/services/scheduleParser.js:9-28 | The `forEach` loop stops at the first invalid index: its result is `FirstInvalid` of the stored table, with both directions of the iff and the lowest-index property. |
| ScheduleParsing.ScheduleParser.constructor | dist/services/scheduleParser.js:5-6 | Stores the given table unchanged. |
| ScheduleParsing.NewScheduleParser | dist/services/scheduleParser.js:5-8 | `new ScheduleParser(t)` succeeds iff every entry validates, and the parser then holds `t`. Otherwise it throws an `Error` whose message names the first invalid index and that entry's reason. |
| ScheduleParsing.ValidationMessageRoundTrip | dist/services/scheduleParser.js:25 | `Invalid schedule at index <i>: <reason>` names the index and the reason unambiguously: parsing the message gives both back. |
| ScheduleParsing.ValidationIgnoresTimezone | dist/services/scheduleParser.js:15 | The rule is parsed without a timezone, so changing any entry's timezone never changes the validation verdict. |
| ScheduleParsing.ScheduleParser.GetSchedulesToRun | dist/services/scheduleParser.js:29-50 | The result is a subsequence of the stored table. An entry is in it iff it is in the table and due. Every due entry keeps all its copies and a non-due entry has none. No entry with `enabled === false` is in it. |
| ScheduleParsing.DueIsSubsequence | dist/services/scheduleParser.js:32 | Selection only deletes entries and keeps their order. |
| ScheduleParsing.DueMultiplicity | dist/services/scheduleParser.js:32-49 | Each entry occurs in the result as often as in the table if it is due, and not at all otherwise. |
| ScheduleParsing.DueMembership | dist/handlers/autoStartHandler.js:54-68 | An entry is selected iff it occurs in the table and is due. |
| ScheduleParsing.DueDistributes | dist/services/scheduleParser.js:35-48 | Selection of a concatenation is the concatenation of the selections. So one entry whose evaluation throws excludes only itself and never aborts the call. |
| ScheduleParsing.DisabledNeverDue | dist/services/scheduleParser.js:33-34 | An entry with `enabled === false` is never selected, at any instant. |
| ScheduleParsing.DefaultsOfEntry | dist/services/scheduleParser.js:33-38 | A missing `enabled` selects as `true` does. A missing or empty timezone selects as `'UTC'` does. |
| Types.ErrorMessage | src/services/ec2Service.ts:79 | A thrown `Error` yields its message, and any other thrown value yields `'Unknown error'`. |
| Types.DecimalRoundTrip | dist/services/scheduleParser.js:25 | The decimal rendering of the index in the message reads back as that index. |
| Ec2.StateName | src/services/ec2Service.ts:40-64 | A state name renders as `'unknown'` exactly when it is missing, and as the state's own name otherwise. |
| Ec2.NotFoundError | src/services/ec2Service.ts:37 | The not-found error is an `Error` whose message starts with `Instance ` followed by the instance id. It is never the terminated-instance error. |
| Ec2.AttemptOfDecides | src/services/ec2Service.ts:33-76 | One attempt of the `try` body, case by case. A describe that throws fails with that error. No instance fails with the not-found error. A running instance succeeds with `'running'` on both sides. A terminated one fails with `'Cannot start terminated instance'`. Any other state sends the start, which fails with its own error or succeeds with the previous and the returned state. An attempt succeeds iff the instance was found, not terminated, and any start it sent answered. |
| Ec2.ResultOfMeans | src/services/ec2Service.ts:44-89 | The result record names the instance, its region and the call's start time. It is a success exactly when the attempt succeeded. A success carries the elapsed time and both state names. A failure carries the message of what was thrown. |
| Ec2.RetryCounts | src/services/ec2Service.ts:25-93 | A run of the retry loop sends one to three describes, and no more starts than describes. |
| Ec2.StateNameComparisons | src/services/ec2Service.ts:40-55 | Comparing the state string with `running` or `terminated` is the same as comparing the state itself. A missing state, rendered `'unknown'`, matches neither. |
| Ec2.EC2Service.constructor | src/services/ec2Service.ts:10 | A new service starts with an empty client map. |
| Ec2.Ec2Client.constructor | src/services/ec2Service.ts:16 | `new EC2Client({ region })` gives a client bound to that region. |
| Ec2.EC2Service.GetClient | src/services/ec2Service.ts:14-19 | A cached region returns its client and leaves the map unchanged. An uncached region gets a fresh client bound to that region, added under that region alone. Client construction that throws propagates and leaves the map unchanged. The map stays region-consistent. |
| Ec2.EC2Service.TryAttempt | src/services/ec2Service.ts:29-76 | One attempt. It sends one describe command. An already running instance succeeds with `'running'` on both sides. A missing or terminated instance throws. Otherwise it sends exactly one start command. The outcome is `AttemptOf` of the two replies. |
| Ec2.EC2Service.Pass | src/services/ec2Service.ts:26-93 | One pass of the loop body keeps the loop invariant against `Retry`. On success or a failed last attempt the loop returns that attempt's result. Otherwise it sleeps `5000 * attempt` ms and continues. |
| Ec2.EC2Service.RetryLoop | src/services/ec2Service.ts:25-102 | The loop's result, command logs, sleeps and clock are those of `Retry` from attempt 1. The trailing `'Max retries reached'` return is unreachable. |
| Ec2.EC2Service.StartInstance | src/services/ec2Service.ts:21-103 | A failing client construction rejects the call with no command and no sleep. Otherwise the call fulfils with the result of `Retry`, and the logs, sleeps and clock follow that trace. It always makes at most three describes, with no more starts than describes. Only the region's cache entry can be added. The outcome, the new platform state and the cached regions are those of `StartCall`. |
| Ec2.RetrySpec | src/services/ec2Service.ts:25-93 | There are 1 to 3 attempts, each with one describe and at most one start. Every attempt but the last failed, and the outcome is the last attempt's. The sleeps are 5 s then 10 s, none after the last attempt. A failure comes only after all three attempts. |
| Ec2.RetryAttempts | dist/services/ec2Service.js:20-26 | From attempt `a` there are at most `4 - a` attempts, and exactly that many when the run fails. |
| Ec2.RetryStarts | src/services/ec2Service.ts:55-63 | The start commands sent are exactly one for each attempt whose describe found a startable instance. |
| Ec2.RetrySleeps | dist/services/ec2Service.js:63-76 | The sleeps are the linear backoff `5000 * k` after each failed attempt `k` but the last. |
| Ec2.RetryLastOutcome | dist/services/ec2Service.js:64-74 | The final outcome, and so the reported error message, is that of the last attempt made. |
| Ec2.RetryEarlierFailed | src/services/ec2Service.ts:78-93 | Every attempt before the last one made threw. |
| Ec2.AlreadyRunning | dist/services/ec2Service.js:32-43 | A running instance gives one describe, no start command and no sleep. The result has `previousState` and `currentState` both `'running'`. |
| Ec2.TerminatedIsRetried | src/services/ec2Service.ts:55-92 | A terminated instance does not fail fast. It is described three times, never started, slept on for 5 s and 10 s, and fails with `'Cannot start terminated instance'`. |
| Ec2.NotFoundIsRetried | dist/services/ec2Service.js:28-75 | An instance that is never found is likewise tried three times and fails with the not-found message. |
| Ec2.DescribeAlwaysThrows | src/services/ec2Service.ts:33-92 | When every describe throws, the result carries the third error. |
| Ec2.UnknownStates | src/services/ec2Service.ts:40-64 | Missing state names in both replies make `previousState` and `currentState` both `'unknown'`. |
| Ec2.Platform.Describe | src/services/ec2Service.ts:29-33 | A describe command returns the next scripted reply and is logged with the client's region. |
| Ec2.Platform.Start | src/services/ec2Service.ts:59-63 | A start command returns the next scripted reply and is logged with the client's region. |
| Ec2.Platform.Sleep | src/services/ec2Service.ts:130-132 | A sleep is logged and advances the clock by its duration. |
| Ec2.SettledResult | src/services/ec2Service.ts:115-125 | A fulfilled call gives its own result. A rejected call gives a failure for its index's instance and region, stamped with the current time, carrying the rejection's message. |
| Ec2.Reassemble | src/services/ec2Service.ts:114-127 | There is one result per input. Index `i` holds the settled value of call `i`, or a failure for input `i`. |
| Ec2.ReassembleIsolates | dist/handlers/autoStartHandler.js:160-173 | Each index echoes its own input's instance and region. Index `i` succeeds iff call `i` fulfilled with a success. A rejection becomes a failure carrying the rejection's message. |
| Ec2.CallResult | src/services/ec2Service.ts:22-93 | The result a call with a client fulfils with answers for its instance and is stamped with the clock at the call's start. |
| Ec2.StartCall | src/services/ec2Service.ts:21-103 | One `startInstance` call as a function of the cached regions and the platform state. The cache gains at most the call's region. A rejected call changes neither the platform nor the cache. A fulfilled call answers for its instance and leaves its region cached. |
| Ec2.StartCallOutcome | src/services/ec2Service.ts:14-23 | A call rejects exactly when its region has no cached client and creating one throws, and then carries what was thrown. Otherwise it fulfils with `CallResult`. |
| Ec2.Batch | src/services/ec2Service.ts:108-112 | The calls of a batch, one per instance in index order, each starting from the cache and platform state the previous one left. There is one settled outcome per instance. |
| Ec2.BatchAt | src/services/ec2Service.ts:109-111 | Outcome `i` of the batch is call `i` made from the state after the first `i` calls. |
| Ec2.BatchCache | src/services/ec2Service.ts:14-19 | The cache only grows over a batch. A region whose client construction throws is never added to it. |
| Ec2.BatchRejections | src/services/ec2Service.ts:108-112 | Call `i` rejects exactly when its region had no cached client before the batch and creating one throws. Its reason is what creating the client threw. |
| Ec2.BatchFulfilments | src/services/ec2Service.ts:108-116 | A fulfilled call `i` gives the `Retry` result for instance `i`, started from the platform state after the first `i` calls. |
| Ec2.BatchEchoes | src/services/ec2Service.ts:109-116 | Every fulfilled call of the batch answers for its own instance. |
| Ec2.EC2Service.StartMultipleInstances | src/services/ec2Service.ts:105-127 | The settled outcomes, the platform state afterwards and the cached regions are exactly those of `Batch` over the inputs from the state before. The results are the reassembly of those outcomes. There is one result per input, in order, each echoing its input. At most three describes are made per instance. Cached clients are kept. |
| AutoStartHandler.ConfigKey | src/handlers/autoStartHandler.ts:14 | The configuration key is `CONFIG_KEY` when set and non-empty, and `'config/settings.json'` otherwise. |
| AutoStartHandler.HandlerRegion | src/handlers/autoStartHandler.ts:17 | The region is `AWS_REGION` when set and non-empty, and `'us-east-1'` otherwise. |
| AutoStartHandler.ConfigStore.GetConfig | src/handlers/autoStartHandler.ts:20-21 | The configuration is fetched once per request and the request is logged. |
| AutoStartHandler.Mailer.SendSummary | src/handlers/autoStartHandler.ts:44-45 | The summary is sent once, and the send may throw. |
| AutoStartHandler.Project | src/handlers/autoStartHandler.ts:36-39 | The instance list has the due list's length and order, each element carrying its entry's id and region. |
| AutoStartHandler.ProjectDistributes | dist/handlers/autoStartHandler.js:330-333 | The projection maps concatenations piecewise, so order is kept. |
| AutoStartHandler.ProjectedInstancesAreValid | src/handlers/autoStartHandler.ts:24-39 | On a validated table every projected instance has a non-empty id and region. |
| AutoStartHandler.CountSucceeded | src/handlers/autoStartHandler.ts:49 | The logged success count is at most the number of results. |
| AutoStartHandler.CountFailed | src/handlers/autoStartHandler.ts:50 | The logged failure count is at most the number of results. |
| AutoStartHandler.CountsPartition | src/handlers/autoStartHandler.ts:49-50 | The logged success and failure counts add up to the number of results. |
| AutoStartHandler.CountSucceededIsSize | dist/handlers/autoStartHandler.js:338 | The success count is the number of indices whose result succeeded. |
| AutoStartHandler.Handler | src/handlers/autoStartHandler.ts:7-56 | One configuration request with the defaulted key and region. A load or validation error is rethrown before any command, sleep or mail. No due entry returns normally with none of them. Otherwise the projected due list is started as `Batch` from a fresh service: the settled outcomes and the platform state afterwards are the batch's, and the one summary sent carries exactly their reassembly. A failing send is rethrown. |

## Left out

- The cron grammar, `prev()` and timezone rules of `cron-parser` are foreign code. They are the `CronLibrary` parameter: what parsing throws, and the previous firing in epoch milliseconds, if any.
- The AWS SDK (`EC2Client`, `client.send`, the command objects) is network I/O. It is the scripted `Platform`. A reply is a found instance with an optional state name, no instance, or a thrown value.
- `Promise.allSettled` runs the calls concurrently; the model runs them one after another in index order. In the source all calls start together and their sleeps overlap. In the model, instance `i`'s `startTime`, the time stamped on a rejected call, and the final clock include the backoff sleeps of every earlier instance; each `duration` is still that call's own sleeps. The platform's replies are scripted by global call number, so the sequential order also decides which reply each instance's commands get, and not only how commands interleave in the logs. In the source every call's first describe is sent, in index order, before any reply is awaited. `BatchAt` and `BatchFulfilments`, which start call `i` from the state after the first `i` calls, are properties of this sequential model.
- `setTimeout` is modelled as the `Platform.Sleep` log and a clock that only sleeps advance. `Date.now()` and `new Date()` read that clock. The model gives no meaning to wall-clock time passing during API calls.
- `S3Service` (loading and `JSON.parse` of the configuration) is not part of this model. It is the `ConfigStore` collaborator, which yields the table or a thrown value. A configuration without `autoStartSchedules` is not modelled.
- `EmailService` (the SES send and its HTML template) is not part of this model. It is the `Mailer` collaborator, which records each summary and may throw.
- The `test-cron*.js` scripts only probe the cron library and are not part of this model.
- `console.log` and `console.error` output, and the event argument, are left out. `process.env` is the `Env` value, with `None` for an unset variable.
- JavaScript falsiness of required fields: a missing field is the empty string. Non-string values in the configuration are not modelled.
- `src/services/scheduleParser.ts` is not part of this model; `dist/services/scheduleParser.js` and the bundled copy are.
