# TenantForge: verified protocols

A Dafny model of the transactional core of TenantForge, a multi-tenant backend on PostgreSQL and
Redis. `dafny verify dfyconfig.toml` checks the whole project.

PostgreSQL is a table of committed rows, row locks held until the transaction ends, and unique keys.
Every service that takes part in a concurrent protocol is a transaction advancing one lock, one read
or one commit at a time, and any transaction may abort between any two steps. Redis is three lists
and a map of counters, each command or script atomic. The queue, the worker, the rate limiter and the
loops of period rolling and signature checking keep their imperative form: classes and methods proved
against specification functions, which the state machines then share.

| module | about |
|---|---|
| `Calendar`, `BillingPeriods` | Gregorian month addition with clamping, the rolling loop, billing periods |
| `Quota` | usage recording, plan changes and webhooks under the organization lock, with separate clock reads |
| `Jobs`, `JobQueue`, `Workers` | the encoded job, the three lists, retries and dead letters |
| `BillingDb` | storing, applying and failing webhooks, plan changes, creation and deletion, interleaved |
| `Pipeline` | deliveries, queue, worker, database and crashes composed into one machine |
| `Owners`, `Invitations`, `Provenance`, `Lineage` | memberships, invitations, and where privileged roles come from |
| `Tokens` | refresh-token rotation |
| `RateLimit` | the fixed-window limiter |
| `Signature` | the webhook signature header |
| `Projects` | project and membership requests of many tenants, and that they do not interfere |
| `Plans`, `Roles`, `Options` | shared vocabulary |

A state machine is read as follows: `Enabled(s, a)` says when a step may happen, `Do(s, a)` what it
does, `ValidRun` and `After` extend both to runs, `Inv` is the invariant. Fields documented as history
(`log`, `peak`, `origin`, `issued`, `acked`, `accepted`, `chains`, `joined`, ...) record what happened
and decide no step; `issued`, `known` and `ids` also keep new ids new.

Where the code does less than its documentation says or its purpose asks, the model keeps the code as
it is, and the project gives an input and the exact condition:

- The application's README.md promises (lines 113 and 215) that no member elevates itself. The session
  loads the actor's membership before it is locked (app/api/deps.py:75-79) and keeps showing the loaded
  role, so an owner who is demoted in between can still commit an update of its own row. `Owners.StaleSelfPromotion` is
  such a run, `Owners.SelfPromotionIff` says exactly when it happens, and `Owners.CommitIsAllowedIff`
  exactly when a commit is allowed by the committed roles. In serial runs the promise holds
  (`Provenance.NobodyPromotesThemselves`).
- It also promises that administrators invite members only (line 105) and cannot escalate (line 215).
  The invitation route loads the inviter in the same way, so an owner who is made administrator in
  between can still commit the invitation of an owner. `Invitations.StaleInvitation` is such a run,
  `Invitations.InvitationExceedsIff` says exactly when it happens. What still holds in every
  interleaving is `Lineage.RoleLineage`: behind each privileged role there is an actor who was an owner
  when its session loaded it or when its row was locked, and so on back to the founder.
- It promises the remaining seconds with a quota refusal (line 152); the code announces `int(...)` of
  them (app/services/usage.py:144). `Quota.RetryAfterOutlastsPeriod` gives the exact condition under
  which waiting that long leaves the period, `Quota.RetryAfterFallsShort` a refusal that misses it.
- A non-ASCII `v1` value makes `hmac.compare_digest` raise instead of comparing unequal
  (app/services/webhooks.py:65), so an extra signature can turn acceptance into an error.
  `Signature.ExtraPart` says exactly when, `Signature.NonAsciiSignatureRaises` gives a family;
  `Signature.RaisingMeans` covers every header.
- A timestamp too large for a double makes the subtraction from the clock raise
  (app/services/webhooks.py:59). `Signature.BuiltHeaderVerifies` has the exact condition,
  `Signature.HugeTimestampRaises` an instance.

A webhook may replace the stored period by any other, and the quota then counts by the new one:
`Quota.MovedPeriodEscapesQuota` is a run in which one month holds two quotas. `Quota.QuotaSafety` is
therefore about runs whose webhooks bill the present instant as the row they find does, which suffices
and can be checked before the call; `BillingPeriods.SameBillingIff` says what it amounts to.

The retry budget of a job is `max_attempts + 1 - attempt` polls up to the maximum attempt. A job above
it still costs one poll, and counts as one (`Workers.OverdueEntryCostsOnePoll`).

## Model

| member | source | states |
|---|---|---|
| `Calendar.MonthsAreContiguous` | app/services/usage.py:34-39 | Real month lengths and leap years fit together: every month starts on the day after the previous one ends, across year ends and leap days, for every year |
| `Calendar.MonthStartIsCivil` | app/services/usage.py:37 | The month table against the usual count of civil days: with years counted from March, the first day of the k-th month is day `365 y + y/4 - y/100 + y/400 + (153 k + 2)/5 - 306`, for every month of every year |
| `Calendar.MonthLengths` | app/services/usage.py:37 | Months of 30 and 31 days alternate, with July and August both long; February has 28 days, and one more in a year of 366 |
| `Calendar.TicksInjective` | app/services/usage.py:55-63 | Instants that compare equal are the same date and time, so the comparisons of the period code decide equality |
| `Calendar.MonthStepLength` | app/services/usage.py:34-39 | One month step moves forward by 28 to 31 whole days, whatever is clamped |
| `Calendar.MonthStepsLength` | app/services/usage.py:62-64 | `k` month steps move forward by `28k` to `31k` days and keep the time of day |
| `Calendar.RepeatedAddition` | app/services/usage.py:62-64 | Closed form of `k` month steps: the month advances by exactly `k` with year carry, and the day is the minimum of the starting day and the lengths of all months passed through |
| `Calendar.SettledDay` | app/services/usage.py:37-38 | Once the day is at most 28, no later step changes it |
| `BillingPeriods.RollForward` | app/services/usage.py:62-65 | The loop returns the one boundary-to-boundary slot that contains `now`, and its number of turns lies between the 31-day and the 28-day count from the stored end |
| `BillingPeriods.SubscriptionPeriod` | app/services/usage.py:48-65 | The whole function, with missing, degenerate and future rows: it equals the specified period, is ordered, and contains `now` unless the row starts in the future |
| `BillingPeriods.RollIsTheSlot` | app/services/usage.py:62-65 | Rolling gives the slot that contains the instant, however that slot was found |
| `BillingPeriods.CalendarRolls` | app/services/usage.py:42-45 | Rolling a calendar month forward gives the calendar month of the later instant |
| `BillingPeriods.RollingIsPathIndependent` | app/services/billing.py:76-82 | Writing back the period rolled at `a` and rolling at any later `b` gives the period of the original row at `b`, for every row, missing and degenerate ones included |
| `BillingPeriods.SameBillingIff` | app/services/usage.py:48-65 | Two stored rows bill all instants from now on alike if and only if they bill this instant alike |
| `BillingPeriods.DescribedPeriodMeaning` | app/services/webhooks.py:221-228 | A described period keeps each boundary that is given; a missing start is the first instant of the present month, a missing end that of the next; it is legal if and only if the boundaries do not run backward, which is spelled out for each case |
| `BillingPeriods.PeriodsPartition` | app/services/usage.py:48-65 | From the stored start on, each instant's period contains it, and two instants have the same period or disjoint ones |
| `BillingPeriods.PeriodsHaveNoGaps` | app/services/usage.py:62-65 | Each period ends at the very date and time at which the next one starts |
| `Quota.CheckedStaysWithin` | app/services/usage.py:138-157 | An event checked in one period and dated in that or a later one keeps every period within the largest quota so far |
| `Quota.UsedIsTheSum` | app/services/usage.py:68-83 | What is used: events add up in any order, and one counts with its quantity if it is of that organization and metric and dated from the start of the period to before its end |
| `Quota.QuotaSafety` | app/services/usage.py:127-159 | In every interleaving of recordings, plan changes and webhooks under an advancing clock, provided each webhook that describes a period describes one that bills the present instant as the row it found, the events dated in any one billing period sum to at most a quota that was in force at some step of the run |
| `Quota.PlanChangesKeepPeriods` | app/services/billing.py:67-96 | After any such run, the stored row bills every later instant as the row the organization started with |
| `Quota.RecordingSucceedsIff` | app/services/usage.py:124-160 | Undisturbed, a recording goes through if and only if what is used of the current period and the quantity stay within 1,000 (FREE or no subscription), 50,000 (PRO) or 500,000 (BUSINESS); it then adds exactly its event |
| `Quota.LateRecording` | app/services/usage.py:138-157 | If the clock advances between check and insert, the check decides by the earlier reading and the event is dated by the later one |
| `Quota.ChangeTakesEffect` | app/services/billing.py:67-96 | Undisturbed, a plan change sets exactly the plan and stores the period in force, for a missing row the calendar month |
| `Quota.WebhookTakesEffectIff` | app/services/webhooks.py:169-236 | Undisturbed, a webhook goes through unless its boundaries run backward; a description then stores its plan and exactly its period, anything else leaves the subscription as it is or creates a FREE one for the present month; nothing else changes |
| `Quota.EndFreesLocks` | app/database.py:18-25 | Commit, refusal and rollback free the organization the transaction had locked and no other; refusal and rollback change no row |
| `Quota.LeavesPeriodIff` | app/services/usage.py:48-65 | For every stored row, a missing one and one that starts in the future included: a later instant is in another billing period if and only if it is not before the end of the present one |
| `Quota.DelayReachesEnd` | app/services/usage.py:144 | The announced delay is the whole seconds left, at least one, so it reaches the end of the period only if no fraction is cut off |
| `Quota.RetryAfterOutlastsPeriod` | app/services/usage.py:139-150 | Of a refused recording in any state, whatever row is stored, with its second clock reading: an instant the announced seconds later is in another billing period if and only if less than a second, or a whole number of seconds, was left |
| `Quota.RetryAfterFallsShort` | app/services/usage.py:138-150 | A run from the empty usage table to a refused recording with 5.5 seconds left: 5 are announced, and 5 seconds later the same period is in force |
| `Quota.MovedPeriodEscapesQuota` | app/services/webhooks.py:213-232 | A run of a FREE organization in which a webhook moves the stored period from 1 to 10 January: the events of January sum to twice the only quota ever in force |
| `Jobs.DumpLoad` | app/infrastructure/queue.py:57-73 | Dumping a loaded tree gives back that tree, at every depth |
| `Jobs.LoadDump` | app/infrastructure/queue.py:73 | A plain payload comes back as it was; a tuple comes back as the list of its items, any other object as its text |
| `Jobs.GetMeans` | app/infrastructure/queue.py:57-65 | Of several fields with one key the last counts |
| `Jobs.EncodeDecode` | app/infrastructure/queue.py:56-73 | Every encoded job decodes, to a job that encodes to the very same entry, so removal by value finds it |
| `Jobs.DecodesIff` | app/infrastructure/queue.py:56-67 | An entry decodes to a job if and only if it is an object that agrees with the encoding of that job on its five fields; other fields do not matter |
| `Jobs.RetryEntry` | app/infrastructure/queue.py:129-135 | The entry a retry writes decodes to the next attempt of the same job |
| `Jobs.RedactKeeps` | app/infrastructure/queue.py:23-33 | Redaction keeps every field whose key is not sensitive, redacting inside it |
| `Jobs.RedactionIsSafe` | app/infrastructure/queue.py:23-33 | No sensitive key of a redacted payload keeps its value, at any depth |
| `Jobs.SensitiveIff` | app/infrastructure/queue.py:14-28 | The sensitive keys are the five words in any mixture of upper and lower case |
| `Jobs.SafeIsKept` | app/infrastructure/queue.py:23-33 | Redaction changes nothing that is safe already |
| `Jobs.WebhookEntry` | app/api/routes/webhooks.py:56-60 | The entry the route pushes decodes to a first attempt naming the stored event |
| `Jobs.DeadLetterNames` | app/infrastructure/queue.py:137-151 | A dead letter still tells the job's id, type, date, attempt and event, after redaction, and when and with which error it failed |
| `Jobs.DeadLetterIsSafe` | app/infrastructure/queue.py:137-151 | For every job read from the queue, the letter holds the payload redacted, safe at every depth; a payload that was safe is unchanged |
| `Jobs.NamedEventIff` | app/workers/jobs.py:38-43 | A job names an event if and only if it is a billing webhook job with that nonempty text under `webhook_event_id` |
| `JobQueue.RedisJobQueue.Enqueue` | app/infrastructure/queue.py:90-99 | Afterwards the waiting list is the encoded job followed by what was waiting, and the other lists are unchanged |
| `JobQueue.RedisJobQueue.Dequeue` | app/infrastructure/queue.py:101-124 | Moves the tail of the waiting list in flight; a malformed entry goes to the dead list and raises; an empty list gives nothing |
| `JobQueue.RedisJobQueue.Acknowledge` | app/infrastructure/queue.py:126-127 | Removes the first in-flight entry equal to the re-encoded job |
| `JobQueue.RedisJobQueue.Retry` | app/infrastructure/queue.py:129-135 | Removes the entry and pushes the next attempt in one step |
| `JobQueue.RedisJobQueue.MoveToDeadLetter` | app/infrastructure/queue.py:137-151 | Removes the entry and pushes its redacted dead letter in one step |
| `JobQueue.RedisJobQueue.RecoverInFlight` | app/infrastructure/queue.py:153-157 | Leaves in-flight followed by waiting, both in list order, empties the in-flight list and returns its length |
| `JobQueue.RemoveFirstMultiset` | app/infrastructure/queue.py:127 | Removal by value takes away exactly one occurrence of the entry, and leaves a list without it as it was |
| `JobQueue.RemoveFirstSplit` | app/infrastructure/queue.py:127 | Removal by value takes the occurrence nearest to the head |
| `JobQueue.FirstInFirstOut` | app/infrastructure/queue.py:90-157 | Enqueued and retried jobs and recovered entries are taken after everything that was waiting before them; acknowledging and burying change no turn |
| `JobQueue.SettlesWhatWasTaken` | app/infrastructure/queue.py:101-127 | Acknowledging right after taking removes exactly the entry taken, even among equal ones |
| `Workers.Worker.RunOnce` | app/workers/worker.py:34-81 | One poll is the specified step: acknowledge on success, sleep and retry below the maximum, dead-letter at it; its result is exactly handled, nothing waiting, or raised on a bad entry or delay index |
| `Workers.Worker.RunForever` | app/workers/worker.py:83-91 | After any number of polls, each with its own time and error, the state is that of recovery followed by that many specified polls, with a one-second nap after each that raised |
| `Workers.PollMeans` | app/workers/worker.py:34-81 | What a poll of a job does to the three lists, for every handler outcome: the job leaves, comes back at the next attempt, or is buried; a type without handler fails; the in-flight list ends as it was, unless the attempt is below every delay index |
| `Workers.DrainsWithinBudget` | app/workers/worker.py:34-81 | For any handlers, delays and entries, a run without crashes or new jobs empties the queue within the summed retry budgets |
| `Workers.OverdueEntryCostsOnePoll` | app/workers/worker.py:46-56 | A job above the maximum attempt costs exactly one poll, which removes it |
| `Workers.FailuresSpendTheBudget` | app/workers/worker.py:44-71 | The budget is exact: when every call fails, each poll spends one, so no fewer polls drain the queue |
| `Workers.PollAdvancesTrace` | app/workers/worker.py:34-81 | A poll moves one step of a failing job's future into its past, and polls of other jobs change neither |
| `Workers.PollKeepsBurials` | app/infrastructure/queue.py:137-151 | The letters of a job in the dead list are exactly its logged burials, with their attempts |
| `Workers.AlwaysFailingJob` | app/workers/worker.py:44-71 | A new job that always fails, among any others, runs exactly `max_attempts + 1` times, sleeps `delays[min(i, len-1)]` after each attempt but the last, and leaves exactly one letter in the dead list, at attempt `max_attempts` |
| `BillingDb.EventMeaning` | app/services/webhooks.py:206-236 | Raising is up to the event alone; a description makes subscriptions equal that differ at most in ids it mentions; other events change the status alone; the last status event wins, a description drops any status before it, and a repeated event changes nothing |
| `BillingDb.ApplyMeaning` | app/services/webhooks.py:213-232 | One event field by field: CANCELED or PAST_DUE and nothing else, or a description, refused if and only if its boundaries run backward, that stores the plan, the status or ACTIVE, the boundaries given, and the ids mentioned |
| `BillingDb.PlanChangeMeaning` | app/services/billing.py:67-96 | A plan change sets plan and status, keeps the external ids, and bills every later instant as before |
| `BillingDb.PlanChangeTakesEffect` | app/services/billing.py:46-96 | Undisturbed, a plan change commits with that meaning and changes nothing else; a missing subscription is created on the way, billed by calendar months |
| `BillingDb.CreationTakesEffect` | app/services/billing.py:15-31 | A new organization gets a FREE, ACTIVE subscription without external ids, billed by calendar months |
| `BillingDb.DeletionTakesEffect` | app/services/organizations.py:126-153 | Undisturbed, deleting an organization takes away it and its subscription and nothing else, and no later step brings it back |
| `BillingDb.EndFreesLocks` | app/database.py:18-25 | Commit and rollback free the locks of the transaction and no other; rollback changes no row |
| `BillingDb.DeliveryStoresOnce` | app/services/webhooks.py:119-153 | An undisturbed first delivery stores its event as PENDING and reports it as created |
| `BillingDb.RedeliveryStoresNothing` | app/services/webhooks.py:119-131 | A repeated delivery changes no table and reports the stored event with its status |
| `BillingDb.MarkingFails` | app/services/webhooks.py:256-267 | Marking sets the status of that one event to FAILED, and changes nothing once it is PROCESSED |
| `BillingDb.CommitKeeps` | app/services/webhooks.py:190-253 | Every commit keeps the invariant: unique external ids, one history entry per PROCESSED event, subscription equal to its history, locked rows unchanged under other transactions |
| `BillingDb.StepKeeps` | app/services/webhooks.py:119-267 | So does every other lock, read, insert, abort and creation step |
| `BillingDb.ExactlyOnce` | app/services/webhooks.py:119-153 | In every run an event has been applied once if PROCESSED and never otherwise, and no two events share an external id |
| `BillingDb.ProcessedIsAbsorbing` | app/services/webhooks.py:256-267 | Retries, failure marking and re-delivery never undo PROCESSED |
| `BillingDb.SubscriptionIsFold` | app/services/webhooks.py:169-236 | An existing organization's subscription is the fold of its applied events and plan changes in commit order, and every stored period starts before it ends |
| `BillingDb.FoldInClosedForm` | app/services/webhooks.py:213-232 | In closed form: plan and status come from the last change that sets them, external ids from the last event that mentions them, wherever in the history it is |
| `BillingDb.SubscriptionInClosedForm` | app/services/webhooks.py:190-253 | In every run the stored subscription is that closed form of its history, and bills every instant not before its plan changes by the basis of that history |
| `BillingDb.BilledByLastDescription` | app/services/billing.py:76-82 | Whatever plan changes follow, later instants are billed by the last period an event or the creation described; a subscription created on the way, without any, is billed by calendar months |
| `BillingDb.AuditReplay` | app/services/billing.py:83-94 | The "subscription.changed" rows form a chain of plans that starts from FREE, links each row to the one before, and ends at the current plan |
| `Pipeline.StepKeeps` | app/workers/jobs.py:38-56 | Every delivery, database, worker, recovery, error and crash step keeps the pipeline invariant |
| `Pipeline.NoAcceptedWebhookIsLost` | app/api/routes/webhooks.py:53-68 | Once a delivery was answered, then after any further run its event is PROCESSED or a job naming it is waiting, in flight or dead-lettered |
| `Pipeline.JobConservation` | app/infrastructure/queue.py:90-157 | In every run with crashes anywhere, each enqueued job id is in exactly one of waiting, in flight, dead and acknowledged, and no other id is anywhere |
| `Pipeline.FirstPushedFirstTaken` | app/infrastructure/queue.py:90-157 | In every run with crashes and recoveries anywhere, the k-th job the worker gets is the k-th entry put into the queue, counting new jobs, retries and recovered entries |
| `Pipeline.RecoveryEnds` | app/infrastructure/queue.py:153-157 | Recovery run to its end leaves in-flight followed by waiting, both in order, and an idle worker |
| `Pipeline.RedeliveryEnqueuesIff` | app/api/routes/webhooks.py:53-60 | A repeated delivery puts a job at the head of the waiting list if and only if the stored event is not PROCESSED; otherwise it is answered and no list changes |
| `Pipeline.SettlesOwnEntryOnly` | app/infrastructure/queue.py:126-151 | Acknowledging, retrying or burying takes exactly the worker's own entry out of the in-flight list |
| `Pipeline.PipelineExactlyOnce` | app/workers/jobs.py:44-54 | At-least-once delivery has exactly-once effects across crashes, restarts and re-delivery |
| `Pipeline.WorkerAppliesNextEntry` | app/workers/worker.py:39-81 | From every reachable idle state, if the next entry names an unprocessed event whose rows are free and whose change is legal, the worker's seven steps apply it, mark it PROCESSED and remove exactly that entry |
| `Pipeline.FailureIsRecorded` | app/workers/jobs.py:44-54 | When applying raises, its locks and uncommitted work are given up, the event is marked FAILED unless it is PROCESSED, and the worker is left with the failed job |
| `Pipeline.CrashAndRestart` | app/workers/worker.py:83-91 | A crash and the restart after it keep the committed tables, drop the worker's open transaction and its locks, put what was in flight in front of what waits, and leave the worker idle |
| `Pipeline.RedisErrorKeepsJob` | app/workers/worker.py:86-91 | After an error of Redis the job in hand is still in flight, no list has changed, and the worker polls on |
| `Pipeline.OtherJobSettles` | app/workers/worker.py:34-81 | A job that names no event leaves the queue if its handler returns, and otherwise comes back at the next attempt or is buried |
| `Pipeline.PollActsAsOnce` | app/workers/worker.py:34-81 | Taking a job, handling it while other transactions interleave, and settling it changes the lists as one poll of the worker class does |
| `Pipeline.CalmStretchWithinBudget` | app/workers/worker.py:44-71 | In every stretch of a run without crashes, errors of Redis and new jobs, the worker takes at most as many jobs as the retry budgets at its start allow |
| `Pipeline.DrainedMeansSettled` | app/workers/worker.py:34-81 | In every run, once nothing is waiting or in flight, every accepted event is PROCESSED or dead-lettered |
| `Pipeline.CalmStretchSettlesAll` | app/workers/worker.py:34-91 | End to end: after any run and a recovery, a stretch without crashes, errors of Redis and new jobs in which the worker polls as often as the budgets allow, polls that find nothing included, and comes to rest empties the queue and settles every accepted event, whichever attempts succeed |
| `Owners.UnscannedChangeIsHarmless` | app/services/organizations.py:187-200 | A role change or removal that skips the owner scan, whatever stale role the actor believes in, removes no owner |
| `Owners.CommitKeepsOwners` | app/services/organizations.py:284-302 | A committing change leaves every organization an owner, because the owner that justified it is locked |
| `Owners.EveryOrganizationHasAnOwner` | app/services/organizations.py:177-243 | In every committed state of every interleaving each organization has an owner, and memberships are unique per user |
| `Owners.CommitIsAllowedIff` | app/services/organizations.py:184-200 | In every interleaving, a committing change is allowed by the committed roles if the actor's row has kept or raised the role the session shows, and otherwise if and only if the actor is still ADMIN and the target a plain member who stays one or leaves |
| `Owners.OnlyLoadedRowIsStale` | app/api/deps.py:75-79 | The role a change is decided on differs from the committed one only if the membership loaded before the lock was changed since |
| `Owners.SelfPromotionIff` | app/services/organizations.py:184-200 | In every interleaving, a committing update raises its actor's own role if and only if the session had loaded OWNER, the row has become MEMBER, and the new role is ADMIN |
| `Owners.StaleSelfPromotion` | app/services/organizations.py:177-200 | A complete run in which a demoted owner makes itself ADMIN |
| `Owners.CommitsOnlyIfPermitted` | app/services/organizations.py:177-243 | A transaction that ran alone, whatever order it scanned in, commits only if the actor's role allows the change and another owner remains, and then changes exactly the requested membership |
| `Owners.ScanFinishes` | app/services/organizations.py:284-302 | Left alone, the owner scan locks and reports every owner |
| `Owners.PermittedCommits` | app/services/organizations.py:177-302 | Conversely, every permitted change has a run to its commit; `Owners.ChangeCommitsIff` says which those are |
| `Owners.ChangeCommitsIff` | app/services/organizations.py:177-243 | Role by role: undisturbed, a change has a run to its commit if and only if an OWNER makes it, to any member and any role, or an ADMIN keeps or removes a plain MEMBER, and an owner who is demoted or removed leaves another behind; every such run gives exactly that role or takes exactly that row away |
| `Owners.EndFreesLocks` | app/database.py:18-25 | Commit and rollback free the locks of the transaction and no other; rollback changes no row |
| `Tokens.UnrevokedTokensAreConserved` | app/services/auth.py:52-108 | In every interleaving, deactivations between reading the user and commit included, a user's unrevoked tokens plus effective logouts equal the logins |
| `Tokens.LoginsGrowSimpleChains` | app/services/auth.py:72-94 | Each login grows a chain without repetition, all of it revoked except perhaps the last token, holding all tokens of that login |
| `Tokens.RotatedAtMostOnce` | app/services/auth.py:72-94 | A token has been rotated once if it has a successor, never otherwise |
| `Tokens.RotationSucceedsIff` | app/services/auth.py:72-113 | Undisturbed, rotation succeeds if and only if the token exists, is unrevoked and unexpired and its user is active; it then revokes that token and adds one of the same user and login |
| `Tokens.LoginIssuesIff` | app/services/auth.py:42-69 | In every interleaving, whatever others do before and after the session reads the user, a login issues its token if and only if the user was active at that reading; it then adds exactly that token, as a chain of its own |
| `Tokens.LogoutRevokes` | app/services/auth.py:97-108 | Undisturbed, a logout of an existing token, and of no other, revokes that token and nothing else, however often it is repeated |
| `Tokens.EndFreesLocks` | app/database.py:18-25 | Commit and rollback free the locks of the transaction and no other; rollback changes no row |
| `RateLimit.FixedWindowRateLimiter.Check` | app/infrastructure/rate_limit.py:31-59 | Raises exactly on nonpositive arguments; otherwise runs the script on the window's counter and reports its verdict, remaining count and delay; the counters stay those of the history of checks, and the verdict is that history's |
| `RateLimit.RetryAfterIsExact` | app/infrastructure/rate_limit.py:53 | The delay is between 1 and the window length, waiting it reaches the next window, and a second less does not |
| `RateLimit.CountersCountCalls` | app/infrastructure/rate_limit.py:9-15 | While each script runs within a second of its clock reading, a counter outlives its window and holds exactly the number of checks in it |
| `RateLimit.WindowAdmitsExactly` | app/infrastructure/rate_limit.py:42-59 | Every window admits exactly min(limit, calls) per identifier |
| `RateLimit.BurstBound` | app/infrastructure/rate_limit.py:42-59 | Any span of one window length admits at most twice the limit per identifier |
| `Signature.Collect` | app/services/webhooks.py:48-52 | The loop over header parts collects under each key exactly its values, in order |
| `Signature.CompareAll` | app/services/webhooks.py:64-66 | The comparison stops at the first match and raises at the first non-ASCII value before it |
| `Signature.Verify` | app/services/webhooks.py:37-66 | The whole function: missing header, missing, malformed or overlong timestamp, tolerance, overflow of the clock difference, signatures |
| `Signature.SpacesAre` | app/services/webhooks.py:49-54 | The characters `int` skips are the Unicode white space, one by one; `strip` also takes off the four information separators |
| `Signature.CompareMeans` | app/services/webhooks.py:64-66 | A comparison accepts if and only if some signature is the expected one and none up to it is non-ASCII |
| `Signature.CompareRaises` | app/services/webhooks.py:64-66 | A comparison raises if and only if some signature is non-ASCII and none before it is the expected one |
| `Signature.ContributionMeans` | app/services/webhooks.py:48-52 | A header part has a value under a key if and only if, stripped, it is that key, an equals sign and a nonempty value |
| `Signature.NumeralIff` | app/services/webhooks.py:54 | The numerals are the digits with single underscores between them |
| `Signature.NumeralValue` | app/services/webhooks.py:54 | Their value is positional, underscores aside |
| `Signature.ParseIntMeans` | app/services/webhooks.py:54 | `int` reads an optional sign and a numeral of at most 4300 digits between whitespace, and raises on every other string |
| `Signature.AcceptanceMeans` | app/services/webhooks.py:45-66 | A header is accepted if and only if its first timestamp is an integer that a double can hold, the clock is at most the tolerance after it and at most the tolerance before it, and such a match exists for the digest of that timestamp, a dot and the payload under the secret |
| `Signature.RaisingMeans` | app/services/webhooks.py:45-66 | Verification raises if and only if the first timestamp is an integer, the tolerance is not negative, and either no double holds the timestamp, or it is within the tolerance and such a signature exists |
| `Signature.AcceptedHeaderExpires` | app/services/webhooks.py:58-60 | A header accepted at one clock reading is accepted at another exactly within the tolerance of its timestamp on both sides, and rejected before and after |
| `Signature.BuiltHeaderVerifies` | app/services/webhooks.py:31-66 | A built header is `t=<timestamp>,v1=<digest>`, and verifies if and only if a double can hold the timestamp and the clock is at most the tolerance after and at most the tolerance before it, for every payload, secret and integer timestamp |
| `Signature.HugeTimestampRaises` | app/services/webhooks.py:58-60 | The first timestamp that a double cannot hold raises although it is within the tolerance |
| `Signature.LimitIsMidpoint` | app/services/webhooks.py:59 | The first integer no double holds lies halfway between the largest double and the power of two after it |
| `Signature.ExtraPart` | app/services/webhooks.py:45-66 | Inserting a part under an unknown key or an extra `v1` part into an accepted header keeps it accepted if and only if each added `v1` value is ASCII or follows a match; otherwise it raises; it is never rejected |
| `Signature.NonAsciiSignatureRaises` | app/services/webhooks.py:64-66 | A non-ASCII `v1` part in front of any built header raises |
| `Invitations.OneActiveInvitation` | app/services/invitations.py:19-74 | At any time from the latest creation on, at most one unaccepted, unexpired invitation exists per organization and address, whatever creators and acceptors interleave |
| `Invitations.OneMembershipPerInvitation` | app/services/invitations.py:77-130 | Each invitation has yielded one membership if accepted and none otherwise, and memberships stay unique per user and organization |
| `Invitations.MembershipMatchesInvitation` | app/services/invitations.py:82-119 | A membership comes from an invitation that was unaccepted and unexpired at the acceptor's clock reading, addressed to that user, with that role |
| `Invitations.CreationSucceedsIff` | app/services/invitations.py:19-74 | Undisturbed, an invitation is created if and only if the organization exists, the inviter is OWNER, or ADMIN inviting a MEMBER, nobody in the organization has the address, and each invitation to it is accepted or has expired; exactly that invitation is added, and expires after the configured time |
| `Invitations.AcceptanceSucceedsIff` | app/services/invitations.py:77-130 | Undisturbed, an invitation is accepted if and only if it exists, is unaccepted and unexpired, is addressed to the user, and the user is no member; exactly that membership and that mark are added |
| `Invitations.ChangeSucceedsIff` | app/services/organizations.py:177-211 | Undisturbed, a role change commits if and only if actor and target are members, the actor is OWNER and an owner remains, or the actor is ADMIN and the target a MEMBER who stays one; it sets exactly that role |
| `Invitations.EndFreesLocks` | app/database.py:18-25 | Commit and rollback free the locks of the transaction and no other; rollback changes no row |
| `Invitations.RemovalIsFinal` | app/services/organizations.py:214-243 | After any further run a removed membership is still gone, and no transaction can act on it |
| `Invitations.InvitationExceedsIff` | app/services/invitations.py:25-27 | In every interleaving with role changes and removals, a committing invitation exceeds what the inviter's committed role allows if and only if the session had loaded OWNER, the row has become ADMIN, and the invited role is not MEMBER |
| `Invitations.StaleInvitation` | app/services/invitations.py:145-163 | A complete run from the empty organization in which an administrator commits the invitation of an owner |
| `Lineage.TxnStep` | app/api/deps.py:75-79 | A transaction keeps its actor from its beginning on, and the role it shows is the one loaded at its beginning or the one committed when the row was locked |
| `Lineage.SeenAt` | app/services/invitations.py:145-163 | In every interleaved run, a transaction that shows its actor as OWNER loaded or locked that row, earlier in the same transaction, when it was committed as an OWNER's of that actor |
| `Lineage.InvitationLineage` | app/services/invitations.py:25-27 | In every interleaved run, every invitation to a privileged role was committed by a transaction that had seen its actor as OWNER, and that row traces back in turn |
| `Lineage.RoleLineage` | app/services/organizations.py:177-211 | In every interleaved run and at every step, each OWNER or ADMIN role traces, within one organization, through role changes and accepted invitations back to the founder, each committed for a row that was an OWNER's when the session loaded it or when it was locked |
| `Lineage.PrivilegeHasLineage` | app/services/organizations.py:177-211 | The same of the state a run ends in |
| `Provenance.RequestSucceedsIff` | app/services/organizations.py:177-243 | When each request of a serial run is granted, role by role, and what it then does |
| `Provenance.InvitationProvenance` | app/security/permissions.py:10-18 | In every serial run, every invitation to a privileged role was made by someone who was OWNER then, and who traces back in turn |
| `Provenance.RoleProvenance` | app/services/organizations.py:177-211 | In every serial run each OWNER or ADMIN role traces through grants and accepted invitations, each made by an OWNER of that moment, back to the creator |
| `Provenance.NobodyPromotesThemselves` | app/services/organizations.py:184-200 | In every serial run, the role of a member who is not an owner changes only by the act of somebody else who is; `Owners.SelfPromotionIff` has the interleaved runs |
| `Provenance.PrivilegeIsLostOnlyToOwners` | app/services/organizations.py:214-243 | In every serial run, a privileged role is changed or lost only at the hand of an owner; `Owners.CommitIsAllowedIff` has the interleaved runs |
| `Projects.ListingIsOrdered` | app/services/projects.py:50-63 | A listing holds every row once, by creation time, and by id among equal times |
| `Projects.ListingIsComplete` | app/services/projects.py:50-63 | No row is missing from a listing |
| `Projects.OutsidersLearnNothing` | app/services/projects.py:13-146 | Project requests by a user who is no member change nothing and get the answer of an organization without projects |
| `Projects.ProjectLifecycle` | app/services/projects.py:22-146 | A created project is found by every member as given, alone and in the listing, and by no other organization; an update changes the given fields alone; deletion restores the projects; three audit rows remain |
| `Projects.FieldNamesMean` | app/services/projects.py:102-114 | The audit row of an update names exactly the fields given, in alphabetical order |
| `Projects.ObjectionIs` | app/services/organizations.py:184-200 | Which error code a role change or removal gets, role by role and in the order of the rules, and when none |
| `Projects.StrangerIsRefused` | app/services/organizations.py:246-262 | Who is no member is refused, whatever the target |
| `Projects.MembershipLifecycle` | app/services/organizations.py:177-243 | A user joins, is given any role by an owner and is removed again: the members are as before, and three audit rows with their details remain |
| `Projects.JoiningTwiceIsRefused` | app/services/invitations.py:100-121 | A member who joins again is refused with `already_member`, and nothing changes |
| `Projects.OthersAreInvisible` | app/services/projects.py:13-19 | A request on another organization changes nothing this one can see |
| `Projects.SameProjectStep` | app/services/projects.py:22-146 | On two states that look alike to an organization, its project requests answer alike and leave states that look alike |
| `Projects.SameMemberStep` | app/services/organizations.py:177-243 | So do its membership requests, down to the error code of a refusal and the details of the audit row |
| `Projects.TenantNoninterference` | app/services/projects.py:13-146 | In every run, requests on an organization get the same answers, error codes included, and leave it the same projects, members and audit rows with their details, as in the run without all requests to other organizations |

## Left out

- Calendar.RepeatedAddition: years are unbounded, so Python's error beyond year 9999 is not modelled; neither are time-zone conversions, since every instant is in UTC.
- Quota.QuotaSafety: webhooks that move the billing period and rows that start in the future at the beginning are excluded by its preconditions; `Quota.MovedPeriodEscapesQuota` is a run that shows why.
- Quota.RetryAfterOutlastsPeriod: works on whole microseconds; floating-point rounding of `total_seconds()` is not modelled.
- Jobs.EncodeDecode: works on the value tree, not on JSON text; entries whose id, type, attempt or date have the wrong JSON type count as malformed where the code would coerce them with `str()` or `int()`; only entries written by something other than `enqueue` can differ.
- Jobs.RedactKeeps: lower-casing of keys is ASCII only.
- Workers.Worker.RunOnce: cancellation of a running handler is not a result here; it is a crash in `Pipeline`.
- Workers.Worker.RunForever: is watched for a number of polls given by the caller, since Dafny methods terminate; the constructor requires settings that the code checks with a ValueError.
- Pipeline.NoAcceptedWebhookIsLost: assumes one worker, as line 496 of the application's README.md does, and that Redis keeps its lists; malformed entries are handled by the queue and worker classes and do not arise in the pipeline.
- Pipeline.WorkerAppliesNextEntry: says what the worker's undisturbed steps achieve, not that the scheduler takes them.
- RateLimit.FixedWindowRateLimiter.Check: clocks are integers in microseconds, not floats.
- Signature.BuiltHeaderVerifies: the digest is a parameter of which only a nonempty lower-case hexadecimal result is required; HMAC and SHA-256 are foreign code, and so are Argon2 and JWT.
- Signature.Verify: the decimal values of characters beyond ASCII are a parameter; the rounding of the clock difference to a double is not modelled.
- Invitations.OneActiveInvitation: a removal happens in one step here, whenever the row is unlocked, and a role change takes no lock on the other owners; `Owners` has these steps. Organizations are not deleted.
- Invitations.ChangeSucceedsIff: looks for another owner when it commits, without locking the owners; `Owners.PermittedCommits` has the scan.
- Provenance.RoleProvenance: is about serial runs, in which the granter is OWNER at the grant itself; interleaved runs are in `Lineage.RoleLineage`, and when the two differ is in `Owners.CommitIsAllowedIff` and `Invitations.InvitationExceedsIff`.
- Database services are transactions on values, not classes: they are concurrent row-lock protocols, so the model captures lock order, interleaving and commit, but not aliasing of loaded objects, except for the stale actor row in `Owners` and `Invitations`.
- Deadlock detection and waiting times: a deadlocked transaction is one that aborts.
- Organization slugs, names and email normalization: single-step checks.
- API keys, audit listing, usage rollups and summaries, invitation mails: easy members that add no protocol.
- Routing, request schemas, logging, metrics, health checks, configuration, migrations, the seed script and containers: no deep property.
