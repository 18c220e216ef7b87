# Verified model of the lead pipeline

A Dafny model of LeadScraper's durable job hand-off, of the tables it fills, and of the decisions it takes on
the way, with proofs over every run, every interleaving and every input.

`dafny verify dfyconfig.toml` checks the whole project.

## What is modelled

**The hand-off.** `Pipeline` is a step system. Its state holds the outbox rows, the open claim transactions
with the rows they lock, the failure reports relays have yet to make, the two Redis lists, the running handlers, and history that no code can see: how
often each row was pushed, each job as first enqueued, how often each was started, and the jobs lost. Its
steps are those of producers (a collection's commit, a direct API enqueue, foreign bytes in the list), of any
number of relays (claim, publish one row, commit, abort, make or give up a failure report, purge) and of any number of workers
(pop, store a score, hand off a child, finish, fail, requeue, die). A push is acknowledged, refused, or takes
effect while the caller sees an error; so is a commit. A crash is an abort, or a death, between any two steps.

On it stand

- `Delivery`: claims never overlap, every published job row was pushed, and every push is accounted for;
- `Stranding` and `Outcome`: no committed business is ever without an outbox row, a job that leads to its
  score, a score, or an entry among the lost jobs; what is left once the system is idle; and that relays and
  workers alone can always get it there;
- `Retries`: one job is in one place, keeps its identity, and runs at most as often as it may;
- `Halting`: left alone, the workers stop, within a bound computed from what is queued;
- `Duplicates`: how one row comes to be pushed twice, and how the two deliveries overtake each other.

**The code against the steps.** `RedisQueue` is the queue with its two lists as fields. `Relay` is `drain` and
the tick loop, `Handlers` the job handlers and a worker's handling of one job; both run in a world where
everyone else takes an arbitrary schedule of enabled steps between any two of their own, and both are proved
to produce runs of the step system. `WorkerSlots` is the slot channel, the wait group and the goroutines as a
step system of their own; `Worker` is `Start`, its shutdown and `run`.

**The tables.** `BusinessStore` is the bulk upsert with the outbox write, and `Handlers.Collect` runs it inside
the hand-off. `LeadStore` is what a crawl stores, `Rescoring` what scoring and recommending read and write in any history,
`WebsiteCollapse` the data part of migration 002, `Migrations` the runner.

**The decisions.** `Scoring` and `LeadScore` are the engine over any rule list and the folded-in audit,
`Robots` the parser, the matcher and the TTL cache, `Embedding` the embedding cache, `Contacts` the extraction
from one page.

`Jobs`, `Sequences` and `Strings` hold what several modules share. Operations that change state are methods
proved equal to a function of the old state; the properties are lemmas about those functions.

## What came out

- **The relay can block itself.** When the first push of a claim fails, the failure is recorded through the
  pool, on a row the relay's own open transaction still locks. The report is possible if and only if that
  claim has ended and no other claim holds the row (`Delivery.ReportIsPossible`). So the relay waits for
  itself, and nothing short of its transaction ending moves it (`Delivery.ReportingRelayIsStuck`); once the
  server ends the transaction, the report goes through (`Delivery.EndedClaimFreesReport`,
  `Delivery.ReportLands`). `Relay.Drain` blocks exactly when the first claimed row carries a job whose push is
  not acknowledged and neither the server nor a cancellation ends the wait. The comment at
  internal/queue/relay.go:112-113 expects the next tick to retry.
- **A push reported as failed may have landed**, so at-least-once has two sources of duplicates: aborted
  claims, unacknowledged pushes, and nothing else (`Delivery.DuplicateAccounting`).
- **Redelivery of the scoring chain is idempotent only if one recommendation follows the last scoring.** The
  audit's text is appended to whatever score is stored, so the result equals that of one pass if and only if
  the stored score carries the text as often as one pass appends it, or there is no text
  (`Rescoring.RedeliveryMatchesOnePass`, and for deliveries that do not overlap `Rescoring.RescoringIsIdempotent`).
  Two deliveries in the list together run as score, score, recommend, recommend (`Duplicates.DeliveriesOvertake`),
  which doubles the text (`Rescoring.DoubleDeliveryDoublesText`). A recommendation that read the score before a
  scoring and writes after it undoes that scoring (`Rescoring.StaleRecommendationUndoesScoring`). A complete pass
  that nothing comes between puts everything right (`Rescoring.LastPassDecides`).
- **Migration 002 shows readers the row they saw before exactly when the newest `created_at` was unique**
  (`WebsiteCollapse.ReaderSeesTheSameRow`): the reader orders by time alone, the migration by time and id.
- **A lead skipped as unchanged is stale if and only if its stored and current texts collide under the hash**
  (`Embedding.RunLeavesCurrentRow`), and every collision can do that (`Embedding.CollisionLeavesStaleRow`).
- **Halving the score of sites that could not be looked at puts every one of them below every lead whose site is
  dead or missing**, by the default rules and whatever else is stored (`Scoring.UnseenRanksBelowDead`,
  `Rescoring.DeadSitesScoreAboveUnseen`).
- **Priority is decided on the undamped percentage, yet never contradicts the ranked rule score**
  (`LeadScore.PriorityFollowsRank`).

Where the code and its comments disagree, the model follows the code:

- internal/queue/relay.go:19-22 calls the handlers idempotent; for two deliveries of a scored and audited lead
  that are queued together they are not, see above.
- internal/extract/contacts.go:101-102 speaks of landlines; only numbers starting 6 to 9 are kept.
- internal/crawler/robots.go:116-117 speaks of the wildcard group plus any group naming the agent; the nearest
  user-agent line alone decides, so of several such lines heading one group only the last counts.

## Model

| member | source | states |
|---|---|---|
| Delivery.AtLeastOnce | internal/queue/relay.go:97-134 | in every reachable state of any number of relays, with a crash possible between any two steps, a job row marked published, or since purged, was pushed to Redis at least once |
| Delivery.DuplicateAccounting | internal/queue/relay.go:85-140 | a row's pushes are one if it was published, plus the aborted claims that had pushed it, plus the pushes that landed but were reported failed, plus one if an open claim has pushed it; so a published row with neither abort nor misreport was delivered exactly once |
| Delivery.ClaimsAreDisjoint | internal/adapters/db/postgres/outbox_repo.go:53-93 | two open claims never hold the same row, and hold only unpublished ones |
| Delivery.ReportIsPossible | internal/adapters/db/postgres/outbox_repo.go:110-124 | in every reachable state the failure update can be made if and only if a relay owes it, that relay's claim has ended, and no other claim holds the row |
| Delivery.EndedClaimFreesReport | internal/queue/relay.go:92-122 | a report that waits for its own relay's claim can be made as soon as that claim ends; it then counts one attempt on the row, which stays unpublished, and the relay is free |
| Delivery.ReportLands | internal/adapters/db/postgres/outbox_repo.go:110-124 | a run that gets there: one row, one refused push, the claim ended by the server, and the attempt counted |
| Delivery.RecordFailureKeeps | internal/adapters/db/postgres/outbox_repo.go:110-124 | a report, whenever it lands, moves no claim, no status and no account |
| Delivery.ReportingIsReachable | internal/queue/relay.go:111-122 | one row, one claim and one refused push lead to a relay that owes a report on a row it still locks |
| Delivery.ReportingRelayIsStuck | internal/queue/relay.go:85-122 | from there, whatever anyone does short of ending that transaction, the relay keeps its claim, and its rows stay unpublished and without the attempt counted |
| Delivery.RunOfOthers | internal/adapters/db/postgres/outbox_repo.go:48-69 | no run of everybody else's steps moves a claim, touches a row it locks or settles its relay's report |
| Delivery.StepKeeps | internal/queue/relay.go:85-140 | every single step keeps claims disjoint, pushes accounted for, and each pending report about the row its relay claimed first |
| Delivery.PurgeKeeps | internal/adapters/db/postgres/outbox_repo.go:137-146 | removing published rows disturbs neither an open claim nor the account of any row |
| Delivery.PurgeRemovesOnlyPublished | internal/adapters/db/postgres/outbox_repo.go:137-146 | purging takes out the rows named, all of them published, and leaves every other row as it is |
| Stranding.NoStranding | internal/adapters/db/postgres/business_repo.go:208-279 | each committed business always has an unpublished outbox row, or a queued, running or dead crawl, audit or scoring job, or a stored score, or such a job among the lost |
| Stranding.CarriedIsStable | internal/workers/worker.go:98-132 | once something other than its outbox row carries a business, no step of anyone lets it fall |
| Stranding.WhatLosesJobs | internal/workers/worker.go:88-128 | only a pop whose reply is lost, a death before the hand-off and a refused requeue push add to the lost jobs |
| Outcome.EveryBusinessIsSettled | internal/workers/handlers.go:115-121 | with the outbox drained and the workers idle, every committed business is scored, or has a dead job, or is among the known losses |
| Outcome.IdleMeansEmpty | internal/queue/queue.go:92-121 | workers have nothing left to do, dying aside, if and only if the main list is empty and no handler is running |
| Outcome.CanSettle | internal/queue/relay.go:14-22 | from every reachable state some run of relays and workers alone drains the outbox and leaves the workers idle, with nothing more lost or dead-lettered than what had already failed for the last time, and with a score for every committed business that had no dead, doomed or lost job |
| Retries.RetryAccounting | internal/queue/queue.go:125-146 | over whole runs a job starts at most as often as the MaxRetries it was enqueued with allows (at least once), is in at most one of main list, runs, dead list and losses, and is the job first enqueued wherever it is met; it is dead only after its last permitted start, queued only before |
| Retries.MintedWithDefault | internal/queue/queue.go:69-87 | whoever enqueues a job without MaxRetries, it is enqueued with three |
| Retries.PipelineJobsDefault | internal/workers/handlers.go:115-138 | follow-ups and children come without MaxRetries, so every id they are given is one with three |
| Retries.DefaultJobsRunThrice | internal/queue/queue.go:125-146 | in every reachable state a job enqueued with three has been started at most three times, is on the dead list only after exactly three starts, and on the main list only after fewer |
| Retries.ThirdRunIsReached | internal/queue/queue.go:69-146 | some run starts such a job a third time, and only then does it die |
| Retries.EntersDeadList | internal/queue/queue.go:138-143 | a job enters the dead list if and only if the run being requeued was its last permitted one and the push landed |
| Retries.StepKeepsRetries | internal/queue/queue.go:69-146 | every step keeps one place per id and the start counts that go with each place |
| Retries.RequeueKeeps | internal/queue/queue.go:125-146 | moving a failed job to the main or the dead list makes no second copy and keeps its start count in step with its retry count |
| Halting.WorkersHalt | internal/workers/worker.go:43-77 | with producers and relays quiet, any run of worker steps from any reachable state is no longer than a potential computed from that state, even if every push is misreported and children are queued twice |
| Halting.RunsPerBusiness | internal/workers/handlers.go:153-241 | a business costs at most 121 further handler starts per attempt its queued and running jobs have left, whatever their MaxRetries; with the default, 363 per job |
| Halting.StepPays | internal/workers/handlers.go:377-592 | each worker step lowers the weighted sum over stage and attempts left by what it costs |
| Halting.HandOffPays | internal/workers/handlers.go:377-454 | the potential a run gives up covers the child it pushes, with the child's own retries |
| RedisQueue.Queue.Enqueue | internal/queue/queue.go:69-87 | the job stored has an id, a new one if it had none, three as its MaxRetries if it had zero, and is otherwise the caller's; it is at the push end unless the push was refused, and an error is reported unless it was acknowledged |
| RedisQueue.Queue.Dequeue | internal/queue/queue.go:92-121 | the oldest entry leaves the list; a job is returned if the reply arrives, bytes that do not parse are put at the front of the dead list unless that push is refused; an empty or timed-out pop changes nothing; all as the step system has it |
| RedisQueue.Queue.Requeue | internal/queue/queue.go:125-146 | the job comes back with one retry more and the cause as its last error, at the push end of the main list while its retries are below its MaxRetries (three if it had zero), else at the front of the dead list, and nowhere if the push is refused |
| Relay.SmallestIsSmallest | internal/adapters/db/postgres/outbox_repo.go:59-69 | the claim's rows are the smallest claimable ids, in order, and all of them if they are fewer than the limit |
| Relay.NextBatch | internal/adapters/db/postgres/outbox_repo.go:53-69 | a claim can always be made and gets such a batch |
| Relay.World.Claim | internal/adapters/db/postgres/outbox_repo.go:53-93 | the entries are that batch with its payloads, as many as the limit (100 if it is not positive) or as there are claimable rows, whichever is fewer; the rows are locked; a claim that fails is as if never made |
| Relay.BatchIsFull | internal/adapters/db/postgres/outbox_repo.go:53-69 | any next batch has that many rows: the batch size, 100 if it is not positive, or all that are claimable |
| Relay.World.Yield | internal/adapters/db/postgres/outbox_repo.go:48-52 | everyone but this relay takes those of the scheduled steps that are enabled when their turn comes, all of them |
| Relay.Scan | internal/queue/relay.go:97-126 | the ids collected are the claimed rows before the first job row whose push is not acknowledged, under any interference, and the state is that of others and pushes in turn |
| Relay.Drain | internal/queue/relay.go:85-140 | with others moving before every push, before the commit and during a wait, drain is a run of the step system; committed, it publishes exactly the prefix of its batch before the first failed push and leaves the rest as it was; refused, nothing; after a failed first push it waits, or returns zero with the claim ended and, if the server ended it, one attempt counted; a failed claim changes nothing; the rows it reports are as many as the limit or the claimable rows, whichever is fewer; the state left is that of the claim, the others' steps and the pushes, and the commit or abort, in that order |
| Relay.FullBatchIsProgress | internal/queue/relay.go:63-72 | a drain that published something leaves strictly fewer unpublished rows, if nobody wrote new ones |
| Relay.UnpublishedShrinks | internal/queue/relay.go:63-72 | no run without inserts adds to the unpublished rows |
| Relay.ShortBatchEmpties | internal/queue/relay.go:63-72 | a drain nobody disturbed that fell short of a full batch leaves no row unpublished |
| Relay.Report | internal/queue/relay.go:111-122 | the wait for the failure report ends only if the context is cancelled or the server ends the claim, and only the latter counts the attempt; the state is that of the others' steps and its own in that order |
| Relay.Tick | internal/queue/relay.go:59-72 | the inner loop ends, or blocks reporting a failed first push, whatever Redis, the database and the others do; with every push acknowledged it does not block, with a working database it does not fail, and alone with both it ends with the outbox drained; it is those drains in turn, of which all but the last had a full batch |
| Handlers.OthersKeepRun | internal/workers/worker.go:71-76 | steps of other runs, relays and producers leave a running handler where it is |
| Handlers.Collect | internal/workers/handlers.go:66-148 | the businesses a collection commits are the rows BulkInsertWithJobs stores for its listings, each with its follow-up in the outbox; one whose transaction fails changes nothing, one told so wrongly has committed all the same; the whole state left is told step by step, the others' included |
| Handlers.CrawlWebsite | internal/workers/handlers.go:153-241 | it pushes exactly one child, once everything before is stored, and none otherwise: an audit if the site could be read, is a storefront and a model is configured, else a scoring; that child is queued unless the push was refused; the whole state left is told step by step, the others' included |
| Handlers.AuditWebsite | internal/workers/handlers.go:377-454 | it pushes exactly one scoring, also where the model is missing, and none if what it needs, the model or the storage of the report fails; the whole state left is told step by step, the others' included |
| Handlers.ScoreLead | internal/workers/handlers.go:457-546 | a recommendation is pushed only once the score is stored; an error later leaves the score, and after an unacknowledged push the child as well; the whole state left is told step by step, the others' included |
| Handlers.Recommend | internal/workers/handlers.go:549-592 | without an audit it succeeds and pushes nothing, else exactly one embedding job, once the suggestion is stored; the whole state left is told step by step, the others' included |
| Handlers.Execute | internal/workers/worker.go:134-160 | for every kind: exactly when the handler succeeds and which children it pushes, told from what it meets; a child not refused is at the push end of the list; a handler that succeeds has led its business on, an unknown kind is retired; the state, the business table and its outbox are those of that kind's handler |
| Handlers.Process | internal/workers/worker.go:98-132 | handling one job is a run of the step system under any interference, with the same outcome and the same children for every kind; afterwards the job runs nowhere, and either its business was led on, with the child it pushed queued, or the job is back, dead or among the lost; the state it leaves follows from the one the handler left, by the one step that ends the run, or by being marked failed and requeued |
| WorkerSlots.SlotConservation | internal/workers/worker.go:37-76 | occupied slots are the running jobs plus the one the main loop holds, never above Concurrency; a job is dequeued only with a slot in hand |
| WorkerSlots.CleanStop | internal/workers/worker.go:80-96 | a clean stop leaves no slot taken and every job that was popped finished |
| WorkerSlots.ReleasesNeverBlock | internal/workers/worker.go:52-76 | giving a slot back and signalling the wait group are always possible |
| Worker.Loop.TakeTurn | internal/workers/worker.go:43-77 | one turn of the main loop is made of those moves, in their order; it asks the queue exactly if it is not cancelled and a slot is free once the goroutines have moved, dequeues the job brought to it exactly if it asks, and ends at the select, or in the shutdown exactly if the select, the dequeue or the back-off sees the cancellation |
| Worker.Loop.Drain | internal/workers/worker.go:80-96 | the shutdown reports a clean stop exactly when the wait group emptied in time |
| Worker.Loop.Start | internal/workers/worker.go:29-78 | the whole loop is a run of the slot system; every turn up to the one that sees the cancellation is taken, and the job brought to a turn that found a slot is dequeued; every dequeued job has a goroutine, and the stop is clean exactly when all of them ended before the wait ran out |
| Worker.Run | internal/workers/worker.go:98-132 | an error or a panic puts the job back with its cause, success and unknown kinds leave the queue alone |
| BusinessStore.RunBatch | internal/adapters/db/postgres/business_repo.go:225-270 | the loop's table, jobs and insert count are those of upserting the batch in order, up to the first failing statement |
| BusinessStore.Store.BulkInsertWithJobs | internal/adapters/db/postgres/business_repo.go:208-279 | all or nothing: on any failure neither table nor outbox changes, else both hold the whole batch; the count returned is the number of rows added |
| BusinessStore.UpsertKeepsValid | migrations/001_initial_schema.up.sql:140 | an upsert keeps the partial unique index and adds a row exactly when no stored key conflicts |
| BusinessStore.KeysAreUnique | internal/adapters/db/postgres/business_repo.go:222-250 | after any batch no two rows share a source and a source key |
| BusinessStore.BatchEffect | internal/adapters/db/postgres/business_repo.go:222-262 | what a batch does to one key's row, duplicates within the batch included: nothing, one merge with all the batch says about it, or a new row of just that |
| BusinessStore.LastListingWins | internal/adapters/db/postgres/business_repo.go:235-248 | after a batch a keyed row has the name, rating and metadata of the last listing with its key, and in address, phone, website, latitude, longitude and category the last value such a listing gives, else the old one; its creation time stays |
| BusinessStore.UnkeyedListingIsAdded | internal/adapters/db/postgres/business_repo.go:222-262 | a listing without a source key always becomes a new row with exactly its columns |
| BusinessStore.MergeAssociative | internal/adapters/db/postgres/business_repo.go:235-248 | conflict updates compose: merging in turn is merging once, and merging twice the same is merging once |
| BusinessStore.RerunIsIdempotent | internal/adapters/db/postgres/business_repo.go:213-278 | running a batch again inserts no keyed row and changes no keyed row but for updated_at |
| BusinessStore.OtherRowsUntouched | internal/adapters/db/postgres/business_repo.go:222-250 | rows no key of the batch names are left alone |
| BusinessStore.EveryListingIsFollowedUp | internal/workers/handlers.go:115-138 | each listing puts one job in the outbox, field by field as collected: a crawl exactly if it has a website, else a scoring, for the row the same transaction stores it in |
| LeadStore.DedupeContacts | internal/workers/handlers.go:773-786 | keeps the first contact for each key, in order |
| LeadStore.FirstContactsAreDistinct | internal/workers/handlers.go:773-786 | no two kept contacts share a key, and no key but the empty one is lost |
| LeadStore.KeyTellsContactsApart | internal/workers/handlers.go:777-780 | the joined key identifies the three fields, if none contains the separator |
| LeadStore.DedupeSocials | internal/workers/handlers.go:788-802 | keeps the first profile of each platform, in order |
| LeadStore.FirstSocialsAreDistinct | internal/workers/handlers.go:788-802 | no two kept profiles share a platform, and no platform is lost |
| LeadStore.Extract | internal/workers/handlers.go:244-266 | failed pages contribute nothing, the others their findings in page order |
| LeadStore.TechnologiesAreDistinct | internal/workers/handlers.go:246-265 | each technology name is stored once, and exactly if some page that could be read shows it |
| LeadStore.TechnologiesAreFirst | internal/workers/handlers.go:246-265 | what is kept of a technology is a detection on the first readable page that shows it |
| LeadStore.Repos.CreateWebsite | internal/adapters/db/postgres/repos.go:27-55 | one row per business: the first keeps id and creation time, its facts are replaced |
| LeadStore.Repos.UpsertContacts | internal/adapters/db/postgres/repos.go:151-180 | the loop is insert-where-absent over the batch |
| LeadStore.Repos.UpsertSocials | internal/adapters/db/postgres/repos.go:224-249 | the loop is the merging upsert over the batch |
| LeadStore.Repos.ReplaceTechnologies | internal/adapters/db/postgres/repos.go:685-708 | exactly the new list is stored, with missing categories filled in |
| LeadStore.Repos.StoreCrawl | internal/workers/handlers.go:201-284 | the handler's writes, in its order, stopped after any number of them |
| LeadStore.CrawlStoresSite | internal/adapters/db/postgres/repos.go:27-55 | after a crawl the website row has its facts and time, its old id and creation time if there was one, and the log one entry more; other rows stay |
| LeadStore.CrawlStoresContacts | internal/adapters/db/postgres/repos.go:151-180 | the old contacts stay, each new one is on a readable page, and each non-empty contact on such a page is there with its fields, or stands behind one with the same key |
| LeadStore.CrawlStoresSocials | internal/adapters/db/postgres/repos.go:224-249 | of each platform the first profile found is stored; over an old one it sets the address, the larger follower count, and verified if either was |
| LeadStore.CrawlStoresTechnologies | internal/adapters/db/postgres/repos.go:685-708 | the technologies are those found, an unnamed category being unknown |
| LeadStore.ContactsSettle | internal/adapters/db/postgres/repos.go:151-180 | storing the same contacts again adds nothing |
| LeadStore.SocialsSettle | internal/adapters/db/postgres/repos.go:224-249 | storing the same profiles again, one per platform, changes nothing |
| LeadStore.CrawlRedeliveryIsIdempotent | internal/workers/handlers.go:153-284 | a crawl cut short after any write, or complete, followed by a complete one with the same findings leaves readers with what one complete crawl leaves |
| Rescoring.BuildContext | internal/workers/handlers.go:467-511 | each fact, in the tables' own words: what the website address, the site row, the contacts and the profiles say, with a failing read counting as absence |
| Rescoring.Leads.Create | internal/adapters/db/postgres/repos.go:304-330 | one score per business, replaced but for a suggestion the new one lacks |
| Rescoring.Leads.RuleScoring | internal/workers/handlers.go:457-546 | the row stored has the rules' total, breakdown and priority for those facts, the ranked score, folded with the audit's where there is one, and the suggestion that goes with them |
| Rescoring.Leads.GenRecommendation | internal/workers/handlers.go:549-592 | the stored suggestion is followed by the audit's summary, all its services and its first three issues, each part only if there is something in it; without score it fails, without audit it writes nothing |
| Rescoring.ScoringIgnoresEarlierScore | internal/workers/handlers.go:457-542 | tables that differ only in the business's score are scored alike, and the new row is the verdict whatever the row was before |
| Rescoring.LastPassDecides | internal/workers/handlers.go:457-592 | whatever scorings and recommendations came before, by any number of workers and cut short anywhere, a scoring and its recommendation that nothing comes between leave the tables of one complete pass |
| Rescoring.AppendixSays | internal/workers/handlers.go:566-580 | that text, joined from the left, is the one the handler joins from the right |
| Rescoring.EventsFollowLineage | internal/workers/handlers.go:549-592 | with the recommendation's read and write taken apart and interleaved at will, the stored score is always the verdict of the scoring it descends from, followed by the audit's text as often as it was appended since; stored suggestions stay non-empty |
| Rescoring.RecommendingIsTwoEvents | internal/workers/handlers.go:554-583 | undisturbed, that read and write are what the handler does at a stroke |
| Rescoring.RedeliveryMatchesOnePass | internal/workers/handlers.go:457-592 | deliveries of one scoring job and of the recommendations behind it, in any interleaving, leave the tables of one complete pass if and only if the stored score carries the text as often as that pass appends it, or there is no text |
| Rescoring.InTurn | internal/workers/handlers.go:549-583 | without overlap the text is there once for every recommendation that took effect after the last scoring |
| Rescoring.RescoringIsIdempotent | internal/workers/handlers.go:457-592 | deliveries that do not overlap, in any number and order, leave the tables of one complete pass if and only if as many recommendations took effect after the last scoring as in that pass, or there is no text |
| Rescoring.DoubleDeliveryDoublesText | internal/workers/handlers.go:566-583 | score, score, recommend, recommend differs from one pass exactly when the audit has a text |
| Rescoring.StaleRecommendationUndoesScoring | internal/workers/handlers.go:554-583 | a recommendation that read the score before a scoring and writes after it puts the earlier verdict back |
| Duplicates.PushedTwice | internal/queue/relay.go:97-134 | a push that lands but is reported as failed leads to two copies of one row's job in the list |
| Duplicates.DeliveriesOvertake | internal/workers/handlers.go:542-546 | with those two copies, one worker runs both scorings before either of their recommendations |
| Rescoring.JudgedTotalIsBounded | internal/workers/handlers.go:525-531 | with the audit stored as parsed, the total stored is the one bounded by 0..100 |
| Rescoring.DeadSitesScoreAboveUnseen | internal/workers/handlers.go:457-546 | from the tables to the stored rows: without audits, a business whose site is down, or that has none, is stored above any whose site blocked the crawler, and the latter never with high priority |
| LeadScore.SuggestionIsNeverEmpty | internal/scoring/scoring.go:270-306 | every branch has something to say, opening with the business's name |
| LeadScore.SuggestionFollowsRank | internal/scoring/scoring.go:270-306 | an assessed lead is pitched as strong, worth a call or soft by its ranked score, and by its first reason; one without a storefront by its platform, one that could not be seen as such |
| Rescoring.RecommendationAloneRepeatsItself | internal/workers/handlers.go:549-583 | recommending alone twice equals once if and only if there is no score or no audit to work on, or the audit has no summary, services or issues |
| WebsiteCollapse.KeepId | migrations/002_vector_outbox.up.sql:17-24 | the window function picks the newest row by time and id of the same business |
| WebsiteCollapse.RepointedSurvives | migrations/002_vector_outbox.up.sql:56-61 | the row every child is re-pointed to is none that the DELETE names |
| WebsiteCollapse.Database.Migrate | migrations/002_vector_outbox.up.sql:17-63 | run in order, the statements always reach the unique constraint, and no child row is deleted or loses its website: each is as it was but for pointing at its business's kept row |
| WebsiteCollapse.CollapseKeepsTheNewest | migrations/002_vector_outbox.up.sql:56-61 | each business keeps exactly one row, unchanged; every other it had was created earlier, or at the same time with a smaller id |
| WebsiteCollapse.SurvivorsAreUnique | migrations/002_vector_outbox.up.sql:63 | the constraint holds of what is left |
| WebsiteCollapse.NothingCascades | migrations/001_initial_schema.up.sql:46-104 | after the re-pointing no crawl result or technology hangs on a row to be deleted |
| WebsiteCollapse.NothingNulled | migrations/001_initial_schema.up.sql:46-104 | nor does an audit report |
| WebsiteCollapse.UnrepointedAreLost | migrations/002_vector_outbox.up.sql:25-61 | without the re-pointing the DELETE would take exactly the children, and null exactly the audits, of rows with a newer one beside them |
| WebsiteCollapse.ChildrenKeepTheirBusiness | migrations/002_vector_outbox.up.sql:25-41 | a re-pointed crawl result or technology belongs to the business it belonged to before |
| WebsiteCollapse.AuditsKeepTheirBusiness | migrations/002_vector_outbox.up.sql:43-54 | so does a re-pointed audit report, which also keeps its own business and has a website exactly if it had one |
| WebsiteCollapse.ReaderSeesTheSameRow | internal/adapters/db/postgres/repos.go:57-81 | the reader gets a row it might have got before, and for certain the one it got before if and only if the newest creation time was unique |
| Migrations.RecordedVersionsArePrefix | internal/adapters/db/postgres/postgres.go:45-110 | with any number of racing and crashing runners, the recorded versions are a prefix of the sorted files, and each recorded body, and no other, was committed exactly once |
| Migrations.StepKeeps | internal/adapters/db/postgres/postgres.go:91-110 | no runner applies a body out of order, and all it has passed is recorded |
| Migrations.Pool.ApplyMigration | internal/adapters/db/postgres/postgres.go:91-110 | body and version are committed together or not at all; a recorded version fails |
| Migrations.Pool.RunMigrations | internal/adapters/db/postgres/postgres.go:45-89 | alone, a run succeeds exactly if every transaction it still has to make is committed, and then everything is recorded; else it has applied the files in order up to the first that was not, that one included if its commit landed unseen; run again after success it changes nothing |
| Scoring.Evaluate | internal/scoring/scoring.go:239-267 | the loop's totals, breakdown and reasons are those of the rules that apply and fire |
| Scoring.ScoresAreBounded | internal/scoring/scoring.go:239-267 | the total lies between zero and the maximum, for non-negative weights |
| Scoring.BreakdownAddsUp | internal/scoring/scoring.go:239-267 | with distinct names the breakdown adds up to the total |
| Scoring.PercentIsBounded | internal/scoring/scoring.go:97-102 | the percentage is within 0..100 |
| Scoring.PercentIsTheShare | internal/scoring/scoring.go:97-102 | it is the whole percents of the maximum that the total comes to, and 0 where no rule applies |
| Scoring.RankIsThePercentage | internal/scoring/scoring.go:113-119 | the ranked score is the percentage, halved and rounded down for a site that could not be assessed |
| Scoring.UnseenRanksBelowDead | internal/scoring/scoring.go:78-119 | by the default rules a lead whose site could not be looked at ranks at 50 or below, and every lead whose site is dead or missing above, whatever else is known of either |
| Scoring.SocialOnlyRanksHighest | internal/scoring/scoring.go:148-170 | by the default rules selling through social media alone never ranks below having no web presence, all else equal, although both total and maximum differ |
| Scoring.BreakdownTells | internal/scoring/scoring.go:239-267 | with distinct names the breakdown gives a rule's weight exactly where it applies and fires, and 0 elsewhere |
| Scoring.ReasonsTell | internal/scoring/scoring.go:239-267 | the reasons are those of the rules that apply and fire, in the rules' order |
| Scoring.AddingARule | internal/scoring/scoring.go:97-102 | wherever it is inserted, a rule that does not apply changes nothing, one that fires never lowers the percentage, one that applies without firing never raises it |
| Scoring.LeadingReason | internal/scoring/scoring.go:270-306 | for non-increasing weights the first reason is a heaviest fired rule's |
| Scoring.DefaultRulesAreWellFormed | internal/scoring/scoring.go:148-220 | the default rules have non-negative, non-increasing weights and distinct names |
| LeadScore.RankedIsBounded | internal/scoring/scoring.go:113-119 | the ranked score is within 0..100, and at most 50 for a site that could not be assessed |
| LeadScore.StoredScoreIsBounded | internal/workers/handlers.go:513-531 | for any integers the model returns the stored score is within 0..100, and between the ranked score and the inverted audit score |
| LeadScore.ClampedAxes | internal/ai/ai.go:126-154 | each axis is taken as returned within 0..10, and as the nearer end outside |
| LeadScore.StoredTotalIsSevenToThree | internal/workers/handlers.go:513-531 | the stored total is, in tenths rounded down, seven parts ranked score and three parts audit, the audit's part being 100 less ten for each whole point of the axes' average |
| LeadScore.StoredScoreIsMonotone | internal/workers/handlers.go:513-531 | it never falls with the ranked score and never rises with any audit axis, clamping included |
| LeadScore.PriorityFollowsRank | internal/scoring/scoring.go:122-143 | the band is a function of the ranked score: high from 60, low below 30, so of two leads the lower-ranked is never in the higher band |
| Robots.ParseRobots | internal/crawler/robots.go:118-157 | the line loop collects exactly the rules in force for us, in order |
| Robots.LineIsDirective | internal/crawler/robots.go:124-141 | a key, a colon and a value, with any white space around, letter case and comment, are that directive |
| Robots.LineIsNoDirective | internal/crawler/robots.go:124-139 | a line without a colon before its comment is none |
| Robots.AgentsThatNameUs | internal/crawler/robots.go:143-145 | an agent names us if it is the wildcard or our name stands somewhere in it, in whatever case |
| Robots.GroupIsLatestAgent | internal/crawler/robots.go:141-153 | whether a line applies is decided by the nearest user-agent line above it |
| Robots.RulesComeFromOurGroups | internal/crawler/robots.go:118-157 | a rule is in force if and only if some line states it under such a line that names us |
| Robots.Allowed | internal/crawler/robots.go:47-64 | the verdict is that of section 2.2.2 of RFC 9309 on the sets of rules, so their order cannot matter: the longest match decides, allow wins a tie, no match allows |
| Robots.Cache.Get | internal/crawler/robots.go:67-88 | an entry younger than the TTL is used as it is; else the file now served decides, its rules being those in force for us, and none if it is not served; other hosts are untouched, and an unreachable host leaves the cache alone |
| Robots.Cache.MayFetch | internal/crawler/robots.go:40-65 | the crawler's answer is that verdict on that entry: on the lines served where the cache is older than an hour, and permission if the file is not served or cannot be fetched |
| Embedding.Index.NeedsEmbedding | internal/adapters/db/postgres/embedding_repo.go:43-60 | a vector is needed unless the stored row has this hash and this model |
| Embedding.Index.Embed | internal/workers/handlers.go:597-645 | the outcome is unchanged, embedded or no provider exactly when the configuration, the stored row and the answer say so; embedding stores text, vector, model and hash of that lead alone, anything else nothing |
| Embedding.CoherentForever | internal/adapters/db/postgres/embedding_repo.go:23-60 | over any document changes, model switches and runs, a stored vector is the embedding of the stored text under the stored model |
| Embedding.RunLeavesCurrentRow | internal/workers/handlers.go:597-645 | after any history, a run that embeds leaves a row current in text, model and vector; one that skips as unchanged leaves such a row if and only if stored and current text do not collide; any other changes nothing |
| Embedding.CollisionLeavesStaleRow | internal/workers/handlers.go:614-630 | in any state and for any lead, a text embedded and then changed is skipped with a stale row if and only if the two texts collide |
| Embedding.GapTextIgnoresMapOrder | internal/workers/handlers.go:678-686 | the gap list is the same whatever order the breakdown map is walked in |
| Contacts.NormalFormIsCanonical | internal/extract/contacts.go:101-124 | what comes out is empty or +91 and ten digits starting 6 to 9, is its own normal form, and a non-empty text is unchanged exactly if it has that shape |
| Contacts.WhatHasNormalForm | internal/extract/contacts.go:103-124 | a raw text has normal form +91 and a ten-digit mobile number exactly if its digits are that number, alone or behind 0, 91 or 091 |
| Contacts.NormalFormIsMobile | internal/extract/contacts.go:118-124 | and no other normal form exists |
| Contacts.DigitsInOrder | internal/extract/contacts.go:104 | its digits are kept in their order, text by text |
| Contacts.AcceptedAddresses | internal/extract/contacts.go:40-45 | an address is kept exactly if, trimmed and in lower case, it is not empty, at most 100 characters long, and has no blocked part anywhere and no blocked ending |
| Contacts.LocalPartDecides | internal/extract/contacts.go:141-154 | an address is of the sales or support class exactly if what precedes its @ starts with one of the words for it, else general |
| Contacts.Collector.AddEmail | internal/extract/contacts.go:40-53 | an address is added exactly if it is plausible and unseen, as an entry with that address, its class, source and confidence and no number |
| Contacts.Collector.AddPhone | internal/extract/contacts.go:63-82 | a number is added exactly if it has a normal form that is unseen, as an entry with that number alone, in the WhatsApp field for a WhatsApp link and in the phone field else |
| Contacts.FirstHitsAreBest | internal/extract/contacts.go:55-96 | with confidence falling from phase to phase, keeping first occurrences keeps one per value, loses none, and keeps the best |
| Contacts.Extract | internal/extract/contacts.go:36-99 | the five phases over one shared state give exactly the first occurrences of addresses, then of numbers |
| Contacts.NoSharedAddressOrNumber | internal/extract/contacts.go:36-99 | no two entries of a page share an address or a number |
| Contacts.EveryMatchIsRepresented | internal/extract/contacts.go:36-99 | each match with a normal form is represented by an entry that is one of its occurrences and at least as confident as any |
| Contacts.EntryTellsItsMatch | internal/extract/contacts.go:55-96 | every entry shows, in the one field of its sort, the normal form of a match of the sort its source and confidence tell |
| Contacts.EveryMatchIsShown | internal/extract/contacts.go:55-96 | and every address and number that any match has is on the page |

## Left out

- Relay.Tick: assumes that nobody writes new rows during the tick and that the batch size is at least one, as NewRelay sets it; with a batch size of zero or less the loop would not end on an empty outbox.
- Delivery.ReportingRelayIsStuck: progress after a failed first push is not claimed, because it is false; the wait ends only with the context, the process, or the server ending the transaction.
- Delivery.DuplicateAccounting: one LPUSH per Enqueue. The Redis client is created with library defaults (cmd/server/main.go:84-92), under which it may resend an LPUSH whose reply was lost; such a resend is not modelled.
- Retries.RetryAccounting: the same; a resent LPUSH would put one id into the list twice.
- Delivery.AtLeastOnce: speaks of rows whose payload parses as a job; an unparseable one is published without a push, as the code intends.
- LeadStore.CrawlRedeliveryIsIdempotent: for serial delivery only, since no unique constraint backs contacts and technologies and two deliveries at once may both insert; the time of the last crawl and the crawl_results log, which grows with every crawl, are not compared.
- LeadStore.KeyTellsContactsApart: a field containing the separator could make two contacts share a key; the code does not guard against it.
- Rescoring.EventsFollowLineage: the facts and the audit stay as they are during the history; a crawl or a second audit in between is not part of it. Scoring is one step, since nothing it reads is written by the two handlers. The id and the times of a score row are not modelled.
- Halting.WorkersHalt: counts steps, not time; that a worker which can take a step does so is not modelled.
- Migrations.RecordedVersionsArePrefix: for one fixed file list; an operator who adds a file in the middle of the order breaks it.
- Scoring.ScoresAreBounded: integers are unbounded; a rule list heavy enough to overflow 64 bits in the percentage is outside the model.
- LeadScore.PriorityFollowsRank: compares the band with the ranked rule score; once an audit is folded in, the stored total may order leads differently, and the code leaves the band as it was.
- Worker.Loop.Start: the run observed is finite, ending with the cancellation at the latest; that goroutines move at all is not assumed.
- The rows a collection writes are in the model twice, as what its transaction stores and as the step system's outbox; Handlers.Collect keeps the two together.
- Purged outbox rows stay in the model as tombstones, so that their history can be talked about.
- A BRPOP whose reply never reaches the worker counts as a lost job; the record of losses is not something the system keeps.
- Outbox payloads are jobs never pushed before, without id and retries, as collectBusiness marshals them.
- Deletion of a business while its jobs are under way.
- Timers, delays, back-off and job deadlines: any step may come late, or fail.
- HTTP, HTML, regular expressions, JSON, SHA-256, the AI and embedding calls: their results are parameters.
- The status classification of a crawl and the prompt's wording: finite case tables. A default rule's reason is represented by the rule's name, and the pitch by short stand-ins chosen by the same cases.
- The latest audit of a business is a table of its own; earlier audits, which no reader returns, are left out, and so are ties in their time.
- The standalone extract jobs beyond their effect on the queue; they repeat the extractors on a stored page.
- Strings are ASCII: lower-casing and trimming of other characters (the next-line and no-break spaces among them), the line-length limit of the robots scanner and the 512 KB limit of its reader are not modelled.
- The rest of section 2.2 of RFC 9309, grouping and wildcards: the program does not implement it, and the latest user-agent line simply wins.
- The text form of a vector, and NewEngine's fallback to the default rules: nothing harder depends on them.
- API handlers, search, listing and paging, source adapters, configuration and logging.
