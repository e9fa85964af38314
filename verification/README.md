# Typebot WhatsApp campaigns and chat flow, modelled in Dafny

This project models the core of a chatbot builder's WhatsApp side: the **campaign pipeline**
that sends a typebot to every recipient of an uploaded file, the **conversion** of the bot's
messages and inputs into WhatsApp Cloud API messages, and the **builder endpoints** around
them (campaign creation, campaign files, media upload, chat-session history, saving a chat
state, publishing a typebot, starting a WhatsApp preview, adding a block, and the production
webhook).

The pipeline's database is a value `CampaignStore.World`: campaigns and recipients keyed by
id, the order in which queries scan them, and the two work queues (`campaign.execute` jobs and
`whatsapp.send` jobs) as sequences. Each pipeline step is a specification function on that
value (`Scheduler.Poll`, `CampaignWorker.Ingest`, `WhatsAppWorker.Deliver`,
`CompletionChecker.CompletionPass`, ...), and the class `CampaignStore.Store` holds the same fields and
is updated in place by handler methods, each of which ensures that the new state is the
specification function of the old one. The properties (the counter invariant, idempotence of
the scheduler and the completion checker, which recipients a campaign reaches, retry
exhaustion) are lemmas about the specification functions.

The clock, file download and parsing, the send outcome, fresh ids, uploads, the session store
and every call into code outside the modelled files are parameters of the operations. The
conversion and schema code is pure and is modelled as datatypes and functions; loops in the
source (batch insertion, button-title de-duplication, sticker back-fill, pagination) are
methods with loop invariants proved against the functions.

Source modules and their Dafny modules:

| source | module |
|---|---|
| packages/schemas/src/features/campaign.ts | `CampaignSchema` |
| shared campaign/recipient state | `CampaignStore` |
| packages/campaign-worker/src/scheduler.ts | `Scheduler` |
| packages/campaign-worker/src/campaignWorker.ts | `CampaignWorker` |
| packages/campaign-worker/src/whatsappWorker.ts | `WhatsAppWorker` |
| packages/campaign-worker/src/completionChecker.ts | `CompletionChecker` |
| packages/campaign-worker/src/main.ts | `CombinedService` |
| apps/builder/src/features/campaign/api/createCampaign.ts | `CreateCampaign` |
| packages/whatsapp/src/apiHandlers/handleProductionWebhookRequest.ts | `Webhook` |
| packages/whatsapp/src/extendedSchemas.ts | `ExtendedSchemas` |
| packages/whatsapp/src/extendedMessageConverters.ts | `ExtendedConverters` |
| packages/whatsapp/src/convertInputToWhatsAppMessage.ts | `InputConverter`, `ButtonTitles` |
| packages/blocks/inputs/src/whatsappCarousel/schema.ts, mediaCarousel/schema.ts | `CarouselSchemas` |
| packages/whatsapp/src/getOrUploadMedia.ts | `MediaUpload` |
| packages/lib/src/campaign/uploadCampaignFile.ts, downloadCampaignFile.ts | `CampaignFiles` |
| apps/builder/src/features/chatHistory/api/getChatSessions.ts | `ChatSessions` |
| packages/bot-engine/src/saveStateToDatabase.ts | `SaveState` |
| apps/builder/src/features/typebot/api/publishTypebot.ts | `PublishTypebot` |
| apps/builder/src/features/whatsapp/startWhatsAppPreview.ts | `WhatsAppPreview` |
| apps/builder/src/features/typebot/helpers/parseNewBlock.ts | `ParseNewBlock` |

`Text` holds string helpers (digits, splitting and joining, prefixes) and `ApiErrors` the
error codes the endpoints return.

## Model

| member | source | states |
|---|---|---|
| CampaignSchema.ParseExecutionMode | packages/schemas/src/features/campaign.ts:5 | a string parses to an execution mode iff it is "NOW" or "SCHEDULED", and the parsed mode's name is that string (and every mode's name parses back to it) |
| CampaignSchema.ParseCampaignStatus | packages/schemas/src/features/campaign.ts:7-14 | exactly the six campaign status names parse, each to the status whose name it is |
| CampaignSchema.ParseRecipientStatus | packages/schemas/src/features/campaign.ts:16-24 | exactly the recipient status names parse, each to the status whose name it is |
| CampaignStore.Count | packages/campaign-worker/src/completionChecker.ts:18-25 | the number of a campaign's recipients in a set of statuses never exceeds the number of rows looked at |
| CampaignStore.CountDisjointUnion | packages/campaign-worker/src/completionChecker.ts:18-25 | counting recipients in the union of two disjoint status sets is the sum of the two counts, so "PENDING or QUEUED" is the pending count plus the queued count |
| CampaignStore.CountAppend | packages/campaign-worker/src/completionChecker.ts:28-39 | the count over two lists of rows is the sum of the counts over each |
| CampaignStore.CountFrame | packages/campaign-worker/src/completionChecker.ts:28-39 | the count depends only on the rows looked at: tables that agree on them give the same count |
| CampaignStore.CountUpdate | packages/campaign-worker/src/completionChecker.ts:28-39 | replacing one row changes the count by exactly whether the old row was counted and whether the new one is |
| CreateCampaign.InitialStatus | apps/builder/src/features/campaign/api/createCampaign.ts:60 | a campaign starts PENDING iff it runs NOW and SCHEDULED iff it is scheduled |
| CreateCampaign.Create | apps/builder/src/features/campaign/api/createCampaign.ts:49-82 | a guest or a missing workspace gets NOT_FOUND "Workspace not found", and only they do; otherwise the campaign copies the input's workspace, title, file, typebot, mode and execution time, starts PENDING (NOW) or SCHEDULED, with no total, zero counts, and no start, completion or error |
| CreateCampaign.CreatedNowIsDueImmediately | apps/builder/src/features/campaign/api/createCampaign.ts:60-72 | a campaign created to run NOW is picked up by the next scheduler poll, whatever the time |
| CreateCampaign.CreatedScheduledIsDueFromExecuteAt | apps/builder/src/features/campaign/api/createCampaign.ts:60-72 | a scheduled campaign with an execution time is due exactly from that time on |
| CreateCampaign.ScheduledWithoutExecuteAtIsNeverDue | apps/builder/src/features/campaign/api/createCampaign.ts:69 | a scheduled campaign created without an execution time is never picked up by the scheduler |
| Scheduler.DueIds | packages/campaign-worker/src/scheduler.ts:10-28 | a campaign is selected iff it is SCHEDULED with an execution time not after now, or PENDING in NOW mode; no campaign is selected twice |
| Scheduler.PublishedCount | packages/campaign-worker/src/scheduler.ts:45-51 | the number of jobs the publish loop gets out never exceeds the number of claimed campaigns |
| Scheduler.PollKeepsWellFormed | packages/campaign-worker/src/scheduler.ts:6-56 | a poll, whether it succeeds or fails part way, keeps the campaign and recipient tables well formed |
| Scheduler.PollClaimsExactlyTheDue | packages/campaign-worker/src/scheduler.ts:32-40 | when the claiming transaction commits, every due campaign becomes RUNNING with the poll's time as start, and every other campaign is unchanged |
| Scheduler.PollQueuesOneJobPerClaim | packages/campaign-worker/src/scheduler.ts:45-51 | a poll without failure appends exactly one campaign job per claimed campaign, in the order of the claim, after the jobs already queued |
| Scheduler.NoCampaignIsClaimedTwice | packages/campaign-worker/src/scheduler.ts:32-40 | a campaign claimed by one poll is not due at any later poll |
| Scheduler.PublishFailureStrandsCampaigns | packages/campaign-worker/src/scheduler.ts:43-51 | when publishing fails after some jobs, the remaining claimed campaigns stay RUNNING with no job queued and are never claimed again |
| Scheduler.PromotingThePublishedStrandsNothing | packages/campaign-worker/src/scheduler.ts:32-51 | corrected: when only the campaigns whose jobs went out are promoted, each due campaign is either RUNNING with its job at its place on the queue or left as it was and due again at every later poll |
| Scheduler.FindDue | packages/campaign-worker/src/scheduler.ts:10-28 | the loop over the campaign table returns exactly the due campaigns, in table order |
| Scheduler.PromoteAll | packages/campaign-worker/src/scheduler.ts:32-40 | the update sets every listed campaign RUNNING with its start time and leaves the others as they were |
| Scheduler.PublishJobs | packages/campaign-worker/src/scheduler.ts:45-51 | the publish loop appends one job per listed campaign, carrying its id and workspace, in order |
| Scheduler.ProcessScheduledCampaigns | packages/campaign-worker/src/scheduler.ts:6-56 | the store after a poll is the specified poll of the store before it, and the claimed campaigns are the due ones (none when the transaction fails) |
| Scheduler.ClaimAndPublish | packages/campaign-worker/src/scheduler.ts:9-51 | claiming the due campaigns and publishing a job for each gives exactly the campaign table and campaign queue of the specified poll; the claimed list is the due list in scan order, or empty when the claim transaction fails |
| CompletionChecker.RunningIds | packages/campaign-worker/src/completionChecker.ts:6-15 | a campaign is examined iff it is RUNNING |
| CompletionChecker.PassCompletesExactlyTheReady | packages/campaign-worker/src/completionChecker.ts:17-59 | a RUNNING campaign with a recorded total and no PENDING or QUEUED recipient becomes COMPLETED at the pass's time with its SENT and FAILED recipients as counts; every other campaign and every recipient and queue is unchanged |
| CompletionChecker.PassIsIdempotent | packages/campaign-worker/src/completionChecker.ts:5-60 | a second pass, at any later time, changes nothing |
| CompletionChecker.CompletedSentCountLeavesOutOpened | packages/campaign-worker/src/completionChecker.ts:28-39 | the final sent count plus the OPENED recipients is the number of recipients that were sent: read receipts are dropped from the count |
| CompletionChecker.CompletionCanLowerSentCount | packages/campaign-worker/src/completionChecker.ts:28-49 | when a recipient was opened, completion overwrites the running sent count with a smaller number |
| CompletionChecker.CountingEverySendKeepsTheCounters | packages/campaign-worker/src/completionChecker.ts:27-49 | corrected: counting SENT and every later status as sent, completion leaves the sent and failed counts the delivery worker kept unchanged, completes exactly the ready campaign, and the counters still agree with the recipients |
| CompletionChecker.CountWithoutMembers | packages/campaign-worker/src/completionChecker.ts:18-25 | a campaign with no recipient rows has a pending count of zero |
| CompletionChecker.CountOfNewRecipients | packages/campaign-worker/src/completionChecker.ts:18-25 | after inserting a batch, the campaign counts exactly that many QUEUED recipients among the new ids |
| CompletionChecker.TotalBeforeRowsLetsCampaignCompleteEarly | packages/campaign-worker/src/completionChecker.ts:27 | a completion pass between the worker recording the total and inserting the rows completes the campaign with zero counts, and the recipients inserted afterwards stay QUEUED under a COMPLETED campaign |
| CompletionChecker.RowsThenTotalWaitsForTheRecipients | packages/campaign-worker/src/campaignWorker.ts:129-146 | corrected: with the rows inserted before the total is recorded, a campaign is not ready at any point of the insert, nor after the total while rows are QUEUED, and the final state is the one of the as-written order |
| CompletionChecker.NaNBatchSizeCompletesWithNothingSent | packages/campaign-worker/src/config.ts:19 | under a non-numeric batch size the next pass completes the campaign with the file's total and nothing sent or failed |
| CompletionChecker.EmptyFileCompletesWithZeroCounts | packages/campaign-worker/src/completionChecker.ts:27-49 | a file with no usable row leads to a COMPLETED campaign with total 0 and zero counts |
| CompletionChecker.FindRunning | packages/campaign-worker/src/completionChecker.ts:6-15 | the query loop returns exactly the RUNNING campaigns in table order |
| CompletionChecker.PassKeepsWellFormed | packages/campaign-worker/src/completionChecker.ts:5-60 | a completion pass keeps the tables well formed |
| CompletionChecker.CompleteReady | packages/campaign-worker/src/completionChecker.ts:17-59 | the loop completes exactly the listed campaigns that are ready and leaves every other campaign as it was |
| CompletionChecker.CompleteIfReady | packages/campaign-worker/src/completionChecker.ts:18-58 | one campaign is marked COMPLETED with its SENT and FAILED counts exactly when none of its recipients is PENDING or QUEUED and its total is set; otherwise the table is unchanged |
| CompletionChecker.CheckCampaignCompletion | packages/campaign-worker/src/completionChecker.ts:5-70 | the pass throws iff the failing campaign is one of the RUNNING ones; the store after it has the ready campaigns completed among those before the throw and nothing else changed, and without a throw it is the whole completion pass |
| CompletionChecker.UninterruptedPassIsThePass | packages/campaign-worker/src/completionChecker.ts:5-60 | a pass that does not throw is the whole completion pass of a well-formed store |
| CompletionChecker.NextPassFinishesAnInterruptedOne | packages/campaign-worker/src/completionChecker.ts:62-70 | a pass that throws only completes ready campaigns and leaves every other campaign as it was; since the poll catches the error, the next pass completes every campaign that was ready and still leaves the others as they were |
| CompletionChecker.InterruptedPassKeepsWellFormed | packages/campaign-worker/src/completionChecker.ts:5-60 | a pass that throws part way keeps the tables well formed |
| CompletionChecker.CompletingTheRunningIsThePass | packages/campaign-worker/src/completionChecker.ts:5-17 | running the per-campaign step over the RUNNING campaigns in scan order gives the specified completion pass of a well-formed store |
| CampaignWorker.FirstTruthy | packages/campaign-worker/src/campaignWorker.ts:29 | the result of `a \|\| b \|\| ...` is the first truthy column in order, and is absent only when no column is truthy |
| CampaignWorker.NormalizePhoneNumber | packages/campaign-worker/src/campaignWorker.ts:24-26 | the result holds only digits, is no longer than the input, and a string of digits is left as it is |
| CampaignWorker.ExtractPhoneNumber | packages/campaign-worker/src/campaignWorker.ts:28-51 | a number is extracted iff the first truthy phone column is a string or a number whose digits number at least ten; the result is then all digits, at least ten of them |
| CampaignWorker.ExtractPhoneNumberIsStable | packages/campaign-worker/src/campaignWorker.ts:28-51 | extracting again from a row holding only the extracted number gives the same number |
| CampaignWorker.Collect | packages/campaign-worker/src/campaignWorker.ts:110-125 | there are at most as many recipients as rows, and no recipient's variables keep a phone column |
| CampaignWorker.CollectedPhonesAreValid | packages/campaign-worker/src/campaignWorker.ts:110-125 | every kept recipient has a phone number of at least ten digits and nothing else |
| CampaignWorker.CollectKeepsRowsWithPhones | packages/campaign-worker/src/campaignWorker.ts:110-125 | when every row has a usable phone, every row gives a recipient, in order, with its extracted phone |
| CampaignWorker.CollectRecipients | packages/campaign-worker/src/campaignWorker.ts:105-125 | the loop with its `continue` builds exactly the specified recipient list |
| CampaignWorker.AddRecipients | packages/campaign-worker/src/campaignWorker.ts:138-146 | the recipient table after an insert holds exactly the old rows and the new ids |
| CampaignWorker.AddRecipientsContents | packages/campaign-worker/src/campaignWorker.ts:138-146 | with distinct ids, each new row is QUEUED with no retries, its campaign, phone and variables, and every old row is untouched |
| CampaignWorker.DeliveryJobs | packages/campaign-worker/src/campaignWorker.ts:148-153 | one delivery job per created recipient |
| CampaignWorker.AddRecipientsInBatches | packages/campaign-worker/src/campaignWorker.ts:134-160 | inserting rows in two consecutive batches gives the same table as inserting them at once |
| CampaignWorker.DeliveryJobsInBatches | packages/campaign-worker/src/campaignWorker.ts:134-160 | the jobs of two consecutive batches, in order, are the jobs of the whole |
| CampaignWorker.InsertInBatches | packages/campaign-worker/src/campaignWorker.ts:134-160 | inserting and queueing in batches is inserting and queueing everything at once, whatever the batch size |
| CampaignWorker.FormatOf | packages/campaign-worker/src/campaignWorker.ts:57-75 | a URL ending in ".csv" (case-insensitively) is CSV; otherwise one ending in ".xlsx" or ".xls" is a spreadsheet; anything else is unsupported |
| CampaignWorker.ReadRows | packages/campaign-worker/src/campaignWorker.ts:53-76 | a failed download fails with its message, an unsupported extension fails with "Unsupported file format: " and the lower-cased URL, and rows come back iff the download and the parse both succeed |
| CampaignWorker.InsertKeepsWellFormed | packages/campaign-worker/src/campaignWorker.ts:134-160 | inserting recipients with fresh distinct ids for a stored campaign keeps the tables well formed |
| CampaignWorker.IngestKeepsWellFormed | packages/campaign-worker/src/campaignWorker.ts:78-175 | handling a campaign job keeps the tables well formed on every path, including a failed lookup, a failed update of the total and a failing batch |
| CampaignWorker.IngestQueuesEveryRecipient | packages/campaign-worker/src/campaignWorker.ts:101-160 | for a RUNNING campaign with a readable file, every kept row gets a QUEUED recipient row under its fresh id with its phone number and variables, and exactly one delivery job for it is queued, in row order |
| CampaignWorker.IngestRecordsTheTotal | packages/campaign-worker/src/campaignWorker.ts:101-160 | for a RUNNING campaign with a readable file, the total becomes the number of kept rows, that many fresh ids are appended to the recipient order, and as many jobs to the delivery queue |
| CampaignWorker.InsertQueuesEveryRecipient | packages/campaign-worker/src/campaignWorker.ts:134-160 | inserting kept rows under distinct fresh ids stores the k-th as a QUEUED recipient under the k-th id and queues its job at the k-th new place, leaving the campaigns untouched |
| CampaignWorker.IngestSkipsCampaignsNotRunning | packages/campaign-worker/src/campaignWorker.ts:91-99 | a job for a missing campaign or one that is not RUNNING changes nothing |
| CampaignWorker.FailedBatchLeavesEarlierBatchesQueued | packages/campaign-worker/src/campaignWorker.ts:134-173 | when one step of a batch throws, the campaign is FAILED with the error's message and its total, the earlier batches stay inserted QUEUED with their jobs queued in order, and a publish failure also leaves that batch's rows without jobs |
| CampaignWorker.NaNBatchSizeQueuesNobody | packages/campaign-worker/src/campaignWorker.ts:134-136 | under a non-numeric batch size a readable file records its total and inserts no recipient |
| CampaignWorker.EmptyFileRecordsZeroTotal | packages/campaign-worker/src/campaignWorker.ts:101-160 | a readable file without a usable row records a total of zero and inserts nobody, whatever the batch size |
| CampaignWorker.EarlierBatchesStayQueued | packages/campaign-worker/src/campaignWorker.ts:134-160 | rows added without jobs after inserted batches leave every inserted recipient and its job where they were, and extend the recipient order by exactly the added ids |
| CampaignWorker.EffectiveBatchSize | packages/campaign-worker/src/config.ts:19 | corrected: the size used is the configured one when it is a positive number and the default 100 otherwise, so it is always at least 1 |
| CampaignWorker.FallbackBatchSizeQueuesEveryRecipient | packages/campaign-worker/src/campaignWorker.ts:129-160 | corrected: with that size, whatever the setting, a readable file records its total, appends every kept row's id and queues one job per row |
| CampaignWorker.StopFrom | packages/campaign-worker/src/campaignWorker.ts:135-160 | the batch loop stops between the rows it started from and the last one; it stops without error exactly when every recipient was inserted with its job |
| CampaignWorker.InsertBatches | packages/campaign-worker/src/campaignWorker.ts:134-160 | the batch loop leaves the store and reports the error exactly as the specified batch run: under a non-numeric size one empty pass, otherwise batch after batch until a step throws |
| CampaignWorker.InsertSizedBatches | packages/campaign-worker/src/campaignWorker.ts:134-160 | the loop over batches of a positive size stops at the first throwing step with its message, leaving the earlier batches and, when publishing threw, that batch's rows; otherwise it inserts everything |
| CampaignWorker.InsertRows | packages/campaign-worker/src/campaignWorker.ts:138-146 | one `createManyAndReturn` adds the batch's QUEUED rows and nothing else |
| CampaignWorker.FailCampaign | packages/campaign-worker/src/campaignWorker.ts:166-172 | the error handler marks the campaign FAILED with the message and the time, and nothing else |
| CampaignWorker.InsertBatch | packages/campaign-worker/src/campaignWorker.ts:136-155 | one batch adds its QUEUED recipients and their jobs, in batch order, exactly as the specified insert of that batch |
| CampaignWorker.IngestCampaign | packages/campaign-worker/src/campaignWorker.ts:78-175 | the store after handling a job is the specified ingestion of the store before it, with every throw inside the `try` failing the campaign, and stays valid; the handler throws exactly when the campaign lookup does |
| CampaignWorker.ProcessCampaignJob | packages/campaign-worker/src/campaignWorker.ts:78-175 | the same, with the worker's own phone extractor |
| CampaignWorker.ConsumeCampaignMessage | packages/campaign-worker/src/campaignWorker.ts:183-198 | a message that is not a job, and a job whose lookup throws, are rejected without requeue; every other job is handled as specified and acknowledged |
| CombinedService.MainExtractPhoneNumber | packages/campaign-worker/src/main.ts:31-37 | a number is extracted iff the first truthy phone column is a string with at least ten digits; numeric cells are rejected |
| CombinedService.ExtractorsAgreeOnText | packages/campaign-worker/src/main.ts:31-37 | on a text phone cell, and whenever the combined service extracts anything, it agrees with the standalone worker |
| CombinedService.ExtractorsDisagreeOnNumericCells | packages/campaign-worker/src/main.ts:31-37 | a numeric phone cell of ten or more digits is accepted by the standalone worker and rejected by the combined service |
| CombinedService.FilesAreFetchedWhereTheWorkerReadsThem | packages/campaign-worker/src/main.ts:39-42 | an uploaded file the worker reads from S3 or from the public uploads folder is fetched by url by the combined service |
| CombinedService.ProcessCampaignJob | packages/campaign-worker/src/main.ts:103-196 | the combined service's job handler is the worker's ingestion with its own extractor, its file outcome being that of fetching the url |
| CombinedService.ConsumeCampaignMessage | packages/campaign-worker/src/main.ts:356-371 | rejects non-jobs and jobs whose lookup throws without requeue, handles and acknowledges every other job |
| CombinedService.StubSenderAlwaysDelivers | packages/campaign-worker/src/main.ts:201-242 | with the stub sender a job never throws: the recipient becomes SENT, keeps its retry count, and the sent count grows by one unless it was already SENT |
| CombinedService.ConsumeDeliveryMessage | packages/campaign-worker/src/main.ts:374-389 | the delivery consumer of the combined service runs the stub-sender attempt, store faults included; a message that is not a job or an attempt that throws is requeued, and every other one is acknowledged |
| WhatsAppWorker.DeliverKeepsWellFormed | packages/campaign-worker/src/whatsappWorker.ts:18-99 | handling a delivery job keeps the tables well formed on every outcome |
| WhatsAppWorker.DeliverIsIdempotentOnceSent | packages/campaign-worker/src/whatsappWorker.ts:30-40 | a job for a missing or already SENT recipient changes nothing and does not throw |
| WhatsAppWorker.DeliveredCountsOnce | packages/campaign-worker/src/whatsappWorker.ts:42-59 | a successful send marks the recipient SENT at that time and adds one to the campaign's sent count; nothing else changes |
| WhatsAppWorker.RetriesRunOut | packages/campaign-worker/src/whatsappWorker.ts:62-97 | for a numeric maximum, after k failed attempts the recipient has retry count k and the last error; the k-th attempt rethrows (so the message is requeued) iff k is below the maximum, and at the maximum the recipient is FAILED and the failed count grows by one |
| WhatsAppWorker.NaNLimitRetriesForever | packages/campaign-worker/src/config.ts:20 | when `WORKER_MAX_RETRIES` parses to NaN, every failed attempt counts one more retry and rethrows, the recipient never becomes FAILED and no campaign counter moves |
| WhatsAppWorker.RedeliveryCountsAgain | packages/campaign-worker/src/whatsappWorker.ts:35-59 | a redelivered job for an OPENED or FAILED recipient is sent again and pushes sent plus failed above the campaign's total |
| WhatsAppWorker.MatchedCountersStayWithinTheRecipients | packages/campaign-worker/src/whatsappWorker.ts:42-97 | counters that agree with the recipients never count more sends and failures than the campaign's recipients, nor than its total when that is their number |
| WhatsAppWorker.RedeliveryBreaksTheCounters | packages/campaign-worker/src/whatsappWorker.ts:35-59 | delivering again to an OPENED recipient of a campaign whose counters agree with its recipients breaks that agreement |
| WhatsAppWorker.GuardedDeliveryKeepsCountersMatched | packages/campaign-worker/src/whatsappWorker.ts:35-97 | corrected: when only PENDING or QUEUED recipients are sent to, every outcome keeps the campaign counters in agreement with the recipients |
| WhatsAppWorker.Attempt | packages/campaign-worker/src/whatsappWorker.ts:18-99 | without a store fault an attempt is the delivery step; a throwing recipient lookup, or a throwing record of a failed attempt, changes nothing and escapes |
| WhatsAppWorker.FaultIsAllOrNothing | packages/campaign-worker/src/whatsappWorker.ts:18-99 | for an attempt that reaches the `catch`, a store fault is never half applied: the state is either unchanged or the fault-free delivery, and an unchanged state always means the job is handed back |
| WhatsAppWorker.ProcessRecipientJob | packages/campaign-worker/src/whatsappWorker.ts:18-99 | the store after a job, and whether it threw, are those of the specified attempt, store faults included |
| WhatsAppWorker.DeliveryUpdate | packages/campaign-worker/src/whatsappWorker.ts:30-97 | the recipient and campaign tables it writes, and whether it rethrows, are those of the specified delivery step: skip a missing or SENT recipient, mark SENT and count it, mark FAILED and count it once retries run out, or record the retry and rethrow |
| WhatsAppWorker.ConsumeDeliveryMessage | packages/campaign-worker/src/whatsappWorker.ts:107-122 | a message that is not a job, and an attempt that throws (a store fault or a retry), are requeued; every other one is acknowledged |
| Webhook.StatusReadIds | packages/whatsapp/src/apiHandlers/handleProductionWebhookRequest.ts:42-44 | the message ids acted on are exactly those of the statuses whose status is "read" |
| Webhook.FindByMessageId | packages/whatsapp/src/apiHandlers/handleProductionWebhookRequest.ts:45-47 | a found recipient carries the message id; none is found only when no recipient carries it |
| Webhook.ReceiptOpensOnlySentOrQueued | packages/whatsapp/src/apiHandlers/handleProductionWebhookRequest.ts:44-62 | a read receipt changes a recipient iff it is the one found by the message id and is SENT or QUEUED; it then becomes OPENED, and only its status changes |
| Webhook.ReceiptIsIdempotent | packages/whatsapp/src/apiHandlers/handleProductionWebhookRequest.ts:44-62 | applying the same read receipt twice is applying it once |
| Webhook.ReceiptsKeepWellFormed | packages/whatsapp/src/apiHandlers/handleProductionWebhookRequest.ts:40-67 | read receipts keep the tables well formed |
| Webhook.ReceiptsMatchNothingWithoutMessageIds | packages/whatsapp/src/apiHandlers/handleProductionWebhookRequest.ts:45-47 | while no recipient has a message id, read receipts change nothing |
| Webhook.AddedRecipientsHaveNoMessageId | packages/campaign-worker/src/campaignWorker.ts:138-146 | recipient rows created by the campaign worker have no message id |
| Webhook.IngestRecordsNoMessageIds | packages/campaign-worker/src/campaignWorker.ts:78-175 | handling a campaign job never records a message id |
| Webhook.DeliverRecordsNoMessageIds | packages/campaign-worker/src/whatsappWorker.ts:45-59 | delivering never records a message id, so in this pipeline no read receipt can ever open a recipient |
| Webhook.SessionId | packages/whatsapp/src/apiHandlers/handleProductionWebhookRequest.ts:81-87 | the preview session id "wa-preview-" + sender is chosen iff the preview session has a state, the production id "wa-" + phone number id + "-" + sender otherwise |
| Webhook.ProductionAndPreviewIdsDiffer | packages/whatsapp/src/apiHandlers/handleProductionWebhookRequest.ts:11-12 | a production session id never equals a preview one unless the phone number id starts with "p" |
| Webhook.SessionIds | packages/whatsapp/src/apiHandlers/handleProductionWebhookRequest.ts:75-112 | at most one session per sender, in order; when no lookup throws, exactly one per sender, each under the id the preview check selects |
| Webhook.SessionIdsAppend | packages/whatsapp/src/apiHandlers/handleProductionWebhookRequest.ts:75-112 | the sessions resumed for two runs of senders are those of each run, in order |
| Webhook.ThrowingLookupSkipsOnlyItsSender | packages/whatsapp/src/apiHandlers/handleProductionWebhookRequest.ts:78-110 | a sender whose preview-session lookup throws is skipped, and the senders after it are resumed as if it were absent |
| Webhook.SafeJsonParse | packages/whatsapp/src/apiHandlers/handleProductionWebhookRequest.ts:139-146 | an absent value stays absent; an empty or unparsable string is returned as it is; a non-empty parsable string is returned parsed |
| Webhook.ApplyReceiptsAppend | packages/whatsapp/src/apiHandlers/handleProductionWebhookRequest.ts:40-67 | applying two lists of receipts in turn is applying their concatenation |
| Webhook.BeforeAppend | packages/whatsapp/src/apiHandlers/handleProductionWebhookRequest.ts:40-67 | a receipt walk that gets through one run goes on into the next with the failing index shifted past the first |
| Webhook.WalkStep | packages/whatsapp/src/apiHandlers/handleProductionWebhookRequest.ts:40-67 | composing the walk over handled receipts with the walk over the next part gives the walk over their concatenation, and a throw in the part stops the whole walk there |
| Webhook.ApplyStatuses | packages/whatsapp/src/apiHandlers/handleProductionWebhookRequest.ts:43-64 | the status loop applies the read receipts of a change in order until the store throws, and reports whether it did |
| Webhook.ApplyChanges | packages/whatsapp/src/apiHandlers/handleProductionWebhookRequest.ts:41-65 | the change loop applies the read receipts of every change in order until the store throws, and reports whether it did |
| Webhook.ApplyReadReceipts | packages/whatsapp/src/apiHandlers/handleProductionWebhookRequest.ts:40-67 | the entry loop applies the read receipts of the whole body in order until the store throws, and reports whether it did |
| Webhook.ResumeSessions | packages/whatsapp/src/apiHandlers/handleProductionWebhookRequest.ts:75-112 | the sender loop resumes exactly the specified sessions, skipping a sender whose lookup throws |
| Webhook.HandleProductionWebhookRequest | packages/whatsapp/src/apiHandlers/handleProductionWebhookRequest.ts:17-137 | an unparsable body changes nothing, resumes nothing and is answered "received"; otherwise the receipts before the failing one are applied; the handler gives no answer and resumes nobody iff a store call of the receipt walk throws, and otherwise answers "received" and resumes the specified sessions |
| ExtendedSchemas.IsMessageTypeEnabled | packages/whatsapp/src/extendedSchemas.ts:350-355 | a message type is enabled iff its flag is present and true; an absent flag counts as off |
| ExtendedSchemas.AbsentFlagIsOff | packages/whatsapp/src/extendedSchemas.ts:350-355 | an absent flag disables its type, a present one decides it |
| ExtendedSchemas.UnionAdmitsOnlyFourTypes | packages/whatsapp/src/extendedSchemas.ts:323-328 | the extended sending union admits location, contacts, sticker and reaction messages only; list, CTA URL and template messages are outside it |
| ExtendedConverters.IsFeatureEnabled | packages/whatsapp/src/extendedMessageConverters.ts:36-41 | a feature is on iff its flag is present and true, which is what the schema helper says of the same flags |
| ExtendedConverters.CreateLocationMessage | packages/whatsapp/src/extendedMessageConverters.ts:53-72 | no message iff location messages are off; otherwise the message carries the input's coordinates, name and address |
| ExtendedConverters.CreateContactsMessage | packages/whatsapp/src/extendedMessageConverters.ts:94-129 | no message iff contacts messages are off; otherwise one contact per input contact |
| ExtendedConverters.ContactsAreCopied | packages/whatsapp/src/extendedMessageConverters.ts:104-128 | each contact keeps its names, every phone and every email in order with its type, and has an organisation iff the input has a company |
| ExtendedConverters.CreateStickerMessage | packages/whatsapp/src/extendedMessageConverters.ts:139-161 | no message iff sticker messages are off or the input has neither id nor link; otherwise the sticker carries both as given |
| ExtendedConverters.StickerBuilderMatchesSchema | packages/whatsapp/src/extendedMessageConverters.ts:149-152 | with stickers on, a sticker is built iff it satisfies the sticker schema's "id or link" refinement, and a built one is in the sending union |
| ExtendedConverters.CreateReactionMessage | packages/whatsapp/src/extendedMessageConverters.ts:171-188 | no message iff reaction messages are off; otherwise the reaction carries the message id and emoji |
| ExtendedConverters.UnionBuildersPassTheUnion | packages/whatsapp/src/extendedSchemas.ts:323-328 | every location, contacts and reaction message a builder returns is in the sending union |
| ExtendedConverters.CreateListMessage | packages/whatsapp/src/extendedMessageConverters.ts:212-271 | no message iff list messages are off, the button text exceeds 20 characters, there are more than 10 sections, or a section has more than 10 rows; otherwise header and footer are cut to 60, the body to 1024, the button kept, and one section per input section |
| ExtendedConverters.ListKeepsSectionsAndRows | packages/whatsapp/src/extendedMessageConverters.ts:260-267 | each section keeps its title cut to 24 and every row, with id cut to 200, title to 24 and description to 72 |
| ExtendedConverters.BuiltListIsValidIffNoEmptyPart | packages/whatsapp/src/extendedSchemas.ts:129-143 | a built list satisfies the list schema iff it has a section and every section has a row: the builder never checks the minimums the schema demands |
| ExtendedConverters.EmptyListsAreBuiltButInvalid | packages/whatsapp/src/extendedMessageConverters.ts:228-238 | a list with no section, or with an empty section, is built and then fails the schema |
| ExtendedConverters.CreateCtaUrlMessage | packages/whatsapp/src/extendedMessageConverters.ts:284-321 | no message iff CTA URL messages are off; otherwise the header and footer are their texts cut to 60 when truthy and absent otherwise, the body is cut to 1024, the display text to 20, and the URL is copied |
| ExtendedConverters.CtaWithinLimitsIsSentUncut | packages/whatsapp/src/extendedMessageConverters.ts:294-318 | texts within their limits are sent uncut, with a header or footer present exactly when its text is non-empty |
| ExtendedConverters.BuiltCtaIsValidIffUrlParses | packages/whatsapp/src/extendedSchemas.ts:177-202 | a built CTA URL message satisfies its schema iff the URL parses, since every other field is cut to its limit |
| ExtendedConverters.ConvertParameter | packages/whatsapp/src/extendedMessageConverters.ts:376-416 | each template parameter keeps its kind |
| ExtendedConverters.ConvertParameters | packages/whatsapp/src/extendedMessageConverters.ts:434 | an absent parameter list stays absent; a present one is converted one for one |
| ExtendedConverters.ConvertComponent | packages/whatsapp/src/extendedMessageConverters.ts:418-436 | each template component keeps its kind |
| ExtendedConverters.CreateExtendedTemplateMessage | packages/whatsapp/src/extendedMessageConverters.ts:360-448 | the template keeps its name and language; with extended templates off it has no components, with them on it has components iff the input has |
| ExtendedConverters.TemplateComponentsMapOneForOne | packages/whatsapp/src/extendedMessageConverters.ts:418-436 | every component maps to one of the same kind: headers and bodies with their converted parameters, buttons with their sub-type, index and every parameter |
| InputConverter.MediaFor | packages/whatsapp/src/convertInputToWhatsAppMessage.ts:71-86 | without a media cache the picture is sent by link; with one, by the uploaded id when the upload gives a non-empty id, otherwise (no id or an empty one) by its link |
| InputConverter.ItemBody | packages/whatsapp/src/convertInputToWhatsAppMessage.ts:63-68 | the body text is empty iff the item has neither a title nor a description |
| InputConverter.PictureItemMessages | packages/whatsapp/src/convertInputToWhatsAppMessage.ts:62-94 | each picture item gives an image message iff it has a picture, always followed by its numbered text |
| InputConverter.PictureItemText | packages/whatsapp/src/convertInputToWhatsAppMessage.ts:89-94 | the only text message of a picture item is its number followed by its body |
| InputConverter.PictureListNumbersEveryItem | packages/whatsapp/src/convertInputToWhatsAppMessage.ts:60-96 | the texts of a multiple-choice picture list are the items' bodies numbered 1, 2, ... in item order, one per item |
| InputConverter.BuildBodyText | packages/whatsapp/src/convertInputToWhatsAppMessage.ts:63-68 | the string built step by step is the item body |
| InputConverter.PictureListLoop | packages/whatsapp/src/convertInputToWhatsAppMessage.ts:60-96 | the index loop produces exactly the specified messages |
| InputConverter.PictureItemPass | packages/whatsapp/src/convertInputToWhatsAppMessage.ts:62-94 | one pass gives the item's picture message when it has a picture, then its numbered text, as specified |
| InputConverter.PictureButtonMessage | packages/whatsapp/src/convertInputToWhatsAppMessage.ts:100-147 | one button message per picture, with the item's id and the select label as its only button, a header iff a picture, and a body iff a title or description |
| InputConverter.PictureButtonsLoop | packages/whatsapp/src/convertInputToWhatsAppMessage.ts:98-149 | the loop gives one button message per item, in order |
| InputConverter.ChoiceListText | packages/whatsapp/src/convertInputToWhatsAppMessage.ts:152-170 | a multiple choice becomes one text: the numbered item contents on separate lines, after the last message text and a blank line when there is one |
| InputConverter.DefinedChoices | packages/whatsapp/src/convertInputToWhatsAppMessage.ts:172 | only items whose content is defined are grouped |
| InputConverter.NonEmptyChoices | packages/whatsapp/src/convertInputToWhatsAppMessage.ts:184 | only items whose content is non-empty become buttons |
| InputConverter.ChoiceButtons | packages/whatsapp/src/convertInputToWhatsAppMessage.ts:183-197 | one button per non-empty item of the group, with its id, and the button titles are pairwise distinct |
| InputConverter.ChoiceButtonMessages | packages/whatsapp/src/convertInputToWhatsAppMessage.ts:171-200 | one button message per group of the defined items; the first carries the last message text (or "―"), the others "―" |
| InputConverter.ChoiceMessagesRespectGroupSize | packages/whatsapp/src/convertInputToWhatsAppMessage.ts:171-174 | no message has more buttons than the group size |
| InputConverter.EmptyContentGivesButtonlessMessage | packages/whatsapp/src/convertInputToWhatsAppMessage.ts:172-197 | an item whose content is the empty string is grouped but gets no button, so a message with no button at all is sent |
| InputConverter.CardButtons | packages/whatsapp/src/convertInputToWhatsAppMessage.ts:239-251 | a card gets one button per path among its first three, with the path's id and a distinct title of at most 20 characters |
| InputConverter.CardMessage | packages/whatsapp/src/convertInputToWhatsAppMessage.ts:204-254 | each card is a button message with its path buttons, a header iff an image, and a body iff a title or description |
| InputConverter.CardButtonsOf | packages/whatsapp/src/convertInputToWhatsAppMessage.ts:239-251 | the button builder gives the specified buttons |
| InputConverter.CardsLoop | packages/whatsapp/src/convertInputToWhatsAppMessage.ts:203-256 | one message per card, in order |
| InputConverter.CardPass | packages/whatsapp/src/convertInputToWhatsAppMessage.ts:205-254 | one pass gives the specified button message of the card: image header iff an image url, body iff a title or description, and its buttons |
| InputConverter.CtaHeader | packages/whatsapp/src/convertInputToWhatsAppMessage.ts:277-299 | a text header is cut to 60 characters |
| InputConverter.CtaMessages | packages/whatsapp/src/convertInputToWhatsAppMessage.ts:258-327 | nothing is sent iff the flag is off or the URL or body text is missing; otherwise one CTA message with the URL, the body cut to 1024, the footer cut to 60, and the display text (default "Click here") cut to 20 |
| InputConverter.DefinedContents | packages/whatsapp/src/convertInputToWhatsAppMessage.ts:334-336 | the titles are computed from the items with a defined content |
| InputConverter.RowItems | packages/whatsapp/src/convertInputToWhatsAppMessage.ts:345 | only items with a non-empty content become rows |
| InputConverter.StepAddsRow | packages/whatsapp/src/convertInputToWhatsAppMessage.ts:343-362 | one step of the section loop adds the item as the next row, under a new section when it has a section title |
| InputConverter.ListFoldBuildsFirstTenRows | packages/whatsapp/src/convertInputToWhatsAppMessage.ts:339-362 | the section loop keeps the first ten row items, in order, the k-th with the k-th title, never more sections than rows |
| InputConverter.StepKeepsFirstTenRows | packages/whatsapp/src/convertInputToWhatsAppMessage.ts:343-361 | one pass of the section loop keeps the invariant: the rows are the first (at most ten) row items, the k-th titled with the k-th title, never more sections than rows |
| InputConverter.ListTitles | packages/whatsapp/src/convertInputToWhatsAppMessage.ts:337 | there is one title per item with defined content, so at least one per row item |
| InputConverter.ListMessages | packages/whatsapp/src/convertInputToWhatsAppMessage.ts:328-392 | at most one message; none iff the flag is off or no section was built; the message carries the built sections |
| InputConverter.ListSentIffSomeRow | packages/whatsapp/src/convertInputToWhatsAppMessage.ts:343-364 | a list is sent iff the flag is on and some item has non-empty content |
| InputConverter.ConvertedListIsValid | packages/whatsapp/src/convertInputToWhatsAppMessage.ts:366-391 | a sent list satisfies the interactive list schema when item ids fit 200 characters and the body fits 1024 |
| InputConverter.EmptyThenBananaTitles | packages/whatsapp/src/convertInputToWhatsAppMessage.ts:337 | titles for an empty content followed by "Banana" are "" and "Banana" |
| InputConverter.EmptyThenBananaFold | packages/whatsapp/src/convertInputToWhatsAppMessage.ts:343-362 | the section loop over those items gives one row "b" titled "" |
| InputConverter.EmptyContentShiftsRowTitles | packages/whatsapp/src/convertInputToWhatsAppMessage.ts:334-362 | an empty-content item before "Banana" shifts the titles: the "Banana" row is sent with the empty title |
| InputConverter.RowTitlesFollowTheirRows | packages/whatsapp/src/convertInputToWhatsAppMessage.ts:334-362 | corrected: with titles counted over the rows' own contents, each of the first ten rows has its item's id and the title of that item's content |
| InputConverter.ShortDistinctContentsTitleTheirRows | packages/whatsapp/src/convertInputToWhatsAppMessage.ts:334-362 | corrected: distinct contents of at most 20 characters title their own rows |
| InputConverter.ListLoop | packages/whatsapp/src/convertInputToWhatsAppMessage.ts:339-362 | the loop with its `continue` and `break` builds the specified sections |
| InputConverter.ListLoopPass | packages/whatsapp/src/convertInputToWhatsAppMessage.ts:343-361 | pass i of the loop continues the fold over the items before it, including the break at ten sections |
| InputConverter.ListPass | packages/whatsapp/src/convertInputToWhatsAppMessage.ts:344-361 | one pass skips an item without content or past ten rows, breaks off at ten sections, or adds the item's row, in a new section when it has a section title or none is open, as specified |
| InputConverter.StoppedStaysStopped | packages/whatsapp/src/convertInputToWhatsAppMessage.ts:348 | once the section limit stops the loop, later items change nothing |
| InputConverter.ListCase | packages/whatsapp/src/convertInputToWhatsAppMessage.ts:328-392 | the list case returns the specified messages |
| InputConverter.CardOf | packages/whatsapp/src/convertInputToWhatsAppMessage.ts:417-479 | a card keeps its index, has a header iff header type and URL are both set, a body of at most 160 characters, a display text of at most 20, and at most two quick replies of at most 20 characters |
| InputConverter.WithHeader | packages/whatsapp/src/convertInputToWhatsAppMessage.ts:482-490 | only cards with a header are kept |
| InputConverter.CarouselMessages | packages/whatsapp/src/convertInputToWhatsAppMessage.ts:393-522 | nothing is sent iff there are fewer than two items or fewer than two cards with a header; otherwise one carousel with the body (default "Choose an option below:") cut to 1024 and the kept cards |
| InputConverter.KeptCardsKeepTheirIndex | packages/whatsapp/src/convertInputToWhatsAppMessage.ts:417-490 | every kept card is the card of the item at its index, and the kept indices increase, so filtering leaves gaps in the indices |
| InputConverter.ConvertInput | packages/whatsapp/src/convertInputToWhatsAppMessage.ts:43-523 | every input type this converter handles gets a list of messages, and the ten reply-only types get none |
| InputConverter.ConvertInputToWhatsAppMessages | packages/whatsapp/src/convertInputToWhatsAppMessage.ts:22-524 | the conversion returns the specified messages |
| ButtonTitles.BaseTitle | packages/whatsapp/src/convertInputToWhatsAppMessage.ts:530 | the base title has at most 20 characters and a text of at most 20 is kept as it is |
| ButtonTitles.CollisionTitleFits | packages/whatsapp/src/convertInputToWhatsAppMessage.ts:538-540 | a numbered title has at most 20 characters |
| ButtonTitles.CollisionTitleInjective | packages/whatsapp/src/convertInputToWhatsAppMessage.ts:538-540 | different counters give different numbered titles |
| ButtonTitles.CollisionTitles | packages/whatsapp/src/convertInputToWhatsAppMessage.ts:534-542 | every numbered title up to the counter is in the set |
| ButtonTitles.CollisionTitlesMembers | packages/whatsapp/src/convertInputToWhatsAppMessage.ts:534-542 | the set holds only those numbered titles |
| ButtonTitles.CollisionTitlesSize | packages/whatsapp/src/convertInputToWhatsAppMessage.ts:534-542 | n counters give n distinct titles, which bounds the `do ... while` loop |
| ButtonTitles.NextFree | packages/whatsapp/src/convertInputToWhatsAppMessage.ts:534-542 | the counter the loop stops at gives a title not yet taken, and every counter before it gives a taken one |
| ButtonTitles.NextFreeIsFirstFree | packages/whatsapp/src/convertInputToWhatsAppMessage.ts:534-542 | the loop stops at the first free counter |
| ButtonTitles.TrimTitle | packages/whatsapp/src/convertInputToWhatsAppMessage.ts:526-545 | the title is never one already used; it is the base title when that is free, otherwise the first free numbered title |
| ButtonTitles.TrimTitleFits | packages/whatsapp/src/convertInputToWhatsAppMessage.ts:526-545 | every title has at most 20 characters |
| ButtonTitles.VariantFromSuffix | packages/whatsapp/src/convertInputToWhatsAppMessage.ts:538-540 | the title the loop assembles from the suffix and the available characters is the numbered title |
| ButtonTitles.NumberedTitle | packages/whatsapp/src/convertInputToWhatsAppMessage.ts:538-540 | the string assembly gives the numbered title |
| ButtonTitles.TrimTextTo20Chars | packages/whatsapp/src/convertInputToWhatsAppMessage.ts:526-545 | the loop returns the specified title |
| ButtonTitles.UniqueButtonTitles | packages/whatsapp/src/convertInputToWhatsAppMessage.ts:547-555 | one title per text, pairwise distinct |
| ButtonTitles.UniqueButtonTitlesPrefix | packages/whatsapp/src/convertInputToWhatsAppMessage.ts:547-555 | the titles of a prefix are the prefix of the titles |
| ButtonTitles.UniqueButtonTitlesAt | packages/whatsapp/src/convertInputToWhatsAppMessage.ts:550-554 | each title is trimmed against the titles before it |
| ButtonTitles.UniqueButtonTitlesFit | packages/whatsapp/src/convertInputToWhatsAppMessage.ts:547-555 | every title has at most 20 characters |
| ButtonTitles.DistinctShortTextsAreKept | packages/whatsapp/src/convertInputToWhatsAppMessage.ts:547-555 | distinct texts of at most 20 characters are kept unchanged |
| ButtonTitles.GetUniqueButtonTitles | packages/whatsapp/src/convertInputToWhatsAppMessage.ts:547-555 | the loop returns the specified titles |
| ButtonTitles.GroupBySize | packages/whatsapp/src/convertInputToWhatsAppMessage.ts:557-561 | the groups concatenate back to the input, none is empty, and there are none iff the input is empty |
| ButtonTitles.AddToGroups | packages/whatsapp/src/convertInputToWhatsAppMessage.ts:559 | adding the i-th element appends it to the groups' concatenation and keeps every group non-empty |
| ButtonTitles.GroupsAreFull | packages/whatsapp/src/convertInputToWhatsAppMessage.ts:557-561 | every group but the last has exactly the group size, and the last has the rest |
| ButtonTitles.GroupsAreAtMost | packages/whatsapp/src/convertInputToWhatsAppMessage.ts:557-561 | no group is larger than the group size |
| ButtonTitles.GroupsOfZeroAreSingletons | packages/whatsapp/src/convertInputToWhatsAppMessage.ts:557-561 | with a group size of 0, every item is a group of its own |
| CarouselSchemas.ValidItemConvertsUncut | packages/blocks/inputs/src/whatsappCarousel/schema.ts:22-31 | a card built from an item that satisfies the item schema loses nothing to the converter's cuts: its body, header link, CTA text and URL, and quick replies are the item's own |
| CarouselSchemas.ValidOptionsKeepBody | packages/blocks/inputs/src/whatsappCarousel/schema.ts:36-39 | a carousel body that satisfies the options schema is sent uncut |
| CarouselSchemas.ButtonCount | packages/blocks/inputs/src/mediaCarousel/schema.ts:8-23 | a valid media card has between one and three buttons |
| CarouselSchemas.ValidMediaCarouselButtonBounds | packages/blocks/inputs/src/mediaCarousel/schema.ts:25-32 | valid media cards hold at least one and at most three buttons each |
| CarouselSchemas.ValidMediaCarouselHoldsAtMostThirtyButtons | packages/blocks/inputs/src/mediaCarousel/schema.ts:36-39 | a valid media carousel, at most ten cards, holds at most thirty buttons |
| CarouselSchemas.QuickReplyLimitsDiffer | packages/blocks/inputs/src/mediaCarousel/schema.ts:16-21 | three quick replies are valid on a media carousel card and invalid on a WhatsApp carousel item |
| MediaUpload.CacheUrl | packages/whatsapp/src/getOrUploadMedia.ts:35 | the cache key URL is the longest prefix of the URL before its first "?" |
| MediaUpload.CacheUrlIdempotent | packages/whatsapp/src/getOrUploadMedia.ts:35 | cutting the query twice is cutting it once, and a URL without a query is its own key |
| MediaUpload.QueryDoesNotChangeCacheUrl | packages/whatsapp/src/getOrUploadMedia.ts:35 | a URL with any query string shares the cache entry of the URL without it |
| MediaUpload.ProviderOf | packages/whatsapp/src/getOrUploadMedia.ts:39-42 | the provider is 360dialog iff the credentials say "360dialog", WhatsApp otherwise |
| MediaUpload.WebpIsASticker | packages/whatsapp/src/getOrUploadMedia.ts:64-70 | "image/webp" is uploaded as a sticker, since "webp" is tested before "image" |
| MediaUpload.PngIsAnImage | packages/whatsapp/src/getOrUploadMedia.ts:64-70 | "image/png" is uploaded as an image |
| MediaUpload.DefaultMimeNamesNoImage | packages/whatsapp/src/getOrUploadMedia.ts:53-54 | the default MIME type names no image |
| MediaUpload.DefaultMimeNamesNoVideo | packages/whatsapp/src/getOrUploadMedia.ts:53-54 | the default MIME type names no video |
| MediaUpload.DefaultMimeNamesNoAudio | packages/whatsapp/src/getOrUploadMedia.ts:53-54 | the default MIME type names no audio |
| MediaUpload.DefaultMimeIsADocument | packages/whatsapp/src/getOrUploadMedia.ts:53-70 | a response without a content type is uploaded as a document |
| MediaUpload.UploadFileName | packages/whatsapp/src/getOrUploadMedia.ts:76 | the uploaded file is named "media." followed by the MIME subtype |
| MediaUpload.KeyOf | packages/whatsapp/src/getOrUploadMedia.ts:35-44 | the cache key never holds a query string |
| MediaUpload.GetOrUploadMedia | packages/whatsapp/src/getOrUploadMedia.ts:27-130 | the cache changes only on a successful upload with the cache enabled, and then stores the new id under the URL's key for 30 days; a failure leaves the cache unchanged |
| MediaUpload.CacheHitSkipsNetwork | packages/whatsapp/src/getOrUploadMedia.ts:36-46 | a cache hit returns the cached id whatever the network would do |
| MediaUpload.RejectedContentGivesNoId | packages/whatsapp/src/getOrUploadMedia.ts:57-61 | an HTML or plain-text response gives no id and leaves the cache unchanged |
| MediaUpload.UploadedIdIsReused | packages/whatsapp/src/getOrUploadMedia.ts:35-46 | an id uploaded for a URL is returned, without any network call, for the same URL with any query string |
| CampaignFiles.SanitizeFileName | packages/lib/src/campaign/uploadCampaignFile.ts:24 | every character outside letters, digits, "." and "-" becomes "_", and nothing else changes |
| CampaignFiles.SanitizeIsIdempotent | packages/lib/src/campaign/uploadCampaignFile.ts:24 | a sanitised name holds only safe characters and "_", and sanitising it again changes nothing |
| CampaignFiles.UploadCampaignFile | packages/lib/src/campaign/uploadCampaignFile.ts:12-41 | with S3 the object is stored under "public/campaigns/" + workspace, time and sanitised name, and the returned URL is the public base URL followed by that path; without S3 the URL is "/uploads/campaigns/" + the unsanitised name and nothing is stored |
| CampaignFiles.PathParts | packages/lib/src/campaign/downloadCampaignFile.ts:11-12 | a URL's path split on "/" starts with an empty part and holds no query or fragment; for a URL without them it is the segments after `scheme://host` |
| CampaignFiles.WithoutQuery | packages/lib/src/campaign/downloadCampaignFile.ts:11-12 | the URL is cut at its first "?" or "#", and is kept whole when it has neither |
| CampaignFiles.QueryDoesNotChangePathParts | packages/lib/src/campaign/downloadCampaignFile.ts:11-12 | a query or fragment leaves the path segments as they are |
| CampaignFiles.PathPartsOfObjectUrl | packages/lib/src/campaign/downloadCampaignFile.ts:11-12 | the segments of `base/seg/key` are the base's path segments, `seg`, and the key's |
| CampaignFiles.ObjectUrlIsDownloadedFromS3 | packages/lib/src/campaign/downloadCampaignFile.ts:10-16 | the object URL `base/public/key` is read from S3 under `public/key` |
| CampaignFiles.DownloadSource | packages/lib/src/campaign/downloadCampaignFile.ts:4-47 | a file is read from S3 iff S3 is configured, the URL starts with "http" and its path has a "public" part; otherwise an "http" URL is fetched; anything else is read from disk, under the public folder when it starts with "/uploads/" |
| CampaignFiles.S3KeyStartsAtPublic | packages/lib/src/campaign/downloadCampaignFile.ts:13-16 | the S3 key is the path from its first "public" part on |
| CampaignFiles.UploadThenDownloadFindsTheObject | packages/lib/src/campaign/downloadCampaignFile.ts:10-16 | a file uploaded to S3 is read back from the object it was stored under, when the public base URL's own path has no "public" part |
| CampaignFiles.LocalUploadIsReadFromPublicFolder | packages/lib/src/campaign/downloadCampaignFile.ts:42-44 | a file stored without S3 is read from the public uploads folder under the working directory |
| CampaignFiles.HttpWithoutPublicIsFetched | packages/lib/src/campaign/downloadCampaignFile.ts:33-37 | an "http" URL without a "public" part is fetched even when S3 is configured |
| ChatSessions.TypebotNames | apps/builder/src/features/chatHistory/api/getChatSessions.ts:64-77 | every name in the lookup is that of a typebot of the workspace, and of the requested typebot when one is given |
| ChatSessions.SummaryOf | apps/builder/src/features/chatHistory/api/getChatSessions.ts:101-118 | a session is listed iff its state parses, its first queued typebot has an id, and that typebot has a non-empty name in the lookup; the summary keeps the session's id and that name |
| ChatSessions.KeptSummaries | apps/builder/src/features/chatHistory/api/getChatSessions.ts:98-123 | no more summaries than sessions |
| ChatSessions.KeptSummariesPrefix | apps/builder/src/features/chatHistory/api/getChatSessions.ts:98-123 | the sessions of a prefix give a prefix of the summaries |
| ChatSessions.KeptSummariesAreValid | apps/builder/src/features/chatHistory/api/getChatSessions.ts:106-118 | every summary names a typebot of the lookup with its non-empty name and comes from one of the sessions |
| ChatSessions.KeptSummariesAppend | apps/builder/src/features/chatHistory/api/getChatSessions.ts:98-123 | the summaries of two runs of sessions are the summaries of each, in order |
| ChatSessions.FetchPage | apps/builder/src/features/chatHistory/api/getChatSessions.ts:80-87 | at most the requested number of sessions; without a cursor the first ones; with an unknown cursor none; with a known one, those after its first occurrence |
| ChatSessions.CursorPageFollowsTheCursor | apps/builder/src/features/chatHistory/api/getChatSessions.ts:82-83 | with distinct ids, the page after a cursor starts right after that session |
| ChatSessions.ListedSessions | apps/builder/src/features/chatHistory/api/getChatSessions.ts:98-99 | the listed sessions are the first summaries, at most the limit, and all of them when fewer |
| ChatSessions.CollectValidSessions | apps/builder/src/features/chatHistory/api/getChatSessions.ts:98-123 | the loop with its `break` and `continue`s lists exactly the specified summaries |
| ChatSessions.NextCursor | apps/builder/src/features/chatHistory/api/getChatSessions.ts:125-128 | a cursor is returned iff the page is full, more sessions were fetched than listed, and the page is not empty; it is the last listed id |
| ChatSessions.GetChatSessions | apps/builder/src/features/chatHistory/api/getChatSessions.ts:7-134 | BAD_REQUEST iff the limit (default 50) is outside 1..200; otherwise NOT_FOUND iff the user is not a member of the workspace; otherwise the page is a prefix of the summaries of three times the limit of fetched sessions, at most the limit, with a cursor iff the page is full and more were fetched |
| ChatSessions.HandleGetChatSessions | apps/builder/src/features/chatHistory/api/getChatSessions.ts:7-134 | the handler answers as specified |
| ChatSessions.ListedSessionsAreValid | apps/builder/src/features/chatHistory/api/getChatSessions.ts:106-118 | every listed session has a non-empty typebot name of a typebot of the workspace (the requested one when given) and was among the fetched sessions |
| ChatSessions.SkippedSessionsEndThePagination | apps/builder/src/features/chatHistory/api/getChatSessions.ts:80-128 | with a limit of 1, three unparsable sessions followed by a good one give an empty page and no cursor, so the good session is never reachable |
| ChatSessions.ExaminedSessionsMakeThePage | apps/builder/src/features/chatHistory/api/getChatSessions.ts:98-123 | the page is what the loop keeps of the sessions it looks at before it stops, and when it stops before the end the page is full |
| ChatSessions.CursorAfterExaminedMissesNothing | apps/builder/src/features/chatHistory/api/getChatSessions.ts:80-128 | corrected: with the cursor at the last session looked at, the listing is the page followed by what lies after the cursor, and no cursor means nothing listable remains |
| SaveState.IsCompleted | packages/bot-engine/src/saveStateToDatabase.ts:40-44 | a session is complete iff there is no input, no client-side action expecting a dedicated reply, and no wait for an external event |
| SaveState.OrElseBool | packages/bot-engine/src/saveStateToDatabase.ts:40-44 | an absent flag counts as false |
| SaveState.ResultCompleted | packages/bot-engine/src/saveStateToDatabase.ts:97-99 | a result is complete iff there is no input, no action expecting a dedicated reply, and some answer |
| SaveState.SaveStatePlan | packages/bot-engine/src/saveStateToDatabase.ts:46-110 | an existing session keeps its id; a new one is upserted first, with its replying flag, and takes the id the upsert returns |
| SaveState.SaveStateToDatabase | packages/bot-engine/src/saveStateToDatabase.ts:46-110 | the handler returns the specified session and issues the specified writes in order |
| SaveState.AllQueriesOfOne | packages/bot-engine/src/saveStateToDatabase.ts:108 | the queries of one write are those of its transaction |
| SaveState.AllQueriesOfTwo | packages/bot-engine/src/saveStateToDatabase.ts:72-108 | after the upsert of a new session, the queries are those of the transaction |
| SaveState.ExistingSessionIsUpdatedNotDeleted | packages/bot-engine/src/saveStateToDatabase.ts:50-70 | an existing session, complete or not, is updated exactly once in a single transaction and never deleted or upserted |
| SaveState.NewSessionIsUpsertedNotUpdated | packages/bot-engine/src/saveStateToDatabase.ts:72-78 | a new session is upserted first and then only the result is written; it is never updated or deleted |
| SaveState.NoResultExistingRunsOnlyTheUpdate | packages/bot-engine/src/saveStateToDatabase.ts:86-89 | without a result, an existing session's save is one transaction holding its update |
| SaveState.NoResultNewRunsNoTransaction | packages/bot-engine/src/saveStateToDatabase.ts:86-89 | without a result, a new session's save is its upsert alone |
| SaveState.ResultIsUpsertedLast | packages/bot-engine/src/saveStateToDatabase.ts:93-108 | with a result, the last query of the transaction upserts it: started iff some answer, complete as the result flag says, linked to the saved session |
| SaveState.CompletionFlagsAgree | packages/bot-engine/src/saveStateToDatabase.ts:40-44 | a complete result with no external wait means a complete session; a complete session with an answer means a complete result; no answer means an incomplete result |
| PublishTypebot.BackfillBlock | apps/builder/src/features/typebot/api/publishTypebot.ts:75-101 | a sticker block with a URL and no media id gets the uploaded id when the upload succeeds with a non-empty id; every other block is unchanged, and nothing but the media id ever changes |
| PublishTypebot.BackfillGroup | apps/builder/src/features/typebot/api/publishTypebot.ts:73-112 | a group keeps its id and has each of its blocks back-filled in place |
| PublishTypebot.BackfillGroups | apps/builder/src/features/typebot/api/publishTypebot.ts:73-112 | every group is back-filled in place, none added or removed |
| PublishTypebot.BackfillStickers | apps/builder/src/features/typebot/api/publishTypebot.ts:70-112 | the nested loops produce the back-filled groups, and report a change iff some sticker got an id |
| PublishTypebot.BackfillBlocks | apps/builder/src/features/typebot/api/publishTypebot.ts:74-111 | the inner loop gives the back-filled blocks of one group and reports a change iff one of its stickers got an id |
| PublishTypebot.StickerWrite | apps/builder/src/features/typebot/api/publishTypebot.ts:39-126 | the groups are written back iff the workspace has WhatsApp credentials, the typebot has a public id, and some sticker got an id; what is written is the back-filled groups |
| PublishTypebot.UploadStickersIfNeeded | apps/builder/src/features/typebot/api/publishTypebot.ts:39-126 | the procedure issues exactly the specified write |
| PublishTypebot.BackfillTouchesOnlyStickersNeedingIds | apps/builder/src/features/typebot/api/publishTypebot.ts:75-101 | a block that changes is a sticker that needed an id, and it changes only by gaining the uploaded, non-empty id |
| PublishTypebot.BackfillIsIdempotent | apps/builder/src/features/typebot/api/publishTypebot.ts:75-79 | back-filling twice is back-filling once, and nothing is left to upload afterwards |
| PublishTypebot.TrademarkWarnings | apps/builder/src/features/typebot/api/publishTypebot.ts:248-269 | at most one warning; there is one iff the typebot was not verified, its title or description differ from the published ones, and a trademark is detected; it names that trademark |
| PublishTypebot.RiskWrites | apps/builder/src/features/typebot/api/publishTypebot.ts:219-246 | nothing is written iff the risk is not positive or equals the stored one; otherwise the risk is saved, a review message is sent iff the risk is above 60 and not 100, and the published copy is deleted iff the risk is above 80 |
| PublishTypebot.Publish | apps/builder/src/features/typebot/api/publishTypebot.ts:178-194 | a missing typebot or a forbidden write gives NOT_FOUND and no write; a file upload block on the free plan gives BAD_REQUEST and no write |
| PublishTypebot.VerifiedTypebotSkipsTheRadar | apps/builder/src/features/typebot/api/publishTypebot.ts:196-216 | a verified typebot publishes with no warning and no risk write, review or deletion |
| PublishTypebot.HighStoredRiskIsRefusedFirst | apps/builder/src/features/typebot/api/publishTypebot.ts:199-208 | an unverified typebot whose stored risk is above 80 is refused with FORBIDDEN before anything is written |
| PublishTypebot.NewHighRiskRemovesTheCopy | apps/builder/src/features/typebot/api/publishTypebot.ts:219-246 | a new risk above 80 is saved, reviewed unless it is 100, removes the published copy, and refuses publication without writing any copy or sticker |
| PublishTypebot.SuccessWritesTheCopyOnce | apps/builder/src/features/typebot/api/publishTypebot.ts:280-336 | a successful publication ends by updating the existing copy or creating one, then tracking the events, with the publication event added only for a first publication; no copy is written earlier, and at most one warning is returned |
| PublishTypebot.PublishedCopyMissesNewStickerIds | apps/builder/src/features/typebot/api/publishTypebot.ts:278-329 | when a sticker gets a new id, the back-filled groups are saved to the typebot but the copy is written from the groups read before, so the published copy lacks the new id |
| PublishTypebot.BackfillWithoutUploadsKeepsGroups | apps/builder/src/features/typebot/api/publishTypebot.ts:65-113 | with no sticker to upload, the back-fill leaves the groups unchanged |
| PublishTypebot.CopyCarriesTheSavedStickerIds | apps/builder/src/features/typebot/api/publishTypebot.ts:277-329 | corrected: with the copy written after the back-fill, it holds the back-filled groups whenever stickers can be uploaded, and every other write and the result are those of publishing as written |
| WhatsAppPreview.RemoveAll | apps/builder/src/features/whatsapp/startWhatsAppPreview.ts:99-101 | removing characters leaves only kept characters of the input, and never lengthens it |
| WhatsAppPreview.RemoveAllTwice | apps/builder/src/features/whatsapp/startWhatsAppPreview.ts:99-101 | removing one set of characters and then another is removing their union in one pass |
| WhatsAppPreview.RemoveAllIdempotent | apps/builder/src/features/whatsapp/startWhatsAppPreview.ts:99-101 | removing the same characters twice is removing them once |
| WhatsAppPreview.NormalizeRecipientDropsExactly | apps/builder/src/features/whatsapp/startWhatsAppPreview.ts:96-101 | the three replacements drop exactly the whitespace, "+" and "-" characters, keeping the others in order |
| WhatsAppPreview.NormalizeRecipientIdempotent | apps/builder/src/features/whatsapp/startWhatsAppPreview.ts:96-101 | normalising a normalised number changes nothing |
| WhatsAppPreview.DigitsAreKept | apps/builder/src/features/whatsapp/startWhatsAppPreview.ts:96-101 | a number made only of digits is left as it is |
| WhatsAppPreview.DigitsSurviveRemoval | apps/builder/src/features/whatsapp/startWhatsAppPreview.ts:99-101 | no digit is ever dropped |
| WhatsAppPreview.CanSendDirectMessages | apps/builder/src/features/whatsapp/startWhatsAppPreview.ts:172-174 | with a session, direct messages are allowed iff it was updated within the last 24 hours; without one, iff the clock is still within 24 hours of the epoch |
| WhatsAppPreview.NoSessionMeansTemplate | apps/builder/src/features/whatsapp/startWhatsAppPreview.ts:172-174 | at any real time, a recipient without a session gets the template |
| WhatsAppPreview.PreviewStickerWrite | apps/builder/src/features/whatsapp/startWhatsAppPreview.ts:24-82 | stickers are written back iff the system user token is set and some sticker got an id; what is written is the back-filled groups |
| WhatsAppPreview.UploadStickersForPreview | apps/builder/src/features/whatsapp/startWhatsAppPreview.ts:24-82 | the preview's sticker procedure issues exactly the specified write, reusing the publish back-fill |
| WhatsAppPreview.StartPreview | apps/builder/src/features/whatsapp/startWhatsAppPreview.ts:111-154 | a missing phone number id, token or template name gives BAD_REQUEST with no effect; a missing or unreadable typebot then gives NOT_FOUND with no effect; the outcome is a success iff neither happens |
| WhatsAppPreview.PreviewBranches | apps/builder/src/features/whatsapp/startWhatsAppPreview.ts:159-263 | the session "wa-preview-" + the normalised number is started, registering only when direct messages are not allowed; then either the reply is sent and the session updated in one transaction ("Sent direct WA message"), or the session is restarted and the template sent ("Sent WA template"); the update saved in the direct branch never marks the session as replying |
| WhatsAppPreview.PreviewSessionIsResumedByWebhook | apps/builder/src/features/whatsapp/startWhatsAppPreview.ts:159 | the preview's session id is the one the production webhook picks for that sender when the preview session has a state |
| WhatsAppPreview.FormattedNumberSharesTheSession | apps/builder/src/features/whatsapp/startWhatsAppPreview.ts:96-101 | a number written with spaces, "+" or "-" opens the same preview session as its bare digits |
| ParseNewBlock.ParseDefaultItems | apps/builder/src/features/typebot/helpers/parseNewBlock.ts:11-53 | every type with defaults gets one or two items, and a type without defaults gets none |
| ParseNewBlock.ParseNewBlock | apps/builder/src/features/typebot/helpers/parseNewBlock.ts:55-63 | the block takes the first fresh id and its type, and has an items field iff its type has items |
| ParseNewBlock.NewBlockIdsComeFromTheSupply | apps/builder/src/features/typebot/helpers/parseNewBlock.ts:11-63 | the ids of the block, its items and their paths are the first one to three ids of the supply, in order, so they are distinct when the supply is |
| ParseNewBlock.SingleDefaultItem | apps/builder/src/features/typebot/helpers/parseNewBlock.ts:13-16 | choice, picture choice, condition and WhatsApp list blocks start with one plain item |
| ParseNewBlock.CardsStartWithOnePath | apps/builder/src/features/typebot/helpers/parseNewBlock.ts:17-23 | a cards block starts with one item holding one path |
| ParseNewBlock.AbTestStartsWithPathsAB | apps/builder/src/features/typebot/helpers/parseNewBlock.ts:24-28 | an A/B test starts with paths "a" then "b" |
| ParseNewBlock.CarouselStartsWithTwoValidItems | apps/builder/src/features/typebot/helpers/parseNewBlock.ts:31-51 | a WhatsApp carousel starts with two items with an image header and a URL button, each valid for the carousel item schema |
| ParseNewBlock.DefaultCarouselSendsNothing | apps/builder/src/features/typebot/helpers/parseNewBlock.ts:31-51 | the two default carousel items have no image URL, so neither card gets a header and a carousel left at its defaults sends nothing |

## Where the code departs from its apparent intent

Each intent below is read off the code itself: a log message, a comment, a default or the
test that another step relies on. The model keeps the code as written, proves what it does,
and beside it defines the evidently intended behaviour with that behaviour proved; the
"## Findings" table pairs the two.

- The delivery worker logs "already sent, skipping (idempotency)" when it skips a job
  (`whatsappWorker.ts:35-37`), but it guards only SENT. A job delivered again for an OPENED
  or FAILED recipient sends again and counts the recipient a second time, so the counters
  can exceed the total.
- The delivery worker adds one to `sentCount` for every send (`whatsappWorker.ts:52-57`).
  The completion pass overwrites it with the number of SENT recipients
  (`completionChecker.ts:34-47`), leaving out the OPENED ones, so completion can lower the
  count.
- The completion pass takes a recorded total as the sign that ingestion is done
  (`completionChecker.ts:27`). Ingestion records the total before it inserts the rows
  (`campaignWorker.ts:129-146`), so a pass in between completes the campaign with nothing
  sent.
- The batch size defaults to 100 (`config.ts:19`). A setting that is not a number makes
  `parseInt` give NaN. The loop then takes one empty batch and stops, so the campaign has its
  total but no recipient rows, and the next completion pass completes it with nothing sent.
  A setting of zero or less makes the loop run forever. The model leaves that case out.
- The scheduler sets the claimed campaigns RUNNING inside a transaction and publishes their
  jobs after it (`scheduler.ts:32-51`). When publishing fails part way, the campaigns whose
  jobs were not published stay RUNNING with no job, and no later poll claims them.
- The session history reads three times the page size "to account for filtered sessions"
  (`getChatSessions.ts:81`). It returns a cursor only for a full page
  (`getChatSessions.ts:125-128`). So a read whose sessions are all skipped ends the
  pagination while listable sessions remain.
- Publishing uploads stickers "before publishing" (`publishTypebot.ts:277-278`) and saves
  their new media ids on the typebot. The published copy is built from the groups read
  before the upload (`publishTypebot.ts:288`, `:307`), so it lacks the new ids.
- A WhatsApp list titles row `totalRows` with `uniqueTitles[totalRows]`
  (`convertInputToWhatsAppMessage.ts:358`). The titles are computed over every defined
  content, the empty ones included (`:334-337`), while rows skip empty contents. An item with
  empty content therefore gives the rows after it the titles of the items before them.

## Findings

| source | as written | input that shows it | evidently intended | confidence | as-written member | corrected member |
|---|---|---|---|---|---|---|
| packages/campaign-worker/src/whatsappWorker.ts:35 | only a SENT recipient is skipped | a job delivered again for an OPENED recipient whose campaign's counters match its recipients | a recipient whose message went out, or that failed, is not sent to again, and the counters stay within the recipients | not executed | WhatsAppWorker.RedeliveryCountsAgain, WhatsAppWorker.RedeliveryBreaksTheCounters | WhatsAppWorker.DeliverOnce, WhatsAppWorker.GuardedDeliveryKeepsCountersMatched, WhatsAppWorker.MatchedCountersStayWithinTheRecipients |
| packages/campaign-worker/src/completionChecker.ts:34-47 | the final sent count counts SENT recipients only | a ready campaign with an OPENED recipient, whose sent count counts its SENT and OPENED recipients, completes with a smaller sent count | every recipient whose message went out counts as sent, so completion keeps the worker's counts | not executed | CompletionChecker.CompletedSentCountLeavesOutOpened, CompletionChecker.CompletionCanLowerSentCount | CompletionChecker.CompleteCountingEverySend, CompletionChecker.CountingEverySendKeepsTheCounters |
| packages/campaign-worker/src/campaignWorker.ts:129-146 | the total is recorded before any recipient row exists | a completion pass between the update of the total and the first batch | the total is recorded once the rows are in, so no pass finds the campaign ready early | not executed | CompletionChecker.TotalBeforeRowsLetsCampaignCompleteEarly | CompletionChecker.RowsThenTotal, CompletionChecker.RowsThenTotalWaitsForTheRecipients |
| packages/campaign-worker/src/config.ts:19 | a batch size that is not a number is NaN, and the loop inserts nobody | WORKER_BATCH_SIZE set to "abc" | an unusable setting falls back to the default of 100 | not executed | CampaignWorker.NaNBatchSizeQueuesNobody, CompletionChecker.NaNBatchSizeCompletesWithNothingSent | CampaignWorker.EffectiveBatchSize, CampaignWorker.FallbackBatchSizeQueuesEveryRecipient |
| packages/campaign-worker/src/scheduler.ts:32-51 | every due campaign is set RUNNING before its job is published | two due campaigns, with publishing failing after the first job | a campaign whose job was not published stays due for the next poll | not executed | Scheduler.PublishFailureStrandsCampaigns | Scheduler.PollPromotingThePublished, Scheduler.PromotingThePublishedStrandsNothing |
| apps/builder/src/features/chatHistory/api/getChatSessions.ts:125-128 | a cursor is returned only for a full page | a limit of 1, with three unparsable sessions followed by a good one | the cursor points past the sessions looked at whenever more may follow, so nothing listable is missed | not executed | ChatSessions.SkippedSessionsEndThePagination | ChatSessions.NextCursorAfterExamined, ChatSessions.CursorAfterExaminedMissesNothing |
| apps/builder/src/features/typebot/api/publishTypebot.ts:288 | the published copy is built from the groups read before the sticker upload | a sticker block without a media id, with WhatsApp credentials and a public id | the copy carries the sticker ids saved on the typebot | not executed | PublishTypebot.PublishedCopyMissesNewStickerIds | PublishTypebot.PublishCopyingStickerIds, PublishTypebot.CopyCarriesTheSavedStickerIds |
| packages/whatsapp/src/convertInputToWhatsAppMessage.ts:334-358 | titles are counted over every defined content, rows over the non-empty ones | an item with empty content followed by an item "Banana" | each row is titled from its own item's content | not executed | InputConverter.EmptyContentShiftsRowTitles | InputConverter.RowTitles, InputConverter.RowTitlesFollowTheirRows, InputConverter.ShortDistinctContentsTitleTheirRows |

## Notes on the code's behaviour

These are not defects, but a reader of the model should know them.

- The phone column is found by exactly the four names `phone`, `phoneNumber`, `phone_number`
  and `mobile`, in that order of priority. No case or underscore variant of them is matched.
- The standalone campaign worker turns numeric phone cells into text. The combined service in
  `main.ts` accepts only text cells and skips rows whose phone is a number
  (`CombinedService.ExtractorsDisagreeOnNumericCells`).
- The message sender in `main.ts` and `whatsappWorker.ts` is a placeholder that always
  succeeds. The model takes the send outcome as a parameter, and the combined service's
  outcome is always a success (`CombinedService.StubSenderAlwaysDelivers`).
- Read receipts look recipients up by message id (`handleProductionWebhookRequest.ts:46`).
  No step of the pipeline records a message id on a recipient, so no receipt matches one
  (`Webhook.IngestRecordsNoMessageIds`, `Webhook.DeliverRecordsNoMessageIds`,
  `Webhook.ReceiptsMatchNothingWithoutMessageIds`).
- A WhatsApp carousel block left at its default items sends nothing. Neither default card has
  an image, and the conversion needs two cards with a header
  (`ParseNewBlock.DefaultCarouselSendsNothing`).
- Completed chat sessions are kept and updated rather than deleted; the deletion is commented
  out (`SaveState.ExistingSessionIsUpdatedNotDeleted`).
- Without a stored session, a preview starts with a template message at any real time,
  matching the comment at `startWhatsAppPreview.ts:171` (`WhatsAppPreview.NoSessionMeansTemplate`).

## Left out

- Queue transport: the broker connection, channel set-up, dead-letter arguments, prefetch and acknowledgement timing are not modelled; a queue is a sequence and a consumer's acknowledgement is its result.
- Polling loops and their intervals, process start-up and shut-down, logging, Sentry reports and console output are left out; each poll is one call.
- Parsing of CSV and spreadsheet files is a parameter: the model receives the rows (or the parse error) the parser yields.
- File downloads and uploads to object storage are parameters: their outcome is an input, and the storage itself is not modelled.
- The batch size is a parameter, either a number or NaN; ids created by a batch insert come from a supply of fresh ids.
- CampaignWorker.IngestCampaign: a batch size of zero or less, with which the source's batch loop never ends, is excluded by the `Ends` precondition.
- CampaignWorker.IngestCampaign: a throw from the error handler's own update is not modelled; a batch's `createManyAndReturn` and its publish each succeed or fail as a whole; which step throws is a parameter.
- CampaignWorker.IngestCampaign: the delivery worker does not read the campaign's status, so it keeps sending jobs queued before a campaign FAILED; the model states this only as the jobs left on the queue.
- CampaignWorker.ExtractPhoneNumber: numeric cells are unbounded integers, so what `String()` does to a JavaScript double is not modelled: a fractional cell such as 9876543210.5 (its "." dropped by normalisation), a cell above 2^53 that the double rounds, and a cell of 1e21 or more that prints in exponent form and so is rejected.
- ButtonTitles: lengths are counted in code points, while the source's `.length`, `.slice` and zod `.max` count UTF-16 units; a character outside the Basic Multilingual Plane (an emoji, say) counts once rather than twice, so a text with such characters is cut later than the source cuts it. The same holds for `Take` in every cut and for the length limits of `ExtendedSchemas` and `CarouselSchemas`.
- CampaignFiles: a malformed URL starting with "http", which makes `new URL` throw, is not modelled; the model reads its path segments anyway.
- CampaignFiles.DownloadSource: the local path is the plain concatenation of the working directory, "/public" and the file URL; the normalisation `path.join` applies (resolving ".." and ".", collapsing doubled slashes) is not modelled.
- CombinedService.ProcessCampaignJob: the combined service fetches every file by its URL and does not check the response status, so an error page would be parsed as rows; the model takes the outcome of that fetch as a parameter, like the worker's download.
- Dates are integers (milliseconds); time zones and date parsing are not modelled.
- Work deferred with `after()` in the webhook handler is modelled as done before the handler returns.
- Webhook.ResumeSessions: a throw inside `resumeWhatsAppFlow` is caught like a throwing lookup; as the resume's own effects are not modelled, that sender still counts as resumed.
- Webhook.HandleProductionWebhookRequest: what the framework answers when the handler throws is not modelled; the model gives no answer.
- WhatsAppWorker.Deliver: the SENT transaction fails only when the job's campaign is missing; a store failure of that transaction for another reason, which the `catch` handles like a failed send with the store's message, is not modelled.
- Resuming a WhatsApp flow is not modelled beyond the session id it is given; its replies are out of scope.
- The webhook's error extraction and the grouping of entries per user are reduced to the senders and the read statuses of the body.
- Request bodies are taken as already parsed by their zod schemas; the schemas' own parsing of raw JSON is not modelled beyond the validators of `ExtendedSchemas` and `CarouselSchemas`.
- ChatSessions: a database cursor that names no session is taken to give an empty page, and the coercion of `limit` from text is not modelled.
- SaveState: logs, visited edges and variable history are not saved in the model; the typebot queue is taken to have a first entry; the id the session upsert returns is a parameter.
- PublishTypebot: the risk score, the trademark detector, the publish events and the write-permission check are parameters; sending messages to the team is left out; the media upload is a pure function, so the media cache is not threaded through it; decryption of credentials and its swallowed errors are not modelled; group parsing across schema versions is not modelled.
- WhatsAppPreview: starting the chat session and sending its replies are abstract, and the error shown when sending fails is not modelled; `startFrom` and the workspace suspension fields are left out.
- ParseNewBlock: which block types have items is a parameter, as the helper that decides it is not part of this model; new ids come from a supply.
- MediaUpload: URL parsing is reduced to cutting the query string; the cache reader `getMediaIdFromCache` is not part of this model, so a lookup returns any stored id without reading its expiry; the 360dialog and Meta endpoints and their credentials are left out.
- The conversion of the last message's rich text to markdown is not modelled: the text arrives as a string.
- Environment flags are parameters.
- InputConverter: the carousel input is untyped in the source; the model gives it the fields the conversion reads.
- The JavaScript `\s` class is written out as an explicit set of characters; characters outside that set are not treated as white space.
