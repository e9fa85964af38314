/** The delivery worker: for one delivery job it sends the message unless the recipient is
  * missing or already SENT, then records SENT (and counts it on the campaign), or records the
  * failed attempt: FAILED (counted) once the retries are used up, otherwise a retry that is
  * handed back to the queue. */
module WhatsAppWorker {
  import opened Text
  import opened CampaignSchema
  import opened CampaignStore

  /** What `parseInt` makes of the configured maximum of attempts: a number, or NaN when
    * the setting does not start with one. */
  datatype RetryLimit = Limit(n: int) | LimitNaN

  const DefaultMaxRetries: RetryLimit := Limit(3)

  /** `newRetryCount >= MAX_RETRIES`: a comparison with NaN is false, so under a NaN limit
    * the retries never run out. */
  predicate Exhausted(retries: int, maxRetries: RetryLimit)
  {
    maxRetries.Limit? && retries >= maxRetries.n
  }

  /** The outcome of the send. The sender is a placeholder that always succeeds; a real one
    * can fail with a message. */
  datatype SendOutcome = Delivered | SendFailed(message: string)

  /** The error an update of a missing campaign raises (the text stands in for the store's). */
  const CampaignNotFound: string := "Record to update not found."

  /** A state and whether the handler rethrew its error. */
  datatype Step = Step(world: World, threw: bool)

  function MarkSent(w: World, rid: string, cid: string, now: int): World
    requires rid in w.recipients && cid in w.campaigns
  {
    w.(recipients := w.recipients[rid := w.recipients[rid].(status := RecipientStatus.Sent, sentAt := Some(now))],
       campaigns := w.campaigns[cid := w.campaigns[cid].(sentCount := w.campaigns[cid].sentCount + 1)])
  }

  function MarkFailed(w: World, rid: string, cid: string, retries: nat, message: string): World
    requires rid in w.recipients && cid in w.campaigns
  {
    w.(recipients := w.recipients[rid := w.recipients[rid].(status := RecipientStatus.Failed,
                                                            retryCount := retries, errorMessage := Some(message))],
       campaigns := w.campaigns[cid := w.campaigns[cid].(failedCount := w.campaigns[cid].failedCount + 1)])
  }

  function RecordRetry(w: World, rid: string, retries: nat, message: string): World
    requires rid in w.recipients
  {
    w.(recipients := w.recipients[rid := w.recipients[rid].(retryCount := retries, errorMessage := Some(message))])
  }

  /** One delivery attempt. The two updates of each outcome run in one transaction, which
    * fails as a whole when the job's campaign is missing; that failure is handled like a
    * failed send, and when it happens in the exhausted-retries branch it escapes. */
  function Deliver(w: World, job: RecipientJob, outcome: SendOutcome, now: int, maxRetries: RetryLimit): Step
  {
    var rid, cid := job.recipientId, job.campaignId;
    if rid !in w.recipients || w.recipients[rid].status == RecipientStatus.Sent then Step(w, false)
    else if outcome.Delivered? && cid in w.campaigns then Step(MarkSent(w, rid, cid, now), false)
    else
      var message := if outcome.SendFailed? then outcome.message else CampaignNotFound;
      var retries := w.recipients[rid].retryCount + 1;
      if Exhausted(retries, maxRetries) then
        if cid in w.campaigns then Step(MarkFailed(w, rid, cid, retries, message), false)
        else Step(w, true)
      else Step(RecordRetry(w, rid, retries, message), true)
  }

  /** A delivery keeps the tables well formed. */
  lemma DeliverKeepsWellFormed(w: World, job: RecipientJob, outcome: SendOutcome, now: int, maxRetries: RetryLimit)
    requires WellFormed(w)
    ensures WellFormed(Deliver(w, job, outcome, now, maxRetries).world)
  {
    var v := Deliver(w, job, outcome, now, maxRetries).world;
    if v != w {
      RowUpdatesKeepWellFormed(w, v);
    }
  }

  /** A job for a missing recipient, or for one already SENT, changes nothing and is
    * acknowledged: SENT is never left and never counted twice. */
  lemma DeliverIsIdempotentOnceSent(w: World, job: RecipientJob, outcome: SendOutcome, now: int, maxRetries: RetryLimit)
    requires job.recipientId !in w.recipients || w.recipients[job.recipientId].status == RecipientStatus.Sent
    ensures Deliver(w, job, outcome, now, maxRetries) == Step(w, false)
  {
  }

  /** A successful send makes the recipient SENT at `now` and adds exactly one to its
    * campaign's sent count; nothing else changes. */
  lemma DeliveredCountsOnce(w: World, job: RecipientJob, now: int, maxRetries: RetryLimit)
    requires WellFormed(w) && job.recipientId in w.recipients && job.campaignId in w.campaigns
    requires w.recipients[job.recipientId].status != RecipientStatus.Sent
    ensures var s := Deliver(w, job, Delivered, now, maxRetries);
            var rid, cid := job.recipientId, job.campaignId;
            && !s.threw
            && s.world.recipients[rid].status == RecipientStatus.Sent
            && s.world.recipients[rid].sentAt == Some(now)
            && s.world.campaigns[cid].sentCount == w.campaigns[cid].sentCount + 1
            && s.world.campaigns[cid].failedCount == w.campaigns[cid].failedCount
            && (forall id :: id in w.recipients && id != rid ==> s.world.recipients[id] == w.recipients[id])
            && (forall id :: id in w.campaigns && id != cid ==> s.world.campaigns[id] == w.campaigns[id])
  {
  }

  /** The state after `k` failed attempts of the same job. */
  function FailedAttempts(w: World, job: RecipientJob, message: string, now: int, maxRetries: RetryLimit, k: nat): World
  {
    if k == 0 then w
    else Deliver(FailedAttempts(w, job, message, now, maxRetries, k - 1), job, SendFailed(message), now, maxRetries).world
  }

  /** Retries run out after exactly `maxRetries` attempts: a fresh recipient whose every
    * send fails keeps its status and counts its retries, each attempt rethrowing, until the
    * attempt that brings the count to `maxRetries` makes it FAILED and adds one to the
    * campaign's failed count. */
  lemma {:induction false} RetriesRunOut(w: World, job: RecipientJob, message: string, now: int, maxRetries: RetryLimit, k: nat)
    requires job.recipientId in w.recipients && job.campaignId in w.campaigns
    requires w.recipients[job.recipientId].retryCount == 0
    requires w.recipients[job.recipientId].status != RecipientStatus.Sent
    requires maxRetries.Limit? && 1 <= k <= maxRetries.n
    ensures var w' := FailedAttempts(w, job, message, now, maxRetries, k);
            var r := w.recipients[job.recipientId];
            && job.recipientId in w'.recipients && job.campaignId in w'.campaigns
            && w'.recipients[job.recipientId].retryCount == k
            && w'.recipients[job.recipientId].errorMessage == Some(message)
            && w'.recipients[job.recipientId].status == (if k == maxRetries.n then RecipientStatus.Failed else r.status)
            && w'.campaigns[job.campaignId].failedCount ==
                 w.campaigns[job.campaignId].failedCount + (if k == maxRetries.n then 1 else 0)
            && w'.campaigns[job.campaignId].sentCount == w.campaigns[job.campaignId].sentCount
            && Deliver(FailedAttempts(w, job, message, now, maxRetries, k - 1), job, SendFailed(message), now, maxRetries).threw
                 == (k < maxRetries.n)
    decreases k
  {
    if k > 1 {
      RetriesRunOut(w, job, message, now, maxRetries, k - 1);
    }
  }

  /** Under a NaN limit the retries never run out: every failed attempt of a fresh
    * recipient counts one more retry and rethrows, so the job is handed back to the queue
    * for ever, and the recipient never becomes FAILED nor is counted on its campaign. */
  lemma {:induction false} NaNLimitRetriesForever(w: World, job: RecipientJob, message: string, now: int, k: nat)
    requires job.recipientId in w.recipients
    requires w.recipients[job.recipientId].retryCount == 0
    requires w.recipients[job.recipientId].status != RecipientStatus.Sent
    requires k >= 1
    ensures var w' := FailedAttempts(w, job, message, now, LimitNaN, k);
            && job.recipientId in w'.recipients
            && w'.recipients[job.recipientId].retryCount == k
            && w'.recipients[job.recipientId].status == w.recipients[job.recipientId].status
            && w'.campaigns == w.campaigns
            && Deliver(FailedAttempts(w, job, message, now, LimitNaN, k - 1), job, SendFailed(message), now, LimitNaN).threw
    decreases k
  {
    if k > 1 {
      NaNLimitRetriesForever(w, job, message, now, k - 1);
    }
  }

  /** The guard covers SENT only: a job delivered again for an OPENED or FAILED recipient
    * sends again, makes the recipient SENT and counts it on the campaign again, so a campaign
    * whose counters add up to its total ends up counting more sends than recipients. */
  lemma RedeliveryCountsAgain(w: World, job: RecipientJob, now: int, maxRetries: RetryLimit)
    requires WellFormed(w) && job.recipientId in w.recipients && job.campaignId in w.campaigns
    requires w.recipients[job.recipientId].status in {RecipientStatus.Opened, RecipientStatus.Failed}
    requires var c := w.campaigns[job.campaignId];
             c.totalRecipients.Some? && c.sentCount + c.failedCount == c.totalRecipients.value
    ensures var w' := Deliver(w, job, Delivered, now, maxRetries).world;
            var c' := w'.campaigns[job.campaignId];
            && w'.recipients[job.recipientId].status == RecipientStatus.Sent
            && c'.sentCount + c'.failedCount > c'.totalRecipients.value
  {
  }

  /** Counters that agree with the recipients never count more sends and failures than the
    * campaign has recipients, nor more than its recorded total when that is its number of
    * recipients. */
  lemma MatchedCountersStayWithinTheRecipients(w: World, cid: string)
    requires CountersMatch(w, cid)
    ensures var c := w.campaigns[cid];
            && c.sentCount + c.failedCount <= CountOf(w, cid, AllStatuses)
            && (c.totalRecipients == Some(CountOf(w, cid, AllStatuses)) ==>
                  c.sentCount + c.failedCount <= c.totalRecipients.value)
  {
    var done := SentOrLater + {RecipientStatus.Failed};
    CountDisjointUnion(w.recipients, w.recipientOrder, cid, SentOrLater, {RecipientStatus.Failed});
    CountDisjointUnion(w.recipients, w.recipientOrder, cid, done, {RecipientStatus.Pending, RecipientStatus.Queued});
    assert done + {RecipientStatus.Pending, RecipientStatus.Queued} == AllStatuses;
  }

  /** The as-written guard breaks that agreement: delivering again to an OPENED recipient
    * whose campaign's counters match its recipients counts a second send for a recipient
    * already counted. */
  lemma RedeliveryBreaksTheCounters(w: World, job: RecipientJob, now: int, maxRetries: RetryLimit)
    requires WellFormed(w) && job.recipientId in w.recipients
    requires w.recipients[job.recipientId].campaignId == job.campaignId
    requires w.recipients[job.recipientId].status == RecipientStatus.Opened
    requires CountersMatch(w, job.campaignId)
    ensures !CountersMatch(Deliver(w, job, Delivered, now, maxRetries).world, job.campaignId)
  {
    var rid, cid := job.recipientId, job.campaignId;
    var w' := MarkSent(w, rid, cid, now);
    CountUpdate(w.recipients, w.recipientOrder, rid, w'.recipients[rid], cid, SentOrLater);
  }

  /** The idempotency guard as its skip message intends it: only a recipient still PENDING or
    * QUEUED is sent to, and a recipient whose message went out, or that FAILED, is skipped
    * like a SENT one. */
  function DeliverOnce(w: World, job: RecipientJob, outcome: SendOutcome, now: int, maxRetries: RetryLimit): Step
  {
    var rid := job.recipientId;
    if rid in w.recipients && w.recipients[rid].status in {RecipientStatus.Pending, RecipientStatus.Queued}
    then Deliver(w, job, outcome, now, maxRetries)
    else Step(w, false)
  }

  /** With the intended guard a delivery keeps every campaign's counters in agreement with
    * its recipients, whatever the send's outcome, so sends and failures together never
    * exceed the recipients (`MatchedCountersStayWithinTheRecipients`). The job names its
    * recipient's campaign, as every job ingestion queues does. */
  lemma GuardedDeliveryKeepsCountersMatched(w: World, job: RecipientJob, outcome: SendOutcome, now: int,
                                            maxRetries: RetryLimit, cid: string)
    requires RecipientsListed(w) && CountersMatch(w, cid)
    requires job.recipientId in w.recipients ==> w.recipients[job.recipientId].campaignId == job.campaignId
    ensures CountersMatch(DeliverOnce(w, job, outcome, now, maxRetries).world, cid)
  {
    var rid, jc := job.recipientId, job.campaignId;
    if rid in w.recipients && w.recipients[rid].status in {RecipientStatus.Pending, RecipientStatus.Queued} {
      var retries := w.recipients[rid].retryCount + 1;
      var message := if outcome.SendFailed? then outcome.message else CampaignNotFound;
      if outcome.Delivered? && jc in w.campaigns {
        SendKeepsCountersMatched(w, rid, jc, now, cid);
      } else if Exhausted(retries, maxRetries) && jc in w.campaigns {
        FailureKeepsCountersMatched(w, rid, jc, retries, message, cid);
      } else if !Exhausted(retries, maxRetries) {
        RetryKeepsCountersMatched(w, rid, retries, message, cid);
      }
    }
  }

  lemma SendKeepsCountersMatched(w: World, rid: string, jc: string, now: int, cid: string)
    requires RecipientsListed(w) && CountersMatch(w, cid) && rid in w.recipients && jc in w.campaigns
    requires w.recipients[rid].campaignId == jc
    requires w.recipients[rid].status in {RecipientStatus.Pending, RecipientStatus.Queued}
    ensures CountersMatch(MarkSent(w, rid, jc, now), cid)
  {
    var r' := MarkSent(w, rid, jc, now).recipients[rid];
    CountUpdate(w.recipients, w.recipientOrder, rid, r', cid, SentOrLater);
    CountUpdate(w.recipients, w.recipientOrder, rid, r', cid, {RecipientStatus.Failed});
  }

  lemma FailureKeepsCountersMatched(w: World, rid: string, jc: string, retries: nat, message: string, cid: string)
    requires RecipientsListed(w) && CountersMatch(w, cid) && rid in w.recipients && jc in w.campaigns
    requires w.recipients[rid].campaignId == jc
    requires w.recipients[rid].status in {RecipientStatus.Pending, RecipientStatus.Queued}
    ensures CountersMatch(MarkFailed(w, rid, jc, retries, message), cid)
  {
    var r' := MarkFailed(w, rid, jc, retries, message).recipients[rid];
    CountUpdate(w.recipients, w.recipientOrder, rid, r', cid, SentOrLater);
    CountUpdate(w.recipients, w.recipientOrder, rid, r', cid, {RecipientStatus.Failed});
  }

  lemma RetryKeepsCountersMatched(w: World, rid: string, retries: nat, message: string, cid: string)
    requires RecipientsListed(w) && CountersMatch(w, cid) && rid in w.recipients
    ensures CountersMatch(RecordRetry(w, rid, retries, message), cid)
  {
    var r' := RecordRetry(w, rid, retries, message).recipients[rid];
    CountUpdate(w.recipients, w.recipientOrder, rid, r', cid, SentOrLater);
    CountUpdate(w.recipients, w.recipientOrder, rid, r', cid, {RecipientStatus.Failed});
  }

  /** A throw from the store other than the SENT transaction's: the recipient lookup, which
    * comes before the `try`, or the update recording a failed attempt inside the `catch`
    * (the FAILED transaction or the retry update). Each is one statement, so it writes
    * nothing when it throws. */
  datatype StoreFault = NoStoreFault | LookupThrows | RecordingThrows

  /** The attempt reaches the `catch`: the recipient is there and not SENT, and either the
    * send failed or the SENT transaction did. */
  predicate AttemptFails(w: World, job: RecipientJob, outcome: SendOutcome)
  {
    && job.recipientId in w.recipients
    && w.recipients[job.recipientId].status != RecipientStatus.Sent
    && !(outcome.Delivered? && job.campaignId in w.campaigns)
  }

  /** One delivery attempt when the store may throw. Without a fault it is `Deliver`; a
    * throwing lookup, or a throwing record of a failed attempt, changes nothing and
    * escapes, so the job is handed back to the queue with its retry count unchanged. */
  function Attempt(w: World, job: RecipientJob, outcome: SendOutcome, now: int, maxRetries: RetryLimit,
                   fault: StoreFault): (r: Step)
    ensures fault.NoStoreFault? ==> r == Deliver(w, job, outcome, now, maxRetries)
    ensures fault.LookupThrows? ==> r == Step(w, true)
    ensures fault.RecordingThrows? ==>
              r == (if AttemptFails(w, job, outcome) then Step(w, true) else Deliver(w, job, outcome, now, maxRetries))
  {
    if fault.LookupThrows? || (fault.RecordingThrows? && AttemptFails(w, job, outcome)) then Step(w, true)
    else Deliver(w, job, outcome, now, maxRetries)
  }

  /** A store fault is never half applied: the attempt either changes nothing or is the
    * fault-free delivery, and every attempt that changes nothing while the recipient still
    * waits for its message is handed back to the queue. */
  lemma FaultIsAllOrNothing(w: World, job: RecipientJob, outcome: SendOutcome, now: int, maxRetries: RetryLimit,
                            fault: StoreFault)
    requires AttemptFails(w, job, outcome)
    ensures var s := Attempt(w, job, outcome, now, maxRetries, fault);
            && (s.world == w || s == Deliver(w, job, outcome, now, maxRetries))
            && (s.world == w ==> s.threw)
  {
    var rid := job.recipientId;
    if fault.NoStoreFault? {
      var message := if outcome.SendFailed? then outcome.message else CampaignNotFound;
      var retries := w.recipients[rid].retryCount + 1;
      if !Exhausted(retries, maxRetries) {
        RetryChangesTheRecipient(w, rid, retries, message);
      } else if job.campaignId in w.campaigns {
        assert MarkFailed(w, rid, job.campaignId, retries, message).recipients[rid].status == RecipientStatus.Failed;
      }
    }
  }

  /** Recording a retry always changes the recipient's row: its count grows by one. */
  lemma RetryChangesTheRecipient(w: World, rid: string, retries: nat, message: string)
    requires rid in w.recipients && retries == w.recipients[rid].retryCount + 1
    ensures RecordRetry(w, rid, retries, message) != w
  {
    assert RecordRetry(w, rid, retries, message).recipients[rid].retryCount != w.recipients[rid].retryCount;
  }

  /** One delivery job against the store. */
  method ProcessRecipientJob(store: Store, job: RecipientJob, outcome: SendOutcome, now: int, maxRetries: RetryLimit,
                             fault: StoreFault)
    returns (threw: bool)
    requires store.Valid()
    modifies store
    ensures store.Valid()
    ensures Step(store.State(), threw) == Attempt(old(store.State()), job, outcome, now, maxRetries, fault)
  {
    var w := store.State();
    if fault.LookupThrows? || (fault.RecordingThrows? && AttemptFails(w, job, outcome)) {
      // the lookup, or the write the `catch` attempts, throws before anything is written
      return true;
    }
    DeliverKeepsWellFormed(w, job, outcome, now, maxRetries);
    var recipients, campaigns;
    recipients, campaigns, threw := DeliveryUpdate(w, job, outcome, now, maxRetries);
    store.recipients, store.campaigns := recipients, campaigns;
  }

  /** The handler's branches: skip a missing or SENT recipient, record a send, or record
    * the failed attempt; the new recipient and campaign tables and whether it rethrows. */
  method DeliveryUpdate(w: World, job: RecipientJob, outcome: SendOutcome, now: int, maxRetries: RetryLimit)
    returns (recipients: map<string, Recipient>, campaigns: map<string, Campaign>, threw: bool)
    ensures Step(w.(recipients := recipients, campaigns := campaigns), threw) == Deliver(w, job, outcome, now, maxRetries)
  {
    var rid, cid := job.recipientId, job.campaignId;
    recipients, campaigns, threw := w.recipients, w.campaigns, false;
    if rid !in w.recipients || w.recipients[rid].status == RecipientStatus.Sent {
      return;
    }
    if outcome.Delivered? && cid in w.campaigns {
      var next := MarkSent(w, rid, cid, now);
      recipients, campaigns := next.recipients, next.campaigns;
      return;
    }
    var message := if outcome.SendFailed? then outcome.message else CampaignNotFound;
    var retries := w.recipients[rid].retryCount + 1;
    if Exhausted(retries, maxRetries) {
      if cid in w.campaigns {
        var next := MarkFailed(w, rid, cid, retries, message);
        recipients, campaigns := next.recipients, next.campaigns;
      } else {
        threw := true;
      }
    } else {
      recipients, threw := RecordRetry(w, rid, retries, message).recipients, true;
    }
  }

  /** The delivery-queue consumer: a handled job is acknowledged, and both a message that is
    * not a job and a rethrown error are handed back to the queue. */
  method ConsumeDeliveryMessage(store: Store, message: Option<RecipientJob>, outcome: SendOutcome, now: int,
                                maxRetries: RetryLimit, fault: StoreFault) returns (ack: Acknowledgement)
    requires store.Valid()
    modifies store
    ensures store.Valid()
    ensures message.None? ==> ack == Nack(true) && store.State() == old(store.State())
    ensures message.Some? ==>
              var s := Attempt(old(store.State()), message.value, outcome, now, maxRetries, fault);
              store.State() == s.world && ack == (if s.threw then Nack(true) else Ack)
  {
    if message.None? {
      return Nack(true);
    }
    var threw := ProcessRecipientJob(store, message.value, outcome, now, maxRetries, fault);
    ack := if threw then Nack(true) else Ack;
  }
}
