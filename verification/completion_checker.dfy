/** The completion checker: on every poll, each RUNNING campaign with a recorded total and no
  * recipient left PENDING or QUEUED becomes COMPLETED, and its counters are overwritten with
  * the number of its recipients that are SENT and FAILED. */
module CompletionChecker {
  import opened Text
  import opened CampaignSchema
  import opened CampaignStore
  import CampaignWorker

  const PendingStatuses: set<RecipientStatus> := {RecipientStatus.Pending, RecipientStatus.Queued}

  /** The ids of the RUNNING campaigns, in table order. */
  function RunningIds(cs: map<string, Campaign>, order: seq<string>): (r: seq<string>)
    ensures forall id :: id in r <==> id in order && id in cs && cs[id].status == CampaignStatus.Running
  {
    if order == [] then []
    else
      var id := order[|order| - 1];
      var rest := RunningIds(cs, order[..|order| - 1]);
      if id in cs && cs[id].status == CampaignStatus.Running then rest + [id] else rest
  }

  /** The test the checker applies to a RUNNING campaign. */
  predicate ReadyToComplete(w: World, id: string)
  {
    && id in w.campaigns
    && w.campaigns[id].status == CampaignStatus.Running
    && CountOf(w, id, PendingStatuses) == 0
    && w.campaigns[id].totalRecipients.Some?
  }

  /** The completing update. */
  function Complete(w: World, id: string, now: int): Campaign
    requires id in w.campaigns
  {
    w.campaigns[id].(status := CampaignStatus.Completed, completedAt := Some(now),
                     sentCount := CountOf(w, id, {RecipientStatus.Sent}),
                     failedCount := CountOf(w, id, {RecipientStatus.Failed}))
  }

  /** The state after one pass of the checker. */
  function CompletionPass(w: World, now: int): World
  {
    w.(campaigns := map id | id in w.campaigns :: if ReadyToComplete(w, id) then Complete(w, id, now) else w.campaigns[id])
  }

  /** A pass completes exactly the ready campaigns and leaves every other one as it was;
    * the recipients and the queues are untouched. */
  lemma PassCompletesExactlyTheReady(w: World, now: int, id: string)
    requires id in w.campaigns
    ensures var w' := CompletionPass(w, now);
            && w'.campaigns.Keys == w.campaigns.Keys
            && w'.recipients == w.recipients && w'.recipientOrder == w.recipientOrder
            && w'.campaignQueue == w.campaignQueue && w'.deliveryQueue == w.deliveryQueue
            && (ReadyToComplete(w, id) ==>
                  && w'.campaigns[id].status == CampaignStatus.Completed
                  && w'.campaigns[id].completedAt == Some(now)
                  && w'.campaigns[id].sentCount == CountOf(w, id, {RecipientStatus.Sent})
                  && w'.campaigns[id].failedCount == CountOf(w, id, {RecipientStatus.Failed}))
            && (!ReadyToComplete(w, id) ==> w'.campaigns[id] == w.campaigns[id])
  {
  }

  /** A second pass finds nothing more to do. */
  lemma PassIsIdempotent(w: World, now: int, later: int)
    ensures CompletionPass(CompletionPass(w, now), later) == CompletionPass(w, now)
  {
    var w1 := CompletionPass(w, now);
    var w2 := CompletionPass(w1, later);
    forall id | id in w1.campaigns ensures w2.campaigns[id] == w1.campaigns[id] {
      assert CountOf(w1, id, PendingStatuses) == CountOf(w, id, PendingStatuses);
      if ReadyToComplete(w, id) {
        assert !ReadyToComplete(w1, id);
      } else {
        assert w1.campaigns[id] == w.campaigns[id];
        assert !ReadyToComplete(w1, id);
      }
    }
    assert w2.campaigns == w1.campaigns;
  }

  /** The completed sent count leaves out the recipients that were sent and have since been
    * read (OPENED): it falls short of the sent-or-opened recipients by exactly those. */
  lemma {:induction false} CompletedSentCountLeavesOutOpened(w: World, now: int, id: string)
    requires ReadyToComplete(w, id)
    ensures CompletionPass(w, now).campaigns[id].sentCount + CountOf(w, id, {RecipientStatus.Opened})
         == CountOf(w, id, {RecipientStatus.Sent, RecipientStatus.Opened})
  {
    CountDisjointUnion(w.recipients, w.recipientOrder, id, {RecipientStatus.Sent}, {RecipientStatus.Opened});
    assert {RecipientStatus.Sent} + {RecipientStatus.Opened} == {RecipientStatus.Sent, RecipientStatus.Opened};
  }

  /** So a campaign whose sent counter counted every send while it ran sees that counter go
    * down at completion as soon as one of its recipients has read the message. */
  lemma {:induction false} CompletionCanLowerSentCount(w: World, now: int, id: string)
    requires ReadyToComplete(w, id)
    requires w.campaigns[id].sentCount == CountOf(w, id, {RecipientStatus.Sent, RecipientStatus.Opened})
    requires CountOf(w, id, {RecipientStatus.Opened}) > 0
    ensures CompletionPass(w, now).campaigns[id].sentCount < w.campaigns[id].sentCount
  {
    CompletedSentCountLeavesOutOpened(w, now, id);
  }

  /** The completing update as the delivery worker's counters call for: every recipient
    * whose message went out (SENT or any status after it) counts as sent. */
  function CompleteCountingEverySend(w: World, id: string, now: int): Campaign
    requires id in w.campaigns
  {
    w.campaigns[id].(status := CampaignStatus.Completed, completedAt := Some(now),
                     sentCount := CountOf(w, id, SentOrLater),
                     failedCount := CountOf(w, id, {RecipientStatus.Failed}))
  }

  /** A pass of the checker with that update. */
  function CountingEverySendPass(w: World, now: int): World
  {
    w.(campaigns := map id | id in w.campaigns ::
                      if ReadyToComplete(w, id) then CompleteCountingEverySend(w, id, now) else w.campaigns[id])
  }

  /** With every send counted, completion keeps the counters the delivery worker kept: a
    * campaign whose counters agree with its recipients completes with the same sent and
    * failed counts (neither goes down), and they still agree afterwards. */
  lemma CountingEverySendKeepsTheCounters(w: World, now: int, id: string)
    requires CountersMatch(w, id)
    ensures var c' := CountingEverySendPass(w, now).campaigns[id];
            && c'.sentCount == w.campaigns[id].sentCount
            && c'.failedCount == w.campaigns[id].failedCount
            && c'.status == (if ReadyToComplete(w, id) then CampaignStatus.Completed else w.campaigns[id].status)
            && CountersMatch(CountingEverySendPass(w, now), id)
  {
  }

  lemma {:induction false} CountWithoutMembers(rs: map<string, Recipient>, ids: seq<string>, cid: string,
                                               sts: set<RecipientStatus>)
    requires forall id :: id in rs ==> rs[id].campaignId != cid
    ensures Count(rs, ids, cid, sts) == 0
    decreases |ids|
  {
    if ids != [] {
      CountWithoutMembers(rs, ids[..|ids| - 1], cid, sts);
    }
  }

  lemma {:induction false} CountOfNewRecipients(rs: map<string, Recipient>, cid: string,
                                                ps: seq<CampaignWorker.PendingRecipient>, ids: seq<string>)
    requires |ids| == |ps| && Distinct(ids)
    ensures Count(CampaignWorker.AddRecipients(rs, cid, ps, ids), ids, cid, {RecipientStatus.Queued}) == |ids|
    decreases |ids|
  {
    CampaignWorker.AddRecipientsContents(rs, cid, ps, ids);
    if ids != [] {
      var n := |ids| - 1;
      var m := CampaignWorker.AddRecipients(rs, cid, ps, ids);
      assert Distinct(ids[..n]);
      CountOfNewRecipients(rs, cid, ps[..n], ids[..n]);
      CampaignWorker.AddRecipientsContents(rs, cid, ps[..n], ids[..n]);
      CountFrame(CampaignWorker.AddRecipients(rs, cid, ps[..n], ids[..n]), m, ids[..n], cid, {RecipientStatus.Queued});
    }
  }

  /** The total is recorded before any recipient row exists. A pass that runs between the two
    * steps sees nothing pending and completes the campaign with zero sent and zero failed;
    * the insertion then still goes ahead, leaving a COMPLETED campaign with all its
    * recipients QUEUED. */
  lemma {:induction false} TotalBeforeRowsLetsCampaignCompleteEarly(
    w: World, cid: string, ps: seq<CampaignWorker.PendingRecipient>, ids: seq<string>, now: int)
    requires WellFormed(w) && cid in w.campaigns && w.campaigns[cid].status == CampaignStatus.Running
    requires forall id :: id in w.recipients ==> w.recipients[id].campaignId != cid
    requires |ids| == |ps| && Distinct(ids) && forall id :: id in ids ==> id !in w.recipients
    ensures var w1 := CampaignWorker.SetTotal(w, cid, |ps|);
            var w2 := CompletionPass(w1, now);
            var w3 := CampaignWorker.Insert(w2, cid, ps, ids);
            && w2.campaigns[cid].status == CampaignStatus.Completed
            && w2.campaigns[cid].sentCount == 0 && w2.campaigns[cid].failedCount == 0
            && w3.campaigns[cid].status == CampaignStatus.Completed
            && CountOf(w3, cid, {RecipientStatus.Queued}) == |ps|
  {
    var w1 := CampaignWorker.SetTotal(w, cid, |ps|);
    CountWithoutMembers(w1.recipients, w1.recipientOrder, cid, PendingStatuses);
    CountWithoutMembers(w1.recipients, w1.recipientOrder, cid, {RecipientStatus.Sent});
    CountWithoutMembers(w1.recipients, w1.recipientOrder, cid, {RecipientStatus.Failed});
    assert ReadyToComplete(w1, cid);
    var w2 := CompletionPass(w1, now);
    var w3 := CampaignWorker.Insert(w2, cid, ps, ids);
    var m := w3.recipients;
    CountAppend(m, w2.recipientOrder, ids, cid, {RecipientStatus.Queued});
    CampaignWorker.AddRecipientsContents(w2.recipients, cid, ps, ids);
    CountFrame(w2.recipients, m, w2.recipientOrder, cid, {RecipientStatus.Queued});
    CountWithoutMembers(w2.recipients, w2.recipientOrder, cid, {RecipientStatus.Queued});
    CountOfNewRecipients(w2.recipients, cid, ps, ids);
  }

  /** Ingestion in the order the completion test relies on: the recipient rows first, then
    * the total. */
  function RowsThenTotal(w: World, cid: string, ps: seq<CampaignWorker.PendingRecipient>, ids: seq<string>): World
    requires |ids| == |ps| && cid in w.campaigns
  {
    CampaignWorker.SetTotal(CampaignWorker.Insert(w, cid, ps, ids), cid, |ps|)
  }

  /** Recording the total after the rows closes the window: a campaign created without a
    * total is not ready while any part of its rows is being inserted, nor once the total is
    * recorded while it has recipients still QUEUED; and the state it ends in is the one the
    * as-written order ends in. */
  lemma {:induction false} RowsThenTotalWaitsForTheRecipients(
    w: World, cid: string, ps: seq<CampaignWorker.PendingRecipient>, ids: seq<string>, i: nat)
    requires cid in w.campaigns && w.campaigns[cid].totalRecipients.None?
    requires |ids| == |ps| && Distinct(ids) && forall id :: id in ids ==> id !in w.recipients
    requires i <= |ps|
    ensures !ReadyToComplete(CampaignWorker.Insert(w, cid, ps[..i], ids[..i]), cid)
    ensures |ps| > 0 ==> !ReadyToComplete(RowsThenTotal(w, cid, ps, ids), cid)
    ensures RowsThenTotal(w, cid, ps, ids) == CampaignWorker.Insert(CampaignWorker.SetTotal(w, cid, |ps|), cid, ps, ids)
  {
    var w3 := CampaignWorker.Insert(w, cid, ps, ids);
    var m := w3.recipients;
    CountAppend(m, w.recipientOrder, ids, cid, {RecipientStatus.Queued});
    CountOfNewRecipients(w.recipients, cid, ps, ids);
    CountDisjointUnion(m, w3.recipientOrder, cid, {RecipientStatus.Pending}, {RecipientStatus.Queued});
    assert {RecipientStatus.Pending} + {RecipientStatus.Queued} == PendingStatuses;
  }

  /** A file without a usable row leaves a total of zero and no recipients, and the next pass
    * completes the campaign with zero sent and zero failed. */
  lemma {:induction false} EmptyFileCompletesWithZeroCounts(w: World, cid: string, rows: seq<Row>, now: int, ids: seq<string>,
                                                            size: CampaignWorker.BatchSize)
    requires CampaignWorker.Ends(size)
    requires WellFormed(w) && cid in w.campaigns && w.campaigns[cid].status == CampaignStatus.Running
    requires CampaignWorker.FormatOf(w.campaigns[cid].fileUrl) != CampaignWorker.Unsupported
    requires forall id :: id in w.recipients ==> w.recipients[id].campaignId != cid
    requires CampaignWorker.FreshIds(w, ids, CampaignWorker.Downloaded(CampaignWorker.Parsed(rows)))
    requires CampaignWorker.Collect(rows, CampaignWorker.ExtractPhoneNumber) == []
    ensures var w1 := CampaignWorker.Ingest(w, cid, CampaignWorker.Downloaded(CampaignWorker.Parsed(rows)), now,
                                            CampaignWorker.ExtractPhoneNumber, ids, size, CampaignWorker.NoFault);
            var c := CompletionPass(w1, now).campaigns[cid];
            c.status == CampaignStatus.Completed && c.totalRecipients == Some(0) && c.sentCount == 0 && c.failedCount == 0
  {
    var w1 := CampaignWorker.Ingest(w, cid, CampaignWorker.Downloaded(CampaignWorker.Parsed(rows)), now,
                                    CampaignWorker.ExtractPhoneNumber, ids, size, CampaignWorker.NoFault);
    CampaignWorker.EmptyFileRecordsZeroTotal(w, cid, rows, now, CampaignWorker.ExtractPhoneNumber, ids, size);
    CountWithoutMembers(w1.recipients, w1.recipientOrder, cid, PendingStatuses);
    CountWithoutMembers(w1.recipients, w1.recipientOrder, cid, {RecipientStatus.Sent});
    CountWithoutMembers(w1.recipients, w1.recipientOrder, cid, {RecipientStatus.Failed});
  }

  /** Under a NaN batch size the total is recorded and no recipient is inserted, so the next
    * pass completes the campaign with the file's total and nothing sent or failed. */
  lemma {:induction false} NaNBatchSizeCompletesWithNothingSent(w: World, cid: string, rows: seq<Row>, now: int,
                                                                extract: Row -> Option<string>, ids: seq<string>)
    requires WellFormed(w) && cid in w.campaigns && w.campaigns[cid].status == CampaignStatus.Running
    requires CampaignWorker.FormatOf(w.campaigns[cid].fileUrl) != CampaignWorker.Unsupported
    requires forall id :: id in w.recipients ==> w.recipients[id].campaignId != cid
    requires CampaignWorker.FreshIds(w, ids, CampaignWorker.Downloaded(CampaignWorker.Parsed(rows)))
    ensures var w1 := CampaignWorker.Ingest(w, cid, CampaignWorker.Downloaded(CampaignWorker.Parsed(rows)), now,
                                            extract, ids, CampaignWorker.NotANumber, CampaignWorker.NoFault);
            var c := CompletionPass(w1, now).campaigns[cid];
            && c.status == CampaignStatus.Completed
            && c.totalRecipients == Some(|CampaignWorker.Collect(rows, extract)|)
            && c.sentCount == 0 && c.failedCount == 0
  {
    var w1 := CampaignWorker.Ingest(w, cid, CampaignWorker.Downloaded(CampaignWorker.Parsed(rows)), now,
                                    extract, ids, CampaignWorker.NotANumber, CampaignWorker.NoFault);
    CampaignWorker.NaNBatchSizeQueuesNobody(w, cid, rows, now, extract, ids);
    CountWithoutMembers(w1.recipients, w1.recipientOrder, cid, PendingStatuses);
    CountWithoutMembers(w1.recipients, w1.recipientOrder, cid, {RecipientStatus.Sent});
    CountWithoutMembers(w1.recipients, w1.recipientOrder, cid, {RecipientStatus.Failed});
  }

  /** The query for the RUNNING campaigns. */
  method FindRunning(cs: map<string, Campaign>, order: seq<string>) returns (running: seq<string>)
    ensures running == RunningIds(cs, order)
  {
    running := [];
    for i := 0 to |order|
      invariant running == RunningIds(cs, order[..i])
    {
      assert order[..i + 1][..i] == order[..i];
      if order[i] in cs && cs[order[i]].status == CampaignStatus.Running {
        running := running + [order[i]];
      }
    }
    assert order[..|order|] == order;
  }

  /** A pass keeps the tables well formed. */
  lemma PassKeepsWellFormed(w: World, now: int)
    requires WellFormed(w)
    ensures WellFormed(CompletionPass(w, now))
  {
  }

  /** The campaign table once the ready campaigns among `ids` are completed. */
  function CompletedAmong(w: World, ids: seq<string>, now: int): map<string, Campaign>
  {
    map id | id in w.campaigns :: if id in ids && ReadyToComplete(w, id) then Complete(w, id, now) else w.campaigns[id]
  }

  /** Considering one more campaign completes it when it is ready and changes nothing else. */
  lemma CompletedAmongSnoc(w: World, ids: seq<string>, id: string, now: int)
    requires id in w.campaigns
    ensures CompletedAmong(w, ids + [id], now) ==
              if ReadyToComplete(w, id) then CompletedAmong(w, ids, now)[id := Complete(w, id, now)]
              else CompletedAmong(w, ids, now)
  {
  }

  /** The loop over the RUNNING campaigns: each is counted and, when ready, completed. */
  method CompleteReady(w: World, running: seq<string>, now: int) returns (updated: map<string, Campaign>)
    requires forall id :: id in running ==> id in w.campaigns
    ensures updated == CompletedAmong(w, running, now)
  {
    updated := w.campaigns;
    assert updated == CompletedAmong(w, running[..0], now);
    for k := 0 to |running|
      invariant updated == CompletedAmong(w, running[..k], now)
    {
      var id := running[k];
      assert running[..k + 1] == running[..k] + [id];
      CompletedAmongSnoc(w, running[..k], id, now);
      updated := CompleteIfReady(w, id, now, updated);
    }
    assert running[..|running|] == running;
  }

  /** The loop body: count the campaign's PENDING or QUEUED recipients and, when there are
    * none, a total is recorded and it is RUNNING, complete it with its SENT and FAILED
    * counts. */
  method CompleteIfReady(w: World, id: string, now: int, campaigns: map<string, Campaign>)
    returns (updated: map<string, Campaign>)
    requires id in w.campaigns
    ensures updated == if ReadyToComplete(w, id) then campaigns[id := Complete(w, id, now)] else campaigns
  {
    updated := campaigns;
    var pendingCount := Count(w.recipients, w.recipientOrder, id, PendingStatuses);
    if pendingCount == 0 && w.campaigns[id].totalRecipients.Some? && w.campaigns[id].status == CampaignStatus.Running {
      var sentCount := Count(w.recipients, w.recipientOrder, id, {RecipientStatus.Sent});
      var failedCount := Count(w.recipients, w.recipientOrder, id, {RecipientStatus.Failed});
      updated := updated[id := w.campaigns[id].(status := CampaignStatus.Completed, completedAt := Some(now),
                                                sentCount := sentCount, failedCount := failedCount)];
    }
  }

  /** The RUNNING campaigns a pass gets through when it throws while handling the one at
    * index `failAt` (its count, its groupBy or its update): those before it. A throw of
    * the initial query has the effect of `failAt == Some(0)`. */
  function PassedCampaigns(w: World, failAt: Option<nat>): (r: seq<string>)
    ensures failAt.None? ==> r == RunningIds(w.campaigns, w.campaignOrder)
    ensures failAt.Some? ==> r == FirstN(RunningIds(w.campaigns, w.campaignOrder), failAt.value)
  {
    var running := RunningIds(w.campaigns, w.campaignOrder);
    if failAt.None? then running else FirstN(running, failAt.value)
  }

  /** Whether the pass throws: the failing campaign is one of the RUNNING ones. */
  predicate PassThrows(w: World, failAt: Option<nat>)
  {
    failAt.Some? && failAt.value < |RunningIds(w.campaigns, w.campaignOrder)|
  }

  /** The state after a pass that may throw: the ready campaigns among those it got through
    * are completed. Each step is one statement, so the failing campaign is left as it was. */
  function InterruptedPass(w: World, now: int, failAt: Option<nat>): World
  {
    w.(campaigns := CompletedAmong(w, PassedCampaigns(w, failAt), now))
  }

  /** Without a throw the pass is the whole completion pass. */
  lemma UninterruptedPassIsThePass(w: World, now: int)
    requires WellFormed(w)
    ensures InterruptedPass(w, now, None) == CompletionPass(w, now)
  {
    CompletingTheRunningIsThePass(w, now, RunningIds(w.campaigns, w.campaignOrder));
  }

  /** An interrupted pass completes some of the ready campaigns and changes nothing else;
    * as the error is caught, the next pass, whatever its time, completes every campaign
    * that was ready and still leaves every other one as it was. */
  lemma NextPassFinishesAnInterruptedOne(w: World, now: int, failAt: Option<nat>, later: int, id: string)
    requires id in w.campaigns
    ensures var w1 := InterruptedPass(w, now, failAt);
            var w2 := CompletionPass(w1, later);
            && (w1.campaigns[id] == w.campaigns[id] || w1.campaigns[id] == Complete(w, id, now))
            && (w1.campaigns[id] != w.campaigns[id] ==> ReadyToComplete(w, id))
            && (ReadyToComplete(w, id) ==> w2.campaigns[id].status == CampaignStatus.Completed)
            && (!ReadyToComplete(w, id) ==> w2.campaigns[id] == w.campaigns[id])
  {
    var w1 := InterruptedPass(w, now, failAt);
    assert w1.recipients == w.recipients && w1.recipientOrder == w.recipientOrder;
    if w1.campaigns[id] == w.campaigns[id] {
      assert ReadyToComplete(w1, id) == ReadyToComplete(w, id);
    }
  }

  /** An interrupted pass keeps the tables well formed. */
  lemma InterruptedPassKeepsWellFormed(w: World, now: int, failAt: Option<nat>)
    requires WellFormed(w)
    ensures WellFormed(InterruptedPass(w, now, failAt))
  {
    RowUpdatesKeepWellFormed(w, InterruptedPass(w, now, failAt));
  }

  /** One pass of the checker against the store: the RUNNING campaigns are read first, then
    * each is counted and, when ready, completed, until the campaign at `failAt` throws; the
    * poll catches the error, and the next pass runs as usual. */
  method CheckCampaignCompletion(store: Store, now: int, failAt: Option<nat>) returns (threw: bool)
    requires store.Valid()
    modifies store
    ensures store.Valid()
    ensures threw == PassThrows(old(store.State()), failAt)
    ensures store.State() == InterruptedPass(old(store.State()), now, failAt)
    ensures failAt.None? ==> store.State() == CompletionPass(old(store.State()), now)
  {
    var w := store.State();
    InterruptedPassKeepsWellFormed(w, now, failAt);
    if failAt.None? {
      UninterruptedPassIsThePass(w, now);
    }
    var running := FindRunning(w.campaigns, w.campaignOrder);
    threw := failAt.Some? && failAt.value < |running|;
    var passed := if failAt.Some? then FirstN(running, failAt.value) else running;
    var updated := CompleteReady(w, passed, now);
    store.campaigns := updated;
  }

  /** Completing the ready campaigns among the RUNNING ones is the pass: a ready campaign is
    * RUNNING, and every stored campaign is in the table order. */
  lemma CompletingTheRunningIsThePass(w: World, now: int, running: seq<string>)
    requires WellFormed(w) && running == RunningIds(w.campaigns, w.campaignOrder)
    ensures w.(campaigns := CompletedAmong(w, running, now)) == CompletionPass(w, now)
  {
    assert CompletedAmong(w, running, now) == CompletionPass(w, now).campaigns;
  }
}
