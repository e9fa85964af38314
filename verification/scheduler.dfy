/** The scheduler: on every poll it claims the campaigns that are due (scheduled ones whose
  * time has come, and pending ones that run now), marks them RUNNING and puts one job per
  * claimed campaign on the campaign queue. */
module Scheduler {
  import opened Text
  import opened CampaignSchema
  import opened CampaignStore

  /** The filter of the claiming query. A scheduled campaign without an `executeAt` never
    * matches: a comparison with a null column is false. */
  predicate IsDue(c: Campaign, now: int)
  {
    || (c.status == CampaignStatus.Scheduled && c.executeAt.Some? && c.executeAt.value <= now)
    || (c.status == CampaignStatus.Pending && c.executionMode == ExecutionMode.Now)
  }

  /** The ids the claiming query returns, in table order. */
  function DueIds(cs: map<string, Campaign>, order: seq<string>, now: int): (r: seq<string>)
    ensures forall id :: id in r <==> id in order && id in cs && IsDue(cs[id], now)
    ensures Distinct(order) ==> Distinct(r)
    ensures |r| <= |order|
  {
    if order == [] then []
    else
      var id := order[|order| - 1];
      var rest := DueIds(cs, order[..|order| - 1], now);
      if id in cs && IsDue(cs[id], now) then rest + [id] else rest
  }

  /** What a claimed campaign looks like after the claiming update. */
  function Promote(c: Campaign, now: int): Campaign
  {
    c.(status := CampaignStatus.Running, startedAt := Some(now))
  }

  /** One campaign-queue job per id, carrying the campaign's workspace. */
  function JobsFor(cs: map<string, Campaign>, ids: seq<string>): (r: seq<CampaignJob>)
    requires forall id :: id in ids ==> id in cs
  {
    seq(|ids|, k requires 0 <= k < |ids| => CampaignJob(ids[k], cs[ids[k]].workspaceId))
  }

  /** Where a poll can fail: the claiming transaction as a whole, or publishing after
    * `published` jobs have gone out. */
  datatype PollFault = NoFault | ClaimFails | PublishFailsAfter(published: nat)

  /** How many of `due` jobs reach the queue. */
  function PublishedCount(due: seq<string>, fault: PollFault): (n: nat)
    ensures n <= |due|
  {
    if fault.PublishFailsAfter? && fault.published < |due| then fault.published else |due|
  }

  /** The state after one poll. A failed claiming transaction changes nothing; otherwise
    * every due campaign is RUNNING with `startedAt = now`, and the jobs published before any
    * publishing failure follow the existing campaign-queue contents. */
  function Poll(w: World, now: int, fault: PollFault): World
  {
    var due := DueIds(w.campaigns, w.campaignOrder, now);
    if fault.ClaimFails? || due == [] then w
    else
      w.(campaigns := map id | id in w.campaigns :: if id in due then Promote(w.campaigns[id], now) else w.campaigns[id],
         campaignQueue := w.campaignQueue + JobsFor(w.campaigns, due[..PublishedCount(due, fault)]))
  }

  /** Claiming keeps the tables well formed. */
  lemma PollKeepsWellFormed(w: World, now: int, fault: PollFault)
    requires WellFormed(w)
    ensures WellFormed(Poll(w, now, fault))
  {
  }

  /** A poll that goes through makes exactly the due campaigns RUNNING and leaves every
    * other campaign as it was. */
  lemma PollClaimsExactlyTheDue(w: World, now: int, fault: PollFault, id: string)
    requires WellFormed(w) && !fault.ClaimFails? && id in w.campaigns
    ensures id in Poll(w, now, fault).campaigns
    ensures IsDue(w.campaigns[id], now) ==> Poll(w, now, fault).campaigns[id] == Promote(w.campaigns[id], now)
    ensures !IsDue(w.campaigns[id], now) ==> Poll(w, now, fault).campaigns[id] == w.campaigns[id]
  {
  }

  /** Without a fault a poll queues one job per claimed campaign, in table order. */
  lemma {:induction false} PollQueuesOneJobPerClaim(w: World, now: int)
    requires WellFormed(w)
    ensures var due := DueIds(w.campaigns, w.campaignOrder, now);
            var q := Poll(w, now, NoFault).campaignQueue;
            && |q| == |w.campaignQueue| + |due|
            && q[..|w.campaignQueue|] == w.campaignQueue
            && forall k :: 0 <= k < |due| ==> q[|w.campaignQueue| + k].campaignId == due[k]
  {
    var due := DueIds(w.campaigns, w.campaignOrder, now);
    if due != [] {
      assert due[..PublishedCount(due, NoFault)] == due;
    }
  }

  /** A campaign claimed by one poll is RUNNING afterwards, so no later poll claims it
    * again, whenever it runs. */
  lemma NoCampaignIsClaimedTwice(w: World, now: int, fault: PollFault, later: int)
    requires WellFormed(w) && !fault.ClaimFails?
    ensures var w' := Poll(w, now, fault);
            forall id :: id in DueIds(w.campaigns, w.campaignOrder, now) ==>
              id !in DueIds(w'.campaigns, w'.campaignOrder, later)
  {
  }

  /** When publishing fails part-way, the campaigns claimed after the failure point are
    * RUNNING, have no job on the queue, and no later poll claims them: they are stuck. */
  lemma {:induction false} PublishFailureStrandsCampaigns(w: World, now: int, published: nat, later: int)
    requires WellFormed(w)
    requires published < |DueIds(w.campaigns, w.campaignOrder, now)|
    ensures var due := DueIds(w.campaigns, w.campaignOrder, now);
            var w' := Poll(w, now, PublishFailsAfter(published));
            forall k :: published <= k < |due| ==>
              && w'.campaigns[due[k]].status == CampaignStatus.Running
              && (forall j :: |w.campaignQueue| <= j < |w'.campaignQueue| ==> w'.campaignQueue[j].campaignId != due[k])
              && due[k] !in DueIds(w'.campaigns, w'.campaignOrder, later)
  {
    var due := DueIds(w.campaigns, w.campaignOrder, now);
    var w' := Poll(w, now, PublishFailsAfter(published));
    PollOfDue(w, now, PublishFailsAfter(published), due);
    NoCampaignIsClaimedTwice(w, now, PublishFailsAfter(published), later);
    forall k | published <= k < |due|
      ensures w'.campaigns[due[k]].status == CampaignStatus.Running
      ensures forall j :: |w.campaignQueue| <= j < |w'.campaignQueue| ==> w'.campaignQueue[j].campaignId != due[k]
    {
      PollClaimsExactlyTheDue(w, now, PublishFailsAfter(published), due[k]);
      NoJobAfterFailure(w.campaignQueue, w.campaigns, due, published, k);
    }
  }

  /** A poll that promotes only the campaigns whose jobs went out: a campaign whose job was
    * not published keeps its status and stays due. */
  function PollPromotingThePublished(w: World, now: int, fault: PollFault): World
  {
    var due := DueIds(w.campaigns, w.campaignOrder, now);
    if fault.ClaimFails? || due == [] then w
    else
      var published := due[..PublishedCount(due, fault)];
      w.(campaigns := map id | id in w.campaigns ::
                        if id in published then Promote(w.campaigns[id], now) else w.campaigns[id],
         campaignQueue := w.campaignQueue + JobsFor(w.campaigns, published))
  }

  /** That poll strands nothing: each due campaign either is RUNNING with its job at its place
    * on the queue, or, when publishing stopped before its job, is left as it was and is
    * claimed again by any later poll. */
  lemma {:induction false} PromotingThePublishedStrandsNothing(w: World, now: int, fault: PollFault, later: int)
    requires WellFormed(w) && !fault.ClaimFails? && now <= later
    ensures var due := DueIds(w.campaigns, w.campaignOrder, now);
            var n := PublishedCount(due, fault);
            var w' := PollPromotingThePublished(w, now, fault);
            forall k :: 0 <= k < |due| ==>
              if k < n then
                && w'.campaigns[due[k]].status == CampaignStatus.Running
                && w'.campaignQueue[|w.campaignQueue| + k].campaignId == due[k]
              else
                && w'.campaigns[due[k]] == w.campaigns[due[k]]
                && due[k] in DueIds(w'.campaigns, w'.campaignOrder, later)
  {
    var due := DueIds(w.campaigns, w.campaignOrder, now);
    var n := PublishedCount(due, fault);
    var w' := PollPromotingThePublished(w, now, fault);
    var published := due[..n];
    forall k | 0 <= k < |due|
      ensures if k < n then
                && w'.campaigns[due[k]].status == CampaignStatus.Running
                && w'.campaignQueue[|w.campaignQueue| + k].campaignId == due[k]
              else
                && w'.campaigns[due[k]] == w.campaigns[due[k]]
                && due[k] in DueIds(w'.campaigns, w'.campaignOrder, later)
    {
      if k < n {
        assert due[k] == published[k];
        var jobs := JobsFor(w.campaigns, published);
        assert w'.campaignQueue[|w.campaignQueue| + k] == jobs[k];
      } else {
        assert due[k] !in published by {
          forall m | 0 <= m < n ensures published[m] != due[k] {
            assert published[m] == due[m];
          }
        }
        assert IsDue(w'.campaigns[due[k]], later);
      }
    }
  }

  /** With distinct ids, publishing the first `n` leaves no job for the id at `k >= n`. */
  lemma NoJobAfterFailure(q: seq<CampaignJob>, cs: map<string, Campaign>, due: seq<string>, n: nat, k: nat)
    requires Distinct(due) && n <= k < |due| && forall id :: id in due ==> id in cs
    ensures var q' := q + JobsFor(cs, due[..n]);
            forall j :: |q| <= j < |q'| ==> q'[j].campaignId != due[k]
  {
    var jobs := JobsFor(cs, due[..n]);
    forall j | |q| <= j < |q| + |jobs| ensures (q + jobs)[j].campaignId != due[k] {
      var m := j - |q|;
      assert (q + jobs)[j] == jobs[m] && jobs[m].campaignId == due[..n][m] == due[m];
    }
  }

  /** The claiming query: the due campaigns, in table order. */
  method FindDue(cs: map<string, Campaign>, order: seq<string>, now: int) returns (due: seq<string>)
    ensures due == DueIds(cs, order, now)
  {
    due := [];
    var i := 0;
    while i < |order|
      invariant 0 <= i <= |order|
      invariant due == DueIds(cs, order[..i], now)
    {
      var seen := order[..i + 1];
      assert seen[..i] == order[..i] && seen[i] == order[i];
      ghost var next := DueIds(cs, seen, now);
      assert next == if order[i] in cs && IsDue(cs[order[i]], now) then due + [order[i]] else due;
      if order[i] in cs && IsDue(cs[order[i]], now) {
        due := due + [order[i]];
      }
      i := i + 1;
    }
    assert order[..i] == order;
  }

  /** The claiming update: every listed campaign becomes RUNNING, started now. */
  method PromoteAll(cs: map<string, Campaign>, ids: seq<string>, now: int) returns (updated: map<string, Campaign>)
    requires forall id :: id in ids ==> id in cs
    ensures updated == map id | id in cs :: if id in ids then Promote(cs[id], now) else cs[id]
  {
    updated := cs;
    for k := 0 to |ids|
      invariant updated.Keys == cs.Keys
      invariant forall id :: id in updated ==> updated[id] == if id in ids[..k] then Promote(cs[id], now) else cs[id]
    {
      assert ids[..k + 1] == ids[..k] + [ids[k]];
      updated := updated[ids[k] := Promote(cs[ids[k]], now)];
    }
    assert ids[..|ids|] == ids;
  }

  /** Publishing: one job per listed campaign, appended in order. */
  method PublishJobs(cs: map<string, Campaign>, ids: seq<string>, queue: seq<CampaignJob>) returns (q: seq<CampaignJob>)
    requires forall id :: id in ids ==> id in cs
    ensures q == queue + JobsFor(cs, ids)
  {
    q := queue;
    for k := 0 to |ids|
      invariant q == queue + JobsFor(cs, ids[..k])
    {
      q := q + [CampaignJob(ids[k], cs[ids[k]].workspaceId)];
    }
    assert ids[..|ids|] == ids;
  }

  /** One poll of the scheduler, against the store. The claiming query and update run in
    * one transaction; publishing follows it and can stop part-way. Every failure is
    * caught, so the poll returns normally and the next one runs as usual. */
  method ProcessScheduledCampaigns(store: Store, now: int, fault: PollFault) returns (claimed: seq<string>)
    requires store.Valid()
    modifies store
    ensures store.Valid()
    ensures store.State() == Poll(old(store.State()), now, fault)
    ensures claimed == if fault.ClaimFails? then [] else DueIds(old(store.campaigns), old(store.campaignOrder), now)
  {
    var w := store.State();
    PollKeepsWellFormed(w, now, fault);
    var campaigns, queue;
    claimed, campaigns, queue := ClaimAndPublish(w, now, fault);
    store.campaigns, store.campaignQueue := campaigns, queue;
  }

  /** The poll's steps on the tables: claim the due campaigns, then publish their jobs; the
    * claimed ids and the new campaign table and campaign queue. */
  method ClaimAndPublish(w: World, now: int, fault: PollFault)
    returns (claimed: seq<string>, campaigns: map<string, Campaign>, queue: seq<CampaignJob>)
    ensures w.(campaigns := campaigns, campaignQueue := queue) == Poll(w, now, fault)
    ensures claimed == if fault.ClaimFails? then [] else DueIds(w.campaigns, w.campaignOrder, now)
  {
    campaigns, queue := w.campaigns, w.campaignQueue;
    if fault.ClaimFails? {
      return [], campaigns, queue;
    }
    claimed := FindDue(w.campaigns, w.campaignOrder, now);
    if |claimed| == 0 {
      return;
    }
    campaigns := PromoteAll(w.campaigns, claimed, now);
    queue := PublishJobs(w.campaigns, claimed[..PublishedCount(claimed, fault)], w.campaignQueue);
    PollOfDue(w, now, fault, claimed);
  }

  /** A poll that claims `due` rewrites only the campaigns and the campaign queue. */
  lemma PollOfDue(w: World, now: int, fault: PollFault, due: seq<string>)
    requires due == DueIds(w.campaigns, w.campaignOrder, now) && due != [] && !fault.ClaimFails?
    ensures Poll(w, now, fault) ==
              w.(campaigns := map id | id in w.campaigns :: if id in due then Promote(w.campaigns[id], now) else w.campaigns[id],
                 campaignQueue := w.campaignQueue + JobsFor(w.campaigns, due[..PublishedCount(due, fault)]))
  {
  }
}
