/** The state the campaign workers share: the campaign and recipient tables (each with the
  * order a table scan returns its rows in) and the two message queues. `World` is that
  * state as a value, for specifications; `Store` holds it as fields the workers update. */
module CampaignStore {
  import opened Text
  import opened CampaignSchema

  /** A message on the campaign-processing queue. */
  datatype CampaignJob = CampaignJob(campaignId: string, workspaceId: string)

  /** A message on the WhatsApp-delivery queue. */
  datatype RecipientJob = RecipientJob(recipientId: string, campaignId: string, phoneNumber: string, variables: Row)

  /** What a consumer does with a message once its handler has returned or thrown. */
  datatype Acknowledgement = Ack | Nack(requeue: bool)

  datatype World = World(
    campaigns: map<string, Campaign>,
    campaignOrder: seq<string>,
    recipients: map<string, Recipient>,
    recipientOrder: seq<string>,
    campaignQueue: seq<CampaignJob>,
    deliveryQueue: seq<RecipientJob>)

  /** Each table lists every row once, rows are stored under their own id, and every
    * recipient belongs to a stored campaign. */
  ghost predicate WellFormed(w: World)
  {
    && Distinct(w.campaignOrder)
    && (forall id :: id in w.campaignOrder <==> id in w.campaigns)
    && (forall id :: id in w.campaigns ==> w.campaigns[id].id == id)
    && Distinct(w.recipientOrder)
    && (forall id :: id in w.recipientOrder <==> id in w.recipients)
    && (forall id :: id in w.recipients ==> w.recipients[id].id == id && w.recipients[id].campaignId in w.campaigns)
  }

  /** Updating rows in place, without changing their ids, their campaign links or the
    * tables' orders, keeps the tables well formed. */
  lemma RowUpdatesKeepWellFormed(w: World, v: World)
    requires WellFormed(w)
    requires v.campaignOrder == w.campaignOrder && v.recipientOrder == w.recipientOrder
    requires v.campaigns.Keys == w.campaigns.Keys && v.recipients.Keys == w.recipients.Keys
    requires forall id :: id in v.campaigns ==> v.campaigns[id].id == w.campaigns[id].id
    requires forall id :: id in v.recipients ==>
               v.recipients[id].id == w.recipients[id].id && v.recipients[id].campaignId == w.recipients[id].campaignId
    ensures WellFormed(v)
  {
  }

  predicate Counted(rs: map<string, Recipient>, id: string, cid: string, sts: set<RecipientStatus>)
  {
    id in rs && rs[id].campaignId == cid && rs[id].status in sts
  }

  /** The number of recipients listed in `ids` that belong to campaign `cid` and have one of
    * the statuses `sts`: the `count` query of the recipient table. */
  function Count(rs: map<string, Recipient>, ids: seq<string>, cid: string, sts: set<RecipientStatus>): (n: nat)
    ensures n <= |ids|
  {
    if ids == [] then 0
    else Count(rs, ids[..|ids| - 1], cid, sts) + (if Counted(rs, ids[|ids| - 1], cid, sts) then 1 else 0)
  }

  function CountOf(w: World, cid: string, sts: set<RecipientStatus>): nat
  {
    Count(w.recipients, w.recipientOrder, cid, sts)
  }

  /** Counting over two disjoint sets of statuses adds up. */
  lemma {:induction false} CountDisjointUnion(rs: map<string, Recipient>, ids: seq<string>, cid: string,
                                              a: set<RecipientStatus>, b: set<RecipientStatus>)
    requires a !! b
    ensures Count(rs, ids, cid, a + b) == Count(rs, ids, cid, a) + Count(rs, ids, cid, b)
    decreases |ids|
  {
    if ids != [] {
      CountDisjointUnion(rs, ids[..|ids| - 1], cid, a, b);
    }
  }

  /** Counting over a list and a list appended to it adds up. */
  lemma {:induction false} CountAppend(rs: map<string, Recipient>, xs: seq<string>, ys: seq<string>,
                                       cid: string, sts: set<RecipientStatus>)
    ensures Count(rs, xs + ys, cid, sts) == Count(rs, xs, cid, sts) + Count(rs, ys, cid, sts)
    decreases |ys|
  {
    if ys == [] {
      assert xs + ys == xs;
    } else {
      var ys' := ys[..|ys| - 1];
      assert (xs + ys)[..|xs + ys| - 1] == xs + ys';
      CountAppend(rs, xs, ys', cid, sts);
    }
  }

  /** A count only looks at the recipients it lists. */
  lemma {:induction false} CountFrame(rs: map<string, Recipient>, rs': map<string, Recipient>, ids: seq<string>,
                                      cid: string, sts: set<RecipientStatus>)
    requires forall id :: id in ids ==> (id in rs <==> id in rs') && (id in rs ==> rs[id] == rs'[id])
    ensures Count(rs, ids, cid, sts) == Count(rs', ids, cid, sts)
    decreases |ids|
  {
    if ids != [] {
      CountFrame(rs, rs', ids[..|ids| - 1], cid, sts);
    }
  }

  /** Replacing one listed recipient changes a count by what that recipient contributes. */
  lemma {:induction false} CountUpdate(rs: map<string, Recipient>, ids: seq<string>, x: string, r: Recipient,
                                       cid: string, sts: set<RecipientStatus>)
    requires Distinct(ids) && x in ids
    ensures Count(rs[x := r], ids, cid, sts) + (if Counted(rs, x, cid, sts) then 1 else 0)
         == Count(rs, ids, cid, sts) + (if Counted(rs[x := r], x, cid, sts) then 1 else 0)
    decreases |ids|
  {
    var last := ids[|ids| - 1];
    var init := ids[..|ids| - 1];
    if last == x {
      CountFrame(rs, rs[x := r], init, cid, sts);
    } else {
      assert x in init by {
        var i :| 0 <= i < |ids| && ids[i] == x;
        assert i != |ids| - 1;
        assert init[i] == x;
      }
      assert Distinct(init) by {
        forall i, j | 0 <= i < j < |init| ensures init[i] != init[j] {
          assert ids[i] != ids[j];
        }
      }
      CountUpdate(rs, init, x, r, cid, sts);
    }
  }

  /** The statuses a recipient has once its message went out. */
  const SentOrLater: set<RecipientStatus> :=
    {RecipientStatus.Sent, RecipientStatus.Opened, RecipientStatus.Started, RecipientStatus.Completed}

  const AllStatuses: set<RecipientStatus> :=
    SentOrLater + {RecipientStatus.Pending, RecipientStatus.Queued, RecipientStatus.Failed}

  /** A campaign's counters agree with its recipients: one send for each recipient whose
    * message went out, one failure for each FAILED recipient. */
  ghost predicate CountersMatch(w: World, cid: string)
  {
    && cid in w.campaigns
    && w.campaigns[cid].sentCount == CountOf(w, cid, SentOrLater)
    && w.campaigns[cid].failedCount == CountOf(w, cid, {RecipientStatus.Failed})
  }

  /** The part of `WellFormed` counting relies on: the recipient table lists each row once. */
  ghost predicate RecipientsListed(w: World)
  {
    Distinct(w.recipientOrder) && forall id :: id in w.recipientOrder <==> id in w.recipients
  }

  class Store {
    var campaigns: map<string, Campaign>
    var campaignOrder: seq<string>
    var recipients: map<string, Recipient>
    var recipientOrder: seq<string>
    var campaignQueue: seq<CampaignJob>
    var deliveryQueue: seq<RecipientJob>

    /** An empty database with empty queues. */
    constructor ()
      ensures State() == World(map[], [], map[], [], [], [])
      ensures Valid()
    {
      campaigns, campaignOrder := map[], [];
      recipients, recipientOrder := map[], [];
      campaignQueue, deliveryQueue := [], [];
    }

    function State(): World
      reads this
    {
      World(campaigns, campaignOrder, recipients, recipientOrder, campaignQueue, deliveryQueue)
    }

    ghost predicate Valid()
      reads this
    {
      WellFormed(State())
    }
  }
}
