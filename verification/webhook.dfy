/** The production WhatsApp webhook: it applies the read receipts of the notification to the
  * campaign recipients, with no `try` around them, and then answers 200 and resumes one chat
  * session per sender in the background, choosing a live preview session over the
  * production one and skipping a sender whose lookup throws. */
module Webhook {
  import opened Text
  import opened CampaignSchema
  import opened CampaignStore
  import CampaignWorker
  import WhatsAppWorker

  const SessionIdPrefix: string := "wa-"
  const PreviewSessionIdPrefix: string := "wa-preview-"

  /** A delivery status of one sent message, as the notification reports it. */
  datatype StatusUpdate = StatusUpdate(id: string, status: string)

  datatype Change = Change(statuses: Option<seq<StatusUpdate>>)

  datatype EntryItem = EntryItem(changes: seq<Change>)

  /** The message ids of the "read" statuses, in order. */
  function StatusReadIds(ss: seq<StatusUpdate>): (r: seq<string>)
    ensures |r| <= |ss|
    ensures forall mid :: mid in r <==> exists k :: 0 <= k < |ss| && ss[k].status == "read" && ss[k].id == mid
  {
    if ss == [] then []
    else
      var n := |ss| - 1;
      var rest := StatusReadIds(ss[..n]);
      assert forall k :: 0 <= k < n ==> ss[..n][k] == ss[k];
      if ss[n].status == "read" then rest + [ss[n].id] else rest
  }

  function ChangeReadIds(c: Change): seq<string>
  {
    if c.statuses.Some? then StatusReadIds(c.statuses.value) else []
  }

  function ChangesReadIds(cs: seq<Change>): seq<string>
  {
    if cs == [] then [] else ChangesReadIds(cs[..|cs| - 1]) + ChangeReadIds(cs[|cs| - 1])
  }

  function EntryReadIds(es: seq<EntryItem>): seq<string>
  {
    if es == [] then [] else EntryReadIds(es[..|es| - 1]) + ChangesReadIds(es[|es| - 1].changes)
  }

  /** The first recipient, in table order, that carries the message id. */
  function FindByMessageId(rs: map<string, Recipient>, order: seq<string>, mid: string): (r: Option<string>)
    ensures r.Some? ==> r.value in order && r.value in rs && rs[r.value].messageId == Some(mid)
    ensures r.None? ==> forall id :: id in order && id in rs ==> rs[id].messageId != Some(mid)
  {
    if order == [] then None
    else if order[0] in rs && rs[order[0]].messageId == Some(mid) then Some(order[0])
    else
      var r := FindByMessageId(rs, order[1..], mid);
      assert forall id :: id in order ==> id == order[0] || id in order[1..];
      r
  }

  /** The lookup only looks at the message ids of the listed recipients. */
  lemma {:induction false} FindByMessageIdFrame(rs: map<string, Recipient>, rs': map<string, Recipient>,
                                                order: seq<string>, mid: string)
    requires forall id :: id in order ==> (id in rs <==> id in rs') && (id in rs ==> rs[id].messageId == rs'[id].messageId)
    ensures FindByMessageId(rs, order, mid) == FindByMessageId(rs', order, mid)
    decreases |order|
  {
    if order != [] {
      FindByMessageIdFrame(rs, rs', order[1..], mid);
    }
  }

  predicate Openable(st: RecipientStatus)
  {
    st == RecipientStatus.Sent || st == RecipientStatus.Queued
  }

  /** One read receipt: the recipient it names becomes OPENED when it is SENT or QUEUED. */
  function ApplyReceipt(w: World, mid: string): World
  {
    var found := FindByMessageId(w.recipients, w.recipientOrder, mid);
    if found.Some? && Openable(w.recipients[found.value].status) then
      w.(recipients := w.recipients[found.value := w.recipients[found.value].(status := RecipientStatus.Opened)])
    else w
  }

  /** The receipts applied one after the other. */
  function ApplyReceipts(w: World, mids: seq<string>): World
  {
    if mids == [] then w else ApplyReceipt(ApplyReceipts(w, mids[..|mids| - 1]), mids[|mids| - 1])
  }

  /** A receipt changes the status of at most the one recipient it names, from SENT or
    * QUEUED to OPENED, and nothing else. */
  lemma ReceiptOpensOnlySentOrQueued(w: World, mid: string, id: string)
    requires id in w.recipients
    ensures var w' := ApplyReceipt(w, mid);
            && w'.campaigns == w.campaigns && w'.recipientOrder == w.recipientOrder
            && w'.campaignQueue == w.campaignQueue && w'.deliveryQueue == w.deliveryQueue
            && w'.recipients.Keys == w.recipients.Keys
            && w'.recipients[id] == w.recipients[id].(status := w'.recipients[id].status)
            && (w'.recipients[id].status != w.recipients[id].status <==>
                  && FindByMessageId(w.recipients, w.recipientOrder, mid) == Some(id)
                  && Openable(w.recipients[id].status))
            && (w'.recipients[id].status != w.recipients[id].status ==> w'.recipients[id].status == RecipientStatus.Opened)
  {
  }

  /** A receipt delivered twice has the effect of one. */
  lemma ReceiptIsIdempotent(w: World, mid: string)
    ensures ApplyReceipt(ApplyReceipt(w, mid), mid) == ApplyReceipt(w, mid)
  {
    var w1 := ApplyReceipt(w, mid);
    FindByMessageIdFrame(w.recipients, w1.recipients, w.recipientOrder, mid);
  }

  /** Receipts keep the tables well formed. */
  lemma {:induction false} ReceiptsKeepWellFormed(w: World, mids: seq<string>)
    requires WellFormed(w)
    ensures WellFormed(ApplyReceipts(w, mids))
    decreases |mids|
  {
    if mids != [] {
      ReceiptsKeepWellFormed(w, mids[..|mids| - 1]);
    }
  }

  /** No recipient carries a message id. */
  predicate NoMessageIds(w: World)
  {
    forall id :: id in w.recipients ==> w.recipients[id].messageId.None?
  }

  /** While no recipient carries a message id, receipts change nothing. */
  lemma {:induction false} ReceiptsMatchNothingWithoutMessageIds(w: World, mids: seq<string>)
    requires NoMessageIds(w)
    ensures ApplyReceipts(w, mids) == w
    decreases |mids|
  {
    if mids != [] {
      ReceiptsMatchNothingWithoutMessageIds(w, mids[..|mids| - 1]);
    }
  }

  lemma {:induction false} AddedRecipientsHaveNoMessageId(rs: map<string, Recipient>, cid: string,
                                                          ps: seq<CampaignWorker.PendingRecipient>, ids: seq<string>)
    requires |ids| == |ps|
    requires forall id :: id in rs ==> rs[id].messageId.None?
    ensures forall id :: id in CampaignWorker.AddRecipients(rs, cid, ps, ids) ==>
              CampaignWorker.AddRecipients(rs, cid, ps, ids)[id].messageId.None?
    decreases |ids|
  {
    if ids != [] {
      var n := |ids| - 1;
      AddedRecipientsHaveNoMessageId(rs, cid, ps[..n], ids[..n]);
    }
  }

  /** Ingestion never records a message id. */
  lemma IngestRecordsNoMessageIds(w: World, cid: string, file: CampaignWorker.FileRead, now: int,
                                  extract: Row -> Option<string>, ids: seq<string>,
                                  size: CampaignWorker.BatchSize, fault: CampaignWorker.IngestFault)
    requires NoMessageIds(w) && CampaignWorker.FreshIds(w, ids, file) && CampaignWorker.Ends(size)
    ensures NoMessageIds(CampaignWorker.Ingest(w, cid, file, now, extract, ids, size, fault))
  {
    if !fault.LookupFails? && cid in w.campaigns && w.campaigns[cid].status == CampaignStatus.Running {
      var r := CampaignWorker.ReadRows(w.campaigns[cid].fileUrl, file);
      if r.Success? && !fault.TotalUpdateFails? {
        var ps := CampaignWorker.Collect(r.rows, extract);
        var qs := ids[..|ps|];
        var w1 := CampaignWorker.SetTotal(w, cid, |ps|);
        var stop := CampaignWorker.StopOf(|ps|, size, fault);
        var done := CampaignWorker.Insert(w1, cid, ps[..stop.inserted], qs[..stop.inserted]);
        AddedRecipientsHaveNoMessageId(w1.recipients, cid, ps[..stop.inserted], qs[..stop.inserted]);
        AddedRecipientsHaveNoMessageId(done.recipients, cid, ps[stop.inserted..stop.rowsUpTo],
                                       qs[stop.inserted..stop.rowsUpTo]);
      }
    }
  }

  /** Delivery never records a message id. Together with ingestion this means that, starting
    * from tables without message ids, no read receipt ever finds a campaign recipient: the
    * pipeline's own rows never reach OPENED through a receipt. */
  lemma DeliverRecordsNoMessageIds(w: World, job: RecipientJob, outcome: WhatsAppWorker.SendOutcome, now: int,
                                   maxRetries: WhatsAppWorker.RetryLimit)
    requires NoMessageIds(w)
    ensures NoMessageIds(WhatsAppWorker.Deliver(w, job, outcome, now, maxRetries).world)
  {
  }

  /** The id of the session a sender's messages resume: the preview session when it holds a
    * state, the production session of the receiving number otherwise. */
  function SessionId(phoneNumberId: string, from: string, previewHasState: bool): (r: string)
    ensures previewHasState ==> r == PreviewSessionIdPrefix + from
    ensures !previewHasState ==> r == SessionIdPrefix + phoneNumberId + "-" + from
  {
    if previewHasState then PreviewSessionIdPrefix + from else SessionIdPrefix + phoneNumberId + "-" + from
  }

  /** A production session id never takes the form of a preview session id unless the
    * receiving number's id itself starts with "p"; phone-number ids are numeric. */
  lemma ProductionAndPreviewIdsDiffer(phoneNumberId: string, from: string, from': string)
    requires |phoneNumberId| == 0 || phoneNumberId[0] != 'p'
    ensures SessionId(phoneNumberId, from, false) != SessionId(phoneNumberId, from', true)
  {
    var a, b := SessionId(phoneNumberId, from, false), SessionId(phoneNumberId, from', true);
    assert b[3] == 'p';
    if |phoneNumberId| == 0 {
      assert a[3] == '-';
    } else {
      assert a[3] == phoneNumberId[0];
    }
  }

  /** The senders of a notification, grouped by receiving number, each with the messages
    * received from it. */
  datatype Sender = Sender(phoneNumberId: string, from: string, messageCount: nat)

  /** What the webhook answers. */
  datatype Response = Response(status: int, body: string)

  const Received: Response := Response(200, "Message received")

  /** The id of the preview session the background task looks up for a sender. */
  function PreviewLookupId(sender: Sender): string
  {
    PreviewSessionIdPrefix + sender.from
  }

  /** The session ids the background task resumes, in order: one per sender, except a sender
    * whose preview-session lookup throws, which the `catch` skips. */
  function SessionIds(senders: seq<Sender>, previewHasState: string -> bool, lookupThrows: string -> bool)
    : (r: seq<string>)
    ensures |r| <= |senders|
    ensures (forall k :: 0 <= k < |senders| ==> !lookupThrows(PreviewLookupId(senders[k]))) ==>
              && |r| == |senders|
              && forall k :: 0 <= k < |senders| ==>
                   r[k] == SessionId(senders[k].phoneNumberId, senders[k].from, previewHasState(PreviewLookupId(senders[k])))
  {
    if senders == [] then []
    else
      var n := |senders| - 1;
      var s := senders[n];
      assert forall k :: 0 <= k < n ==> senders[..n][k] == senders[k];
      var rest := SessionIds(senders[..n], previewHasState, lookupThrows);
      if lookupThrows(PreviewLookupId(s)) then rest
      else rest + [SessionId(s.phoneNumberId, s.from, previewHasState(PreviewLookupId(s)))]
  }

  /** The senders of two runs are resumed as the two runs are. */
  lemma {:induction false} SessionIdsAppend(a: seq<Sender>, b: seq<Sender>, previewHasState: string -> bool,
                                           lookupThrows: string -> bool)
    ensures SessionIds(a + b, previewHasState, lookupThrows)
              == SessionIds(a, previewHasState, lookupThrows) + SessionIds(b, previewHasState, lookupThrows)
    decreases |b|
  {
    if b == [] {
      assert a + b == a;
    } else {
      var n := |b| - 1;
      assert (a + b)[..|a + b| - 1] == a + b[..n];
      assert (a + b)[|a + b| - 1] == b[n];
      SessionIdsAppend(a, b[..n], previewHasState, lookupThrows);
    }
  }

  /** A sender whose lookup throws is skipped, and the senders after it are resumed as if it
    * had not been there. */
  lemma ThrowingLookupSkipsOnlyItsSender(a: seq<Sender>, s: Sender, b: seq<Sender>, previewHasState: string -> bool,
                                         lookupThrows: string -> bool)
    requires lookupThrows(PreviewLookupId(s))
    ensures SessionIds(a + [s] + b, previewHasState, lookupThrows)
              == SessionIds(a, previewHasState, lookupThrows) + SessionIds(b, previewHasState, lookupThrows)
  {
    SessionIdsAppend(a + [s], b, previewHasState, lookupThrows);
    SessionIdsAppend(a, [s], previewHasState, lookupThrows);
    assert [s][..0] == [];
  }

  /** `safeJsonParse`: an absent or empty value comes back as it is, a value that parses
    * comes back parsed, and any other comes back as the raw string. */
  datatype Parsed<J> = Absent | Raw(text: string) | Json(value: J)

  function SafeJsonParse<J>(value: Option<string>, parse: string -> Option<J>): (r: Parsed<J>)
    ensures value.None? <==> r.Absent?
    ensures r.Raw? ==> value == Some(r.text) && (r.text == "" || parse(r.text).None?)
    ensures r.Json? ==> value.Some? && value.value != "" && parse(value.value) == Some(r.value)
    ensures value.Some? && value.value != "" && parse(value.value).Some? ==> r.Json?
  {
    if value.None? then Absent
    else if value.value == "" then Raw("")
    else
      match parse(value.value)
      case Some(j) => Json(j)
      case None => Raw(value.value)
  }

  /** Applying two runs of receipts is applying them one after the other. */
  lemma {:induction false} ApplyReceiptsAppend(w: World, a: seq<string>, b: seq<string>)
    ensures ApplyReceipts(w, a + b) == ApplyReceipts(ApplyReceipts(w, a), b)
    decreases |b|
  {
    if b == [] {
      assert a + b == a;
    } else {
      var n := |b| - 1;
      assert (a + b)[..|a + b| - 1] == a + b[..n];
      assert (a + b)[|a + b| - 1] == b[n];
      ApplyReceiptsAppend(w, a, b[..n]);
    }
  }

  /** The message ids a receipt walk gets through when the store throws while handling the
    * receipt at index `failAt` (its findFirst or its update): those before it. */
  function Before(mids: seq<string>, failAt: Option<nat>): (r: seq<string>)
    ensures failAt.None? ==> r == mids
    ensures failAt.Some? ==> r == FirstN(mids, failAt.value)
  {
    if failAt.None? then mids else FirstN(mids, failAt.value)
  }

  /** Whether the walk throws: the failing receipt is one of `mids`. */
  predicate Throws(mids: seq<string>, failAt: Option<nat>)
  {
    failAt.Some? && failAt.value < |mids|
  }

  /** The failing index as seen after `n` receipts have been handled. */
  function Shift(failAt: Option<nat>, n: nat): Option<nat>
  {
    if failAt.Some? && failAt.value >= n then Some(failAt.value - n) else failAt
  }

  /** A walk that gets through `a` goes on into `b` with the index shifted past `a`. */
  lemma BeforeAppend(a: seq<string>, b: seq<string>, failAt: Option<nat>)
    requires !Throws(a, failAt)
    ensures Before(a, failAt) == a
    ensures Before(a + b, failAt) == a + Before(b, Shift(failAt, |a|))
    ensures Throws(a + b, failAt) == Throws(b, Shift(failAt, |a|))
  {
    if failAt.Some? {
      var v := failAt.value;
      if v < |a + b| {
        assert (a + b)[..v] == a + b[..v - |a|];
      } else {
        assert FirstN(a + b, v) == a + b;
      }
    }
  }

  /** A walk that throws within `a` never reaches `b`. */
  lemma BeforeAppendThrown(a: seq<string>, b: seq<string>, failAt: Option<nat>)
    requires Throws(a, failAt)
    ensures Before(a + b, failAt) == Before(a, failAt) && Throws(a + b, failAt)
  {
    assert (a + b)[..failAt.value] == a[..failAt.value];
  }

  /** The read ids of two runs of statuses are those of each run. */
  lemma {:induction false} StatusReadIdsAppend(a: seq<StatusUpdate>, b: seq<StatusUpdate>)
    ensures StatusReadIds(a + b) == StatusReadIds(a) + StatusReadIds(b)
    decreases |b|
  {
    if b == [] {
      assert a + b == a;
    } else {
      var n := |b| - 1;
      assert (a + b)[..|a + b| - 1] == a + b[..n];
      assert (a + b)[|a + b| - 1] == b[n];
      StatusReadIdsAppend(a, b[..n]);
    }
  }

  lemma {:induction false} ChangesReadIdsAppend(a: seq<Change>, b: seq<Change>)
    ensures ChangesReadIds(a + b) == ChangesReadIds(a) + ChangesReadIds(b)
    decreases |b|
  {
    if b == [] {
      assert a + b == a;
    } else {
      var n := |b| - 1;
      assert (a + b)[..|a + b| - 1] == a + b[..n];
      assert (a + b)[|a + b| - 1] == b[n];
      ChangesReadIdsAppend(a, b[..n]);
    }
  }

  lemma {:induction false} EntryReadIdsAppend(a: seq<EntryItem>, b: seq<EntryItem>)
    ensures EntryReadIds(a + b) == EntryReadIds(a) + EntryReadIds(b)
    decreases |b|
  {
    if b == [] {
      assert a + b == a;
    } else {
      var n := |b| - 1;
      assert (a + b)[..|a + b| - 1] == a + b[..n];
      assert (a + b)[|a + b| - 1] == b[n];
      EntryReadIdsAppend(a, b[..n]);
    }
  }

  /** One step of a walk: after `done`, a part whose own walk (with the shifted index) left
    * the state `w1` and threw or not; the walk over `done`, the part and what follows
    * stands where the walk over the whole would. */
  lemma WalkStep(w0: World, done: seq<string>, part: seq<string>, rest: seq<string>, failAt: Option<nat>,
                 w1: World, threw: bool)
    requires !Throws(done, failAt)
    requires w1 == ApplyReceipts(ApplyReceipts(w0, done), Before(part, Shift(failAt, |done|)))
    requires threw == Throws(part, Shift(failAt, |done|))
    ensures w1 == ApplyReceipts(w0, Before(done + part, failAt))
    ensures threw == Throws(done + part, failAt)
    ensures threw ==> w1 == ApplyReceipts(w0, Before(done + part + rest, failAt)) && Throws(done + part + rest, failAt)
    ensures !threw ==> w1 == ApplyReceipts(w0, done + part)
  {
    BeforeAppend(done, part, failAt);
    ApplyReceiptsAppend(w0, done, Before(part, Shift(failAt, |done|)));
    if threw {
      BeforeAppendThrown(done + part, rest, failAt);
    } else {
      BeforeAppend(done + part, [], failAt);
    }
  }

  /** A throw at the read receipt of status `k` stops the walk of the statuses right
    * before that receipt. */
  lemma ReadThrowStopsTheWalk(statuses: seq<StatusUpdate>, k: nat, failAt: Option<nat>)
    requires k < |statuses| && statuses[k].status == "read"
    requires failAt == Some(|StatusReadIds(statuses[..k])|)
    ensures Throws(StatusReadIds(statuses), failAt)
    ensures Before(StatusReadIds(statuses), failAt) == StatusReadIds(statuses[..k])
  {
    var done := StatusReadIds(statuses[..k]);
    assert statuses[..k + 1][..k] == statuses[..k];
    assert StatusReadIds(statuses[..k + 1]) == done + [statuses[k].id];
    assert statuses == statuses[..k + 1] + statuses[k + 1..];
    StatusReadIdsAppend(statuses[..k + 1], statuses[k + 1..]);
    BeforeAppendThrown(done + [statuses[k].id], StatusReadIds(statuses[k + 1..]), failAt);
    assert (done + [statuses[k].id])[..|done|] == done;
  }

  /** One status more: a "read" one adds its id to the walk, which, as it does not throw
    * there, still has not thrown. */
  lemma StatusStep(statuses: seq<StatusUpdate>, k: nat, failAt: Option<nat>, handled: nat)
    requires k < |statuses| && handled == |StatusReadIds(statuses[..k])|
    requires !Throws(StatusReadIds(statuses[..k]), failAt)
    requires statuses[k].status == "read" ==> failAt != Some(handled)
    ensures statuses[k].status == "read" ==>
              StatusReadIds(statuses[..k + 1]) == StatusReadIds(statuses[..k]) + [statuses[k].id]
    ensures statuses[k].status != "read" ==> StatusReadIds(statuses[..k + 1]) == StatusReadIds(statuses[..k])
    ensures !Throws(StatusReadIds(statuses[..k + 1]), failAt)
  {
    assert statuses[..k + 1][..k] == statuses[..k];
  }

  /** One receipt more is one more application. */
  lemma ReceiptSnoc(w0: World, done: seq<string>, mid: string)
    ensures ApplyReceipts(w0, done + [mid]) == ApplyReceipt(ApplyReceipts(w0, done), mid)
  {
    assert (done + [mid])[..|done|] == done;
  }

  /** The statuses of one change, in order, until the store throws at the read receipt
    * `failAt`. */
  method ApplyStatuses(store: Store, statuses: seq<StatusUpdate>, failAt: Option<nat>) returns (threw: bool)
    modifies store
    ensures threw == Throws(StatusReadIds(statuses), failAt)
    ensures store.State() == ApplyReceipts(old(store.State()), Before(StatusReadIds(statuses), failAt))
  {
    ghost var w0 := store.State();
    var handled := 0;
    for k := 0 to |statuses|
      invariant handled == |StatusReadIds(statuses[..k])|
      invariant !Throws(StatusReadIds(statuses[..k]), failAt)
      invariant store.State() == ApplyReceipts(w0, StatusReadIds(statuses[..k]))
    {
      var status := statuses[k];
      if status.status == "read" && failAt == Some(handled) {
        ReadThrowStopsTheWalk(statuses, k, failAt);
        return true;
      }
      StatusStep(statuses, k, failAt, handled);
      if status.status == "read" {
        ghost var before := store.State();
        var found := FindByMessageId(store.recipients, store.recipientOrder, status.id);
        if found.Some? && Openable(store.recipients[found.value].status) {
          store.recipients := store.recipients[found.value := store.recipients[found.value].(status := RecipientStatus.Opened)];
        }
        assert store.State() == ApplyReceipt(before, status.id);
        ReceiptSnoc(w0, StatusReadIds(statuses[..k]), status.id);
        handled := handled + 1;
      }
    }
    assert statuses[..|statuses|] == statuses;
    BeforeAppend(StatusReadIds(statuses), [], failAt);
    threw := false;
  }

  /** The changes of one entry item, in order, until the store throws. */
  method ApplyChanges(store: Store, changes: seq<Change>, failAt: Option<nat>) returns (threw: bool)
    modifies store
    ensures threw == Throws(ChangesReadIds(changes), failAt)
    ensures store.State() == ApplyReceipts(old(store.State()), Before(ChangesReadIds(changes), failAt))
  {
    ghost var w0 := store.State();
    var handled := 0;
    for j := 0 to |changes|
      invariant handled == |ChangesReadIds(changes[..j])|
      invariant !Throws(ChangesReadIds(changes[..j]), failAt)
      invariant store.State() == ApplyReceipts(w0, ChangesReadIds(changes[..j]))
    {
      assert changes[..j + 1][..j] == changes[..j];
      ghost var done := ChangesReadIds(changes[..j]);
      var part := ChangeReadIds(changes[j]);
      ghost var rest := ChangesReadIds(changes[j + 1..]);
      assert ChangesReadIds(changes[..j + 1]) == done + part;
      assert changes == changes[..j + 1] + changes[j + 1..];
      ChangesReadIdsAppend(changes[..j + 1], changes[j + 1..]);
      var partThrew := false;
      if changes[j].statuses.Some? {
        partThrew := ApplyStatuses(store, changes[j].statuses.value, Shift(failAt, handled));
      }
      WalkStep(w0, done, part, rest, failAt, store.State(), partThrew);
      if partThrew {
        return true;
      }
      handled := handled + |part|;
    }
    assert changes[..|changes|] == changes;
    BeforeAppend(ChangesReadIds(changes), [], failAt);
    threw := false;
  }

  /** Applies the read receipts of a notification, status by status, in order, until the
    * store throws. The loops have no `try`, so the throw leaves the handler. */
  method ApplyReadReceipts(store: Store, entry: seq<EntryItem>, failAt: Option<nat>) returns (threw: bool)
    modifies store
    ensures threw == Throws(EntryReadIds(entry), failAt)
    ensures store.State() == ApplyReceipts(old(store.State()), Before(EntryReadIds(entry), failAt))
  {
    ghost var w0 := store.State();
    var handled := 0;
    for i := 0 to |entry|
      invariant handled == |EntryReadIds(entry[..i])|
      invariant !Throws(EntryReadIds(entry[..i]), failAt)
      invariant store.State() == ApplyReceipts(w0, EntryReadIds(entry[..i]))
    {
      assert entry[..i + 1][..i] == entry[..i];
      ghost var done := EntryReadIds(entry[..i]);
      var part := ChangesReadIds(entry[i].changes);
      ghost var rest := EntryReadIds(entry[i + 1..]);
      assert entry == entry[..i + 1] + entry[i + 1..];
      EntryReadIdsAppend(entry[..i + 1], entry[i + 1..]);
      var partThrew := ApplyChanges(store, entry[i].changes, Shift(failAt, handled));
      WalkStep(w0, done, part, rest, failAt, store.State(), partThrew);
      if partThrew {
        return true;
      }
      handled := handled + |part|;
    }
    assert entry[..|entry|] == entry;
    BeforeAppend(EntryReadIds(entry), [], failAt);
    threw := false;
  }

  /** The background task: for each sender the preview session is looked up and the chosen
    * session resumed; a lookup that throws is caught and the loop goes on with the next
    * sender. */
  method ResumeSessions(senders: seq<Sender>, previewHasState: string -> bool, lookupThrows: string -> bool)
    returns (resumed: seq<string>)
    ensures resumed == SessionIds(senders, previewHasState, lookupThrows)
  {
    resumed := [];
    for k := 0 to |senders|
      invariant resumed == SessionIds(senders[..k], previewHasState, lookupThrows)
    {
      assert senders[..k + 1][..k] == senders[..k];
      var sender := senders[k];
      var previewSessionId := PreviewSessionIdPrefix + sender.from;
      if !lookupThrows(previewSessionId) {
        var sessionId := SessionId(sender.phoneNumberId, sender.from, previewHasState(previewSessionId));
        resumed := resumed + [sessionId];
      }
    }
    assert senders[..|senders|] == senders;
  }

  /** The webhook. An unparsable body is answered at once. Otherwise the read receipts are
    * applied; a store call that throws there (the receipt at `failAt`) leaves the handler
    * with no answer (`None`), no later receipt applied and nobody resumed. Otherwise every
    * sender's session is resumed in the background, a failure for one sender being caught
    * before the next, and the answer is 200. */
  method HandleProductionWebhookRequest(store: Store, entry: Option<seq<EntryItem>>, senders: seq<Sender>,
                                        previewHasState: string -> bool, lookupThrows: string -> bool,
                                        failAt: Option<nat>)
    returns (response: Option<Response>, resumed: seq<string>)
    modifies store
    ensures response.None? <==> entry.Some? && Throws(EntryReadIds(entry.value), failAt)
    ensures response.Some? ==> response.value == Received
    ensures entry.None? ==> store.State() == old(store.State()) && resumed == []
    ensures entry.Some? ==> store.State() == ApplyReceipts(old(store.State()), Before(EntryReadIds(entry.value), failAt))
    ensures entry.Some? ==>
              resumed == if response.None? then [] else SessionIds(senders, previewHasState, lookupThrows)
  {
    response := Some(Received);
    resumed := [];
    if entry.None? {
      return;
    }
    var threw := ApplyReadReceipts(store, entry.value, failAt);
    if threw {
      return None, [];
    }
    if |senders| == 0 {
      return;
    }
    resumed := ResumeSessions(senders, previewHasState, lookupThrows);
  }
}
