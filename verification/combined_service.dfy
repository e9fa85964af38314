/** The all-in-one campaign service runs the scheduler, the ingestion, the delivery and the
  * completion checker in one process. Its scheduler, completion checker and delivery
  * transactions are the ones of the separate workers, and its ingestion handler has the
  * worker's steps and error handling. It differs in three places: its phone extractor only
  * accepts text cells, it reads every file by fetching its url (no S3 object read, no local
  * `/uploads` folder), and its sender is a placeholder that always succeeds. */
module CombinedService {
  import opened Text
  import opened CampaignSchema
  import opened CampaignStore
  import CampaignWorker
  import CampaignFiles
  import WhatsAppWorker

  /** The combined service's phone extractor: the phone cell must hold text; numbers, like
    * every other non-text value, reject the row. */
  function MainExtractPhoneNumber(row: Row): (r: Option<string>)
    ensures r.Some? ==> AllDigits(r.value) && |r.value| >= 10
    ensures r.Some? <==> CampaignWorker.PhoneCell(row).Some? && CampaignWorker.PhoneCell(row).value.Str? &&
                         |CampaignWorker.NormalizePhoneNumber(CampaignWorker.PhoneCell(row).value.s)| >= 10
  {
    var cell := CampaignWorker.PhoneCell(row);
    if cell.None? || !cell.value.Str? then None
    else
      var normalized := CampaignWorker.NormalizePhoneNumber(cell.value.s);
      if |normalized| < 10 then None else Some(normalized)
  }

  /** On a text phone cell the two extractors agree, and whatever this one accepts the
    * separate worker accepts too. */
  lemma ExtractorsAgreeOnText(row: Row)
    ensures CampaignWorker.PhoneCell(row).Some? && CampaignWorker.PhoneCell(row).value.Str? ==>
              MainExtractPhoneNumber(row) == CampaignWorker.ExtractPhoneNumber(row)
    ensures MainExtractPhoneNumber(row).Some? ==> MainExtractPhoneNumber(row) == CampaignWorker.ExtractPhoneNumber(row)
  {
  }

  /** On a numeric phone cell of ten digits or more the two disagree: the separate worker
    * keeps the row with the number's decimal digits, this service skips it. */
  lemma {:induction false} ExtractorsDisagreeOnNumericCells(n: nat)
    requires n >= Pow10(9)
    ensures var row := map["phone" := Num(n)];
            && CampaignWorker.ExtractPhoneNumber(row) == Some(NatToString(n))
            && MainExtractPhoneNumber(row) == None
  {
    var row := map["phone" := Num(n)];
    assert CampaignWorker.PhoneColumns[0] == "phone";
    assert CampaignWorker.PhoneCell(row) == Some(Num(n));
    NatToStringLengthAtLeast(n, 9);
  }

  /** Where the combined service reads a campaign's file: it fetches the url, whatever the
    * url is. */
  function MainFileSource(fileUrl: string): CampaignFiles.Source
  {
    CampaignFiles.HttpFetch(fileUrl)
  }

  /** So the files the upload stores are read elsewhere than by the separate worker: with S3
    * configured the object's public url is fetched over http instead of read from the bucket,
    * and without S3 the relative `/uploads/campaigns/...` path is handed to `fetch` instead of
    * read from the app's public folder. */
  lemma FilesAreFetchedWhereTheWorkerReadsThem(base: string, workspaceId: string, timestamp: nat, fileName: string,
                                              cwd: string)
    requires StartsWith(base, "http") && |Split(base, '/')| >= 3 && CampaignFiles.Plain(base)
    requires CampaignFiles.Plain(workspaceId) && "public" !in Split(base, '/')[3..]
    ensures var up := CampaignFiles.UploadCampaignFile(Some(base), workspaceId, timestamp, fileName);
            && CampaignFiles.DownloadSource(true, up.url, cwd) == CampaignFiles.S3Object(up.storedAt.value)
            && MainFileSource(up.url) == CampaignFiles.HttpFetch(up.url)
    ensures var up := CampaignFiles.UploadCampaignFile(None, workspaceId, timestamp, fileName);
            && CampaignFiles.DownloadSource(false, up.url, cwd)
                 == CampaignFiles.LocalFile(cwd + "/public/uploads/campaigns/" + fileName)
            && MainFileSource(up.url) == CampaignFiles.HttpFetch("/uploads/campaigns/" + fileName)
  {
    CampaignFiles.UploadThenDownloadFindsTheObject(base, workspaceId, timestamp, fileName, cwd);
    CampaignFiles.LocalUploadIsReadFromPublicFolder(workspaceId, timestamp, fileName, cwd, false);
  }

  /** The combined service's handler of a campaign job: the separate worker's steps, with
    * this service's extractor; `file` is the outcome of fetching the file's url. */
  method ProcessCampaignJob(store: Store, job: CampaignJob, file: CampaignWorker.FileRead, now: int,
                            size: CampaignWorker.BatchSize, fault: CampaignWorker.IngestFault, ids: seq<string>)
    returns (thrown: bool)
    requires store.Valid() && CampaignWorker.FreshIds(store.State(), ids, file) && CampaignWorker.Ends(size)
    modifies store
    ensures store.Valid()
    ensures store.State() == CampaignWorker.Ingest(old(store.State()), job.campaignId, file, now, MainExtractPhoneNumber,
                                                   ids, size, fault)
    ensures thrown == fault.LookupFails?
  {
    thrown := CampaignWorker.IngestCampaign(store, job.campaignId, file, now, size, fault, ids, MainExtractPhoneNumber);
  }

  /** The combined service's campaign-queue consumer: a message that is not a job, and a job
    * whose handler throws, are rejected without requeueing; every other job is acknowledged. */
  method ConsumeCampaignMessage(store: Store, message: Option<CampaignJob>, file: CampaignWorker.FileRead, now: int,
                                size: CampaignWorker.BatchSize, fault: CampaignWorker.IngestFault, ids: seq<string>)
    returns (ack: Acknowledgement)
    requires store.Valid() && CampaignWorker.FreshIds(store.State(), ids, file) && CampaignWorker.Ends(size)
    modifies store
    ensures store.Valid()
    ensures message.None? ==> ack == Nack(false) && store.State() == old(store.State())
    ensures message.Some? ==>
              && ack == (if fault.LookupFails? then Nack(false) else Ack)
              && store.State() == CampaignWorker.Ingest(old(store.State()), message.value.campaignId, file, now,
                                                        MainExtractPhoneNumber, ids, size, fault)
  {
    if message.None? {
      return Nack(false);
    }
    var thrown := ProcessCampaignJob(store, message.value, file, now, size, fault, ids);
    ack := if thrown then Nack(false) else Ack;
  }

  /** Under the placeholder sender a job for a stored recipient that is not yet SENT, whose
    * campaign is its recipient's, always makes it SENT and counts it once; the retry branch
    * is never taken and the message is always acknowledged. */
  lemma StubSenderAlwaysDelivers(w: World, job: RecipientJob, now: int, maxRetries: WhatsAppWorker.RetryLimit)
    requires WellFormed(w) && job.recipientId in w.recipients
    requires job.campaignId == w.recipients[job.recipientId].campaignId
    ensures var s := WhatsAppWorker.Deliver(w, job, WhatsAppWorker.Delivered, now, maxRetries);
            && !s.threw
            && s.world.recipients[job.recipientId].status == RecipientStatus.Sent
            && s.world.recipients[job.recipientId].retryCount == w.recipients[job.recipientId].retryCount
            && s.world.campaigns[job.campaignId].sentCount ==
                 w.campaigns[job.campaignId].sentCount + (if w.recipients[job.recipientId].status == RecipientStatus.Sent then 0 else 1)
  {
  }

  /** The combined service's delivery-queue consumer, with the placeholder sender: a message
    * that is not a job, and a rethrown error, are handed back to the queue. */
  method ConsumeDeliveryMessage(store: Store, message: Option<RecipientJob>, now: int, maxRetries: WhatsAppWorker.RetryLimit,
                                fault: WhatsAppWorker.StoreFault)
    returns (ack: Acknowledgement)
    requires store.Valid()
    modifies store
    ensures store.Valid()
    ensures message.None? ==> ack == Nack(true) && store.State() == old(store.State())
    ensures message.Some? ==>
              var s := WhatsAppWorker.Attempt(old(store.State()), message.value, WhatsAppWorker.Delivered, now, maxRetries, fault);
              store.State() == s.world && ack == (if s.threw then Nack(true) else Ack)
  {
    ack := WhatsAppWorker.ConsumeDeliveryMessage(store, message, WhatsAppWorker.Delivered, now, maxRetries, fault);
  }
}
