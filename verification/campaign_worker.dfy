/** The campaign worker: for a claimed campaign it reads the uploaded recipient file, keeps
  * the rows with a usable phone number, records how many there are, inserts them as QUEUED
  * recipients in batches and puts one delivery job per recipient on the delivery queue. */
module CampaignWorker {
  import opened Text
  import opened CampaignSchema
  import opened CampaignStore

  /** The columns a phone number may come from, in order of preference. */
  const PhoneColumns: seq<string> := ["phone", "phoneNumber", "phone_number", "mobile"]

  const PhoneColumnSet: set<string> := {"phone", "phoneNumber", "phone_number", "mobile"}

  const DefaultBatchSize: nat := 100

  /** JavaScript truthiness of a cell; a missing column is `undefined`, which is falsy. */
  predicate CellTruthy(c: Cell)
  {
    match c
    case Str(s) => s != ""
    case Num(n) => n != 0
    case Bool(b) => b
    case Empty => false
  }

  /** `row[k0] || row[k1] || ...`, where only a truthy result matters to the callers. */
  function FirstTruthy(row: Row, keys: seq<string>): (r: Option<Cell>)
    ensures r.Some? ==> CellTruthy(r.value)
    ensures r.Some? ==> exists i :: 0 <= i < |keys| && keys[i] in row && row[keys[i]] == r.value &&
                          forall j :: 0 <= j < i ==> keys[j] !in row || !CellTruthy(row[keys[j]])
    ensures r.None? ==> forall i :: 0 <= i < |keys| && keys[i] in row ==> !CellTruthy(row[keys[i]])
  {
    if keys == [] then None
    else if keys[0] in row && CellTruthy(row[keys[0]]) then Some(row[keys[0]])
    else
      var r := FirstTruthy(row, keys[1..]);
      if r.Some? then
        ghost var i :| 0 <= i < |keys[1..]| && keys[1..][i] in row && row[keys[1..][i]] == r.value &&
                       forall j :: 0 <= j < i ==> keys[1..][j] !in row || !CellTruthy(row[keys[1..][j]]);
        assert keys[i + 1] == keys[1..][i];
        assert forall j :: 0 <= j < i + 1 ==> keys[j] !in row || !CellTruthy(row[keys[j]]) by {
          forall j | 0 <= j < i + 1 ensures keys[j] !in row || !CellTruthy(row[keys[j]]) {
            if j > 0 {
              assert keys[j] == keys[1..][j - 1];
            }
          }
        }
        r
      else
        assert forall i :: 1 <= i < |keys| ==> keys[i] == keys[1..][i - 1];
        None
  }

  /** The phone cell of a row: the first truthy one of the four phone columns. */
  function PhoneCell(row: Row): Option<Cell>
  {
    FirstTruthy(row, PhoneColumns)
  }

  /** Removes every character that is not an ASCII digit. */
  function NormalizePhoneNumber(s: string): (r: string)
    ensures AllDigits(r) && |r| <= |s|
    ensures AllDigits(s) ==> r == s
  {
    if s == [] then []
    else
      var rest := NormalizePhoneNumber(s[1..]);
      if IsDigit(s[0]) then
        assert AllDigits(s) ==> AllDigits(s[1..]) by {
          if AllDigits(s) {
            forall i | 0 <= i < |s[1..]| ensures IsDigit(s[1..][i]) {
              assert s[1..][i] == s[i + 1];
            }
          }
        }
        assert AllDigits(s) ==> [s[0]] + s[1..] == s;
        [s[0]] + rest
      else rest
  }

  /** The phone number of a spreadsheet row: its phone cell, rendered as text when it is a
    * number, with everything but digits removed, when at least ten digits remain. */
  function ExtractPhoneNumber(row: Row): (r: Option<string>)
    ensures r.Some? ==> AllDigits(r.value) && |r.value| >= 10
    ensures r.Some? <==> PhoneCell(row).Some? && !PhoneCell(row).value.Bool? &&
                         |NormalizePhoneNumber(PhoneText(PhoneCell(row).value))| >= 10
  {
    var cell := PhoneCell(row);
    if cell.None? || cell.value.Bool? then None
    else
      var normalized := NormalizePhoneNumber(PhoneText(cell.value));
      if |normalized| < 10 then None else Some(normalized)
  }

  /** The text of a phone cell: a string as it is, a number as `String(n)` renders it. */
  function PhoneText(c: Cell): string
  {
    match c
    case Str(s) => s
    case Num(n) => IntToString(n)
    case _ => ""
  }

  /** A number the worker extracted comes back unchanged when it is extracted again from a
    * row that holds it as its only phone column. */
  lemma ExtractPhoneNumberIsStable(row: Row)
    requires ExtractPhoneNumber(row).Some?
    ensures var p := ExtractPhoneNumber(row).value;
            ExtractPhoneNumber(map["phone" := Str(p)]) == Some(p)
  {
    var p := ExtractPhoneNumber(row).value;
    var row' := map["phone" := Str(p)];
    assert PhoneCell(row') == Some(Str(p)) by {
      assert PhoneColumns[0] == "phone";
    }
  }

  /** A row the worker keeps: its phone number and the remaining columns. */
  datatype PendingRecipient = PendingRecipient(phoneNumber: string, variables: Row)

  /** The recipients of a file, in row order: every row whose phone the extractor accepts,
    * with the four phone columns removed from its variables. */
  function Collect(rows: seq<Row>, extract: Row -> Option<string>): (r: seq<PendingRecipient>)
    ensures |r| <= |rows|
    ensures forall i :: 0 <= i < |r| ==> r[i].variables.Keys !! PhoneColumnSet
  {
    if rows == [] then []
    else
      var rest := Collect(rows[..|rows| - 1], extract);
      var row := rows[|rows| - 1];
      match extract(row)
      case None => rest
      case Some(p) => rest + [PendingRecipient(p, row - PhoneColumnSet)]
  }

  /** Every recipient the worker keeps has a phone number of at least ten digits. */
  lemma {:induction false} CollectedPhonesAreValid(rows: seq<Row>)
    ensures forall i :: 0 <= i < |Collect(rows, ExtractPhoneNumber)| ==>
              var p := Collect(rows, ExtractPhoneNumber)[i].phoneNumber;
              AllDigits(p) && |p| >= 10
  {
    if rows != [] {
      CollectedPhonesAreValid(rows[..|rows| - 1]);
    }
  }

  /** A row with a usable phone is kept and a row without one is dropped, so a file of rows
    * with usable phones yields one recipient per row. */
  lemma {:induction false} CollectKeepsRowsWithPhones(rows: seq<Row>, extract: Row -> Option<string>)
    requires forall i :: 0 <= i < |rows| ==> extract(rows[i]).Some?
    ensures |Collect(rows, extract)| == |rows|
    ensures forall i :: 0 <= i < |rows| ==> Collect(rows, extract)[i].phoneNumber == extract(rows[i]).value
  {
    if rows != [] {
      var init := rows[..|rows| - 1];
      assert forall i :: 0 <= i < |init| ==> init[i] == rows[i];
      CollectKeepsRowsWithPhones(init, extract);
    }
  }

  /** The loop over the parsed rows. */
  method CollectRecipients(rows: seq<Row>, extract: Row -> Option<string>) returns (recipients: seq<PendingRecipient>)
    ensures recipients == Collect(rows, extract)
  {
    recipients := [];
    for i := 0 to |rows|
      invariant recipients == Collect(rows[..i], extract)
    {
      assert rows[..i + 1][..i] == rows[..i];
      var phone := extract(rows[i]);
      if phone.Some? {
        recipients := recipients + [PendingRecipient(phone.value, rows[i] - PhoneColumnSet)];
      }
    }
    assert rows[..|rows|] == rows;
  }

  /** A freshly inserted recipient row: QUEUED, no retries yet. */
  function NewRecipient(id: string, cid: string, p: PendingRecipient): Recipient
  {
    Recipient(id, cid, p.phoneNumber, None, p.variables, RecipientStatus.Queued, 0, None, None)
  }

  /** The recipient table after inserting one new row per pending recipient, in order. */
  function AddRecipients(rs: map<string, Recipient>, cid: string, ps: seq<PendingRecipient>, ids: seq<string>): (m: map<string, Recipient>)
    requires |ids| == |ps|
    ensures forall id :: id in m <==> id in rs || id in ids
  {
    if ids == [] then rs
    else
      var n := |ids| - 1;
      AddRecipients(rs, cid, ps[..n], ids[..n])[ids[n] := NewRecipient(ids[n], cid, ps[n])]
  }

  /** With distinct ids every new row is stored under its id and the old rows stay. */
  lemma {:induction false} AddRecipientsContents(rs: map<string, Recipient>, cid: string, ps: seq<PendingRecipient>, ids: seq<string>)
    requires |ids| == |ps| && Distinct(ids)
    ensures forall k :: 0 <= k < |ids| ==> AddRecipients(rs, cid, ps, ids)[ids[k]] == NewRecipient(ids[k], cid, ps[k])
    ensures forall id :: id in rs && id !in ids ==> AddRecipients(rs, cid, ps, ids)[id] == rs[id]
    decreases |ids|
  {
    if ids != [] {
      var n := |ids| - 1;
      DistinctFront(ids);
      AddRecipientsContents(rs, cid, ps[..n], ids[..n]);
      forall k | 0 <= k < n
        ensures AddRecipients(rs, cid, ps, ids)[ids[k]] == NewRecipient(ids[k], cid, ps[k])
      {
        assert ids[..n][k] == ids[k] && ps[..n][k] == ps[k];
      }
    }
  }

  function DeliveryJobs(cid: string, ps: seq<PendingRecipient>, ids: seq<string>): (q: seq<RecipientJob>)
    requires |ids| == |ps|
    ensures |q| == |ps|
  {
    seq(|ps|, i requires 0 <= i < |ps| => RecipientJob(ids[i], cid, ps[i].phoneNumber, ps[i].variables))
  }

  /** Inserting recipients with the given ids, followed by their delivery jobs. */
  function Insert(w: World, cid: string, ps: seq<PendingRecipient>, ids: seq<string>): World
    requires |ids| == |ps|
  {
    w.(recipients := AddRecipients(w.recipients, cid, ps, ids),
       recipientOrder := w.recipientOrder + ids,
       deliveryQueue := w.deliveryQueue + DeliveryJobs(cid, ps, ids))
  }

  lemma {:induction false} AddRecipientsInBatches(rs: map<string, Recipient>, cid: string, ps: seq<PendingRecipient>,
                                                  ids: seq<string>, i: nat, j: nat)
    requires |ids| == |ps| && i <= j <= |ps|
    ensures AddRecipients(AddRecipients(rs, cid, ps[..i], ids[..i]), cid, ps[i..j], ids[i..j])
         == AddRecipients(rs, cid, ps[..j], ids[..j])
    decreases j
  {
    if j == i {
      assert ps[i..j] == [] && ids[i..j] == [];
    } else {
      var n := j - 1;
      var before := AddRecipients(rs, cid, ps[..i], ids[..i]);
      AddRecipientsInBatches(rs, cid, ps, ids, i, n);
      SliceSnoc(ps, i, j);
      SliceSnoc(ids, i, j);
      AddRecipientsSnoc(before, cid, ps[i..n], ids[i..n], ps[n], ids[n]);
      AddRecipientsSnoc(rs, cid, ps[..n], ids[..n], ps[n], ids[n]);
    }
  }

  lemma AddRecipientsSnoc(rs: map<string, Recipient>, cid: string, ps: seq<PendingRecipient>, ids: seq<string>,
                          p: PendingRecipient, id: string)
    requires |ids| == |ps|
    ensures AddRecipients(rs, cid, ps + [p], ids + [id]) == AddRecipients(rs, cid, ps, ids)[id := NewRecipient(id, cid, p)]
  {
    assert (ps + [p])[..|ps|] == ps;
    assert (ids + [id])[..|ids|] == ids;
  }

  lemma DeliveryJobsInBatches(cid: string, ps: seq<PendingRecipient>, ids: seq<string>, i: nat, j: nat)
    requires |ids| == |ps| && i <= j <= |ps|
    ensures DeliveryJobs(cid, ps[..i], ids[..i]) + DeliveryJobs(cid, ps[i..j], ids[i..j]) == DeliveryJobs(cid, ps[..j], ids[..j])
  {
    var a, b, c := DeliveryJobs(cid, ps[..i], ids[..i]), DeliveryJobs(cid, ps[i..j], ids[i..j]), DeliveryJobs(cid, ps[..j], ids[..j]);
    forall k | 0 <= k < j ensures (a + b)[k] == c[k] {
      if k < i {
        assert a[k] == RecipientJob(ids[k], cid, ps[k].phoneNumber, ps[k].variables);
      } else {
        assert b[k - i] == RecipientJob(ids[k], cid, ps[k].phoneNumber, ps[k].variables);
      }
    }
  }

  /** Inserting in two batches is inserting all at once. */
  lemma InsertInBatches(w: World, cid: string, ps: seq<PendingRecipient>, ids: seq<string>, i: nat, j: nat)
    requires |ids| == |ps| && i <= j <= |ps|
    ensures Insert(Insert(w, cid, ps[..i], ids[..i]), cid, ps[i..j], ids[i..j]) == Insert(w, cid, ps[..j], ids[..j])
  {
    AddRecipientsInBatches(w.recipients, cid, ps, ids, i, j);
    DeliveryJobsInBatches(cid, ps, ids, i, j);
    SliceJoin(ids, i, j);
    AppendAssoc(w.recipientOrder, ids[..i], ids[i..j]);
    AppendAssoc(w.deliveryQueue, DeliveryJobs(cid, ps[..i], ids[..i]), DeliveryJobs(cid, ps[i..j], ids[i..j]));
  }

  /** Where reading the file can go wrong: the download, or the parser of a supported format. */
  datatype ParseOutcome = Parsed(rows: seq<Row>) | ParseFailed(message: string)
  datatype FileRead = DownloadFailed(message: string) | Downloaded(content: ParseOutcome)

  datatype FileFormat = Csv | Spreadsheet | Unsupported

  /** The format is chosen by the extension of the lower-cased file URL. */
  function FormatOf(fileUrl: string): (f: FileFormat)
    ensures f == Csv <==> EndsWith(ToLower(fileUrl), ".csv")
    ensures f == Spreadsheet <==> !EndsWith(ToLower(fileUrl), ".csv") &&
                                  (EndsWith(ToLower(fileUrl), ".xlsx") || EndsWith(ToLower(fileUrl), ".xls"))
  {
    var name := ToLower(fileUrl);
    if EndsWith(name, ".csv") then Csv
    else if EndsWith(name, ".xlsx") || EndsWith(name, ".xls") then Spreadsheet
    else Unsupported
  }

  /** The rows of a file, or the message of the error reading it throws. */
  function ReadRows(fileUrl: string, file: FileRead): (r: Result)
    ensures file.DownloadFailed? ==> r == Failure(file.message)
    ensures file.Downloaded? && FormatOf(fileUrl) == Unsupported ==>
              r == Failure("Unsupported file format: " + ToLower(fileUrl))
    ensures r.Success? <==> file.Downloaded? && FormatOf(fileUrl) != Unsupported && file.content.Parsed?
    ensures r.Success? ==> r.rows == file.content.rows
  {
    match file
    case DownloadFailed(m) => Failure(m)
    case Downloaded(content) =>
      if FormatOf(fileUrl) == Unsupported then Failure("Unsupported file format: " + ToLower(fileUrl))
      else match content
        case Parsed(rows) => Success(rows)
        case ParseFailed(m) => Failure(m)
  }

  datatype Result = Success(rows: seq<Row>) | Failure(message: string)

  /** The update of the error handler: FAILED, with the message and the time. */
  function MarkFailed(w: World, cid: string, message: string, now: int): World
    requires cid in w.campaigns
  {
    w.(campaigns := w.campaigns[cid := w.campaigns[cid].(status := CampaignStatus.Failed,
                                                         errorMessage := Some(message), completedAt := Some(now))])
  }

  /** The update that records how many recipients the file holds. */
  function SetTotal(w: World, cid: string, total: nat): World
    requires cid in w.campaigns
  {
    w.(campaigns := w.campaigns[cid := w.campaigns[cid].(totalRecipients := Some(total))])
  }

  /** Fresh recipient ids for every row a file can hold. */
  ghost predicate FreshIds(w: World, ids: seq<string>, file: FileRead)
  {
    && Distinct(ids)
    && (forall id :: id in ids ==> id !in w.recipients)
    && (file.Downloaded? && file.content.Parsed? ==> |ids| >= |file.content.rows|)
  }

  /** What `parseInt` makes of the configured batch size: a number, or NaN when the setting
    * does not start with one. */
  datatype BatchSize = Size(n: int) | NotANumber

  /** The sizes with which the batch loop ends. With zero or a negative size `i += batchSize`
    * never reaches the end of the recipients, so those sizes are not modelled. */
  predicate Ends(size: BatchSize)
  {
    size.NotANumber? || size.n >= 1
  }

  /** The step of a batch that throws: creating its recipient rows, or publishing its jobs. */
  datatype BatchStep = CreateRows | PublishJobs

  /** Where a campaign job's handler throws, other than in reading the file: the campaign
    * lookup (before the error handler is in place), the update of the total, or one step of
    * one batch (batches counted from 0). */
  datatype IngestFault =
    | NoFault
    | LookupFails
    | TotalUpdateFails(message: string)
    | BatchFails(batch: nat, step: BatchStep, message: string)

  /** The state the batch loop leaves, and the message of the error it threw, if it threw. */
  datatype BatchRun = BatchRun(world: World, error: Option<string>)

  predicate StrikesBatch(fault: IngestFault, k: nat)
  {
    fault.BatchFails? && fault.batch == k
  }

  /** Where batch `b` of size `n` starts: `b * n`, written as repeated addition. */
  function BatchOffset(b: nat, n: nat): nat
  {
    if b == 0 then 0 else BatchOffset(b - 1, n) + n
  }

  /** The offset of batch `b` is `b * n`. */
  lemma {:induction false} BatchOffsetIsProduct(b: nat, n: nat)
    ensures BatchOffset(b, n) == b * n
  {
    if b > 0 {
      BatchOffsetIsProduct(b - 1, n);
      assert b * n == (b - 1) * n + n;
    }
  }

  /** The fault strikes no batch of a run over `count` recipients in batches of `n`. */
  predicate Spares(fault: IngestFault, n: nat, count: nat)
  {
    fault.NoFault? || (fault.BatchFails? && BatchOffset(fault.batch, n) >= count)
  }

  /** Recipient rows without their delivery jobs. */
  function AddRows(w: World, cid: string, ps: seq<PendingRecipient>, ids: seq<string>): World
    requires |ids| == |ps|
  {
    w.(recipients := AddRecipients(w.recipients, cid, ps, ids), recipientOrder := w.recipientOrder + ids)
  }

  /** Where the batch loop stops: the recipients it inserted with their jobs (`..inserted`),
    * those whose rows it created without jobs (`inserted..rowsUpTo`), and the message of the
    * error that stopped it, if one did. */
  datatype BatchStop = BatchStop(inserted: nat, rowsUpTo: nat, error: Option<string>)

  /** The stop of the loop over `count` recipients in batches of `n`, from the `k`-th batch,
    * which starts at recipient `i`. */
  function StopFrom(count: nat, n: nat, i: nat, k: nat, fault: IngestFault): (r: BatchStop)
    requires n >= 1 && i <= count
    ensures i <= r.inserted <= r.rowsUpTo <= count
    ensures r.error.None? <==> r.inserted == count
    ensures r.error.None? ==> r.rowsUpTo == count
    decreases count - i
  {
    if i == count then BatchStop(count, count, None)
    else
      var j := if i + n <= count then i + n else count;
      if StrikesBatch(fault, k) then BatchStop(i, if fault.step == CreateRows then i else j, Some(fault.message))
      else StopFrom(count, n, j, k + 1, fault)
  }

  /** The stop of the whole loop. Under a NaN size its only pass slices out no recipient
    * (`slice(0, NaN)` is empty) and `i += NaN` ends it, so nothing is inserted. */
  function StopOf(count: nat, size: BatchSize, fault: IngestFault): (r: BatchStop)
    requires Ends(size)
    ensures r.inserted <= r.rowsUpTo <= count
  {
    if size.NotANumber? then BatchStop(0, 0, if count > 0 && StrikesBatch(fault, 0) then Some(fault.message) else None)
    else StopFrom(count, size.n, 0, 0, fault)
  }

  /** The batch loop's outcome: the stopped-at recipients inserted with their jobs, then the
    * rows of the batch whose jobs were not published. */
  function RunBatches(w: World, cid: string, ps: seq<PendingRecipient>, ids: seq<string>, size: BatchSize,
                      fault: IngestFault): (r: BatchRun)
    requires |ids| == |ps| && Ends(size)
    ensures r.world.campaigns == w.campaigns
  {
    var stop := StopOf(|ps|, size, fault);
    var done := Insert(w, cid, ps[..stop.inserted], ids[..stop.inserted]);
    BatchRun(AddRows(done, cid, ps[stop.inserted..stop.rowsUpTo], ids[stop.inserted..stop.rowsUpTo]), stop.error)
  }

  /** The state after handling one campaign job. A failing lookup, a missing campaign or one
    * that is not RUNNING changes nothing. An unreadable file, or a throw from the update of
    * the total or from a batch, fails the campaign with the error's message, keeping the
    * batches inserted before it. Otherwise the total is recorded, then the recipients are
    * inserted with their delivery jobs. */
  function Ingest(w: World, cid: string, file: FileRead, now: int, extract: Row -> Option<string>, ids: seq<string>,
                  size: BatchSize, fault: IngestFault): World
    requires FreshIds(w, ids, file) && Ends(size)
  {
    if fault.LookupFails? || cid !in w.campaigns || w.campaigns[cid].status != CampaignStatus.Running then w
    else
      match ReadRows(w.campaigns[cid].fileUrl, file)
      case Failure(m) => MarkFailed(w, cid, m, now)
      case Success(rows) =>
        var ps := Collect(rows, extract);
        if fault.TotalUpdateFails? then MarkFailed(w, cid, fault.message, now)
        else
          var run := RunBatches(SetTotal(w, cid, |ps|), cid, ps, ids[..|ps|], size, fault);
          if run.error.Some? then MarkFailed(run.world, cid, run.error.value, now) else run.world
  }

  lemma InsertNothing(w: World, cid: string)
    ensures Insert(w, cid, [], []) == w && AddRows(w, cid, [], []) == w
  {
    assert w.recipientOrder + [] == w.recipientOrder;
    assert w.deliveryQueue + DeliveryJobs(cid, [], []) == w.deliveryQueue;
  }

  /** A loop the fault spares goes through every recipient without an error. */
  lemma {:induction false} StopWithoutFault(count: nat, n: nat, i: nat, k: nat, fault: IngestFault)
    requires n >= 1 && i <= count
    requires !fault.BatchFails? || fault.batch < k || BatchOffset(fault.batch - k, n) >= count - i
    ensures StopFrom(count, n, i, k, fault) == BatchStop(count, count, None)
    decreases count - i
  {
    if i < count {
      var j := if i + n <= count then i + n else count;
      StopWithoutFault(count, n, j, k + 1, fault);
    }
  }

  /** When batch `k + d` throws, the loop stops after the `d` batches before it, with that
    * batch's rows created when it was its jobs that threw. */
  lemma {:induction false} StopAtFailingBatch(count: nat, n: nat, i: nat, k: nat, d: nat, fault: IngestFault)
    requires n >= 1 && StrikesBatch(fault, k + d) && i + BatchOffset(d, n) < count
    ensures var j := i + BatchOffset(d, n);
            StopFrom(count, n, i, k, fault)
              == BatchStop(j, if fault.step == CreateRows then j else if j + n <= count then j + n else count,
                           Some(fault.message))
    decreases d
  {
    if d > 0 {
      StopAtFailingBatch(count, n, i + n, k + 1, d - 1, fault);
    }
  }

  /** Where the rows a failing batch leaves end: at its start when creating its rows threw,
    * at its end when publishing its jobs did. */
  function FailingBatchEnd(count: nat, n: nat, b: nat, step: BatchStep): nat
  {
    var j := BatchOffset(b, n);
    if step == CreateRows then j else if j + n <= count then j + n else count
  }

  /** The outcome of a batch run that the fault strikes: the batches before the failing one,
    * then that batch's rows when it was its jobs that threw. */
  lemma FailingRun(w: World, cid: string, ps: seq<PendingRecipient>, ids: seq<string>, n: nat, b: nat,
                   step: BatchStep, message: string)
    requires |ids| == |ps| && n >= 1 && BatchOffset(b, n) < |ps|
    ensures var j := BatchOffset(b, n);
            var e := FailingBatchEnd(|ps|, n, b, step);
            RunBatches(w, cid, ps, ids, Size(n), BatchFails(b, step, message))
              == BatchRun(AddRows(Insert(w, cid, ps[..j], ids[..j]), cid, ps[j..e], ids[j..e]), Some(message))
  {
    StopOfFailingBatch(|ps|, n, b, step, message);
  }

  /** The loop stops at the failing batch's start, leaving its rows up to `FailingBatchEnd`. */
  lemma StopOfFailingBatch(count: nat, n: nat, b: nat, step: BatchStep, message: string)
    requires n >= 1 && BatchOffset(b, n) < count
    ensures StopOf(count, Size(n), BatchFails(b, step, message))
         == BatchStop(BatchOffset(b, n), FailingBatchEnd(count, n, b, step), Some(message))
  {
    StopAtFailingBatch(count, n, 0, 0, b, BatchFails(b, step, message));
  }

  /** The outcome of a batch run the fault spares: every recipient inserted with its job. */
  lemma SparedRun(w: World, cid: string, ps: seq<PendingRecipient>, ids: seq<string>, n: nat, fault: IngestFault)
    requires |ids| == |ps| && n >= 1 && !(fault.BatchFails? && BatchOffset(fault.batch, n) < |ps|)
    ensures RunBatches(w, cid, ps, ids, Size(n), fault) == BatchRun(Insert(w, cid, ps, ids), None)
  {
    StopWithoutFault(|ps|, n, 0, 0, fault);
    InsertNothing(Insert(w, cid, ps, ids), cid);
    assert ps[|ps|..|ps|] == [] && ids[|ps|..|ps|] == [];
    assert ps[..|ps|] == ps && ids[..|ps|] == ids;
  }

  /** Inserting recipients with fresh, distinct ids for a stored campaign keeps the tables
    * well formed, with or without their jobs. */
  lemma InsertKeepsWellFormed(w: World, cid: string, ps: seq<PendingRecipient>, ids: seq<string>)
    requires WellFormed(w) && cid in w.campaigns
    requires |ids| == |ps| && Distinct(ids) && forall id :: id in ids ==> id !in w.recipients
    ensures WellFormed(Insert(w, cid, ps, ids)) && WellFormed(AddRows(w, cid, ps, ids))
  {
    var w2 := Insert(w, cid, ps, ids);
    assert Distinct(w2.recipientOrder) by {
      forall i, j | 0 <= i < j < |w2.recipientOrder| ensures w2.recipientOrder[i] != w2.recipientOrder[j] {
        if j >= |w.recipientOrder| && i < |w.recipientOrder| {
          assert w2.recipientOrder[j] == ids[j - |w.recipientOrder|];
          assert w2.recipientOrder[i] in w.recipients;
        } else if i >= |w.recipientOrder| {
          assert w2.recipientOrder[j] == ids[j - |w.recipientOrder|];
          assert w2.recipientOrder[i] == ids[i - |w.recipientOrder|];
        }
      }
    }
    forall id | id in w2.recipients
      ensures w2.recipients[id].id == id && w2.recipients[id].campaignId in w2.campaigns
      ensures id in w2.recipientOrder
    {
      AddRecipientsContents(w.recipients, cid, ps, ids);
      if id !in w.recipients {
        var k :| 0 <= k < |ids| && ids[k] == id;
        assert w2.recipients[id] == NewRecipient(id, cid, ps[k]);
      }
    }
  }

  /** The tables after a batch run, with or without a failing batch's rows on top of the
    * earlier batches, are well formed. */
  lemma RunKeepsWellFormed(w: World, cid: string, ps: seq<PendingRecipient>, ids: seq<string>, j: nat, e: nat)
    requires WellFormed(w) && cid in w.campaigns && j <= e <= |ps|
    requires |ids| == |ps| && Distinct(ids) && forall id :: id in ids ==> id !in w.recipients
    ensures WellFormed(Insert(w, cid, ps[..j], ids[..j]))
    ensures WellFormed(AddRows(Insert(w, cid, ps[..j], ids[..j]), cid, ps[j..e], ids[j..e]))
  {
    DistinctPrefix(ids, j);
    DistinctPrefix(ids, e);
    assert forall id :: id in ids[..e] ==> id in ids;
    InsertKeepsWellFormed(w, cid, ps[..e], ids[..e]);
    InsertKeepsWellFormed(w, cid, ps[..j], ids[..j]);
    InsertInBatches(w, cid, ps, ids, j, e);
    var before := Insert(w, cid, ps[..j], ids[..j]);
    assert AddRows(before, cid, ps[j..e], ids[j..e])
        == Insert(w, cid, ps[..e], ids[..e]).(deliveryQueue := before.deliveryQueue);
  }

  /** Failing a campaign, or recording its total, keeps the tables well formed. */
  lemma CampaignUpdatesKeepWellFormed(w: World, cid: string, message: string, now: int, total: nat)
    requires WellFormed(w) && cid in w.campaigns
    ensures WellFormed(MarkFailed(w, cid, message, now)) && WellFormed(SetTotal(w, cid, total))
  {
  }

  /** Ingestion keeps the tables well formed. */
  lemma IngestKeepsWellFormed(w: World, cid: string, file: FileRead, now: int, extract: Row -> Option<string>,
                              ids: seq<string>, size: BatchSize, fault: IngestFault)
    requires WellFormed(w) && FreshIds(w, ids, file) && Ends(size)
    ensures WellFormed(Ingest(w, cid, file, now, extract, ids, size, fault))
  {
    if !fault.LookupFails? && cid in w.campaigns && w.campaigns[cid].status == CampaignStatus.Running {
      var r := ReadRows(w.campaigns[cid].fileUrl, file);
      if r.Failure? {
        CampaignUpdatesKeepWellFormed(w, cid, r.message, now, 0);
      } else if fault.TotalUpdateFails? {
        CampaignUpdatesKeepWellFormed(w, cid, fault.message, now, 0);
      } else {
        var rows := r.rows;
        assert file == Downloaded(Parsed(rows));
        IngestOfReadableFile(w, cid, rows, now, extract, ids, size, fault);
        RunOfReadableFileKeepsWellFormed(w, cid, rows, extract, ids, size, fault, now);
      }
    }
  }

  /** The batch run of a readable file, and the campaign failed on top of it, keep the tables
    * well formed. */
  lemma RunOfReadableFileKeepsWellFormed(w: World, cid: string, rows: seq<Row>, extract: Row -> Option<string>,
                                         ids: seq<string>, size: BatchSize, fault: IngestFault, now: int)
    requires WellFormed(w) && FreshIds(w, ids, Downloaded(Parsed(rows))) && Ends(size) && cid in w.campaigns
    ensures var ps := Collect(rows, extract);
            var run := RunBatches(SetTotal(w, cid, |ps|), cid, ps, ids[..|ps|], size, fault);
            && WellFormed(run.world)
            && (run.error.Some? ==> WellFormed(MarkFailed(run.world, cid, run.error.value, now)))
  {
    var ps := Collect(rows, extract);
    var w1 := SetTotal(w, cid, |ps|);
    CampaignUpdatesKeepWellFormed(w, cid, "", now, |ps|);
    var qs := ids[..|ps|];
    DistinctPrefix(ids, |ps|);
    assert forall id :: id in qs ==> id in ids;
    var stop := StopOf(|ps|, size, fault);
    RunKeepsWellFormed(w1, cid, ps, qs, stop.inserted, stop.rowsUpTo);
    var run := RunBatches(w1, cid, ps, qs, size, fault);
    if run.error.Some? {
      CampaignUpdatesKeepWellFormed(run.world, cid, run.error.value, now, 0);
    }
  }

  /** The handler's outcome on parsed rows of a supported file when no fault strikes and the
    * batch size is a positive number: the total is recorded, then every kept row is inserted
    * with its job. */
  lemma IngestOfParsedRows(w: World, cid: string, rows: seq<Row>, now: int, extract: Row -> Option<string>,
                           ids: seq<string>, size: BatchSize, fault: IngestFault)
    requires FreshIds(w, ids, Downloaded(Parsed(rows)))
    requires cid in w.campaigns && w.campaigns[cid].status == CampaignStatus.Running
    requires FormatOf(w.campaigns[cid].fileUrl) != Unsupported
    requires size.Size? && size.n >= 1 && Spares(fault, size.n, |Collect(rows, extract)|)
    ensures var ps := Collect(rows, extract);
            Ingest(w, cid, Downloaded(Parsed(rows)), now, extract, ids, size, fault)
              == Insert(SetTotal(w, cid, |ps|), cid, ps, ids[..|ps|])
  {
    var ps := Collect(rows, extract);
    assert ReadRows(w.campaigns[cid].fileUrl, Downloaded(Parsed(rows))) == Success(rows);
    SparedRun(SetTotal(w, cid, |ps|), cid, ps, ids[..|ps|], size.n, fault);
  }

  /** A successful ingestion records the number of kept rows as the total and appends that
    * many fresh ids to the recipients, and as many jobs to the delivery queue. */
  lemma IngestRecordsTheTotal(w: World, cid: string, rows: seq<Row>, now: int, extract: Row -> Option<string>,
                              ids: seq<string>, size: BatchSize, fault: IngestFault)
    requires FreshIds(w, ids, Downloaded(Parsed(rows)))
    requires cid in w.campaigns && w.campaigns[cid].status == CampaignStatus.Running
    requires FormatOf(w.campaigns[cid].fileUrl) != Unsupported
    requires size.Size? && size.n >= 1 && Spares(fault, size.n, |Collect(rows, extract)|)
    ensures var ps := Collect(rows, extract);
            var w' := Ingest(w, cid, Downloaded(Parsed(rows)), now, extract, ids, size, fault);
            && w'.campaigns[cid].totalRecipients == Some(|ps|)
            && w'.recipientOrder == w.recipientOrder + ids[..|ps|]
            && |w'.deliveryQueue| == |w.deliveryQueue| + |ps|
  {
    IngestOfParsedRows(w, cid, rows, now, extract, ids, size, fault);
  }

  /** A successful ingestion adds a QUEUED recipient with no retries for every kept row, and
    * queues exactly one delivery job for each of them, in row order, carrying its id,
    * campaign, phone number and variables. */
  lemma IngestQueuesEveryRecipient(w: World, cid: string, rows: seq<Row>, now: int, extract: Row -> Option<string>,
                                   ids: seq<string>, size: BatchSize, fault: IngestFault)
    requires FreshIds(w, ids, Downloaded(Parsed(rows)))
    requires cid in w.campaigns && w.campaigns[cid].status == CampaignStatus.Running
    requires FormatOf(w.campaigns[cid].fileUrl) != Unsupported
    requires size.Size? && size.n >= 1 && Spares(fault, size.n, |Collect(rows, extract)|)
    ensures var ps := Collect(rows, extract);
            var w' := Ingest(w, cid, Downloaded(Parsed(rows)), now, extract, ids, size, fault);
            forall k :: 0 <= k < |ps| ==>
              && ids[k] in w'.recipients && |w.deliveryQueue| + k < |w'.deliveryQueue|
              && w'.recipients[ids[k]] == Recipient(ids[k], cid, ps[k].phoneNumber, None, ps[k].variables,
                                                    RecipientStatus.Queued, 0, None, None)
              && w'.deliveryQueue[|w.deliveryQueue| + k] == RecipientJob(ids[k], cid, ps[k].phoneNumber, ps[k].variables)
  {
    var ps := Collect(rows, extract);
    IngestOfParsedRows(w, cid, rows, now, extract, ids, size, fault);
    TotalThenInsertQueues(w, Ingest(w, cid, Downloaded(Parsed(rows)), now, extract, ids, size, fault), cid, ps, ids);
  }

  /** Recording the total and then inserting queues every recipient as
    * `IngestQueuesEveryRecipient` states. */
  lemma TotalThenInsertQueues(w: World, w': World, cid: string, ps: seq<PendingRecipient>, ids: seq<string>)
    requires cid in w.campaigns && |ids| >= |ps| && Distinct(ids)
    requires w' == Insert(SetTotal(w, cid, |ps|), cid, ps, ids[..|ps|])
    ensures forall k :: 0 <= k < |ps| ==>
              && ids[k] in w'.recipients && |w.deliveryQueue| + k < |w'.deliveryQueue|
              && w'.recipients[ids[k]] == Recipient(ids[k], cid, ps[k].phoneNumber, None, ps[k].variables,
                                                    RecipientStatus.Queued, 0, None, None)
              && w'.deliveryQueue[|w.deliveryQueue| + k] == RecipientJob(ids[k], cid, ps[k].phoneNumber, ps[k].variables)
  {
    var total := SetTotal(w, cid, |ps|);
    assert total.deliveryQueue == w.deliveryQueue;
    InsertQueuesEveryRecipient(total, cid, ps, ids);
  }

  /** Inserting with distinct ids stores each pending recipient, QUEUED, under its id and
    * queues its delivery job at the matching place. */
  lemma InsertQueuesEveryRecipient(w: World, cid: string, ps: seq<PendingRecipient>, ids: seq<string>)
    requires |ids| >= |ps| && Distinct(ids)
    ensures var w' := Insert(w, cid, ps, ids[..|ps|]);
            && w'.campaigns == w.campaigns
            && w'.recipientOrder == w.recipientOrder + ids[..|ps|]
            && |w'.deliveryQueue| == |w.deliveryQueue| + |ps|
            && forall k :: 0 <= k < |ps| ==>
                 && ids[k] in w'.recipients
                 && w'.recipients[ids[k]] == NewRecipient(ids[k], cid, ps[k])
                 && w'.deliveryQueue[|w.deliveryQueue| + k] == RecipientJob(ids[k], cid, ps[k].phoneNumber, ps[k].variables)
  {
    var qs := ids[..|ps|];
    DistinctPrefix(ids, |ps|);
    InsertPlacesEachRecipient(w, cid, ps, qs);
    forall k | 0 <= k < |ps| ensures qs[k] == ids[k] { }
  }

  /** `InsertQueuesEveryRecipient` for exactly as many ids as recipients. */
  lemma InsertPlacesEachRecipient(w: World, cid: string, ps: seq<PendingRecipient>, qs: seq<string>)
    requires |qs| == |ps| && Distinct(qs)
    ensures var w' := Insert(w, cid, ps, qs);
            forall k :: 0 <= k < |ps| ==>
              && qs[k] in w'.recipients
              && w'.recipients[qs[k]] == NewRecipient(qs[k], cid, ps[k])
              && w'.deliveryQueue[|w.deliveryQueue| + k] == RecipientJob(qs[k], cid, ps[k].phoneNumber, ps[k].variables)
  {
    var w' := Insert(w, cid, ps, qs);
    AddRecipientsContents(w.recipients, cid, ps, qs);
    InsertedJobsFollowTheQueue(w.deliveryQueue, cid, ps, qs);
    assert w'.recipients == AddRecipients(w.recipients, cid, ps, qs);
    assert w'.deliveryQueue == w.deliveryQueue + DeliveryJobs(cid, ps, qs);
  }

  /** The jobs appended to a queue sit right after its old end, in recipient order. */
  lemma InsertedJobsFollowTheQueue(q: seq<RecipientJob>, cid: string, ps: seq<PendingRecipient>, ids: seq<string>)
    requires |ids| == |ps|
    ensures forall k :: 0 <= k < |ps| ==>
              (q + DeliveryJobs(cid, ps, ids))[|q| + k] == RecipientJob(ids[k], cid, ps[k].phoneNumber, ps[k].variables)
  {
    var jobs := DeliveryJobs(cid, ps, ids);
    forall k | 0 <= k < |ps| ensures (q + jobs)[|q| + k] == jobs[k] { }
  }

  /** When a batch throws, the campaign is FAILED with the error's message and its total kept,
    * while the recipients of the batches before it stay inserted, QUEUED, with their jobs on
    * the delivery queue; a throw from publishing also leaves that batch's rows without jobs.
    * The campaign is no longer RUNNING, so a second job for it changes nothing
    * (`IngestSkipsCampaignsNotRunning`). */
  lemma FailedBatchLeavesEarlierBatchesQueued(w: World, cid: string, rows: seq<Row>, now: int,
                                              extract: Row -> Option<string>, ids: seq<string>, n: nat,
                                              b: nat, step: BatchStep, message: string)
    requires FreshIds(w, ids, Downloaded(Parsed(rows)))
    requires cid in w.campaigns && w.campaigns[cid].status == CampaignStatus.Running
    requires FormatOf(w.campaigns[cid].fileUrl) != Unsupported
    requires n >= 1 && BatchOffset(b, n) < |Collect(rows, extract)|
    ensures var ps := Collect(rows, extract);
            var j := BatchOffset(b, n);
            var e := FailingBatchEnd(|ps|, n, b, step);
            var w' := Ingest(w, cid, Downloaded(Parsed(rows)), now, extract, ids, Size(n), BatchFails(b, step, message));
            && w'.campaigns[cid].status == CampaignStatus.Failed
            && w'.campaigns[cid].errorMessage == Some(message)
            && w'.campaigns[cid].totalRecipients == Some(|ps|)
            && w'.recipientOrder == w.recipientOrder + ids[..e]
            && |w'.deliveryQueue| == |w.deliveryQueue| + j
            && forall k :: 0 <= k < j ==>
                 && ids[k] in w'.recipients
                 && w'.recipients[ids[k]] == NewRecipient(ids[k], cid, ps[k])
                 && w'.deliveryQueue[|w.deliveryQueue| + k] == RecipientJob(ids[k], cid, ps[k].phoneNumber, ps[k].variables)
  {
    IngestOfFailingBatch(w, cid, rows, now, extract, ids, n, b, step, message);
    FailedRunFacts(w, cid, rows, extract, ids, n, b, step, message, now);
  }

  /** The state `IngestOfFailingBatch` gives, seen field by field. */
  lemma FailedRunFacts(w: World, cid: string, rows: seq<Row>, extract: Row -> Option<string>, ids: seq<string>,
                       n: nat, b: nat, step: BatchStep, message: string, now: int)
    requires cid in w.campaigns && |ids| >= |Collect(rows, extract)| && Distinct(ids)
    requires n >= 1 && BatchOffset(b, n) < |Collect(rows, extract)|
    ensures var ps := Collect(rows, extract);
            var j := BatchOffset(b, n);
            var e := FailingBatchEnd(|ps|, n, b, step);
            var done := Insert(SetTotal(w, cid, |ps|), cid, ps[..j], ids[..j]);
            var x := MarkFailed(AddRows(done, cid, ps[j..e], ids[j..e]), cid, message, now);
            && x.campaigns[cid].status == CampaignStatus.Failed
            && x.campaigns[cid].errorMessage == Some(message)
            && x.campaigns[cid].totalRecipients == Some(|ps|)
            && x.recipientOrder == w.recipientOrder + ids[..e]
            && |x.deliveryQueue| == |w.deliveryQueue| + j
            && forall k :: 0 <= k < j ==>
                 && ids[k] in x.recipients
                 && x.recipients[ids[k]] == NewRecipient(ids[k], cid, ps[k])
                 && x.deliveryQueue[|w.deliveryQueue| + k] == RecipientJob(ids[k], cid, ps[k].phoneNumber, ps[k].variables)
  {
    FailureOnTopOfEarlierBatches(SetTotal(w, cid, |Collect(rows, extract)|), cid, Collect(rows, extract), ids,
                                 BatchOffset(b, n), FailingBatchEnd(|Collect(rows, extract)|, n, b, step),
                                 message, now);
  }

  /** Failing the campaign on top of recipients inserted with their jobs and more rows
    * without jobs changes only the campaign's status, message and time. */
  lemma FailureOnTopOfEarlierBatches(w: World, cid: string, ps: seq<PendingRecipient>, ids: seq<string>, j: nat,
                                     e: nat, message: string, now: int)
    requires cid in w.campaigns && |ids| >= |ps| && j <= e <= |ps| && Distinct(ids)
    ensures var x := MarkFailed(AddRows(Insert(w, cid, ps[..j], ids[..j]), cid, ps[j..e], ids[j..e]), cid, message, now);
            && x.campaigns[cid] == w.campaigns[cid].(status := CampaignStatus.Failed, errorMessage := Some(message),
                                                     completedAt := Some(now))
            && x.recipientOrder == w.recipientOrder + ids[..e]
            && |x.deliveryQueue| == |w.deliveryQueue| + j
            && forall k :: 0 <= k < j ==>
                 && ids[k] in x.recipients
                 && x.recipients[ids[k]] == NewRecipient(ids[k], cid, ps[k])
                 && x.deliveryQueue[|w.deliveryQueue| + k] == RecipientJob(ids[k], cid, ps[k].phoneNumber, ps[k].variables)
  {
    EarlierBatchesStayQueued(w, cid, ps, ids, j, e);
  }

  /** The handler's outcome on parsed rows of a supported file when neither the lookup nor
    * the update of the total throws: the batch run on top of the recorded total, and the
    * campaign failed when the run threw. */
  lemma IngestOfReadableFile(w: World, cid: string, rows: seq<Row>, now: int, extract: Row -> Option<string>,
                             ids: seq<string>, size: BatchSize, fault: IngestFault)
    requires FreshIds(w, ids, Downloaded(Parsed(rows))) && Ends(size)
    requires cid in w.campaigns && w.campaigns[cid].status == CampaignStatus.Running
    requires FormatOf(w.campaigns[cid].fileUrl) != Unsupported
    requires !fault.LookupFails? && !fault.TotalUpdateFails?
    ensures var ps := Collect(rows, extract);
            var run := RunBatches(SetTotal(w, cid, |ps|), cid, ps, ids[..|ps|], size, fault);
            Ingest(w, cid, Downloaded(Parsed(rows)), now, extract, ids, size, fault)
              == if run.error.Some? then MarkFailed(run.world, cid, run.error.value, now) else run.world
  {
    assert ReadRows(w.campaigns[cid].fileUrl, Downloaded(Parsed(rows))) == Success(rows);
  }

  /** The handler's outcome when batch `b` throws: the campaign failed on top of the earlier
    * batches, and of the failing batch's rows when it was its jobs that threw. */
  lemma IngestOfFailingBatch(w: World, cid: string, rows: seq<Row>, now: int, extract: Row -> Option<string>,
                             ids: seq<string>, n: nat, b: nat, step: BatchStep, message: string)
    requires FreshIds(w, ids, Downloaded(Parsed(rows)))
    requires cid in w.campaigns && w.campaigns[cid].status == CampaignStatus.Running
    requires FormatOf(w.campaigns[cid].fileUrl) != Unsupported
    requires n >= 1 && BatchOffset(b, n) < |Collect(rows, extract)|
    ensures var ps := Collect(rows, extract);
            var j := BatchOffset(b, n);
            var e := FailingBatchEnd(|ps|, n, b, step);
            var done := Insert(SetTotal(w, cid, |ps|), cid, ps[..j], ids[..j]);
            Ingest(w, cid, Downloaded(Parsed(rows)), now, extract, ids, Size(n), BatchFails(b, step, message))
              == MarkFailed(AddRows(done, cid, ps[j..e], ids[j..e]), cid, message, now)
  {
    var ps := Collect(rows, extract);
    var qs := ids[..|ps|];
    var j := BatchOffset(b, n);
    var e := FailingBatchEnd(|ps|, n, b, step);
    SlicesOfPrefix(ids, |ps|, j, e);
    IngestOfReadableFile(w, cid, rows, now, extract, ids, Size(n), BatchFails(b, step, message));
    FailingRun(SetTotal(w, cid, |ps|), cid, ps, qs, n, b, step, message);
  }

  lemma SlicesOfPrefix<T>(s: seq<T>, m: nat, j: nat, e: nat)
    requires j <= e <= m <= |s|
    ensures s[..m][..j] == s[..j] && s[..m][j..e] == s[j..e]
  {
  }

  /** On top of recipients inserted with their jobs, more rows without jobs leave the inserted
    * ones and their jobs as they were. */
  lemma EarlierBatchesStayQueued(w: World, cid: string, ps: seq<PendingRecipient>, ids: seq<string>, j: nat, e: nat)
    requires |ids| >= |ps| && j <= e <= |ps| && Distinct(ids)
    ensures var w' := AddRows(Insert(w, cid, ps[..j], ids[..j]), cid, ps[j..e], ids[j..e]);
            && w'.campaigns == w.campaigns
            && w'.recipientOrder == w.recipientOrder + ids[..e]
            && |w'.deliveryQueue| == |w.deliveryQueue| + j
            && forall k :: 0 <= k < j ==>
                 && ids[k] in w'.recipients
                 && w'.recipients[ids[k]] == NewRecipient(ids[k], cid, ps[k])
                 && w'.deliveryQueue[|w.deliveryQueue| + k] == RecipientJob(ids[k], cid, ps[k].phoneNumber, ps[k].variables)
  {
    var done := Insert(w, cid, ps[..j], ids[..j]);
    var w' := AddRows(done, cid, ps[j..e], ids[j..e]);
    assert w'.deliveryQueue == done.deliveryQueue && |done.deliveryQueue| == |w.deliveryQueue| + j;
    assert w'.recipientOrder == w.recipientOrder + ids[..e] by {
      AppendAssoc(w.recipientOrder, ids[..j], ids[j..e]);
      assert ids[..j] + ids[j..e] == ids[..e];
    }
    forall k | 0 <= k < j
      ensures && ids[k] in w'.recipients
              && w'.recipients[ids[k]] == NewRecipient(ids[k], cid, ps[k])
              && w'.deliveryQueue[|w.deliveryQueue| + k] == RecipientJob(ids[k], cid, ps[k].phoneNumber, ps[k].variables)
    {
      EarlierRowStaysQueued(w, cid, ps, ids, j, e, k);
    }
  }

  /** One recipient of the batches before `j` keeps its row and its job when the rows
    * `j..e` are added. */
  lemma EarlierRowStaysQueued(w: World, cid: string, ps: seq<PendingRecipient>, ids: seq<string>, j: nat, e: nat,
                              k: nat)
    requires |ids| >= |ps| && j <= e <= |ps| && Distinct(ids) && k < j
    ensures var w' := AddRows(Insert(w, cid, ps[..j], ids[..j]), cid, ps[j..e], ids[j..e]);
            && ids[k] in w'.recipients
            && w'.recipients[ids[k]] == NewRecipient(ids[k], cid, ps[k])
            && w'.deliveryQueue[|w.deliveryQueue| + k] == RecipientJob(ids[k], cid, ps[k].phoneNumber, ps[k].variables)
  {
    var done := Insert(w, cid, ps[..j], ids[..j]);
    InsertQueuesEveryRecipient(w, cid, ps[..j], ids);
    assert ps[..j][k] == ps[k];
    LaterRowsLeaveEarlierOnesAlone(done.recipients, cid, ps, ids, j, e);
    assert ids[..|ps|][j..e] == ids[j..e];
  }

  /** Adding the rows `j..e` leaves the rows before `j` as they were. */
  lemma LaterRowsLeaveEarlierOnesAlone(rs: map<string, Recipient>, cid: string, ps: seq<PendingRecipient>,
                                       ids: seq<string>, j: nat, e: nat)
    requires |ids| >= |ps| && j <= e <= |ps| && Distinct(ids)
    ensures var qs := ids[..|ps|];
            forall k :: 0 <= k < j && ids[k] in rs ==>
              ids[k] in AddRecipients(rs, cid, ps[j..e], qs[j..e]) && AddRecipients(rs, cid, ps[j..e], qs[j..e])[ids[k]] == rs[ids[k]]
  {
    var qs := ids[..|ps|];
    var added := qs[j..e];
    assert Distinct(added) by {
      forall x, y | 0 <= x < y < |added| ensures added[x] != added[y] {
        assert added[x] == ids[j + x] && added[y] == ids[j + y];
      }
    }
    AddRecipientsContents(rs, cid, ps[j..e], added);
    forall k | 0 <= k < j ensures ids[k] !in added {
      forall x | 0 <= x < |added| ensures added[x] != ids[k] {
        assert added[x] == ids[j + x];
      }
    }
  }

  /** A job whose campaign is missing or not RUNNING, or whose lookup throws, leaves
    * everything as it was. */
  lemma IngestSkipsCampaignsNotRunning(w: World, cid: string, file: FileRead, now: int, extract: Row -> Option<string>,
                                       ids: seq<string>, size: BatchSize, fault: IngestFault)
    requires FreshIds(w, ids, file) && Ends(size)
    requires fault.LookupFails? || cid !in w.campaigns || w.campaigns[cid].status != CampaignStatus.Running
    ensures Ingest(w, cid, file, now, extract, ids, size, fault) == w
  {
  }

  /** Under a NaN batch size a readable file records its total and inserts nobody. */
  lemma NaNBatchSizeQueuesNobody(w: World, cid: string, rows: seq<Row>, now: int, extract: Row -> Option<string>,
                                 ids: seq<string>)
    requires FreshIds(w, ids, Downloaded(Parsed(rows)))
    requires cid in w.campaigns && w.campaigns[cid].status == CampaignStatus.Running
    requires FormatOf(w.campaigns[cid].fileUrl) != Unsupported
    ensures Ingest(w, cid, Downloaded(Parsed(rows)), now, extract, ids, NotANumber, NoFault)
         == SetTotal(w, cid, |Collect(rows, extract)|)
  {
  }

  /** A file without a usable row records a total of zero and inserts nobody. */
  lemma EmptyFileRecordsZeroTotal(w: World, cid: string, rows: seq<Row>, now: int, extract: Row -> Option<string>,
                                  ids: seq<string>, size: BatchSize)
    requires FreshIds(w, ids, Downloaded(Parsed(rows))) && Ends(size)
    requires cid in w.campaigns && w.campaigns[cid].status == CampaignStatus.Running
    requires FormatOf(w.campaigns[cid].fileUrl) != Unsupported
    requires Collect(rows, extract) == []
    ensures Ingest(w, cid, Downloaded(Parsed(rows)), now, extract, ids, size, NoFault) == SetTotal(w, cid, 0)
  {
    if size.Size? {
      StopWithoutFault(0, size.n, 0, 0, NoFault);
    }
    assert ids[..0] == [] && ids[0..0] == [];
    InsertNothing(SetTotal(w, cid, 0), cid);
  }

  /** The batch size the loop can use: the configured one when it is a positive number, the
    * default otherwise. */
  function EffectiveBatchSize(size: BatchSize): (n: nat)
    ensures n >= 1
    ensures size.Size? && size.n >= 1 ==> n == size.n
    ensures !(size.Size? && size.n >= 1) ==> n == DefaultBatchSize
  {
    if size.Size? && size.n >= 1 then size.n else DefaultBatchSize
  }

  /** With the fallback size, whatever the setting holds (zero, a negative number or no number
    * at all), a readable file has every kept row inserted with its job. */
  lemma FallbackBatchSizeQueuesEveryRecipient(w: World, cid: string, rows: seq<Row>, now: int,
                                              extract: Row -> Option<string>, ids: seq<string>, size: BatchSize)
    requires FreshIds(w, ids, Downloaded(Parsed(rows)))
    requires cid in w.campaigns && w.campaigns[cid].status == CampaignStatus.Running
    requires FormatOf(w.campaigns[cid].fileUrl) != Unsupported
    ensures var ps := Collect(rows, extract);
            var w' := Ingest(w, cid, Downloaded(Parsed(rows)), now, extract, ids, Size(EffectiveBatchSize(size)), NoFault);
            && w'.campaigns[cid].totalRecipients == Some(|ps|)
            && w'.recipientOrder == w.recipientOrder + ids[..|ps|]
            && |w'.deliveryQueue| == |w.deliveryQueue| + |ps|
  {
    IngestRecordsTheTotal(w, cid, rows, now, extract, ids, Size(EffectiveBatchSize(size)), NoFault);
  }

  /** Inserts the recipients batch by batch, each batch's rows followed by its delivery jobs,
    * and stops at the first batch step that throws, answering its message. */
  method InsertBatches(store: Store, cid: string, ps: seq<PendingRecipient>, ids: seq<string>, size: BatchSize,
                       fault: IngestFault) returns (error: Option<string>)
    requires |ids| == |ps| && Ends(size)
    modifies store
    ensures BatchRun(store.State(), error) == RunBatches(old(store.State()), cid, ps, ids, size, fault)
  {
    if size.NotANumber? {
      InsertNothing(store.State(), cid);
      assert ps[..0] == [] && ids[..0] == [] && ps[0..0] == [] && ids[0..0] == [];
      // the one pass takes an empty batch, and `i += NaN` ends the loop
      if ps != [] && StrikesBatch(fault, 0) {
        return Some(fault.message);
      }
      return None;
    }
    error := InsertSizedBatches(store, cid, ps, ids, size.n, fault);
  }

  /** The loop over batches of a numeric size: each pass creates one batch's rows and then
    * publishes its jobs, stopping at the first failing step. */
  method InsertSizedBatches(store: Store, cid: string, ps: seq<PendingRecipient>, ids: seq<string>, n: int,
                            fault: IngestFault) returns (error: Option<string>)
    requires |ids| == |ps| && n >= 1
    modifies store
    ensures BatchRun(store.State(), error) == RunBatches(old(store.State()), cid, ps, ids, Size(n), fault)
  {
    ghost var w := store.State();
    InsertNothing(w, cid);
    var i, k := 0, 0;
    while i < |ps|
      invariant 0 <= i <= |ps|
      invariant store.State() == Insert(w, cid, ps[..i], ids[..i])
      invariant StopFrom(|ps|, n, 0, 0, fault) == StopFrom(|ps|, n, i, k, fault)
      decreases |ps| - i
    {
      // `i += batchSize` past the end stops the loop just as stopping at the end does
      var j := if i + n <= |ps| then i + n else |ps|;
      if StrikesBatch(fault, k) {
        if fault.step == PublishJobs {
          InsertRows(store, cid, ps[i..j], ids[i..j]);
        } else {
          InsertNothing(store.State(), cid);
        }
        return Some(fault.message);
      }
      InsertInBatches(w, cid, ps, ids, i, j);
      InsertBatch(store, cid, ps[i..j], ids[i..j]);
      i, k := j, k + 1;
    }
    InsertNothing(store.State(), cid);
    error := None;
  }

  /** One batch: its recipient rows, then its delivery jobs. */
  method InsertBatch(store: Store, cid: string, batch: seq<PendingRecipient>, batchIds: seq<string>)
    requires |batchIds| == |batch|
    modifies store
    ensures store.State() == Insert(old(store.State()), cid, batch, batchIds)
  {
    InsertRows(store, cid, batch, batchIds);
    store.deliveryQueue := store.deliveryQueue + DeliveryJobs(cid, batch, batchIds);
  }

  /** The rows of one batch, created QUEUED. */
  method InsertRows(store: Store, cid: string, batch: seq<PendingRecipient>, batchIds: seq<string>)
    requires |batchIds| == |batch|
    modifies store
    ensures store.State() == AddRows(old(store.State()), cid, batch, batchIds)
  {
    store.recipients := AddRecipients(store.recipients, cid, batch, batchIds);
    store.recipientOrder := store.recipientOrder + batchIds;
  }

  /** The error handler's update. */
  method FailCampaign(store: Store, cid: string, message: string, now: int)
    requires cid in store.campaigns
    modifies store
    ensures store.State() == MarkFailed(old(store.State()), cid, message, now)
  {
    store.campaigns := store.campaigns[cid := store.campaigns[cid].(status := CampaignStatus.Failed,
                                        errorMessage := Some(message), completedAt := Some(now))];
  }

  /** Handles one campaign job with the given phone extractor; `thrown` tells whether the
    * handler throws, which only the campaign lookup can make it do. */
  method IngestCampaign(store: Store, cid: string, file: FileRead, now: int, size: BatchSize, fault: IngestFault,
                        ids: seq<string>, extract: Row -> Option<string>) returns (thrown: bool)
    requires store.Valid() && FreshIds(store.State(), ids, file) && Ends(size)
    modifies store
    ensures store.Valid()
    ensures store.State() == Ingest(old(store.State()), cid, file, now, extract, ids, size, fault)
    ensures thrown == fault.LookupFails?
  {
    IngestKeepsWellFormed(store.State(), cid, file, now, extract, ids, size, fault);
    thrown := fault.LookupFails?;
    if thrown || cid !in store.campaigns || store.campaigns[cid].status != CampaignStatus.Running {
      return;
    }
    var read := ReadRows(store.campaigns[cid].fileUrl, file);
    if read.Failure? {
      FailCampaign(store, cid, read.message, now);
      return;
    }
    var recipients := CollectRecipients(read.rows, extract);
    if fault.TotalUpdateFails? {
      FailCampaign(store, cid, fault.message, now);
      return;
    }
    ghost var before := store.State();
    store.campaigns := store.campaigns[cid := store.campaigns[cid].(totalRecipients := Some(|recipients|))];
    assert store.State() == SetTotal(before, cid, |recipients|);
    var error := InsertBatches(store, cid, recipients, ids[..|recipients|], size, fault);
    if error.Some? {
      FailCampaign(store, cid, error.value, now);
    }
  }

  /** The campaign worker's handler of a campaign job. */
  method ProcessCampaignJob(store: Store, job: CampaignJob, file: FileRead, now: int, size: BatchSize,
                            fault: IngestFault, ids: seq<string>) returns (thrown: bool)
    requires store.Valid() && FreshIds(store.State(), ids, file) && Ends(size)
    modifies store
    ensures store.Valid()
    ensures store.State() == Ingest(old(store.State()), job.campaignId, file, now, ExtractPhoneNumber, ids, size, fault)
    ensures thrown == fault.LookupFails?
  {
    thrown := IngestCampaign(store, job.campaignId, file, now, size, fault, ids, ExtractPhoneNumber);
  }

  /** The campaign-queue consumer: a message that is not a job, and a job whose handler throws,
    * are rejected without requeueing (a queue with a dead-letter exchange passes them on
    * there); every other job is acknowledged once handled. */
  method ConsumeCampaignMessage(store: Store, message: Option<CampaignJob>, file: FileRead, now: int,
                                size: BatchSize, fault: IngestFault, ids: seq<string>) returns (ack: Acknowledgement)
    requires store.Valid() && FreshIds(store.State(), ids, file) && Ends(size)
    modifies store
    ensures store.Valid()
    ensures message.None? ==> ack == Nack(false) && store.State() == old(store.State())
    ensures message.Some? ==>
              && ack == (if fault.LookupFails? then Nack(false) else Ack)
              && store.State() == Ingest(old(store.State()), message.value.campaignId, file, now, ExtractPhoneNumber,
                                         ids, size, fault)
  {
    if message.None? {
      return Nack(false);
    }
    var thrown := ProcessCampaignJob(store, message.value, file, now, size, fault, ids);
    ack := if thrown then Nack(false) else Ack;
  }
}
