/** The campaign and recipient records and their status enumerations. Timestamps are
  * milliseconds since the epoch; nullable columns are `Option`s. */
module CampaignSchema {
  import opened Text

  /** Whether a campaign starts as soon as possible or at its `executeAt` time. */
  datatype ExecutionMode = Now | Scheduled

  datatype CampaignStatus = Pending | Scheduled | Running | Completed | Failed | Paused

  datatype RecipientStatus = Pending | Queued | Sent | Opened | Started | Completed | Failed

  /** A cell of an uploaded spreadsheet row, or a value of a recipient's `variables`.
    * Spreadsheet parsers hand over strings, numbers, booleans or nothing. */
  datatype Cell = Str(s: string) | Num(n: int) | Bool(b: bool) | Empty

  type Row = map<string, Cell>

  datatype Campaign = Campaign(
    id: string,
    workspaceId: string,
    typebotId: string,
    title: string,
    fileUrl: string,
    executionMode: ExecutionMode,
    executeAt: Option<int>,
    status: CampaignStatus,
    totalRecipients: Option<nat>,
    sentCount: nat,
    failedCount: nat,
    startedAt: Option<int>,
    completedAt: Option<int>,
    errorMessage: Option<string>)

  datatype Recipient = Recipient(
    id: string,
    campaignId: string,
    phoneNumber: string,
    messageId: Option<string>,
    variables: Row,
    status: RecipientStatus,
    retryCount: nat,
    sentAt: Option<int>,
    errorMessage: Option<string>)

  function ExecutionModeName(m: ExecutionMode): string
  {
    match m
    case Now => "NOW"
    case Scheduled => "SCHEDULED"
  }

  /** The execution-mode enum accepts exactly the two names. */
  function ParseExecutionMode(s: string): (r: Option<ExecutionMode>)
    ensures r.Some? <==> s in {"NOW", "SCHEDULED"}
    ensures r.Some? ==> ExecutionModeName(r.value) == s
    ensures forall m :: s == ExecutionModeName(m) ==> r == Some(m)
  {
    if s == "NOW" then Some(ExecutionMode.Now)
    else if s == "SCHEDULED" then Some(ExecutionMode.Scheduled)
    else None
  }

  function CampaignStatusName(st: CampaignStatus): string
  {
    match st
    case Pending => "PENDING"
    case Scheduled => "SCHEDULED"
    case Running => "RUNNING"
    case Completed => "COMPLETED"
    case Failed => "FAILED"
    case Paused => "PAUSED"
  }

  const CampaignStatusNames: set<string> :=
    {"PENDING", "SCHEDULED", "RUNNING", "COMPLETED", "FAILED", "PAUSED"}

  /** The campaign-status enum accepts exactly the six names, each naming one status. */
  function ParseCampaignStatus(s: string): (r: Option<CampaignStatus>)
    ensures r.Some? <==> s in CampaignStatusNames
    ensures r.Some? ==> CampaignStatusName(r.value) == s
    ensures forall st :: s == CampaignStatusName(st) ==> r == Some(st)
  {
    if s == "PENDING" then Some(CampaignStatus.Pending)
    else if s == "SCHEDULED" then Some(CampaignStatus.Scheduled)
    else if s == "RUNNING" then Some(CampaignStatus.Running)
    else if s == "COMPLETED" then Some(CampaignStatus.Completed)
    else if s == "FAILED" then Some(CampaignStatus.Failed)
    else if s == "PAUSED" then Some(CampaignStatus.Paused)
    else None
  }

  function RecipientStatusName(st: RecipientStatus): string
  {
    match st
    case Pending => "PENDING"
    case Queued => "QUEUED"
    case Sent => "SENT"
    case Opened => "OPENED"
    case Started => "STARTED"
    case Completed => "COMPLETED"
    case Failed => "FAILED"
  }

  const RecipientStatusNames: set<string> :=
    {"PENDING", "QUEUED", "SENT", "OPENED", "STARTED", "COMPLETED", "FAILED"}

  /** The recipient-status enum accepts exactly the seven names, each naming one status. */
  function ParseRecipientStatus(s: string): (r: Option<RecipientStatus>)
    ensures r.Some? <==> s in RecipientStatusNames
    ensures r.Some? ==> RecipientStatusName(r.value) == s
    ensures forall st :: s == RecipientStatusName(st) ==> r == Some(st)
  {
    if s == "PENDING" then Some(RecipientStatus.Pending)
    else if s == "QUEUED" then Some(RecipientStatus.Queued)
    else if s == "SENT" then Some(RecipientStatus.Sent)
    else if s == "OPENED" then Some(RecipientStatus.Opened)
    else if s == "STARTED" then Some(RecipientStatus.Started)
    else if s == "COMPLETED" then Some(RecipientStatus.Completed)
    else if s == "FAILED" then Some(RecipientStatus.Failed)
    else None
  }
}
