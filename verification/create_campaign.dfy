/** Creating a campaign: after the workspace check the campaign is stored PENDING when it is
  * to run now and SCHEDULED otherwise, with the given fields and the table's defaults. */
module CreateCampaign {
  import opened Text
  import opened CampaignSchema
  import opened ApiErrors
  import Scheduler

  datatype CreateCampaignInput = CreateCampaignInput(
    workspaceId: string,
    title: string,
    fileUrl: string,
    typebotId: string,
    executionMode: ExecutionMode,
    executeAt: Option<int>)

  /** The status a new campaign starts in. */
  function InitialStatus(mode: ExecutionMode): (st: CampaignStatus)
    ensures st == CampaignStatus.Pending <==> mode == ExecutionMode.Now
    ensures st == CampaignStatus.Scheduled <==> mode.Scheduled?
  {
    if mode == ExecutionMode.Now then CampaignStatus.Pending else CampaignStatus.Scheduled
  }

  /** The create mutation. `workspaceFound` says whether the workspace exists, `mode` is the
    * user's access to it, `id` the id the table assigns; the counters and the remaining
    * nullable columns take the table's defaults. */
  function Create(input: CreateCampaignInput, workspaceFound: bool, mode: UserMode, id: string): (r: Outcome<Campaign>)
    ensures r.Err? <==> mode == UserMode.Guest || !workspaceFound
    ensures r.Err? ==> r.error == ApiError(NotFound, "Workspace not found")
    ensures r.Ok? ==>
              var c := r.value;
              && c.id == id && c.workspaceId == input.workspaceId && c.title == input.title
              && c.fileUrl == input.fileUrl && c.typebotId == input.typebotId
              && c.executionMode == input.executionMode && c.executeAt == input.executeAt
              && (c.status == CampaignStatus.Pending <==> input.executionMode == ExecutionMode.Now)
              && (c.status == CampaignStatus.Scheduled <==> input.executionMode == ExecutionMode.Scheduled)
              && c.totalRecipients.None? && c.sentCount == 0 && c.failedCount == 0
              && c.startedAt.None? && c.completedAt.None? && c.errorMessage.None?
  {
    if mode == UserMode.Guest || !workspaceFound then Err(ApiError(NotFound, "Workspace not found"))
    else
      Ok(Campaign(id, input.workspaceId, input.typebotId, input.title, input.fileUrl, input.executionMode,
                  input.executeAt, InitialStatus(input.executionMode), None, 0, 0, None, None, None))
  }

  /** A campaign created to run now is due at the scheduler's very next poll. */
  lemma CreatedNowIsDueImmediately(input: CreateCampaignInput, id: string, now: int)
    requires input.executionMode == ExecutionMode.Now
    ensures var r := Create(input, true, UserMode.Write, id);
            r.Ok? && Scheduler.IsDue(r.value, now)
  {
  }

  /** A scheduled campaign is due exactly from its `executeAt` on. */
  lemma CreatedScheduledIsDueFromExecuteAt(input: CreateCampaignInput, mode: UserMode, id: string, now: int)
    requires input.executionMode == ExecutionMode.Scheduled && input.executeAt.Some? && mode != UserMode.Guest
    ensures var r := Create(input, true, mode, id);
            r.Ok? && (Scheduler.IsDue(r.value, now) <==> input.executeAt.value <= now)
  {
  }

  /** Nothing requires an `executeAt` for a scheduled campaign; one created without it is
    * never claimed by the scheduler, at any time. */
  lemma ScheduledWithoutExecuteAtIsNeverDue(input: CreateCampaignInput, mode: UserMode, id: string, now: int)
    requires input.executionMode == ExecutionMode.Scheduled && input.executeAt.None? && mode != UserMode.Guest
    ensures var r := Create(input, true, mode, id);
            r.Ok? && !Scheduler.IsDue(r.value, now)
  {
  }
}
