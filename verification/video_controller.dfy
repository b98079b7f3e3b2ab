/** `VideoController`: which download path a job status leads to, the reply it
    produces, and the view and model attributes after a generation request. The
    clock and the fetches are parameters: a timestamp string, the bytes (or the
    failure) of a fetch by generation id, and whether a direct URL could be opened. */
module VideoController {
  import opened Common
  import opened VideoResponseModel
  import opened SoraApiResponseModel
  import opened SoraVideoService

  // ---------------------------------------------------------------------------
  // Download

  /** The branch `downloadVideo` takes for a status response. */
  datatype Plan = NotReady | FetchById(generationId: string) | FetchUrl(url: string) | NoContent

  /** The controller's readiness test: success, and a status equal to "completed"
      or "succeeded" exactly, case-sensitively. */
  function IsReady(r: ResponseState): (ready: bool)
    ensures ready ==> r.success && IsSuccessStatus(r.status)
    ensures ready ==> Lower(r.status.value) == r.status.value
  {
    LowerCaseSuccessStatuses();
    r.success && (r.status == Some("completed") || r.status == Some("succeeded"))
  }

  /** Only a ready response is downloaded; a generation id always wins; otherwise a
      URL other than the "available" placeholder is opened; otherwise nothing. */
  function DownloadPlan(r: ResponseState): (p: Plan)
    ensures p.NotReady? <==> !IsReady(r)
    ensures p.FetchById? <==> IsReady(r) && r.generationId.Some?
    ensures p.FetchById? ==> p.generationId == r.generationId.value
    ensures p.FetchUrl? <==> IsReady(r) && r.generationId.None? && r.videoUrl.Some? && r.videoUrl.value != "available"
    ensures p.FetchUrl? ==> p.url == r.videoUrl.value
    ensures p.NoContent? <==> IsReady(r) && r.generationId.None? && (r.videoUrl.None? || r.videoUrl == Some("available"))
  {
    if !IsReady(r) then NotReady
    else if r.generationId.Some? then FetchById(r.generationId.value)
    else if r.videoUrl.Some? && r.videoUrl.value != "available" then FetchUrl(r.videoUrl.value)
    else NoContent
  }

  datatype Body = NoBody | Bytes(data: seq<bv8>) | UrlStream(url: string)

  datatype HttpReply = HttpReply(status: int, headers: map<string, string>, body: Body)

  const OkStatus: int := 200
  const BadRequestStatus: int := 400
  const InternalServerErrorStatus: int := 500
  const OctetStream: string := "application/octet-stream"

  /** The file name offered to the browser. */
  function AttachmentName(jobId: string, timestamp: string): (name: string)
    ensures |name| == 11 + |jobId| + 1 + |timestamp| + 4
    ensures name[..11] == "sora_video_" && name[|name| - 4..] == ".mp4"
    ensures name[11..11 + |jobId|] == jobId && name[11 + |jobId|] == '_'
    ensures name[12 + |jobId|..|name| - 4] == timestamp
  {
    "sora_video_" + jobId + "_" + timestamp + ".mp4"
  }

  /** The two headers every download carries: the attachment disposition, whose
      quoted file name is `AttachmentName`, and the octet-stream content type. */
  function AttachmentHeaders(jobId: string, timestamp: string): (h: map<string, string>)
    ensures h.Keys == {"Content-Disposition", "Content-Type"}
    ensures h["Content-Type"] == OctetStream
    ensures var d := h["Content-Disposition"];
            |d| == 23 + |AttachmentName(jobId, timestamp)|
            && d[..22] == "attachment; filename=\""
            && d[22..|d| - 1] == AttachmentName(jobId, timestamp)
            && d[|d| - 1] == '"'
  {
    map["Content-Disposition" := "attachment; filename=\"" + AttachmentName(jobId, timestamp) + "\"",
        "Content-Type" := OctetStream]
  }

  /** The reply for a plan, given what the fetch it needs produced. */
  function DownloadReply(jobId: string, plan: Plan, content: Option<seq<bv8>>, urlOpened: bool, timestamp: string)
    : (reply: HttpReply)
    ensures reply.status == OkStatus <==> (plan.FetchById? && content.Some?) || (plan.FetchUrl? && urlOpened)
    ensures reply.status != OkStatus ==> reply.body == NoBody && reply.headers == map[]
    ensures reply.status == InternalServerErrorStatus <==> plan.FetchById? && content.None?
    ensures reply.status == BadRequestStatus <==> plan.NotReady? || plan.NoContent? || (plan.FetchUrl? && !urlOpened)
    ensures plan.FetchById? && content.Some? ==>
              && reply.body == Bytes(content.value)
              && "Content-Length" in reply.headers
              && reply.headers["Content-Length"] == IntToString(|content.value|)
              && ParseInt(reply.headers["Content-Length"]) == Some(|content.value|)
    ensures plan.FetchUrl? && urlOpened ==> reply.body == UrlStream(plan.url) && "Content-Length" !in reply.headers
    ensures reply.status == OkStatus ==>
              "Content-Disposition" in reply.headers && "Content-Type" in reply.headers
              && reply.headers["Content-Disposition"] == "attachment; filename=\"" + AttachmentName(jobId, timestamp) + "\""
              && reply.headers["Content-Type"] == OctetStream
  {
    match plan
    case FetchById(_) =>
      if content.Some? then
        HttpReply(OkStatus,
                  AttachmentHeaders(jobId, timestamp)["Content-Length" := IntToString(|content.value|)],
                  Bytes(content.value))
      else HttpReply(InternalServerErrorStatus, map[], NoBody)
    case FetchUrl(url) =>
      if urlOpened then HttpReply(OkStatus, AttachmentHeaders(jobId, timestamp), UrlStream(url))
      else HttpReply(BadRequestStatus, map[], NoBody)
    case NoContent => HttpReply(BadRequestStatus, map[], NoBody)
    case NotReady => HttpReply(BadRequestStatus, map[], NoBody)
  }

  /** `downloadVideo`: checks the job's status through the service, then follows the plan. */
  method DownloadVideo(jobId: string, statusReply: Reply<SoraApiResponse>, content: Option<seq<bv8>>,
                       urlOpened: bool, timestamp: string)
    returns (reply: HttpReply)
    ensures reply == DownloadReply(jobId, DownloadPlan(ResponseFor(ReplyState(statusReply), StatusFailureMessage)),
                                   content, urlOpened, timestamp)
  {
    var response := CheckJobStatus(jobId, statusReply);
    var plan := DownloadPlan(response.State());
    reply := DownloadReply(jobId, plan, content, urlOpened, timestamp);
  }

  // ---------------------------------------------------------------------------
  // Generation form

  /** A value the controller puts into the view model. */
  datatype Attr = Text(text: Option<string>) | Number(number: int) | FormBacking(form: VideoRequestInput)

  datatype ViewChoice = ViewChoice(view: string, attributes: map<string, Attr>)

  const InputErrorMessage: string := "Please check your input and try again"
  const StartedMessage: string := "Video generation started successfully!"

  function FormAttributes(form: VideoRequestInput, error: Option<string>): map<string, Attr>
  {
    map["error" := Text(error), "videoRequest" := FormBacking(form)]
  }

  function ResultAttributes(form: VideoRequestInput, response: ResponseState): map<string, Attr>
  {
    map["jobId" := Text(response.jobId), "status" := Text(response.status),
        "message" := Text(Some(StartedMessage)), "resolution" := Text(form.resolution),
        "duration" := Number(form.duration)]
  }

  /** The view and the attributes `generateVideo` adds. Binding errors and a failed
      service response both return to the form, with the form kept and an error; a
      successful response shows the result page with the job's id and status. */
  function GenerateChoice(form: VideoRequestInput, hasErrors: bool, response: ResponseState): (c: ViewChoice)
    ensures c.view == "result" <==> !hasErrors && response.success
    ensures c.view != "result" ==> c.view == "index"
    ensures c.view == "index" ==>
              && c.attributes.Keys == {"error", "videoRequest"}
              && c.attributes["videoRequest"] == FormBacking(form)
              && c.attributes["error"] == Text(if hasErrors then Some(InputErrorMessage) else response.message)
    ensures c.view == "result" ==>
              && c.attributes.Keys == {"jobId", "status", "message", "resolution", "duration"}
              && c.attributes["jobId"] == Text(response.jobId)
              && c.attributes["status"] == Text(response.status)
              && c.attributes["message"] == Text(Some(StartedMessage))
              && c.attributes["resolution"] == Text(form.resolution)
              && c.attributes["duration"] == Number(form.duration)
  {
    if hasErrors then ViewChoice("index", FormAttributes(form, Some(InputErrorMessage)))
    else if response.success then ViewChoice("result", ResultAttributes(form, response))
    else ViewChoice("index", FormAttributes(form, response.message))
  }

  /** Spring's `Model`: a map of named attributes, filled in place. */
  class UiModel {
    var attributes: map<string, Attr>

    constructor ()
      ensures attributes == map[]
    {
      attributes := map[];
    }

    method AddAttribute(name: string, value: Attr)
      modifies this
      ensures attributes == old(attributes)[name := value]
    {
      attributes := attributes[name := value];
    }
  }

  /** Back to the form: the error to show and the form to fill in again. */
  method ReturnToForm(form: VideoRequestInput, error: Option<string>, model: UiModel) returns (view: string)
    modifies model
    ensures view == "index"
    ensures model.attributes == old(model.attributes) + FormAttributes(form, error)
  {
    model.AddAttribute("error", Text(error));
    model.AddAttribute("videoRequest", FormBacking(form));
    view := "index";
  }

  /** The result page for a started job. */
  method ShowResult(form: VideoRequestInput, response: ResponseState, model: UiModel) returns (view: string)
    modifies model
    ensures view == "result"
    ensures model.attributes == old(model.attributes) + ResultAttributes(form, response)
  {
    ghost var before := model.attributes;
    model.AddAttribute("jobId", Text(response.jobId));
    model.AddAttribute("status", Text(response.status));
    model.AddAttribute("message", Text(Some(StartedMessage)));
    model.AddAttribute("resolution", Text(form.resolution));
    model.AddAttribute("duration", Number(form.duration));
    view := "result";
    ResultAttributesAdded(before, form, response);
  }

  lemma ResultAttributesAdded(m: map<string, Attr>, form: VideoRequestInput, response: ResponseState)
    ensures m["jobId" := Text(response.jobId)]["status" := Text(response.status)]
             ["message" := Text(Some(StartedMessage))]["resolution" := Text(form.resolution)]
             ["duration" := Number(form.duration)]
         == m + ResultAttributes(form, response)
  {
  }

  /** `generateVideo`: with binding errors the service is not called; otherwise the
      service's response decides the view. */
  method GenerateVideo(form: VideoRequestInput, hasErrors: bool, reply: Reply<SoraApiResponse>, model: UiModel)
    returns (view: string)
    modifies model
    ensures var c := old(GenerateChoice(form, hasErrors, ResponseFor(ReplyState(reply), GenerateFailureMessage)));
            view == c.view && model.attributes == old(model.attributes) + c.attributes
  {
    if hasErrors {
      view := ReturnToForm(form, Some(InputErrorMessage), model);
    } else {
      var _, response := SoraVideoService.GenerateVideo(form, reply);
      if response.success {
        view := ShowResult(form, response.State(), model);
      } else {
        view := ReturnToForm(form, response.message, model);
      }
    }
  }

  // ---------------------------------------------------------------------------
  // Service and controller together

  /** The service accepts "Succeeded" as a success and reports the generation id,
      but the controller's case-sensitive test refuses the download. */
  lemma CapitalisedSucceededIsRefused(api: ApiState)
    requires api.status == Some("Succeeded") && HasGenerations(api)
    ensures Normalize(api).generationId == api.generations.value[0].id
    ensures DownloadPlan(Normalize(api)) == NotReady
  {
    CapitalisedSuccessStatuses();
  }

  /** The controller's test is strictly stronger than the service's: whatever the
      controller downloads, the service saw as a success. */
  lemma ReadyImpliesServiceSuccess(api: ApiState)
    ensures IsReady(Normalize(api)) ==> IsSuccessStatus(api.status)
  {
    LowerCaseSuccessStatuses();
  }

  /** Statuses the service does not recognise are never downloaded. */
  lemma UnfinishedJobIsNeverFetched(api: ApiState)
    requires !IsSuccessStatus(api.status)
    ensures DownloadPlan(Normalize(api)) == NotReady
  {
  }

  /** A queued job gets a bad request, whatever the fetches would have returned. */
  lemma QueuedJobIsBadRequest(jobId: string, api: ApiState, content: Option<seq<bv8>>, urlOpened: bool, timestamp: string)
    requires api.status == Some("queued")
    ensures DownloadReply(jobId, DownloadPlan(Normalize(api)), content, urlOpened, timestamp)
         == HttpReply(BadRequestStatus, map[], NoBody)
  {
    OtherStatusesAreNotSuccess();
  }

  /** With an exact lower-case success status, the service's precedence carries
      through: the first generation's id is fetched, else a real direct URL. */
  lemma ExactSuccessFollowsPrecedence(api: ApiState)
    requires api.status == Some("completed") || api.status == Some("succeeded")
    ensures HasGenerations(api) && api.generations.value[0].id.Some? ==>
              DownloadPlan(Normalize(api)) == FetchById(api.generations.value[0].id.value)
    ensures HasGenerations(api) && api.generations.value[0].id.None? ==>
              DownloadPlan(Normalize(api)) == NoContent
    ensures !HasGenerations(api) && api.result.Some? && api.result.value.url.Some?
              && api.result.value.url.value != "available" ==>
              DownloadPlan(Normalize(api)) == FetchUrl(api.result.value.url.value)
    ensures !HasGenerations(api) && (api.result.None? || api.result.value.url.None?) ==>
              DownloadPlan(Normalize(api)) == NoContent
  {
    LowerCaseSuccessStatuses();
  }

  /** A failed status check is refused like a job that is not ready. */
  lemma FailedStatusCheckIsRefused(cause: Throwable)
    ensures DownloadPlan(ResponseFor(Failed(cause), StatusFailureMessage)) == NotReady
  {
  }

  /** Content is fetched by id only on the fetch-by-id path, and a URL is opened
      only on the direct-URL path: elsewhere their outcomes cannot matter. */
  lemma FetchesOnlyWhenPlanned(jobId: string, plan: Plan, c1: Option<seq<bv8>>, c2: Option<seq<bv8>>,
                               u1: bool, u2: bool, timestamp: string)
    ensures !plan.FetchById? && !plan.FetchUrl? ==>
              DownloadReply(jobId, plan, c1, u1, timestamp) == DownloadReply(jobId, plan, c2, u2, timestamp)
    ensures plan.FetchById? ==>
              DownloadReply(jobId, plan, c1, u1, timestamp) == DownloadReply(jobId, plan, c1, u2, timestamp)
    ensures plan.FetchUrl? ==>
              DownloadReply(jobId, plan, c1, u1, timestamp) == DownloadReply(jobId, plan, c2, u1, timestamp)
  {
  }

  /** With binding errors the service's response plays no part. */
  lemma BindingErrorsSkipService(form: VideoRequestInput, r1: ResponseState, r2: ResponseState)
    ensures GenerateChoice(form, true, r1) == GenerateChoice(form, true, r2)
  {
  }

  /** Any answered submission shows the result page, even one whose status is "failed":
      the service marks every answered record as a success. */
  lemma AnsweredSubmitShowsResult(form: VideoRequestInput, api: ApiState)
    ensures GenerateChoice(form, false, ResponseFor(Answered(api), GenerateFailureMessage)).view == "result"
  {
  }

  /** A failed submission returns to the form with the fixed failure message. */
  lemma FailedSubmitShowsFallback(form: VideoRequestInput, cause: Throwable)
    ensures var c := GenerateChoice(form, false, ResponseFor(Failed(cause), GenerateFailureMessage));
            c.view == "index" && c.attributes["error"] == Text(Some(GenerateFailureMessage))
  {
  }
}
