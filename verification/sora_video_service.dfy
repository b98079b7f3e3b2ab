/** `SoraVideoService`: building the submit request, turning the provider's
    record into a `VideoResponse`, the fixed responses that replace a failed
    call, and which failures are worth a retry. The HTTP calls themselves are
    parameters: a call either answered with a parsed record or failed. */
module SoraVideoService {
  import opened Common
  import opened VideoResponseModel
  import opened SoraApiResponseModel
  import opened SoraApiRequestModel

  const GenerateFailureMessage: string := "Failed to generate video. Please try again."
  const StatusFailureMessage: string := "Failed to check job status."

  /** What the controller's form supplies. Width, height and resolution are opaque
      caller-supplied strings; the duration is the boxed integer of the form. */
  datatype VideoRequestInput = VideoRequestInput(
    prompt: Option<string>,
    resolution: Option<string>,
    width: Option<string>,
    height: Option<string>,
    duration: int)

  /** HTTP status codes as Spring represents them: three digits. */
  type StatusCode = c: int | 100 <= c <= 999 witness 100

  /** A failure of a call: an HTTP error response, or anything else (a transport
      error, a decoding error). */
  datatype Throwable = WebClientResponseException(statusCode: StatusCode) | OtherThrowable

  /** The final outcome of a remote call. */
  datatype Reply<T> = Answered(body: T) | Failed(cause: Throwable)

  // ---------------------------------------------------------------------------
  // Retry predicate

  /** `isRetryableException`: an HTTP error whose status is a server error or 429. */
  function IsRetryableException(t: Throwable): (retry: bool)
    ensures retry <==> t.WebClientResponseException? && (500 <= t.statusCode <= 599 || t.statusCode == 429)
  {
    t.WebClientResponseException? && (t.statusCode / 100 == 5 || t.statusCode == 429)
  }

  /** Other client errors and every non-HTTP failure are terminal. */
  lemma RetryableClassification(t: Throwable)
    ensures (t.WebClientResponseException? && 400 <= t.statusCode <= 499 && t.statusCode != 429)
              ==> !IsRetryableException(t)
    ensures t.OtherThrowable? ==> !IsRetryableException(t)
  {
  }

  // ---------------------------------------------------------------------------
  // Submit request

  /** The body `generateVideo` posts: the form's prompt, width and height, and its
      duration rendered with `Integer.toString`, which reads back as the duration. */
  function SubmitBody(form: VideoRequestInput): (b: RequestBody)
    ensures b.model == "sora" && b.nVariants == "1"
    ensures b.prompt == form.prompt && b.width == form.width && b.height == form.height
    ensures b.nSeconds == Some(IntToString(form.duration))
    ensures b.nSeconds.Some? && ParseInt(b.nSeconds.value) == Some(form.duration)
  {
    RequestBody("sora", form.prompt, form.width, form.height, Some(IntToString(form.duration)), "1")
  }

  /** Allocates the request exactly as `generateVideo` does, arguments in order. */
  method BuildSubmitRequest(form: VideoRequestInput) returns (request: SoraApiRequest)
    ensures fresh(request)
    ensures request.Body() == SubmitBody(form)
  {
    request := new SoraApiRequest.Create(form.prompt, form.width, form.height, Some(IntToString(form.duration)));
  }

  // ---------------------------------------------------------------------------
  // Normalisation of the provider record

  /** The status is `completed` or `succeeded`, ignoring (ASCII) case; null is not. */
  function IsSuccessStatus(status: Option<string>): (ok: bool)
    ensures ok <==> status.Some? && (Lower(status.value) == "completed" || Lower(status.value) == "succeeded")
  {
    LowerOfFolded("completed");
    LowerOfFolded("succeeded");
    status.Some? && (EqualsIgnoreCase("completed", status.value) || EqualsIgnoreCase("succeeded", status.value))
  }

  predicate HasGenerations(api: ApiState)
  {
    api.generations.Some? && |api.generations.value| > 0
  }

  /** `mapToVideoResponse` on values: id and status copied unchanged, success set;
      on a success status the first generation wins over `result.url`; any other
      status leaves both content references null. */
  function Normalize(api: ApiState): (r: ResponseState)
    ensures r.jobId == api.id && r.status == api.status && r.success && r.message.None?
    ensures IsSuccessStatus(api.status) && HasGenerations(api) ==>
              r.generationId == api.generations.value[0].id && r.videoUrl == Some("available")
    ensures IsSuccessStatus(api.status) && !HasGenerations(api) ==>
              r.generationId.None? && r.videoUrl == (if api.result.Some? then api.result.value.url else None)
    ensures !IsSuccessStatus(api.status) ==> r.generationId.None? && r.videoUrl.None?
  {
    var response := ResponseState(api.id, api.status, None, None, None, true);
    if IsSuccessStatus(api.status) then
      if HasGenerations(api) then
        response.(generationId := api.generations.value[0].id, videoUrl := Some("available"))
      else if api.result.Some? && api.result.value.url.Some? then
        response.(videoUrl := api.result.value.url)
      else response
    else response
  }

  /** `mapToVideoResponse`: builds the response with the job constructor, then
      fills in the content reference through the setters. */
  method MapToVideoResponse(api: SoraApiResponse) returns (response: VideoResponse)
    ensures fresh(response)
    ensures response.State() == Normalize(api.State())
  {
    response := new VideoResponse.ForJob(api.id, api.status);
    if IsSuccessStatus(api.status) {
      if api.generations.Some? && |api.generations.value| > 0 {
        var generationId := api.generations.value[0].id;
        response.SetGenerationId(generationId);
        response.SetVideoUrl(Some("available"));
      } else if api.result != null && api.result.url.Some? {
        response.SetVideoUrl(api.result.url);
      }
    }
  }

  /** The response that replaces a failed call. */
  function FailureResponse(message: string): (r: ResponseState)
    ensures !r.success && r.message == Some(message)
    ensures r.jobId.None? && r.status.None? && r.videoUrl.None? && r.generationId.None?
  {
    ResponseState(None, None, None, None, Some(message), false)
  }

  /** What a call's reply becomes: the normalised record, or the fallback. */
  function ResponseFor(reply: Reply<ApiState>, fallback: string): (r: ResponseState)
    ensures r.success <==> reply.Answered?
  {
    match reply
    case Answered(api) => Normalize(api)
    case Failed(_) => FailureResponse(fallback)
  }

  function ReplyState(reply: Reply<SoraApiResponse>): Reply<ApiState>
    reads if reply.Answered? then reply.body.Footprint() else {}
  {
    match reply
    case Answered(api) => Answered(api.State())
    case Failed(cause) => Failed(cause)
  }

  /** `generateVideo`: posts the request built from the form; the reply is
      normalised, and any failure becomes the fixed generation-failure message. */
  method GenerateVideo(form: VideoRequestInput, reply: Reply<SoraApiResponse>)
    returns (sent: SoraApiRequest, response: VideoResponse)
    ensures fresh(sent) && fresh(response)
    ensures sent.Body() == SubmitBody(form)
    ensures response.State() == ResponseFor(ReplyState(reply), GenerateFailureMessage)
  {
    sent := BuildSubmitRequest(form);
    if reply.Answered? {
      response := MapToVideoResponse(reply.body);
    } else {
      response := new VideoResponse.WithMessage(Some(GenerateFailureMessage), false);
    }
  }

  /** `checkJobStatus`: the reply is normalised, and any failure becomes the
      fixed status-failure message. */
  method CheckJobStatus(jobId: string, reply: Reply<SoraApiResponse>) returns (response: VideoResponse)
    ensures fresh(response)
    ensures response.State() == ResponseFor(ReplyState(reply), StatusFailureMessage)
  {
    if reply.Answered? {
      response := MapToVideoResponse(reply.body);
    } else {
      response := new VideoResponse.WithMessage(Some(StatusFailureMessage), false);
    }
  }

  // ---------------------------------------------------------------------------
  // Properties of the normalisation

  /** The exact lower-case statuses are success statuses. */
  lemma LowerCaseSuccessStatuses()
    ensures IsSuccessStatus(Some("succeeded")) && IsSuccessStatus(Some("completed"))
  {
    assert EqualsIgnoreCase("succeeded", "succeeded");
    assert EqualsIgnoreCase("completed", "completed");
  }

  /** Case does not matter for the service: "Succeeded" and "COMPLETED" are success statuses. */
  lemma CapitalisedSuccessStatuses()
    ensures IsSuccessStatus(Some("Succeeded")) && IsSuccessStatus(Some("COMPLETED"))
  {
    assert EqualsIgnoreCase("succeeded", "Succeeded");
    assert EqualsIgnoreCase("completed", "COMPLETED");
  }

  /** "queued", "failed" and a null status are not success statuses. */
  lemma OtherStatusesAreNotSuccess()
    ensures !IsSuccessStatus(Some("queued")) && !IsSuccessStatus(Some("failed")) && !IsSuccessStatus(None)
  {
    assert |Lower("queued")| == 6 && |Lower("failed")| == 6;
    assert |Lower("completed")| == 9 && |Lower("succeeded")| == 9;
  }

  /** A generation id is only ever reported together with the placeholder URL. */
  lemma GenerationIdComesWithPlaceholder(api: ApiState)
    ensures Normalize(api).generationId.Some? ==> Normalize(api).videoUrl == Some("available")
  {
  }

  /** `model`, `createdAt` and `expiresAt` never influence the response. */
  lemma NormalizeIgnoresMetadata(a: ApiState, b: ApiState)
    requires a.id == b.id && a.status == b.status && a.result == b.result && a.generations == b.generations
    ensures Normalize(a) == Normalize(b)
  {
  }

  /** With a success status and a non-empty generations list, `result` is ignored. */
  lemma GenerationsTakePrecedence(a: ApiState, b: ApiState)
    requires a.id == b.id && a.status == b.status && a.generations == b.generations
    requires IsSuccessStatus(a.status) && HasGenerations(a)
    ensures Normalize(a) == Normalize(b)
  {
  }

  /** Any other status ignores both content references, whatever they hold. */
  lemma NonSuccessIgnoresContent(a: ApiState, b: ApiState)
    requires a.id == b.id && a.status == b.status
    requires !IsSuccessStatus(a.status)
    ensures Normalize(a) == Normalize(b)
    ensures Normalize(a).generationId.None? && Normalize(a).videoUrl.None?
  {
  }

  /** Both response shapes: a generations entry is preferred to a direct URL, and
      the direct URL is used when there are no generations. */
  lemma NormalizeExamples()
    ensures var api := ApiState(Some("job1"), Some("succeeded"), None, None, None,
                                Some(VideoState(Some("http://x"))), Some([GenerationState(Some("g1"))]));
            Normalize(api) == ResponseState(Some("job1"), Some("succeeded"), Some("available"), Some("g1"), None, true)
    ensures var api := ApiState(Some("job2"), Some("completed"), None, None, None,
                                Some(VideoState(Some("http://x"))), None);
            Normalize(api) == ResponseState(Some("job2"), Some("completed"), Some("http://x"), None, None, true)
    ensures var api := ApiState(Some("job3"), Some("completed"), None, None, None,
                                Some(VideoState(Some("http://x"))), Some([]));
            Normalize(api).videoUrl == Some("http://x")
  {
    LowerCaseSuccessStatuses();
  }
}
