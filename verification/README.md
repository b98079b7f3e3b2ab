# Sora video generator: cost estimate, job client and download flow

This project models the core of a Spring Boot web application. The application submits
video-generation jobs to the Azure OpenAI Sora API, polls their status and streams the
finished video to the browser. It also estimates what a job costs before submission.
The model covers four parts.

- **Cost estimate** (`CostEstimationService`): the price list, the resolution
  multiplier, the half-up rounding to cents and the three warning tiers. `BigDecimal`
  arithmetic is exact, so the model does it in integer fixed point. Minutes are counted
  in units of 10^-4, multipliers in tenths and the unrounded total in units of
  10^-7 dollars. `RoundingMode.HALF_UP` is written out as `DivHalfUp`, which rounds ties
  away from zero for negative values as well. A `BigDecimal` of non-negative
  scale is `Decimal(unscaled, scale)`, and `compareTo` is numeric comparison across
  scales. `WarningIgnoresScale` shows that rescaling does not change a warning, so every
  integer value can be given at scale 0.
- **Job client** (`SoraVideoService`):
  - the submit request it builds;
  - `mapToVideoResponse`, which turns the provider record into a `VideoResponse`;
  - the fixed responses that replace a failed call;
  - the retry filter.

  Each HTTP call is a parameter `Reply<T>`: it either answered with a parsed record or
  failed with a `Throwable`.
- **Controller** (`VideoController`):
  - the branch `downloadVideo` takes for a status response (`DownloadPlan`);
  - the HTTP reply each branch produces (`DownloadReply`): status, headers and body;
  - the view and the model attributes `generateVideo` produces.

  The clock and the two fetches are parameters: a timestamp string, the bytes of the
  fetch by generation id (or its failure), and whether the direct URL could be opened.
- **Beans** (`VideoResponse`, `SoraApiResponse` with `SoraVideo` and `Generation`,
  `SoraApiRequest`): classes whose setters update fields in place. `VideoResponse`,
  `SoraApiResponse` and `SoraApiRequest` each have a value snapshot (`State()` or
  `Body()`), and each of their setters' contracts says the new snapshot is the old one
  with exactly that field replaced. `SoraVideo` and `Generation` have a single field
  each, and their setters state that field's new value directly.

Java `null` is `Option.None`. `equalsIgnoreCase` is modelled by ASCII case folding.

Two properties are worth noting:

- **Readiness tests differ in case.** The service treats "completed" and "succeeded" as
  success ignoring case. The controller's download test compares them case-sensitively.
  A job reported as "Succeeded" therefore gets a generation id from the service, but the
  controller still refuses to download it (`VideoController.CapitalisedSucceededIsRefused`).
- **An answered call always counts as started.** The service marks every answered record
  as a success, even one whose status is "failed". Such a submission therefore shows the
  result page (`VideoController.AnsweredSubmitShowsResult`).

A few facts about the code that the model keeps as they are:

- The price is 0.02 + 30.00 × minutes × multiplier + 1.00, rounded half-up to cents.
- The warning bounds are strictly greater than 20, 10 and 5.
- A zero-second video costs 1.02.
- Width and height are taken from the form as they are; they are not derived from the
  resolution string.
- A success status with no usable content reference gets a plain 400 reply with no body.

## Model

| member | source | states |
|---|---|---|
| `Common.Lower` | src/main/java/com/example/soravideogenerator/service/SoraVideoService.java:108 | The folded string has the same length and folds each character on its own, as ASCII `equalsIgnoreCase` does. |
| `Common.LowerChar` | src/main/java/com/example/soravideogenerator/service/SoraVideoService.java:108 | A folded character is never an upper-case letter. It differs from the input only for 'A'..'Z', and then by exactly 32. |
| `Common.EqualsIgnoreCase` | src/main/java/com/example/soravideogenerator/service/SoraVideoService.java:108 | `equalsIgnoreCase` holds iff the lengths agree and every pair of characters folds to the same character. |
| `Common.LowerOfFolded` | src/main/java/com/example/soravideogenerator/service/SoraVideoService.java:108 | A string with no upper-case letter is its own folding. |
| `Common.LowerIdempotent` | src/main/java/com/example/soravideogenerator/service/SoraVideoService.java:108 | Folding twice is folding once. |
| `Common.NatToString` | src/main/java/com/example/soravideogenerator/controller/VideoController.java:128 | `String.valueOf` of a non-negative int is a non-empty digit string, with no leading zero unless the value is 0. |
| `Common.NatToStringValue` | src/main/java/com/example/soravideogenerator/controller/VideoController.java:128 | The digits written for `n` read back as `n`. |
| `Common.ParseInt` | src/main/java/com/example/soravideogenerator/service/SoraVideoService.java:48 | The reference reader for rendered integers: it accepts exactly an optional minus sign followed by at least one digit, and the sign of the value follows the minus sign. |
| `Common.IntToString` | src/main/java/com/example/soravideogenerator/service/SoraVideoService.java:48 | `Integer.toString` starts with '-' iff the value is negative and has no leading zero (only 0 itself starts with '0'). The text reads back as that integer for every integer, so it is the one canonical rendering. |
| `CostEstimation.DivHalfUp` | src/main/java/com/example/soravideogenerator/service/CostEstimationService.java:35 | Division rounded HALF_UP: the quotient is within half a divisor of the exact value, ties go away from zero, and the sign follows the dividend. |
| `CostEstimation.DivHalfUpMonotone` | src/main/java/com/example/soravideogenerator/service/CostEstimationService.java:47 | Half-up rounding never reverses the order of two values. |
| `CostEstimation.DivHalfUpExact` | src/main/java/com/example/soravideogenerator/service/CostEstimationService.java:47 | An exact multiple is not changed by half-up rounding. |
| `CostEstimation.ResolutionMultiplier` | src/main/java/com/example/soravideogenerator/service/CostEstimationService.java:55-65 | The multiplier is always one of 0.5, 0.8, 1.0 and 3.0. |
| `CostEstimation.MultiplierTable` | src/main/java/com/example/soravideogenerator/service/CostEstimationService.java:58-62 | Each of the nine listed resolutions gets its tier's multiplier. |
| `CostEstimation.UnknownResolutionPricedAsSquare1080` | src/main/java/com/example/soravideogenerator/service/CostEstimationService.java:56-63 | A null or unlisted resolution costs exactly what "1080x1080" costs, at every duration. |
| `CostEstimation.DurationMinutesE4` | src/main/java/com/example/soravideogenerator/service/CostEstimationService.java:35 | The duration in minutes (four decimals, half-up) is non-negative iff the duration is, and whole minutes convert exactly. |
| `CostEstimation.TotalCostE7` | src/main/java/com/example/soravideogenerator/service/CostEstimationService.java:32-45 | The unrounded total is at least the fixed 0.02 + 1.00 for a non-negative duration, and exactly that for zero seconds. |
| `CostEstimation.CalculateEstimatedCost` | src/main/java/com/example/soravideogenerator/service/CostEstimationService.java:30-48 | The estimate is a scale-2 decimal (whole cents). |
| `CostEstimation.ZeroDurationCost` | src/main/java/com/example/soravideogenerator/service/CostEstimationService.java:30-48 | A zero-second video costs the fixed 1.02 at every resolution. |
| `CostEstimation.WholeMinutesCost` | src/main/java/com/example/soravideogenerator/service/CostEstimationService.java:14-48 | A video of `n` whole minutes costs exactly 1.02 + 30.00 × n × multiplier, for every integer n. |
| `CostEstimation.CostMonotoneInDuration` | src/main/java/com/example/soravideogenerator/service/CostEstimationService.java:35-47 | For a fixed resolution, a longer video never costs less. |
| `CostEstimation.CostMonotoneInMultiplier` | src/main/java/com/example/soravideogenerator/service/CostEstimationService.java:39-40 | For a non-negative duration, a resolution with a larger multiplier never costs less. |
| `CostEstimation.CostOrderedByResolutionTier` | src/main/java/com/example/soravideogenerator/service/CostEstimationService.java:19-22 | 480p ≤ 720p ≤ square 1080p ≤ "1920x1080" at every non-negative duration. |
| `CostEstimation.CostExamples` | src/main/java/com/example/soravideogenerator/service/CostEstimationService.java:30-48 | Ten seconds of "1080x1080" cost 6.02. One minute of "1920x1080" costs 91.02 and draws the expensive alert. |
| `CostEstimation.CostWarningTier` | src/main/java/com/example/soravideogenerator/service/CostEstimationService.java:99-108 | Each tier holds exactly when the cost is above its bound and not above the next one (strictly greater than 20, 10 or 5). |
| `CostEstimation.TierText` | src/main/java/com/example/soravideogenerator/service/CostEstimationService.java:101-107 | The text is empty only when there is no warning. |
| `CostEstimation.TierTextDistinct` | src/main/java/com/example/soravideogenerator/service/CostEstimationService.java:101-107 | The four tiers show four different texts. |
| `CostEstimation.GetCostWarning` | src/main/java/com/example/soravideogenerator/service/CostEstimationService.java:99-108 | Each of the four texts is returned exactly in its band: empty iff the cost is at most 5, the notice iff above 5 and at most 10, the high-cost alert iff above 10 and at most 20, the expensive alert iff above 20. |
| `CostEstimation.WarningBoundsAreStrict` | src/main/java/com/example/soravideogenerator/service/CostEstimationService.java:100-105 | Exactly 20.00 draws the high-cost alert, exactly 10.00 the notice, and exactly 5.00 nothing. 20.01 draws the expensive alert. |
| `CostEstimation.Exceeds` | src/main/java/com/example/soravideogenerator/service/CostEstimationService.java:100-104 | `compareTo(n) > 0` holds iff the rational value `unscaled / 10^scale` is greater than n. Equivalently, the decimal is not at most n in the cross-scale order. At scale 0 it is plain integer comparison. |
| `CostEstimation.AtMost` | src/main/java/com/example/soravideogenerator/service/CostEstimationService.java:100-104 | Comparing two decimals by cross-multiplying with powers of ten agrees with comparing their rational values. |
| `CostEstimation.ExceedsRescaled` | src/main/java/com/example/soravideogenerator/service/CostEstimationService.java:100 | `compareTo` against an integer does not depend on trailing zeros in the scale. |
| `CostEstimation.WarningIgnoresScale` | src/main/java/com/example/soravideogenerator/service/CostEstimationService.java:99-108 | Numerically equal decimals of different scales get the same warning. |
| `CostEstimation.ExceedsMonotone` | src/main/java/com/example/soravideogenerator/service/CostEstimationService.java:100 | If a decimal exceeds a bound, so does every decimal numerically at least as large. |
| `CostEstimation.WarningMonotone` | src/main/java/com/example/soravideogenerator/service/CostEstimationService.java:99-108 | A larger cost never gets a milder warning. |
| `VideoResponseModel.VideoResponse.constructor` | src/main/java/com/example/soravideogenerator/model/VideoResponse.java:15 | Every field is null and success is false. |
| `VideoResponseModel.VideoResponse.ForJob` | src/main/java/com/example/soravideogenerator/model/VideoResponse.java:17-21 | Job id and status are set, success is true, and the rest is null. |
| `VideoResponseModel.VideoResponse.WithMessage` | src/main/java/com/example/soravideogenerator/model/VideoResponse.java:23-26 | Message and success are set, and the rest is null. |
| `VideoResponseModel.VideoResponse.SetJobId` | src/main/java/com/example/soravideogenerator/model/VideoResponse.java:32-34 | Only the job id changes. |
| `VideoResponseModel.VideoResponse.SetStatus` | src/main/java/com/example/soravideogenerator/model/VideoResponse.java:40-42 | Only the status changes. |
| `VideoResponseModel.VideoResponse.SetVideoUrl` | src/main/java/com/example/soravideogenerator/model/VideoResponse.java:48-50 | Only the video URL changes. |
| `VideoResponseModel.VideoResponse.SetGenerationId` | src/main/java/com/example/soravideogenerator/model/VideoResponse.java:56-58 | Only the generation id changes. |
| `VideoResponseModel.VideoResponse.SetMessage` | src/main/java/com/example/soravideogenerator/model/VideoResponse.java:64-66 | Only the message changes. |
| `VideoResponseModel.VideoResponse.SetSuccess` | src/main/java/com/example/soravideogenerator/model/VideoResponse.java:72-74 | Only the success flag changes. |
| `SoraApiRequestModel.SoraApiRequest.constructor` | src/main/java/com/example/soravideogenerator/model/SoraApiRequest.java:20 | Model "sora" and variant count "1". All other fields are null. |
| `SoraApiRequestModel.SoraApiRequest.Create` | src/main/java/com/example/soravideogenerator/model/SoraApiRequest.java:22-27 | Prompt, width, height and seconds are taken from the arguments in that order, with the fixed model and variant count. |
| `SoraApiRequestModel.SoraApiRequest.GetModel` | src/main/java/com/example/soravideogenerator/model/SoraApiRequest.java:10 | The model is always "sora". |
| `SoraApiRequestModel.SoraApiRequest.GetNVariants` | src/main/java/com/example/soravideogenerator/model/SoraApiRequest.java:16 | The variant count is always "1". |
| `SoraApiRequestModel.SoraApiRequest.SetHeight` | src/main/java/com/example/soravideogenerator/model/SoraApiRequest.java:37-39 | Only the height changes. |
| `SoraApiRequestModel.SoraApiRequest.SetWidth` | src/main/java/com/example/soravideogenerator/model/SoraApiRequest.java:45-47 | Only the width changes. |
| `SoraApiRequestModel.SoraApiRequest.SetNSeconds` | src/main/java/com/example/soravideogenerator/model/SoraApiRequest.java:53-55 | Only the seconds field changes. |
| `SoraApiRequestModel.SoraApiRequest.SetPrompt` | src/main/java/com/example/soravideogenerator/model/SoraApiRequest.java:65-67 | Only the prompt changes. |
| `SoraApiResponseModel.SoraVideo.constructor` | src/main/java/com/example/soravideogenerator/model/SoraApiResponse.java:84-85 | A new result starts with a null URL. |
| `SoraApiResponseModel.SoraVideo.SetUrl` | src/main/java/com/example/soravideogenerator/model/SoraApiResponse.java:91-93 | The URL is replaced. |
| `SoraApiResponseModel.Generation.constructor` | src/main/java/com/example/soravideogenerator/model/SoraApiResponse.java:97-98 | A new generation starts with a null id. |
| `SoraApiResponseModel.Generation.SetId` | src/main/java/com/example/soravideogenerator/model/SoraApiResponse.java:104-106 | The id is replaced. |
| `SoraApiResponseModel.VideoStateOf` | src/main/java/com/example/soravideogenerator/model/SoraApiResponse.java:23 | A result has a snapshot iff it is not null. |
| `SoraApiResponseModel.GenerationStates` | src/main/java/com/example/soravideogenerator/model/SoraApiResponse.java:24 | The snapshot list has one entry per generation, in order, each carrying that generation's id. |
| `SoraApiResponseModel.GenerationsStateOf` | src/main/java/com/example/soravideogenerator/model/SoraApiResponse.java:24 | The snapshot list is present iff the generations list is not null. |
| `SoraApiResponseModel.SoraApiResponse.constructor` | src/main/java/com/example/soravideogenerator/model/SoraApiResponse.java:26 | Every field is null. |
| `SoraApiResponseModel.SoraApiResponse.SetId` | src/main/java/com/example/soravideogenerator/model/SoraApiResponse.java:32-34 | Only the id changes. |
| `SoraApiResponseModel.SoraApiResponse.SetStatus` | src/main/java/com/example/soravideogenerator/model/SoraApiResponse.java:40-42 | Only the status changes. |
| `SoraApiResponseModel.SoraApiResponse.SetModel` | src/main/java/com/example/soravideogenerator/model/SoraApiResponse.java:48-50 | Only the model changes. |
| `SoraApiResponseModel.SoraApiResponse.SetCreatedAt` | src/main/java/com/example/soravideogenerator/model/SoraApiResponse.java:55-57 | Only the creation time changes. |
| `SoraApiResponseModel.SoraApiResponse.SetExpiresAt` | src/main/java/com/example/soravideogenerator/model/SoraApiResponse.java:63-65 | Only the expiry time changes. |
| `SoraApiResponseModel.SoraApiResponse.SetResult` | src/main/java/com/example/soravideogenerator/model/SoraApiResponse.java:71-73 | Only the result reference changes. |
| `SoraApiResponseModel.SoraApiResponse.SetGenerations` | src/main/java/com/example/soravideogenerator/model/SoraApiResponse.java:79-81 | Only the generations list changes. |
| `SoraVideoService.IsRetryableException` | src/main/java/com/example/soravideogenerator/service/SoraVideoService.java:124-131 | A failure is retried iff it is an HTTP error with status 500-599 or 429. |
| `SoraVideoService.RetryableClassification` | src/main/java/com/example/soravideogenerator/service/SoraVideoService.java:124-131 | 4xx errors other than 429, and every non-HTTP failure, are terminal. |
| `SoraVideoService.SubmitBody` | src/main/java/com/example/soravideogenerator/service/SoraVideoService.java:44-49 | The posted body has model "sora" and variant count "1", carries the form's prompt, width and height, and its seconds field is the canonical `Integer.toString` of the form's duration, which reads back as that duration. |
| `SoraVideoService.BuildSubmitRequest` | src/main/java/com/example/soravideogenerator/service/SoraVideoService.java:44-49 | A fresh request whose snapshot is that body. |
| `SoraVideoService.IsSuccessStatus` | src/main/java/com/example/soravideogenerator/service/SoraVideoService.java:108 | A status is a success iff it is non-null and folds to exactly "completed" or "succeeded". |
| `SoraVideoService.Normalize` | src/main/java/com/example/soravideogenerator/service/SoraVideoService.java:104-123 | Id and status are copied and success is set. On a success status, a non-empty generations list gives the first id plus the "available" placeholder; otherwise `result.url` is used when present. Any other status leaves both content references null. |
| `SoraVideoService.MapToVideoResponse` | src/main/java/com/example/soravideogenerator/service/SoraVideoService.java:104-123 | A fresh response, built with the job constructor and the setters, whose state is the normalised record. |
| `SoraVideoService.FailureResponse` | src/main/java/com/example/soravideogenerator/service/SoraVideoService.java:64 | The fallback has success false, carries the given message and has no job, status or content. |
| `SoraVideoService.ResponseFor` | src/main/java/com/example/soravideogenerator/service/SoraVideoService.java:58-64 | The response reports success iff the call answered. |
| `SoraVideoService.GenerateVideo` | src/main/java/com/example/soravideogenerator/service/SoraVideoService.java:40-65 | The request sent is the submit body. The response is the normalised reply, or the fixed "Failed to generate video. Please try again." on failure. |
| `SoraVideoService.CheckJobStatus` | src/main/java/com/example/soravideogenerator/service/SoraVideoService.java:71-85 | The response is the normalised reply, or the fixed "Failed to check job status." on failure. |
| `SoraVideoService.LowerCaseSuccessStatuses` | src/main/java/com/example/soravideogenerator/service/SoraVideoService.java:108 | "succeeded" and "completed" are success statuses. |
| `SoraVideoService.CapitalisedSuccessStatuses` | src/main/java/com/example/soravideogenerator/service/SoraVideoService.java:108 | Case is ignored: "Succeeded" and "COMPLETED" are success statuses. |
| `SoraVideoService.OtherStatusesAreNotSuccess` | src/main/java/com/example/soravideogenerator/service/SoraVideoService.java:108 | "queued", "failed" and a null status are not success statuses. |
| `SoraVideoService.GenerationIdComesWithPlaceholder` | src/main/java/com/example/soravideogenerator/service/SoraVideoService.java:110-115 | A reported generation id always comes with the "available" placeholder URL. |
| `SoraVideoService.NormalizeIgnoresMetadata` | src/main/java/com/example/soravideogenerator/service/SoraVideoService.java:104-123 | The model, creation time and expiry time never affect the response. |
| `SoraVideoService.GenerationsTakePrecedence` | src/main/java/com/example/soravideogenerator/service/SoraVideoService.java:110-119 | With a success status and a non-empty generations list, `result` is ignored. |
| `SoraVideoService.NonSuccessIgnoresContent` | src/main/java/com/example/soravideogenerator/service/SoraVideoService.java:108-120 | Under any other status, neither content reference affects the response, and both stay null. |
| `SoraVideoService.NormalizeExamples` | src/main/java/com/example/soravideogenerator/service/SoraVideoService.java:104-123 | Three concrete records, one per response shape: generations present, result only, and an empty generations list falling back to the result URL. |
| `VideoController.IsReady` | src/main/java/com/example/soravideogenerator/controller/VideoController.java:111-112 | A ready response is a success whose status the service also accepts, and that status is already lower case. |
| `VideoController.DownloadPlan` | src/main/java/com/example/soravideogenerator/controller/VideoController.java:111-176 | Exactly one branch per case. Not ready iff the case-sensitive readiness test fails. Fetch by id iff ready with a generation id. Open the URL iff ready, with no id and a URL other than "available". Otherwise no content. |
| `VideoController.AttachmentName` | src/main/java/com/example/soravideogenerator/controller/VideoController.java:122-123 | The file name is "sora_video_", the job id, "_", the timestamp and ".mp4", in that order and nothing else. |
| `VideoController.AttachmentHeaders` | src/main/java/com/example/soravideogenerator/controller/VideoController.java:125-127 | Exactly two headers: the octet-stream content type, and an attachment disposition whose quoted file name is `AttachmentName`. |
| `VideoController.DownloadReply` | src/main/java/com/example/soravideogenerator/controller/VideoController.java:115-176 | 200 iff the planned fetch succeeded. 500 iff the fetch by id failed. 400 iff the video is not ready, has no content reference, or its URL could not be opened. Every other reply has no headers and no body. Bytes come with a Content-Length that is the canonical rendering of their length and reads back as it. A URL stream has no Content-Length. Every 200 carries the attachment disposition and the octet-stream type. |
| `VideoController.DownloadVideo` | src/main/java/com/example/soravideogenerator/controller/VideoController.java:106-180 | The reply is the plan's reply for the status response obtained through the service's status check. |
| `VideoController.GenerateChoice` | src/main/java/com/example/soravideogenerator/controller/VideoController.java:53-82 | The result view iff there are no binding errors and the response succeeded, with the job id, status, started message, resolution and duration. Otherwise the form view, with the form and the binding or service error. |
| `VideoController.UiModel.constructor` | src/main/java/com/example/soravideogenerator/controller/VideoController.java:53-55 | The view model starts empty. |
| `VideoController.UiModel.AddAttribute` | src/main/java/com/example/soravideogenerator/controller/VideoController.java:58-59 | Adding an attribute sets that key and keeps every other one. |
| `VideoController.ReturnToForm` | src/main/java/com/example/soravideogenerator/controller/VideoController.java:76-78 | Adds exactly the error and the form, and returns "index". |
| `VideoController.ShowResult` | src/main/java/com/example/soravideogenerator/controller/VideoController.java:69-74 | Adds exactly the five result attributes, and returns "result". |
| `VideoController.GenerateVideo` | src/main/java/com/example/soravideogenerator/controller/VideoController.java:53-82 | The view and the attributes added are those `GenerateChoice` gives for the service's response to the form. |
| `VideoController.CapitalisedSucceededIsRefused` | src/main/java/com/example/soravideogenerator/controller/VideoController.java:111-112 | For status "Succeeded", the service reports the generation id but the controller does not download. |
| `VideoController.ReadyImpliesServiceSuccess` | src/main/java/com/example/soravideogenerator/controller/VideoController.java:111-112 | Whatever the controller treats as ready, the service treated as a success. |
| `VideoController.UnfinishedJobIsNeverFetched` | src/main/java/com/example/soravideogenerator/controller/VideoController.java:172-176 | A status the service does not recognise is never downloaded. |
| `VideoController.QueuedJobIsBadRequest` | src/main/java/com/example/soravideogenerator/controller/VideoController.java:172-176 | A queued job gets a bad request with no body, whatever the fetches would return. |
| `VideoController.ExactSuccessFollowsPrecedence` | src/main/java/com/example/soravideogenerator/controller/VideoController.java:115-171 | For exact lower-case success statuses, the first generation's id is fetched, else a real direct URL is opened, else there is no content. |
| `VideoController.FailedStatusCheckIsRefused` | src/main/java/com/example/soravideogenerator/controller/VideoController.java:109-112 | A failed status check is refused like a job that is not ready. |
| `VideoController.FetchesOnlyWhenPlanned` | src/main/java/com/example/soravideogenerator/controller/VideoController.java:115-171 | The content fetch affects the reply only on the fetch-by-id path, and opening the URL only on the direct-URL path. |
| `VideoController.BindingErrorsSkipService` | src/main/java/com/example/soravideogenerator/controller/VideoController.java:57-61 | With binding errors, the service's response plays no part. |
| `VideoController.AnsweredSubmitShowsResult` | src/main/java/com/example/soravideogenerator/controller/VideoController.java:66-74 | Every answered submission shows the result page, whatever status it reports. |
| `VideoController.FailedSubmitShowsFallback` | src/main/java/com/example/soravideogenerator/controller/VideoController.java:75-78 | A failed submission returns to the form with the fixed generation-failure message. |

## Left out

- Retry timing: the backoff schedule (3 retries starting at 1 second) is Reactor timing, so only the retry filter is modelled. A `Reply` is the outcome after retries.
- HTTP transport: request paths, the `api-version` query parameter and JSON (de)serialisation are not modelled. Answers arrive already parsed into `SoraApiResponse`.
- An answered call with an empty body: `doOnSuccess` would see a null response. This is a Reactor detail and is not modelled.
- `downloadVideoContent` (src/main/java/com/example/soravideogenerator/service/SoraVideoService.java:92-104): a remote call, modelled only by its outcome, the `content` parameter of `DownloadReply`.
- Opening the direct URL, and the clock that formats the timestamp: these are I/O, so they are the parameters `urlOpened` and `timestamp`.
- Logging in every operation is left out.
- `getCostBreakdown`: a `String.format` display text built from the modelled quantities; floating-point formatting is not modelled.
- `SoraVideoService.Normalize`, `SoraVideoService.MapToVideoResponse`, `SoraVideoService.GenerateVideo` and `SoraVideoService.CheckJobStatus`: null elements inside the generations list are not modelled. In the source, a null first element under a success status makes `mapToVideoResponse` throw. The throw then becomes the fixed failure response through `onErrorReturn` (src/main/java/com/example/soravideogenerator/service/SoraVideoService.java:64 and :84). The model holds a generation object for each element, so that path does not arise.
- `SoraVideoService.SubmitBody`: a null form duration is not modelled (the source throws on `toString`). The form's duration is taken to be a plain integer.
- `Common.Lower`: only ASCII case folding is modelled. Java's `equalsIgnoreCase` also folds some non-ASCII letters; for example, the long s (U+017F) matches 's', so "\u017Fucceeded" counts as a success in the source but not in the model.
- `CostEstimation.CalculateEstimatedCost`: the duration is an unbounded integer rather than a 32-bit `int`. The formula is exact for every integer, so nothing wraps in either the source or the model.
- `VideoController.GenerateVideo`: the controller's `onErrorReturn("error")` is not modelled. The service never signals an error, because it always falls back to a response, so that branch cannot be reached.
- `CostEstimation.GetCostWarning`: `getCostWarning(null)` throws a NullPointerException at the first comparison (src/main/java/com/example/soravideogenerator/service/CostEstimationService.java:100). A `Decimal` cannot be null, so this is not modelled. Negative scales are not modelled either.
- `VideoController.DownloadVideo`: the outer `onErrorReturn` that answers 500 (src/main/java/com/example/soravideogenerator/controller/VideoController.java:178-179) is not modelled. `checkJobStatus` always falls back to a response, a failed fetch by id is answered by the inner `onErrorReturn`, and an I/O failure on the direct URL is caught and answered 400. Only an unexpected runtime exception inside the branch code could reach the outer 500.
- `VideoController.UiModel.AddAttribute`: a null attribute value is stored as `Text(None)`. Whether Spring's `Model` keeps or drops null values is not modelled.
- The source's `VideoRequest` (src/main/java/com/example/soravideogenerator/model/VideoRequest.java:9-28) declares only the prompt. Yet the service and the controller read a resolution, a width, a height and a duration from it. The model takes these four as fields of the form input `VideoRequestInput`. Form validation (`@NotBlank`, `@Size`) belongs to Spring and is represented only by the `hasErrors` flag.
- `index`, `checkStatus` and `statusPage` in the controller: one-line delegations or single attribute additions. They are not modelled beyond `CheckJobStatus`.
- Configuration and start-up classes (`AzureOpenAIConfig`, `EnvironmentConfig`, the application class) are not part of this model.
- Bean getters are field reads. The model reads the fields or the snapshot directly; only `GetModel` and `GetNVariants`, which return constants, are methods.
