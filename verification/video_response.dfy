/** `VideoResponse`: the mutable bean the service hands to the controller. Each
    field is public, so a getter is a read of the field; each setter changes its
    own field and nothing else. */
module VideoResponseModel {
  import opened Common

  /** The six fields of a `VideoResponse`, as a value. */
  datatype ResponseState = ResponseState(
    jobId: Option<string>,
    status: Option<string>,
    videoUrl: Option<string>,
    generationId: Option<string>,
    message: Option<string>,
    success: bool)

  class VideoResponse {
    var jobId: Option<string>
    var status: Option<string>
    var videoUrl: Option<string>
    var generationId: Option<string>
    var message: Option<string>
    var success: bool

    function State(): ResponseState
      reads this
    {
      ResponseState(jobId, status, videoUrl, generationId, message, success)
    }

    /** The no-argument constructor: every reference null, `success` false. */
    constructor ()
      ensures State() == ResponseState(None, None, None, None, None, false)
    {
      jobId, status, videoUrl, generationId, message := None, None, None, None, None;
      success := false;
    }

    /** `VideoResponse(jobId, status)`: a successful response for a job. */
    constructor ForJob(jobId: Option<string>, status: Option<string>)
      ensures State() == ResponseState(jobId, status, None, None, None, true)
    {
      this.jobId, this.status := jobId, status;
      videoUrl, generationId, message := None, None, None;
      success := true;
    }

    /** `VideoResponse(message, success)`: a message with no job. */
    constructor WithMessage(message: Option<string>, success: bool)
      ensures State() == ResponseState(None, None, None, None, message, success)
    {
      jobId, status, videoUrl, generationId := None, None, None, None;
      this.message, this.success := message, success;
    }

    method SetJobId(jobId: Option<string>)
      modifies this
      ensures State() == old(State()).(jobId := jobId)
    {
      this.jobId := jobId;
    }

    method SetStatus(status: Option<string>)
      modifies this
      ensures State() == old(State()).(status := status)
    {
      this.status := status;
    }

    method SetVideoUrl(videoUrl: Option<string>)
      modifies this
      ensures State() == old(State()).(videoUrl := videoUrl)
    {
      this.videoUrl := videoUrl;
    }

    method SetGenerationId(generationId: Option<string>)
      modifies this
      ensures State() == old(State()).(generationId := generationId)
    {
      this.generationId := generationId;
    }

    method SetMessage(message: Option<string>)
      modifies this
      ensures State() == old(State()).(message := message)
    {
      this.message := message;
    }

    method SetSuccess(success: bool)
      modifies this
      ensures State() == old(State()).(success := success)
    {
      this.success := success;
    }
  }
}
