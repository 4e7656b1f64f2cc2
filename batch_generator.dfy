/**
 * The batch generator's own state (components/batch-generator.tsx): the
 * rows, whether a batch is being generated, the last submission's result
 * and the job id handed to the progress tracker. `window.alert` calls and
 * submitted request bodies are recorded in order.
 */
module BatchGenerator {
  import opened Wrappers
  import opened Api
  import opened PostRows
  import Text
  import ProgressTracker

  /** `response.data.batch_job` of an accepted submission, when present. */
  datatype BatchJob = BatchJob(id: Option<string>)
  datatype SubmitData = SubmitData(batchJob: Option<BatchJob>)

  /** What reading `.id` of an absent `batch_job` throws (the V8 engine's TypeError message). */
  const MissingBatchJobMessage := "Cannot read properties of undefined (reading 'id')"

  /**
   * The job to track after submitting: a rejected request or a body without
   * `batch_job` fails; otherwise the job's id when it is truthy, else the
   * `'unknown'` sentinel. A job id obtained this way is never empty, so the
   * tracker is always shown for it. Reading `.id` of an absent `batch_job`
   * throws the TypeError that the `catch` reports.
   */
  function JobIdOf(reply: Response<SubmitData>): (r: Response<string>)
    ensures r.Ok? <==> reply.Ok? && reply.data.batchJob.Some?
    ensures r.Ok? ==> r.data != ""
    ensures r.Ok? && Text.Truthy(reply.data.batchJob.value.id) ==> r.data == reply.data.batchJob.value.id.value
    ensures r.Ok? && !Text.Truthy(reply.data.batchJob.value.id) ==> r.data == ProgressTracker.UnknownJob
    ensures reply.Ok? && reply.data.batchJob.None? ==> r == Failed(RequestError(None, MissingBatchJobMessage))
    ensures reply.Failed? ==> r == Failed(reply.error)
  {
    match reply
    case Failed(e) => Failed(e)
    case Ok(data) =>
      if data.batchJob.None? then Failed(RequestError(None, MissingBatchJobMessage))
      else if Text.Truthy(data.batchJob.value.id) then Ok(data.batchJob.value.id.value)
      else Ok(ProgressTracker.UnknownJob)
  }

  /** `'Batch generation failed: ' + (detail || message)`. */
  function FailureAlert(e: RequestError): string {
    "Batch generation failed: " + (if Text.Truthy(e.detail) then e.detail.value else e.message)
  }

  class Generator {
    const campaign: Campaign
    var posts: seq<PostInput>
    var isGenerating: bool
    var batchResult: Option<SubmitData>
    var currentJobId: Option<string>
    /** Messages shown with `window.alert`, in order. */
    var alerts: seq<string>
    /** Request bodies sent to `POST /campaigns/{id}/generate-batch`, in order. */
    var submitted: seq<BatchRequest>

    /** The form always holds at least one row, and no two rows share an id. */
    ghost predicate Valid()
      reads this
    {
      |posts| >= 1 && UniqueIds(posts)
    }

    constructor (campaign: Campaign)
      ensures Valid()
      ensures this.campaign == campaign && posts == InitialPosts
      ensures !isGenerating && batchResult == None && currentJobId == None
      ensures alerts == [] && submitted == []
    {
      this.campaign := campaign;
      posts := InitialPosts;
      isGenerating := false;
      batchResult := None;
      currentJobId := None;
      alerts := [];
      submitted := [];
    }

    /** `addPost` at clock reading `now`, whose id no existing row has. */
    method AddPost(now: nat)
      requires Valid() && Text.Decimal(now) !in Ids(posts)
      modifies this`posts
      ensures Valid() && posts == PostRows.AddPost(old(posts), now)
    {
      AddPostKeepsRows(posts, now);
      posts := PostRows.AddPost(posts, now);
    }

    /** `removePost`. */
    method RemovePost(id: string)
      requires Valid()
      modifies this`posts
      ensures Valid() && posts == PostRows.RemovePost(old(posts), id)
    {
      RemovePostKeepsARow(posts, id);
      posts := PostRows.RemovePost(posts, id);
    }

    /** `updatePost`. */
    method UpdatePost(id: string, e: Edit)
      requires Valid()
      modifies this`posts
      ensures Valid() && posts == PostRows.UpdatePost(old(posts), id, e)
    {
      UpdatePostKeepsIds(posts, id, e);
      posts := PostRows.UpdatePost(posts, id, e);
    }

    /**
     * `addMultiplePosts(count)`; `clock[k]` is the clock reading taken for
     * row k, and none of the new ids is in use.
     */
    method AddMultiplePosts(count: nat, clock: seq<nat>)
      requires Valid() && |clock| == count
      requires forall k :: 0 <= k < count ==> SampleId(clock[k], k) !in Ids(posts)
      modifies this`posts
      ensures Valid() && posts == PostRows.AddMultiplePosts(old(posts), clock)
      ensures |posts| == |old(posts)| + count
    {
      AddMultiplePostsKeepsUnique(posts, clock);
      posts := PostRows.AddMultiplePosts(posts, clock);
    }

    /**
     * `startGeneration`, taken as one step: `when` is the local date string
     * of the batch name, `reply` what the submission request resolves to.
     * Rows with a blank title or brief are counted in an alert and nothing
     * else happens. Otherwise the flags are reset, one request is sent, and
     * either the job to track is recorded (generation goes on) or the
     * failure is alerted and generation ends.
     */
    method StartGeneration(when: string, reply: Response<SubmitData>)
      modifies this`isGenerating, this`batchResult, this`currentJobId, this`alerts, this`submitted
      ensures |InvalidPosts(posts)| > 0 ==>
        && alerts == old(alerts) + [ValidationAlert(|InvalidPosts(posts)|)]
        && submitted == old(submitted)
        && isGenerating == old(isGenerating)
        && batchResult == old(batchResult)
        && currentJobId == old(currentJobId)
      ensures |InvalidPosts(posts)| == 0 ==>
        submitted == old(submitted) + [BatchBody(campaign, posts, when)]
      ensures |InvalidPosts(posts)| == 0 && JobIdOf(reply).Ok? ==>
        && isGenerating && currentJobId == Some(JobIdOf(reply).data)
        && batchResult == Some(reply.data) && alerts == old(alerts)
      ensures |InvalidPosts(posts)| == 0 && JobIdOf(reply).Failed? ==>
        && !isGenerating && currentJobId == None && batchResult == None
        && alerts == old(alerts) + [FailureAlert(JobIdOf(reply).error)]
    {
      var invalid := InvalidPosts(posts);
      if |invalid| > 0 {
        alerts := alerts + [ValidationAlert(|invalid|)];
        return;
      }

      isGenerating := true;
      batchResult := None;
      currentJobId := None;

      var body := BatchBody(campaign, posts, when);
      submitted := submitted + [body];
      Settle(reply);
      assert posts == old(posts) && submitted == old(submitted) + [body];
    }

    /**
     * What `startGeneration` does once the request has settled: an accepted
     * reply with a `batch_job` records the job to track, while a rejected
     * request, or the TypeError of a reply without one, is alerted and ends
     * generation.
     */
    method Settle(reply: Response<SubmitData>)
      modifies this`isGenerating, this`batchResult, this`currentJobId, this`alerts
      ensures JobIdOf(reply).Ok? ==>
        && isGenerating == old(isGenerating) && currentJobId == Some(JobIdOf(reply).data)
        && batchResult == Some(reply.data) && alerts == old(alerts)
      ensures JobIdOf(reply).Failed? ==>
        && !isGenerating && currentJobId == None && batchResult == old(batchResult)
        && alerts == old(alerts) + [FailureAlert(JobIdOf(reply).error)]
    {
      var thrown: Option<RequestError> := None;
      match reply {
        case Failed(e) =>
          thrown := Some(e);
        case Ok(data) =>
          if data.batchJob.None? {
            thrown := Some(RequestError(None, MissingBatchJobMessage));
          } else {
            var jobId := data.batchJob.value.id;
            if Text.Truthy(jobId) {
              currentJobId := jobId;
            } else {
              currentJobId := Some(ProgressTracker.UnknownJob);
            }
            batchResult := Some(data);
          }
      }
      if thrown.Some? {
        alerts := alerts + [FailureAlert(thrown.value)];
        isGenerating := false;
        currentJobId := None;
      }
    }

    /** `handleGenerationComplete`, the tracker's `onComplete`. */
    method HandleGenerationComplete()
      modifies this`isGenerating, this`currentJobId
      ensures !isGenerating && currentJobId == None
    {
      isGenerating := false;
      currentJobId := None;
    }
  }

  /**
   * A submission that validates and is accepted with a `batch_job` leaves
   * the generator generating and the tracker shown for a non-empty job id;
   * only the tracker's `onComplete` ends it. A `batch_job` without a truthy
   * id gives the `'unknown'` tracker, which never calls `onComplete`.
   */
  lemma AcceptedSubmissionKeepsGenerating(reply: Response<SubmitData>)
    requires reply.Ok? && reply.data.batchJob.Some?
    ensures JobIdOf(reply).Ok? && Text.Truthy(Some(JobIdOf(reply).data))
    ensures !Text.Truthy(reply.data.batchJob.value.id) ==>
      forall outcomes: seq<Response<ProgressTracker.StatusData>> ::
        ProgressTracker.Run(JobIdOf(reply).data, ProgressTracker.Mounted(JobIdOf(reply).data), outcomes).completions == 0
  {
    if !Text.Truthy(reply.data.batchJob.value.id) {
      forall outcomes: seq<Response<ProgressTracker.StatusData>>
        ensures ProgressTracker.Run(ProgressTracker.UnknownJob, ProgressTracker.Mounted(ProgressTracker.UnknownJob), outcomes).completions == 0
      {
        ProgressTracker.UnknownJobNeverFetches(outcomes);
      }
    }
  }
}
