/**
 * The batch-progress tracker (components/progress-tracker.tsx).
 *
 * Its `setInterval` timer is a sequence of discrete ticks; each tick issues
 * one `GET /batch-jobs/{id}/status` and is given that request's outcome.
 * A tick is processed atomically, and a tick only happens while an interval
 * is scheduled, that is while `isPolling` holds and the job id is not the
 * `'unknown'` sentinel.
 */
module ProgressTracker {
  import opened Wrappers
  import opened Api
  import Text

  /** The job id the batch generator substitutes when the backend returned none. */
  const UnknownJob := "unknown"

  /** The error shown when a failed fetch carries neither a detail nor a message. */
  const DefaultError := "Failed to fetch progress"

  /** A failed fetch stops polling only once `pollCount` exceeds this. */
  const PollBudget := 5

  /** A progress record as the backend sends it; every field may be absent. */
  datatype Progress = Progress(
    totalPosts: Option<int>,
    completedPosts: Option<int>,
    failedPosts: Option<int>,
    remainingPosts: Option<int>,
    percentage: Option<int>,
    status: Option<string>)

  /**
   * The body of a status response: its own top-level fields (`status` and,
   * in the flat shape, the counts) and, in the nested shape, a `progress` object.
   */
  datatype StatusData = StatusData(top: Progress, progress: Option<Progress>)

  /** The all-zero record shown for the `'unknown'` job. */
  const Simulated := Progress(Some(0), Some(0), Some(0), Some(0), Some(0), Some("processing"))

  /** `response.data.progress || response.data`. */
  function Reconcile(d: StatusData): Progress {
    d.progress.GetOr(d.top)
  }

  /** Only these two top-level statuses end polling. */
  predicate IsTerminal(status: Option<string>) {
    status == Some("completed") || status == Some("failed")
  }

  /**
   * `error.response?.data?.detail || error.message || 'Failed to fetch progress'`:
   * the first non-empty of the three, so never the empty string.
   */
  function ErrorText(e: RequestError): (r: string)
    ensures r != ""
    ensures Text.Truthy(e.detail) ==> r == e.detail.value
    ensures !Text.Truthy(e.detail) ==> r == (if e.message != "" then e.message else DefaultError)
  {
    if Text.Truthy(e.detail) then e.detail.value
    else if e.message != "" then e.message
    else DefaultError
  }

  /**
   * The tracker's observable state: the four React state variables, the
   * number of `onComplete` calls and the number of status requests issued.
   */
  datatype State = State(
    progress: Option<Progress>,
    isPolling: bool,
    error: Option<string>,
    pollCount: nat,
    completions: nat,
    requests: nat)

  /** The `useState` initial values. */
  const Initial := State(None, true, None, 0, 0, 0)

  /**
   * What the effect does to the state when it runs: for the sentinel job it
   * installs the simulated record; otherwise it changes nothing (it either
   * returns early or only schedules the interval).
   */
  function Effect(jobId: string, s: State): State {
    if jobId == UnknownJob then s.(progress := Some(Simulated)) else s
  }

  /** The state once the tracker is mounted and its effect has run. */
  function Mounted(jobId: string): State {
    Effect(jobId, Initial)
  }

  /** An interval is scheduled exactly when the effect does not return early. */
  predicate Scheduled(jobId: string, s: State) {
    s.isPolling && jobId != UnknownJob
  }

  /** One timer tick, given the outcome of the status request it issues. */
  function Tick(jobId: string, s: State, outcome: Response<StatusData>): State {
    if !Scheduled(jobId, s) then s
    else
      match outcome
      case Ok(data) =>
        var stop := IsTerminal(data.top.status);
        s.(progress := Some(Reconcile(data)),
           error := None,
           pollCount := s.pollCount + 1,
           requests := s.requests + 1,
           isPolling := !stop,
           completions := if stop then s.completions + 1 else s.completions)
      case Failed(e) =>
        var stop := s.pollCount > PollBudget;
        s.(error := Some(ErrorText(e)),
           requests := s.requests + 1,
           isPolling := !stop,
           completions := if stop then s.completions + 1 else s.completions)
  }

  /** A sequence of ticks, in order. */
  function Run(jobId: string, s: State, outcomes: seq<Response<StatusData>>): State
    decreases |outcomes|
  {
    if outcomes == [] then s else Run(jobId, Tick(jobId, s, outcomes[0]), outcomes[1..])
  }

  /** Every outcome a failed fetch. */
  function AllFailed(errors: seq<RequestError>): (r: seq<Response<StatusData>>)
    ensures |r| == |errors|
    ensures forall i :: 0 <= i < |errors| ==> r[i] == Failed(errors[i])
  {
    seq(|errors|, i requires 0 <= i < |errors| => Failed(errors[i]))
  }

  // ----- one tick -----

  /**
   * A successful fetch installs the nested record when there is one and the
   * top-level fields otherwise, clears the error, counts exactly one more
   * poll, and stops polling with one `onComplete` call exactly when the
   * top-level status is "completed" or "failed".
   */
  lemma SuccessfulFetch(jobId: string, s: State, data: StatusData)
    requires Scheduled(jobId, s)
    ensures var r := Tick(jobId, s, Ok(data));
      && r.progress == Some(if data.progress.Some? then data.progress.value else data.top)
      && r.error == None
      && r.pollCount == s.pollCount + 1
      && r.requests == s.requests + 1
      && (r.isPolling <==> data.top.status != Some("completed") && data.top.status != Some("failed"))
      && r.completions == s.completions + (if r.isPolling then 0 else 1)
  {
  }

  /**
   * A failed fetch keeps the progress record and the poll count, shows the
   * first non-empty of detail, message and the default text, and stops
   * polling with one `onComplete` call exactly when more than five polls
   * have already succeeded.
   */
  lemma FailedFetch(jobId: string, s: State, e: RequestError)
    requires Scheduled(jobId, s)
    ensures var r := Tick(jobId, s, Failed(e));
      && r.progress == s.progress
      && r.pollCount == s.pollCount
      && r.requests == s.requests + 1
      && r.error == Some(ErrorText(e)) && r.error.value != ""
      && (!r.isPolling <==> s.pollCount >= 6)
      && r.completions == s.completions + (if s.pollCount >= 6 then 1 else 0)
  {
  }

  // ----- sequences of ticks -----

  /** Once no interval is scheduled, no tick changes anything: no request, no callback. */
  lemma {:induction false} UnscheduledIsFinal(jobId: string, s: State, outcomes: seq<Response<StatusData>>)
    requires !Scheduled(jobId, s)
    ensures Run(jobId, s, outcomes) == s
    decreases |outcomes|
  {
    if outcomes != [] {
      UnscheduledIsFinal(jobId, Tick(jobId, s, outcomes[0]), outcomes[1..]);
    }
  }

  /**
   * The sentinel job shows the all-zero "processing" record, issues no
   * status request and never calls `onComplete`, whatever happens.
   */
  lemma UnknownJobNeverFetches(outcomes: seq<Response<StatusData>>)
    ensures var r := Run(UnknownJob, Mounted(UnknownJob), outcomes);
      && r.progress == Some(Simulated)
      && r.requests == 0
      && r.completions == 0
      && r.error == None
  {
    UnscheduledIsFinal(UnknownJob, Mounted(UnknownJob), outcomes);
  }

  /**
   * `onComplete` has been called once when polling has stopped and not at
   * all while it goes on; it is never called a second time.
   */
  ghost predicate CompletedOnceStopped(s: State) {
    s.completions == (if s.isPolling then 0 else 1)
  }

  lemma {:induction false} RunKeepsCompletedOnceStopped(jobId: string, s: State, outcomes: seq<Response<StatusData>>)
    requires CompletedOnceStopped(s)
    ensures CompletedOnceStopped(Run(jobId, s, outcomes))
    decreases |outcomes|
  {
    if outcomes != [] {
      RunKeepsCompletedOnceStopped(jobId, Tick(jobId, s, outcomes[0]), outcomes[1..]);
    }
  }

  /** From mounting on, whatever the responses, `onComplete` is called at most once, and exactly when polling stops. */
  lemma CompletesAtMostOnce(jobId: string, outcomes: seq<Response<StatusData>>)
    ensures var r := Run(jobId, Mounted(jobId), outcomes);
      r.completions <= 1 && (r.completions == 1 <==> !r.isPolling)
  {
    RunKeepsCompletedOnceStopped(jobId, Mounted(jobId), outcomes);
  }

  /**
   * While no more than five polls have succeeded, failing fetches never stop
   * polling: each issues one more request, the progress record and poll
   * count stay, and `onComplete` is not called. A backend that fails from
   * the first fetch on is therefore polled for ever.
   */
  lemma {:induction false} FailuresBeforeSixPollsNeverStop(jobId: string, s: State, errors: seq<RequestError>)
    requires Scheduled(jobId, s) && s.pollCount <= PollBudget
    ensures var r := Run(jobId, s, AllFailed(errors));
      && Scheduled(jobId, r)
      && r.completions == s.completions
      && r.pollCount == s.pollCount
      && r.progress == s.progress
      && r.requests == s.requests + |errors|
      && (errors != [] ==> r.error == Some(ErrorText(errors[|errors| - 1])))
    decreases |errors|
  {
    if errors != [] {
      var outcomes := AllFailed(errors);
      assert outcomes[1..] == AllFailed(errors[1..]);
      var next := Tick(jobId, s, outcomes[0]);
      FailuresBeforeSixPollsNeverStop(jobId, next, errors[1..]);
      if |errors| > 1 {
        assert errors[1..][|errors[1..]| - 1] == errors[|errors| - 1];
      }
    }
  }

  /** A job that has never answered successfully is still being polled, with nothing completed, after any number of failures. */
  lemma FailingFromTheStartNeverCompletes(jobId: string, errors: seq<RequestError>)
    requires jobId != UnknownJob
    ensures var r := Run(jobId, Mounted(jobId), AllFailed(errors));
      r.isPolling && r.completions == 0 && r.progress == None && r.requests == |errors|
  {
    FailuresBeforeSixPollsNeverStop(jobId, Mounted(jobId), errors);
  }

  // ----- what is rendered -----

  /** The card the component renders. */
  datatype View =
    | ErrorCard(message: string, jobId: string)
    | LoadingCard
    | ProcessingCard
    | ProgressCard(completed: int, total: int, percentage: int, failed: int, remaining: int, done: bool, jobId: string)

  /** `x || 0` on a count: an absent count is shown as 0. */
  function Shown(v: Option<int>): int {
    v.GetOr(0)
  }

  /** The render branches, in the component's order. */
  function Render(jobId: string, s: State): View {
    if Text.Truthy(s.error) then ErrorCard(s.error.value, jobId)
    else if s.progress.None? then LoadingCard
    else if jobId == UnknownJob then ProcessingCard
    else
      var p := s.progress.value;
      ProgressCard(Shown(p.completedPosts), Shown(p.totalPosts), Shown(p.percentage),
                   Shown(p.failedPosts), Shown(p.remainingPosts), p.percentage == Some(100), jobId)
  }

  /**
   * The branches in priority order: the error card whenever there is an
   * error, else the loading card while there is no record, else the
   * processing card for the sentinel job, else the progress card.
   */
  lemma RenderPriority(jobId: string, s: State)
    ensures Render(jobId, s).ErrorCard? <==> Text.Truthy(s.error)
    ensures Render(jobId, s).LoadingCard? <==> !Text.Truthy(s.error) && s.progress.None?
    ensures Render(jobId, s).ProcessingCard? <==> !Text.Truthy(s.error) && s.progress.Some? && jobId == UnknownJob
    ensures Render(jobId, s).ProgressCard? <==> !Text.Truthy(s.error) && s.progress.Some? && jobId != UnknownJob
  {
  }

  /** An error, once set, takes precedence over everything else on screen. */
  lemma ErrorCardFirst(jobId: string, s: State, e: RequestError)
    requires Scheduled(jobId, s)
    ensures Render(jobId, Tick(jobId, s, Failed(e))) == ErrorCard(ErrorText(e), jobId)
  {
  }

  /**
   * Until a real job's first successful fetch, the loading card is shown
   * only before any fetch has been made; after failed fetches the error
   * card shows the last failure, since the error is tested first.
   */
  lemma BeforeFirstSuccess(jobId: string, errors: seq<RequestError>)
    requires jobId != UnknownJob
    ensures errors == [] ==> Render(jobId, Run(jobId, Mounted(jobId), AllFailed(errors))) == LoadingCard
    ensures errors != [] ==>
      Render(jobId, Run(jobId, Mounted(jobId), AllFailed(errors))) == ErrorCard(ErrorText(errors[|errors| - 1]), jobId)
  {
    FailuresBeforeSixPollsNeverStop(jobId, Mounted(jobId), errors);
  }

  /** The sentinel job always shows the processing card. */
  lemma UnknownJobShowsProcessing(outcomes: seq<Response<StatusData>>)
    ensures Render(UnknownJob, Run(UnknownJob, Mounted(UnknownJob), outcomes)) == ProcessingCard
  {
    UnknownJobNeverFetches(outcomes);
  }

  /**
   * After a successful fetch of a real job the progress card shows the
   * reconciled record, absent counts as 0.
   */
  lemma SuccessShowsProgress(jobId: string, s: State, data: StatusData)
    requires Scheduled(jobId, s)
    ensures var p := Reconcile(data);
      Render(jobId, Tick(jobId, s, Ok(data))) ==
        ProgressCard(Shown(p.completedPosts), Shown(p.totalPosts), Shown(p.percentage),
                     Shown(p.failedPosts), Shown(p.remainingPosts), p.percentage == Some(100), jobId)
    ensures Reconcile(data).completedPosts.None? ==> Render(jobId, Tick(jobId, s, Ok(data))).completed == 0
  {
  }

  /**
   * A job polled twice: first "processing" with 1 of 3 done, then
   * "completed" with 3 of 3; the tracker stops and calls `onComplete` once.
   */
  lemma TwoPollScenario()
    ensures var first := Progress(Some(3), Some(1), Some(0), Some(2), Some(33), None);
      var last := Progress(Some(3), Some(3), Some(0), Some(0), Some(100), None);
      var r := Run("job-42", Mounted("job-42"),
                   [Ok(StatusData(Progress(None, None, None, None, None, Some("processing")), Some(first))),
                    Ok(StatusData(Progress(None, None, None, None, None, Some("completed")), Some(last)))]);
      && r.progress == Some(last) && !r.isPolling && r.completions == 1 && r.requests == 2 && r.pollCount == 2
      && Render("job-42", r) == ProgressCard(3, 3, 100, 0, 0, true, "job-42")
  {
    var first := Progress(Some(3), Some(1), Some(0), Some(2), Some(33), None);
    var last := Progress(Some(3), Some(3), Some(0), Some(0), Some(100), None);
    var polls := [Ok(StatusData(Progress(None, None, None, None, None, Some("processing")), Some(first))),
                  Ok(StatusData(Progress(None, None, None, None, None, Some("completed")), Some(last)))];
    var s1 := Tick("job-42", Mounted("job-42"), polls[0]);
    assert s1 == State(Some(first), true, None, 1, 0, 1);
    var s2 := Tick("job-42", s1, polls[1]);
    assert s2 == State(Some(last), false, None, 2, 1, 2);
    assert polls[1..][1..] == [];
    UnscheduledIsFinal("job-42", s2, []);
  }

  // ----- the component -----

  /** One mounted tracker: `jobId` is its prop, the other fields its state. */
  class Tracker {
    const jobId: string
    var progress: Option<Progress>
    var isPolling: bool
    var error: Option<string>
    var pollCount: nat
    /** Calls of the `onComplete` prop so far. */
    var completions: nat
    /** Status requests issued so far. */
    var requests: nat

    function Current(): State
      reads this
    {
      State(progress, isPolling, error, pollCount, completions, requests)
    }

    /** Mounting: the `useState` initial values, then the effect's first run. */
    constructor (jobId: string)
      ensures this.jobId == jobId
      ensures Current() == Mounted(jobId)
    {
      this.jobId := jobId;
      progress := None;
      isPolling := true;
      error := None;
      pollCount := 0;
      completions := 0;
      requests := 0;
      new;
      if jobId == UnknownJob {
        progress := Some(Simulated);
      }
    }

    /** One timer tick; `outcome` is what the status request resolves to. */
    method Step(outcome: Response<StatusData>)
      modifies this
      ensures Current() == Tick(jobId, old(Current()), outcome)
    {
      if !isPolling || jobId == UnknownJob {
        return;
      }
      requests := requests + 1;
      match outcome {
        case Ok(data) =>
          progress := Some(Reconcile(data));
          error := None;
          pollCount := pollCount + 1;
          if data.top.status == Some("completed") || data.top.status == Some("failed") {
            isPolling := false;
            completions := completions + 1;
          }
        case Failed(e) =>
          error := Some(ErrorText(e));
          if pollCount > PollBudget {
            isPolling := false;
            completions := completions + 1;
          }
      }
    }

    /** The interval firing once per outcome, in order. */
    method Poll(outcomes: seq<Response<StatusData>>)
      modifies this
      ensures Current() == Run(jobId, old(Current()), outcomes)
    {
      for i := 0 to |outcomes|
        invariant Run(jobId, Current(), outcomes[i..]) == Run(jobId, old(Current()), outcomes)
      {
        assert outcomes[i..][1..] == outcomes[i + 1..];
        Step(outcomes[i]);
      }
    }
  }
}
