/**
 * The test state store: one record holding the photos, the answers, a task
 * identifier, three phase statuses, the report URL and the last error, and the
 * closed set of actions that change it: `resetTest`, `setAnswers`,
 * `clearError`, and the pending, fulfilled and rejected outcomes of the three
 * asynchronous requests (upload the photos, submit the survey, check the
 * report status). The network is not modelled: a request's reply is an input,
 * and the functions below turn it into the action the request settles with.
 */
module TaskStore {

  import opened Wrappers
  import opened JsValues

  /** `uploadStatus` and `submitStatus`. */
  datatype PhaseStatus = Idle | Loading | Succeeded | Failed

  /** `reportStatus`. */
  datatype ReportStatus = ReportIdle | Processing | Ready | ReportFailed

  datatype TaskState = TaskState(
    photos: seq<Slot>,
    answers: map<string, Value>,
    taskId: Option<string>,
    uploadStatus: PhaseStatus,
    submitStatus: PhaseStatus,
    reportStatus: ReportStatus,
    reportUrl: Option<string>,
    error: Option<string>)

  const Initial: TaskState :=
    TaskState([], map[], None, Idle, Idle, ReportIdle, None, None)

  /** The parsed body of a successful status check: `{status, report_url}`. */
  datatype ReportBody = ReportBody(status: string, reportUrl: Option<string>)

  datatype Action =
    | ResetTest
    | SetAnswers(answers: map<string, Value>)
    | ClearError
    | UploadPending
    | UploadFulfilled(taskId: string, photos: seq<Slot>)
    | UploadRejected(message: string)
    | SubmitPending
    | SubmitFulfilled
    | SubmitRejected(message: string)
    | CheckPending
    | CheckFulfilled(body: ReportBody)
    | CheckRejected(message: string)

  const ReportGenerationFailed := "Report generation failed"

  /** The reducer: the new state after one action. */
  function Reduce(s: TaskState, a: Action): TaskState
  {
    match a
    case ResetTest => Initial
    case SetAnswers(m) => s.(answers := m)
    case ClearError => s.(error := None)
    case UploadPending => s.(uploadStatus := Loading, error := None)
    case UploadFulfilled(t, p) => s.(uploadStatus := Succeeded, taskId := Some(t), photos := p)
    case UploadRejected(m) => s.(uploadStatus := Failed, error := Some(m))
    case SubmitPending => s.(submitStatus := Loading, error := None)
    case SubmitFulfilled => s.(submitStatus := Succeeded, reportStatus := Processing)
    case SubmitRejected(m) => s.(submitStatus := Failed, error := Some(m))
    case CheckPending => s.(error := None)
    case CheckFulfilled(body) =>
      if body.status == "completed" && Present(body.reportUrl) then
        s.(reportStatus := Ready, reportUrl := body.reportUrl)
      else if body.status == "processing" then
        s.(reportStatus := Processing)
      else if body.status == "error" then
        s.(reportStatus := ReportFailed, error := Some(ReportGenerationFailed))
      else
        s
    case CheckRejected(m) => s.(reportStatus := ReportFailed, error := Some(m))
  }

  /** The state after dispatching `actions` in order. */
  function Run(s: TaskState, actions: seq<Action>): TaskState
    decreases |actions|
  {
    if actions == [] then s else Run(Reduce(s, actions[0]), actions[1..])
  }

  // ---------------------------------------------------------------------------
  // Requests and their replies

  /** A request started by dispatching one of the three asynchronous thunks. */
  datatype Request =
    | UploadPhotos(photos: seq<Slot>)
    | SubmitSurvey(taskId: string, answers: map<string, Value>)
    | CheckReportStatus(taskId: string)

  /** The action a thunk dispatches synchronously when it starts. */
  function PendingOf(r: Request): (a: Action)
    ensures r.UploadPhotos? <==> a == UploadPending
    ensures r.SubmitSurvey? <==> a == SubmitPending
    ensures r.CheckReportStatus? <==> a == CheckPending
  {
    match r
    case UploadPhotos(_) => UploadPending
    case SubmitSurvey(_, _) => SubmitPending
    case CheckReportStatus(_) => CheckPending
  }

  /** What a component hands to `dispatch`: a plain action, or a thunk that starts a request. */
  datatype Dispatch = Plain(action: Action) | Thunk(request: Request)

  function ActionOf(d: Dispatch): Action
  {
    match d
    case Plain(a) => a
    case Thunk(r) => PendingOf(r)
  }

  /** The state after dispatching `ds` in order (only the synchronous part of each thunk). */
  function RunDispatches(s: TaskState, ds: seq<Dispatch>): TaskState
    decreases |ds|
  {
    if ds == [] then s else RunDispatches(Reduce(s, ActionOf(ds[0])), ds[1..])
  }

  /**
   * How a request ended: an HTTP reply (its `ok` flag, status code, status
   * text, the JSON text of a truthy `detail` field of an error body, and the
   * parsed success body), or an exception thrown by `fetch` or by parsing the
   * body: `Some(message)` for an `Error`, `None` for any other thrown value.
   */
  datatype Reply<T> =
    | Http(ok: bool, status: int, statusText: string, detail: Option<string>, body: T)
    | Thrown(message: Option<string>)

  const UploadFailedPrefix := "Upload failed: "
  const SubmitFailedPrefix := "Survey submission failed: "
  const StatusCheckFailedPrefix := "Status check failed: "
  const NoTaskIdMessage := "No task_id received from server"
  const ReportNotFoundMessage := "Report not found"

  /** The message of a non-ok reply: prefix and status text, then " - " and the detail when there is one. */
  function FailureMessage(prefix: string, statusText: string, detail: Option<string>): (m: string)
    ensures |m| >= |prefix| + |statusText| && m[..|prefix| + |statusText|] == prefix + statusText
    ensures detail.None? ==> |m| == |prefix| + |statusText|
    ensures detail.Some? ==> m[|prefix| + |statusText|..] == " - " + detail.value
  {
    prefix + statusText + (if detail.Some? then " - " + detail.value else "")
  }

  /** The message of a reply to a status check that is not ok. */
  function StatusCheckMessage(status: int, statusText: string): (m: string)
    ensures m == ReportNotFoundMessage <==> status == 404
    ensures status != 404 ==> |m| == |StatusCheckFailedPrefix| + |statusText|
    ensures status != 404 ==> m[..|StatusCheckFailedPrefix|] == StatusCheckFailedPrefix
    ensures status != 404 ==> m[|StatusCheckFailedPrefix|..] == statusText
  {
    if status == 404 then ReportNotFoundMessage
    else
      var m := StatusCheckFailedPrefix + statusText;
      assert m[0] != ReportNotFoundMessage[0];
      m
  }

  /** The message a thrown value rejects with: an `Error`'s own message, or the fallback. */
  function ThrownMessage(message: Option<string>, fallback: string): string
  {
    if message.Some? then message.value else fallback
  }

  /** How `uploadPhotos(photos)` settles, given the reply; the body is the `task_id` field. */
  function UploadOutcome(reply: Reply<Option<string>>, photos: seq<Slot>): (a: Action)
    ensures a.UploadFulfilled? || a.UploadRejected?
    ensures a.UploadFulfilled? <==> reply.Http? && reply.ok && Present(reply.body)
    ensures a.UploadFulfilled? ==> a.taskId != "" && Some(a.taskId) == reply.body && a.photos == photos
    ensures reply.Http? && !reply.ok ==>
              a == UploadRejected(FailureMessage(UploadFailedPrefix, reply.statusText, reply.detail))
    ensures reply.Http? && reply.ok && !Present(reply.body) ==> a == UploadRejected(NoTaskIdMessage)
    ensures reply.Thrown? ==> a == UploadRejected(ThrownMessage(reply.message, "Upload failed"))
  {
    match reply
    case Thrown(m) => UploadRejected(ThrownMessage(m, "Upload failed"))
    case Http(ok, _, text, detail, taskId) =>
      if !ok then UploadRejected(FailureMessage(UploadFailedPrefix, text, detail))
      else if !Present(taskId) then UploadRejected(NoTaskIdMessage)
      else UploadFulfilled(taskId.value, photos)
  }

  /** How `submitSurvey` settles, given the reply; the success body is not used. */
  function SubmitOutcome(reply: Reply<()>): (a: Action)
    ensures a.SubmitFulfilled? || a.SubmitRejected?
    ensures a.SubmitFulfilled? <==> reply.Http? && reply.ok
    ensures reply.Http? && !reply.ok ==>
              a == SubmitRejected(FailureMessage(SubmitFailedPrefix, reply.statusText, reply.detail))
    ensures reply.Thrown? ==> a == SubmitRejected(ThrownMessage(reply.message, "Survey submission failed"))
  {
    match reply
    case Thrown(m) => SubmitRejected(ThrownMessage(m, "Survey submission failed"))
    case Http(ok, _, text, detail, _) =>
      if ok then SubmitFulfilled else SubmitRejected(FailureMessage(SubmitFailedPrefix, text, detail))
  }

  /** How `checkReportStatus` settles, given the reply. */
  function CheckOutcome(reply: Reply<ReportBody>): (a: Action)
    ensures a.CheckFulfilled? || a.CheckRejected?
    ensures a.CheckFulfilled? <==> reply.Http? && reply.ok
    ensures a.CheckFulfilled? ==> a.body == reply.body
    ensures reply.Http? && !reply.ok ==>
              a == CheckRejected(StatusCheckMessage(reply.status, reply.statusText))
    ensures reply.Thrown? ==> a == CheckRejected(ThrownMessage(reply.message, "Status check failed"))
  {
    match reply
    case Thrown(m) => CheckRejected(ThrownMessage(m, "Status check failed"))
    case Http(ok, status, text, _, body) =>
      if ok then CheckFulfilled(body) else CheckRejected(StatusCheckMessage(status, text))
  }

  // ---------------------------------------------------------------------------
  // One step at a time

  lemma ResetRestoresInitial(s: TaskState)
    ensures Reduce(s, ResetTest) == Initial
    ensures Initial.photos == [] && Initial.answers == map[] && Initial.taskId.None?
    ensures Initial.uploadStatus == Idle && Initial.submitStatus == Idle && Initial.reportStatus == ReportIdle
    ensures Initial.reportUrl.None? && Initial.error.None?
  {
  }

  lemma SetAnswersReplacesAnswers(s: TaskState, m: map<string, Value>)
    ensures Reduce(s, SetAnswers(m)) == s.(answers := m)
    ensures Reduce(s, SetAnswers(m)).answers == m
  {
  }

  lemma ClearErrorOnlyClearsError(s: TaskState)
    ensures Reduce(s, ClearError).error.None?
    ensures Reduce(s, ClearError).(error := s.error) == s
  {
  }

  lemma UploadPendingFrame(s: TaskState)
    ensures Reduce(s, UploadPending).uploadStatus == Loading
    ensures Reduce(s, UploadPending).error.None?
    ensures Reduce(s, UploadPending).(uploadStatus := s.uploadStatus, error := s.error) == s
  {
  }

  lemma UploadFulfilledRoundTrip(s: TaskState, t: string, p: seq<Slot>)
    ensures Reduce(s, UploadFulfilled(t, p)).uploadStatus == Succeeded
    ensures Reduce(s, UploadFulfilled(t, p)).taskId == Some(t)
    ensures Reduce(s, UploadFulfilled(t, p)).photos == p
    ensures Reduce(s, UploadFulfilled(t, p)).(uploadStatus := s.uploadStatus, taskId := s.taskId, photos := s.photos) == s
  {
  }

  lemma UploadRejectedKeepsProgress(s: TaskState, m: string)
    ensures Reduce(s, UploadRejected(m)).uploadStatus == Failed
    ensures Reduce(s, UploadRejected(m)).error == Some(m)
    ensures Reduce(s, UploadRejected(m)).(uploadStatus := s.uploadStatus, error := s.error) == s
  {
  }

  lemma SubmitPendingFrame(s: TaskState)
    ensures Reduce(s, SubmitPending).submitStatus == Loading
    ensures Reduce(s, SubmitPending).error.None?
    ensures Reduce(s, SubmitPending).(submitStatus := s.submitStatus, error := s.error) == s
  {
  }

  lemma SubmitFulfilledStartsReport(s: TaskState)
    ensures Reduce(s, SubmitFulfilled).submitStatus == Succeeded
    ensures Reduce(s, SubmitFulfilled).reportStatus == Processing
    ensures Reduce(s, SubmitFulfilled).(submitStatus := s.submitStatus, reportStatus := s.reportStatus) == s
  {
  }

  lemma SubmitRejectedKeepsAnswers(s: TaskState, m: string)
    ensures Reduce(s, SubmitRejected(m)).submitStatus == Failed
    ensures Reduce(s, SubmitRejected(m)).error == Some(m)
    ensures Reduce(s, SubmitRejected(m)).(submitStatus := s.submitStatus, error := s.error) == s
  {
  }

  lemma CheckPendingOnlyClearsError(s: TaskState)
    ensures Reduce(s, CheckPending) == s.(error := None)
  {
  }

  lemma CheckRejectedFailsReport(s: TaskState, m: string)
    ensures Reduce(s, CheckRejected(m)).reportStatus == ReportFailed
    ensures Reduce(s, CheckRejected(m)).error == Some(m)
    ensures Reduce(s, CheckRejected(m)).(reportStatus := s.reportStatus, error := s.error) == s
  {
  }

  /** The four outcomes of a successful status check. */
  lemma CheckFulfilledCases(s: TaskState, body: ReportBody)
    ensures body.status == "completed" && Present(body.reportUrl) ==>
              Reduce(s, CheckFulfilled(body)) == s.(reportStatus := Ready, reportUrl := body.reportUrl)
    ensures body.status == "processing" ==>
              Reduce(s, CheckFulfilled(body)) == s.(reportStatus := Processing)
    ensures body.status == "error" ==>
              Reduce(s, CheckFulfilled(body)) == s.(reportStatus := ReportFailed, error := Some(ReportGenerationFailed))
    ensures (body.status == "completed" && !Present(body.reportUrl)) ||
            (body.status != "completed" && body.status != "processing" && body.status != "error") ==>
              Reduce(s, CheckFulfilled(body)) == s
  {
  }

  /** Only a completed check with a URL sets the report URL, and then it is a truthy one. */
  lemma ReportUrlOnlyFromCompletedCheck(s: TaskState, a: Action)
    requires a != ResetTest
    ensures Reduce(s, a).reportUrl != s.reportUrl ==>
              a.CheckFulfilled? && a.body.status == "completed" && Present(Reduce(s, a).reportUrl)
  {
  }

  /** A reply of 404 to a status check fails the report with "Report not found". */
  lemma UnknownTaskFailsReport(s: TaskState, statusText: string, detail: Option<string>, body: ReportBody)
    ensures var a := CheckOutcome(Http(false, 404, statusText, detail, body));
            a == CheckRejected(ReportNotFoundMessage) &&
            Reduce(s, a).reportStatus == ReportFailed && Reduce(s, a).error == Some(ReportNotFoundMessage)
  {
  }

  // ---------------------------------------------------------------------------
  // Sequences of actions

  lemma RunStep(s: TaskState, a: Action, rest: seq<Action>)
    ensures Run(s, [a] + rest) == Run(Reduce(s, a), rest)
  {
    assert ([a] + rest)[0] == a && ([a] + rest)[1..] == rest;
  }

  lemma {:induction false} RunAppend(s: TaskState, xs: seq<Action>, ys: seq<Action>)
    ensures Run(s, xs + ys) == Run(Run(s, xs), ys)
    decreases |xs|
  {
    if xs == [] {
      assert xs + ys == ys;
    } else {
      assert (xs + ys)[0] == xs[0] && (xs + ys)[1..] == xs[1..] + ys;
      assert Run(s, xs + ys) == Run(Reduce(s, xs[0]), xs[1..] + ys);
      RunAppend(Reduce(s, xs[0]), xs[1..], ys);
    }
  }

  /**
   * A status check that keeps answering "processing", however many times,
   * leaves the report processing and changes nothing else, the URL included.
   */
  lemma {:induction false} RepeatedProcessingIsIdempotent(s: TaskState, actions: seq<Action>)
    requires actions != []
    requires forall k :: 0 <= k < |actions| ==>
               actions[k].CheckFulfilled? && actions[k].body.status == "processing"
    ensures Run(s, actions) == s.(reportStatus := Processing)
    ensures Run(s, actions).reportUrl == s.reportUrl
    decreases |actions|
  {
    var t := Reduce(s, actions[0]);
    assert t == s.(reportStatus := Processing);
    if |actions| > 1 {
      RepeatedProcessingIsIdempotent(t, actions[1..]);
    }
  }

  /**
   * What the components guarantee before they dispatch: the survey is only
   * submitted while the store holds a task id (the questions screen checks
   * it), and an upload only succeeds with a non-empty task id (the upload
   * request rejects any other reply).
   */
  predicate Permitted(s: TaskState, a: Action)
  {
    match a
    case SubmitPending => Present(s.taskId)
    case UploadFulfilled(t, _) => t != ""
    case _ => true
  }

  predicate GuardedRun(s: TaskState, actions: seq<Action>)
    decreases |actions|
  {
    actions == [] || (Permitted(s, actions[0]) && GuardedRun(Reduce(s, actions[0]), actions[1..]))
  }

  /** The survey submission is only in flight while a task id is present. */
  predicate SubmitHasTask(s: TaskState)
  {
    s.submitStatus == Loading ==> Present(s.taskId)
  }

  lemma PermittedStepKeepsSubmitHasTask(s: TaskState, a: Action)
    requires SubmitHasTask(s) && Permitted(s, a)
    ensures SubmitHasTask(Reduce(s, a))
  {
  }

  /**
   * Along every guarded sequence of dispatches, whatever the order in which
   * requests settle (stale ones included), `submitStatus` is never loading
   * while no task id is held.
   */
  lemma {:induction false} GuardedRunKeepsSubmitHasTask(s: TaskState, actions: seq<Action>)
    requires SubmitHasTask(s) && GuardedRun(s, actions)
    ensures SubmitHasTask(Run(s, actions))
    decreases |actions|
  {
    if actions != [] {
      PermittedStepKeepsSubmitHasTask(s, actions[0]);
      GuardedRunKeepsSubmitHasTask(Reduce(s, actions[0]), actions[1..]);
    }
  }

  /** Every upload outcome may be dispatched: a fulfilled upload always carries a task id. */
  lemma UploadOutcomeIsPermitted(s: TaskState, reply: Reply<Option<string>>, photos: seq<Slot>)
    ensures Permitted(s, UploadOutcome(reply, photos))
  {
  }

  /** An upload that fails after a request started leaves the stored task id null when there was none. */
  lemma FailedFirstUpload(message: string)
    ensures var s := Run(Initial, [UploadPending, UploadRejected(message)]);
            s.uploadStatus == Failed && s.error == Some(message) && s.taskId.None?
  {
    RunStep(Initial, UploadPending, [UploadRejected(message)]);
    RunStep(Reduce(Initial, UploadPending), UploadRejected(message), []);
  }

  /**
   * A request that settles after `resetTest` is not discarded: a survey
   * submission that completes after a restart marks the fresh state as
   * submitted and its report as processing, with no task id.
   */
  lemma StaleSubmitAfterReset(t: string, p: seq<Slot>, m: map<string, Value>)
    requires t != ""
    ensures var s := Run(Initial, [UploadPending, UploadFulfilled(t, p), SetAnswers(m), SubmitPending,
                                   ResetTest, SubmitFulfilled]);
            s.taskId.None? && s.submitStatus == Succeeded && s.reportStatus == Processing
  {
    var before := [UploadPending, UploadFulfilled(t, p), SetAnswers(m), SubmitPending];
    RunAppend(Initial, before, [ResetTest, SubmitFulfilled]);
    assert before + [ResetTest, SubmitFulfilled] ==
           [UploadPending, UploadFulfilled(t, p), SetAnswers(m), SubmitPending, ResetTest, SubmitFulfilled];
    var mid := Run(Initial, before);
    RunStep(mid, ResetTest, [SubmitFulfilled]);
    RunStep(Initial, SubmitFulfilled, []);
  }

  /** A ready report goes back to processing when a later check answers "processing". */
  lemma ReadyIsNotTerminal(s: TaskState, url: Option<string>)
    requires s.reportStatus == Ready
    ensures Reduce(s, CheckFulfilled(ReportBody("processing", url))).reportStatus == Processing
    ensures Reduce(s, CheckRejected(ReportNotFoundMessage)).reportStatus == ReportFailed
  {
  }

  // ---------------------------------------------------------------------------
  // The store object

  /** The store: its fields are updated in place by one method per action. */
  class Store {
    var photos: seq<Slot>
    var answers: map<string, Value>
    var taskId: Option<string>
    var uploadStatus: PhaseStatus
    var submitStatus: PhaseStatus
    var reportStatus: ReportStatus
    var reportUrl: Option<string>
    var error: Option<string>

    function State(): TaskState
      reads this
    {
      TaskState(photos, answers, taskId, uploadStatus, submitStatus, reportStatus, reportUrl, error)
    }

    constructor ()
      ensures State() == Initial
    {
      photos, answers, taskId := [], map[], None;
      uploadStatus, submitStatus, reportStatus := Idle, Idle, ReportIdle;
      reportUrl, error := None, None;
    }

    method ResetTest()
      modifies this
      ensures State() == Reduce(old(State()), Action.ResetTest)
    {
      photos, answers, taskId := [], map[], None;
      uploadStatus, submitStatus, reportStatus := Idle, Idle, ReportIdle;
      reportUrl, error := None, None;
    }

    method SetAnswers(m: map<string, Value>)
      modifies this
      ensures State() == Reduce(old(State()), Action.SetAnswers(m))
    {
      answers := m;
    }

    method ClearError()
      modifies this
      ensures State() == Reduce(old(State()), Action.ClearError)
    {
      error := None;
    }

    method UploadPending()
      modifies this
      ensures State() == Reduce(old(State()), Action.UploadPending)
    {
      uploadStatus := Loading;
      error := None;
    }

    method UploadFulfilled(t: string, p: seq<Slot>)
      modifies this
      ensures State() == Reduce(old(State()), Action.UploadFulfilled(t, p))
    {
      uploadStatus := Succeeded;
      taskId := Some(t);
      photos := p;
    }

    method UploadRejected(m: string)
      modifies this
      ensures State() == Reduce(old(State()), Action.UploadRejected(m))
    {
      uploadStatus := Failed;
      error := Some(m);
    }

    method SubmitPending()
      modifies this
      ensures State() == Reduce(old(State()), Action.SubmitPending)
    {
      submitStatus := Loading;
      error := None;
    }

    method SubmitFulfilled()
      modifies this
      ensures State() == Reduce(old(State()), Action.SubmitFulfilled)
    {
      submitStatus := Succeeded;
      reportStatus := Processing;
    }

    method SubmitRejected(m: string)
      modifies this
      ensures State() == Reduce(old(State()), Action.SubmitRejected(m))
    {
      submitStatus := Failed;
      error := Some(m);
    }

    method CheckPending()
      modifies this
      ensures State() == Reduce(old(State()), Action.CheckPending)
    {
      error := None;
    }

    method CheckFulfilled(body: ReportBody)
      modifies this
      ensures State() == Reduce(old(State()), Action.CheckFulfilled(body))
    {
      if body.status == "completed" && Present(body.reportUrl) {
        reportStatus := Ready;
        reportUrl := body.reportUrl;
      } else if body.status == "processing" {
        reportStatus := Processing;
      } else if body.status == "error" {
        reportStatus := ReportFailed;
        error := Some(ReportGenerationFailed);
      }
    }

    method CheckRejected(m: string)
      modifies this
      ensures State() == Reduce(old(State()), Action.CheckRejected(m))
    {
      reportStatus := ReportFailed;
      error := Some(m);
    }

    /** `dispatch(action)`: hands the action to its case of the reducer. */
    method Dispatch(a: Action)
      modifies this
      ensures State() == Reduce(old(State()), a)
    {
      match a
      case ResetTest => ResetTest();
      case SetAnswers(m) => SetAnswers(m);
      case ClearError => ClearError();
      case UploadPending => UploadPending();
      case UploadFulfilled(t, p) => UploadFulfilled(t, p);
      case UploadRejected(m) => UploadRejected(m);
      case SubmitPending => SubmitPending();
      case SubmitFulfilled => SubmitFulfilled();
      case SubmitRejected(m) => SubmitRejected(m);
      case CheckPending => CheckPending();
      case CheckFulfilled(body) => CheckFulfilled(body);
      case CheckRejected(m) => CheckRejected(m);
    }

    /** Dispatches `ds` in order; a thunk contributes its pending action. */
    method DispatchAll(ds: seq<Dispatch>)
      modifies this
      ensures State() == RunDispatches(old(State()), ds)
    {
      var i := 0;
      while i < |ds|
        invariant 0 <= i <= |ds|
        invariant RunDispatches(State(), ds[i..]) == RunDispatches(old(State()), ds)
      {
        assert ds[i..][1..] == ds[i + 1..];
        Dispatch(ActionOf(ds[i]));
        i := i + 1;
      }
    }
  }
}
