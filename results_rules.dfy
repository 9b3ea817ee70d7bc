/**
 * The results screen's rules: when it checks the report status (at once,
 * on each polling tick, on retry), the status line it shows, the short
 * emotional and social verdicts it draws from the answers, and when it
 * offers the report for viewing and download. The timer itself is not
 * modelled: a tick is a call of `TickRequests`.
 */
module ResultsRules {

  import opened Wrappers
  import opened JsValues
  import opened TaskStore

  /** The polling effect's guard: a task id, and a report that is not ready yet. */
  predicate ArmsPolling(taskId: Option<string>, reportStatus: ReportStatus)
  {
    Present(taskId) && reportStatus != Ready
  }

  /** The check the polling effect issues at once when it runs. */
  function EffectRequests(taskId: Option<string>, reportStatus: ReportStatus): (rs: seq<Request>)
    ensures rs != [] <==> ArmsPolling(taskId, reportStatus)
    ensures rs != [] ==> rs == [CheckReportStatus(taskId.value)]
  {
    if Present(taskId) && reportStatus != Ready then [CheckReportStatus(taskId.value)] else []
  }

  /**
   * One tick of the interval armed for `taskId`; `captured` is the report
   * status the effect saw when it armed the interval, not the current one.
   */
  function TickRequests(taskId: string, captured: ReportStatus): (rs: seq<Request>)
    ensures rs != [] <==> captured == Processing
    ensures rs != [] ==> rs == [CheckReportStatus(taskId)]
  {
    if captured == Processing then [CheckReportStatus(taskId)] else []
  }

  /** `handleRetryCheck`. */
  function RetryRequests(taskId: Option<string>): (rs: seq<Request>)
    ensures rs != [] <==> Present(taskId)
    ensures rs != [] ==> rs == [CheckReportStatus(taskId.value)]
  {
    if Present(taskId) then [CheckReportStatus(taskId.value)] else []
  }

  /**
   * An interval is only armed by an effect that passed its guard, so a tick
   * that checks the status always targets the `taskId` the effect saw, and no
   * tick checks a report that was failed or ready when the interval was armed.
   */
  lemma TickOnlyWhileProcessing(taskId: Option<string>, captured: ReportStatus)
    requires ArmsPolling(taskId, captured)
    ensures TickRequests(taskId.value, captured) != [] ==>
              captured == Processing && TickRequests(taskId.value, captured) == EffectRequests(taskId, captured)
    ensures captured == ReportFailed ==> TickRequests(taskId.value, captured) == []
  {
  }

  const ProcessingMessage := "Анализ в процессе..."
  const ReadyMessage := "Отчет готов!"
  const FailedMessage := "Произошла ошибка при создании отчета"
  const DefaultMessage := "Обрабатываем результаты"

  /** `getStatusMessage`: one message per report status, the default for idle. */
  function StatusMessage(status: ReportStatus): (m: string)
    ensures status == Processing <==> m == ProcessingMessage
    ensures status == Ready <==> m == ReadyMessage
    ensures status == ReportFailed <==> m == FailedMessage
    ensures status == ReportIdle <==> m == DefaultMessage
  {
    match status
    case Processing => ProcessingMessage
    case Ready => ReadyMessage
    case ReportFailed => FailedMessage
    case ReportIdle => DefaultMessage
  }

  const JoyKey := "joy_frequency"
  const SadnessKey := "sadness_frequency"
  const FriendsKey := "makes_friends_easily"

  /** The short verdicts the results screen draws from the answers. */
  datatype Verdict =
    | EmotionalNormal | EmotionalAttention | EmotionalMiddle
    | SocialGood | SocialDifficulty | SocialNormal

  /** The text the screen shows for a verdict. */
  function VerdictText(v: Verdict): string
  {
    match v
    case EmotionalNormal => "Эмоциональное состояние ребенка в норме. Демонстрирует здоровый эмоциональный баланс."
    case EmotionalAttention => "Рекомендуется обратить внимание на эмоциональное состояние ребенка. Возможна необходимость в дополнительной поддержке."
    case EmotionalMiddle => "Эмоциональное развитие находится в пределах нормы с некоторыми особенностями."
    case SocialGood => "Ребенок демонстрирует хорошие социальные навыки и легко устанавливает контакты."
    case SocialDifficulty => "Отмечаются некоторые трудности в социальном взаимодействии. Рекомендуется работа над коммуникативными навыками."
    case SocialNormal => "Социальные навыки развиваются нормально."
  }

  /** The emotional verdict for a joy score and a sadness score. */
  function EmotionalVerdict(joy: Score, sadness: Score): (r: Verdict)
    ensures r == EmotionalNormal || r == EmotionalAttention || r == EmotionalMiddle
    ensures r == EmotionalNormal <==> AtLeast(joy, 4) && AtMost(sadness, 2)
    ensures r == EmotionalAttention <==>
              !(AtLeast(joy, 4) && AtMost(sadness, 2)) && (AtMost(joy, 2) || AtLeast(sadness, 4))
    ensures r == EmotionalMiddle <==>
              !(AtLeast(joy, 4) && AtMost(sadness, 2)) && !(AtMost(joy, 2) || AtLeast(sadness, 4))
  {
    if AtLeast(joy, 4) && AtMost(sadness, 2) then EmotionalNormal
    else if AtMost(joy, 2) || AtLeast(sadness, 4) then EmotionalAttention
    else EmotionalMiddle
  }

  /** `getEmotionalAnalysis`; the screen shows `VerdictText` of the result. */
  function EmotionalAnalysis(answers: map<string, Value>): Verdict
  {
    EmotionalVerdict(ScoreOf(answers, JoyKey), ScoreOf(answers, SadnessKey))
  }

  /** The social verdict for a friends score. */
  function SocialVerdict(friends: Score): (r: Verdict)
    ensures r == SocialGood || r == SocialDifficulty || r == SocialNormal
    ensures r == SocialGood <==> AtLeast(friends, 4)
    ensures r == SocialDifficulty <==> AtMost(friends, 2)
    ensures r == SocialNormal <==> !AtLeast(friends, 4) && !AtMost(friends, 2)
  {
    if AtLeast(friends, 4) then SocialGood
    else if AtMost(friends, 2) then SocialDifficulty
    else SocialNormal
  }

  /** `getSocialAnalysis`; the screen shows `VerdictText` of the result. */
  function SocialAnalysis(answers: map<string, Value>): Verdict
  {
    SocialVerdict(ScoreOf(answers, FriendsKey))
  }

  /** Missing answers count as 0, so they draw the attention and difficulty verdicts. */
  lemma MissingScoresCountAsZero(answers: map<string, Value>)
    requires JoyKey !in answers && FriendsKey !in answers
    ensures EmotionalAnalysis(answers) == EmotionalAttention
    ensures SocialAnalysis(answers) == SocialDifficulty
  {
  }

  /** A numeric score of 3 is the middle of both scales. */
  lemma ThreeIsTheMiddle(answers: map<string, Value>)
    requires Lookup(answers, JoyKey) == Number(3) && Lookup(answers, SadnessKey) == Number(3)
    requires Lookup(answers, FriendsKey) == Number(3)
    ensures EmotionalAnalysis(answers) == EmotionalMiddle
    ensures SocialAnalysis(answers) == SocialNormal
  {
  }

  /**
   * As written, the scale answers are stored as their labels, and a label
   * compared with a number is NaN: whatever labels were chosen, the screen
   * shows the middle emotional verdict and the normal social one.
   */
  lemma LabelAnswersGiveMiddleVerdicts(answers: map<string, Value>, joy: nat, sadness: nat, friends: nat)
    requires joy < |ScaleLabels| && Lookup(answers, JoyKey) == Text(ScaleLabels[joy])
    requires sadness < |ScaleLabels| && Lookup(answers, SadnessKey) == Text(ScaleLabels[sadness])
    requires friends < |ScaleLabels| && Lookup(answers, FriendsKey) == Text(ScaleLabels[friends])
    ensures EmotionalAnalysis(answers) == EmotionalMiddle
    ensures SocialAnalysis(answers) == SocialNormal
  {
    LabelScoreIsNaN(answers, JoyKey, joy);
    LabelScoreIsNaN(answers, SadnessKey, sadness);
    LabelScoreIsNaN(answers, FriendsKey, friends);
  }

  /**
   * With the intended label scores, the labels reach every verdict: "always"
   * joy with "very rarely" sadness is normal, "rarely" joy calls for
   * attention, and "often" friends are good social skills.
   */
  lemma ScaleScoresReachEveryVerdict(answers: map<string, Value>)
    requires Lookup(answers, JoyKey) == Text(ScaleLabels[4])
    requires Lookup(answers, SadnessKey) == Text(ScaleLabels[0])
    requires Lookup(answers, FriendsKey) == Text(ScaleLabels[3])
    ensures EmotionalVerdict(ScaleScoreOf(answers, JoyKey), ScaleScoreOf(answers, SadnessKey)) == EmotionalNormal
    ensures EmotionalVerdict(ScaleScoreOf(answers[JoyKey := Text(ScaleLabels[1])], JoyKey),
                             ScaleScoreOf(answers, SadnessKey)) == EmotionalAttention
    ensures SocialVerdict(ScaleScoreOf(answers, FriendsKey)) == SocialGood
  {
    ScaleLabelsReachThresholds(answers, JoyKey, 4);
    ScaleLabelsReachThresholds(answers, SadnessKey, 0);
    ScaleLabelsReachThresholds(answers, FriendsKey, 3);
    ScaleLabelsReachThresholds(answers[JoyKey := Text(ScaleLabels[1])], JoyKey, 1);
  }

  /** The view and download buttons: shown only for a ready report with a URL. */
  predicate ShowsReportActions(reportStatus: ReportStatus, reportUrl: Option<string>)
  {
    reportStatus == Ready && Present(reportUrl)
  }

  /**
   * A status check that completes with a URL makes the report ready, shows
   * the view and download buttons, and disarms polling: the effect that runs
   * on the new status issues no check and arms no interval.
   */
  lemma CompletedReportShowsActions(s: TaskState, url: string)
    requires url != ""
    ensures var t := Reduce(s, CheckFulfilled(ReportBody("completed", Some(url))));
            t.reportStatus == Ready && t.reportUrl == Some(url) &&
            ShowsReportActions(t.reportStatus, t.reportUrl) &&
            EffectRequests(t.taskId, t.reportStatus) == []
  {
  }

  /** No action but a completed check with a URL turns the buttons on. */
  lemma ActionsNeedCompletedCheck(s: TaskState, a: Action)
    requires !ShowsReportActions(s.reportStatus, s.reportUrl)
    ensures ShowsReportActions(Reduce(s, a).reportStatus, Reduce(s, a).reportUrl) ==>
              a.CheckFulfilled? && a.body.status == "completed" && Present(a.body.reportUrl)
  {
  }

  /**
   * The stale request the screens can actually produce: a status check in
   * flight when the user restarts. A completed reply is still applied to the
   * fresh state, which then holds a ready report with its URL and no task id.
   * The wizard is on the welcome screen by then, so nothing shows it yet.
   */
  lemma StaleCheckAfterReset(s: TaskState, url: string)
    requires url != ""
    ensures var t := Run(s, [CheckPending, ResetTest, CheckFulfilled(ReportBody("completed", Some(url)))]);
            t.taskId.None? && t.reportStatus == Ready && t.reportUrl == Some(url) &&
            ShowsReportActions(t.reportStatus, t.reportUrl)
  {
    var done := CheckFulfilled(ReportBody("completed", Some(url)));
    assert [CheckPending, ResetTest, done] == [CheckPending] + [ResetTest, done];
    assert [ResetTest, done] == [ResetTest] + [done];
    assert [done] == [done] + [];
    RunStep(s, CheckPending, [ResetTest, done]);
    RunStep(Reduce(s, CheckPending), ResetTest, [done]);
    RunStep(Initial, done, []);
  }

  /**
   * The stale reply the user can see: the old run's check lands after the
   * next run's submission and that run's first "processing" reply. The new
   * run's results screen then shows the old report's view and download
   * buttons, and its effect never checks the new task's report.
   */
  lemma StaleCheckShownInNextRun(s: TaskState, oldUrl: string)
    requires oldUrl != ""
    ensures var t := Run(s, [SubmitFulfilled, CheckPending, CheckFulfilled(ReportBody("processing", None)),
                             CheckFulfilled(ReportBody("completed", Some(oldUrl)))]);
            t.taskId == s.taskId && t.reportStatus == Ready && t.reportUrl == Some(oldUrl) &&
            ShowsReportActions(t.reportStatus, t.reportUrl) && EffectRequests(t.taskId, t.reportStatus) == []
  {
    var busy := CheckFulfilled(ReportBody("processing", None));
    var done := CheckFulfilled(ReportBody("completed", Some(oldUrl)));
    assert [SubmitFulfilled, CheckPending, busy, done] == [SubmitFulfilled] + [CheckPending, busy, done];
    assert [CheckPending, busy, done] == [CheckPending] + [busy, done];
    assert [busy, done] == [busy] + [done];
    assert [done] == [done] + [];
    var s1 := Reduce(s, SubmitFulfilled);
    var s2 := Reduce(s1, CheckPending);
    var s3 := Reduce(s2, busy);
    RunStep(s, SubmitFulfilled, [CheckPending, busy, done]);
    RunStep(s1, CheckPending, [busy, done]);
    RunStep(s2, busy, [done]);
    RunStep(s3, done, []);
  }

  /**
   * A failed status check stops the ticks of the interval armed on the
   * failed status, but not the checking: the effect runs again on the new
   * status, passes its guard (a task id, a report that is not ready) and
   * issues one check at once; a retry issues one check too.
   */
  lemma FailedCheckStopsTicks(s: TaskState, m: string)
    requires Present(s.taskId)
    ensures var t := Reduce(s, CheckRejected(m));
            t.reportStatus == ReportFailed &&
            TickRequests(s.taskId.value, t.reportStatus) == [] &&
            EffectRequests(t.taskId, t.reportStatus) == [CheckReportStatus(s.taskId.value)] &&
            RetryRequests(t.taskId) == [CheckReportStatus(s.taskId.value)]
  {
  }
}
