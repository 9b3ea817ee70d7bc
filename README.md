# psychoTask wizard: a Dafny model

psychoTask is a four-screen wizard for a child-psychology drawing test:
welcome, upload three drawings, answer a questionnaire, see the results.
This project models its core and proves properties of that model:

- the test store (`app/store/testSlice.ts`). One record holds the photos, the answers, a task id, three status fields, the report URL and the last error. The reducer handles `resetTest`, `setAnswers` and `clearError`, plus the pending, fulfilled and rejected outcomes of three requests: upload the photos, submit the survey, check the report status. It is modelled as a pure `Reduce` on a `TaskState` value. A `Store` class has one method per action, each proved to do what `Reduce` does. Each request's reply (HTTP status, status text, error detail, body, or a thrown exception) is an input. `UploadOutcome`, `SubmitOutcome` and `CheckOutcome` turn a reply into the action the request settles with.
- the screen router (`app/components/PsychologyTest.tsx`). A `Router` class holds the current screen. The two forward moves are gated on the store's status fields.
- the photo slots (`app/components/PhotoUploadScreen.tsx`). The slots are a JavaScript array that the screen copies, writes by index, fills at the first empty element, appends to and filters. Array elements are modelled as holes, `undefined` or files, because the source's behaviour depends on that difference.
- the questionnaire (`app/components/QuestionsScreen.tsx`). It flattens the sections into a question list, checks that every required question is answered, and on submit dispatches `setAnswers` and then the survey submission.
- the results rules (`app/components/ResultsScreen.tsx`). These are the polling guards: the immediate check, each tick, and retry. They also include the status message, the emotional and social verdicts, and when the view and download buttons show.
- the report text (`app/utils/pdfGenerator.ts`). Four analyses build their text by repeated appending. Each is specified as a sequence of paragraphs. Each method is proved to produce exactly those paragraphs, joined in order.

JavaScript semantics are written out where the source relies on them:

- Truthiness: `""` and `null` are both falsy.
- `answers.x || 0` followed by `>=` or `<=`: a non-numeric string becomes NaN, and every comparison with NaN is false.
- Sparse arrays: `[...a]` turns holes into `undefined`, `filter` skips holes, and `findIndex(p => !p)` treats holes and `undefined` alike.

Some behaviours of the code are easy to miss, and the model keeps them as written:

- A request is not cancelled by a restart. The restart button is on the results screen, so the request the screens can leave in flight is a status check. A completed reply is applied to the fresh state, which then holds a ready report with the old URL and no task id, while the wizard is on the welcome screen (app/store/testSlice.ts:110-112 and 153-157; `ResultsRules.StaleCheckAfterReset`). The reply becomes visible when it lands after the next run's submission and that run's first "processing" reply: the new results screen then shows the old report's view and download buttons, and its effect never checks the new report (app/components/ResultsScreen.tsx:25-39; `ResultsRules.StaleCheckShownInNextRun`). The reducer treats a late submission the same way (`TaskStore.StaleSubmitAfterReset`).
- `ready` is not a final status. A later check moves the report back to processing or failed (app/store/testSlice.ts:153-168; `TaskStore.ReadyIsNotTerminal`). A check that returns `processing` keeps the old report URL.
- A `processing` status reply is accepted in any state, whatever the submission status (app/store/testSlice.ts:158-159; `TaskStore.RepeatedProcessingIsIdempotent`).
- A polling tick compares the status captured when the interval was armed, not the latest one (app/components/ResultsScreen.tsx:31-35; `ResultsRules.TickRequests`).

## Model

| member | source | states |
|---|---|---|
| JsValues.ScoreOf | app/components/ResultsScreen.tsx:93-94 | an answer with the fallback to 0, as a comparison sees it: a falsy answer is 0, a number is itself, and a non-empty string is NaN exactly when it is not all decimal digits, and otherwise its decimal value |
| JsValues.ScaleIndex | app/components/QuestionsScreen.tsx:139 | recognises exactly the five scale labels, giving each its position |
| JsValues.ScaleScoreOf | app/components/QuestionsScreen.tsx:139-151 | intended scoring: the label at position i scores i+1 (1 to 5); any other answer scores as `ScoreOf` |
| JsValues.LabelsAreNotDigits | app/components/QuestionsScreen.tsx:139 | no scale label is empty or a decimal number |
| JsValues.LabelScoreIsNaN | app/components/QuestionsScreen.tsx:148-151 | a stored scale label is NaN when compared: neither at least nor at most any threshold |
| JsValues.ScaleLabelsReachThresholds | app/components/QuestionsScreen.tsx:139 | with intended scoring, a label reaches "at least 4" iff it is "often" or "always", and "at most 2" iff it is "very rarely" or "rarely" |
| TaskStore.Reduce | app/store/testSlice.ts:106-170 | the reducer, one case per action; each case's effect, with the frame that nothing else changes, is written out by its own lemma below (`ResetRestoresInitial` to `CheckRejectedFailsReport`) for the scenario lemmas to use, and each `Store` method is proved equal to it |
| TaskStore.Run | app/store/testSlice.ts:106-170 | the reducer applied to a sequence of actions in order; `RunAppend` states that it composes |
| TaskStore.RunDispatches | app/store/testSlice.ts:106-170 | a sequence of dispatches, a thunk contributing its pending action; `Store.DispatchAll` is proved to reach it and `Questionnaire.SubmitEffect` states what a submit makes of it |
| TaskStore.ThrownMessage | app/store/testSlice.ts:52 | the message of a thrown `Error`, or the request's own fallback otherwise; `UploadOutcome`, `SubmitOutcome` and `CheckOutcome` state each request's fallback |
| TaskStore.PendingOf | app/store/testSlice.ts:121-152 | each request starts with its own pending action, and only with it |
| TaskStore.FailureMessage | app/store/testSlice.ts:39-42 | a non-ok reply's message is prefix plus status text, then " - " and the detail exactly when a detail exists |
| TaskStore.StatusCheckMessage | app/store/testSlice.ts:91-96 | "Report not found" iff the status is 404; otherwise "Status check failed: " followed by the status text |
| TaskStore.UploadOutcome | app/store/testSlice.ts:25-55 | the upload fulfils iff the reply is ok with a truthy task id, carrying that id and the photos; otherwise it rejects with the failure, missing-id or thrown message |
| TaskStore.SubmitOutcome | app/store/testSlice.ts:57-83 | the submission fulfils iff the reply is ok; otherwise it rejects with the failure or thrown message |
| TaskStore.CheckOutcome | app/store/testSlice.ts:85-104 | the check fulfils iff the reply is ok, carrying its body; otherwise it rejects with the status-check or thrown message |
| TaskStore.ResetRestoresInitial | app/store/testSlice.ts:110-112 | reset returns the initial state from any state: empty photos and answers, null id, URL and error, all statuses idle |
| TaskStore.SetAnswersReplacesAnswers | app/store/testSlice.ts:113-115 | `setAnswers` replaces the answers and changes nothing else |
| TaskStore.ClearErrorOnlyClearsError | app/store/testSlice.ts:116-118 | `clearError` nulls the error and changes nothing else |
| TaskStore.UploadPendingFrame | app/store/testSlice.ts:123-126 | upload pending: status loading, error cleared, nothing else changes |
| TaskStore.UploadFulfilledRoundTrip | app/store/testSlice.ts:127-131 | upload fulfilled: succeeded, and the store holds exactly the payload's task id and photos of the payload; nothing else changes |
| TaskStore.UploadRejectedKeepsProgress | app/store/testSlice.ts:132-135 | upload rejected: failed with the message; task id, photos and the rest are kept |
| TaskStore.SubmitPendingFrame | app/store/testSlice.ts:137-140 | submit pending: loading, error cleared, nothing else changes |
| TaskStore.SubmitFulfilledStartsReport | app/store/testSlice.ts:141-144 | submit fulfilled: succeeded and the report processing; nothing else changes |
| TaskStore.SubmitRejectedKeepsAnswers | app/store/testSlice.ts:145-148 | submit rejected: failed with the message; answers and the rest are kept |
| TaskStore.CheckPendingOnlyClearsError | app/store/testSlice.ts:150-152 | check pending only clears the error |
| TaskStore.CheckFulfilledCases | app/store/testSlice.ts:153-164 | the four outcomes of a status body: completed with a truthy URL is ready with that URL; processing is processing; error is failed with "Report generation failed"; anything else changes nothing |
| TaskStore.CheckRejectedFailsReport | app/store/testSlice.ts:165-168 | check rejected: report failed with the message; nothing else changes |
| TaskStore.ReportUrlOnlyFromCompletedCheck | app/store/testSlice.ts:153-158 | apart from reset, only a completed check changes the report URL, and only to a truthy one |
| TaskStore.UnknownTaskFailsReport | app/store/testSlice.ts:91-94 | a 404 reply to a status check fails the report with "Report not found" |
| TaskStore.RunAppend | app/store/testSlice.ts:106-170 | dispatching two action sequences one after the other is dispatching their concatenation |
| TaskStore.RepeatedProcessingIsIdempotent | app/store/testSlice.ts:158-159 | any number of "processing" replies leave the report processing and the rest of the state, URL included, unchanged |
| TaskStore.PermittedStepKeepsSubmitHasTask | app/components/QuestionsScreen.tsx:69-90 | one guarded action keeps the invariant "submission loading implies a task id" |
| TaskStore.GuardedRunKeepsSubmitHasTask | app/components/QuestionsScreen.tsx:69-90 | every guarded action sequence, in any settlement order, keeps "submission loading implies a task id" |
| TaskStore.UploadOutcomeIsPermitted | app/store/testSlice.ts:46-50 | every upload outcome meets the guard: a fulfilled upload never carries an empty task id |
| TaskStore.FailedFirstUpload | app/store/testSlice.ts:123-135 | a first upload that fails ends failed with its message and no task id |
| TaskStore.StaleSubmitAfterReset | app/store/testSlice.ts:141-144 | a submission that settles after a reset still marks the fresh state submitted and processing, with no task id |
| TaskStore.ReadyIsNotTerminal | app/store/testSlice.ts:153-168 | a ready report goes back to processing on a "processing" reply and to failed on a rejected check |
| TaskStore.Store.constructor | app/store/testSlice.ts:14-23 | the store starts in the initial state |
| TaskStore.Store.ResetTest | app/store/testSlice.ts:110-112 | in-place update equal to the reducer's `resetTest` case |
| TaskStore.Store.SetAnswers | app/store/testSlice.ts:113-115 | in-place update equal to the reducer's `setAnswers` case |
| TaskStore.Store.ClearError | app/store/testSlice.ts:116-118 | in-place update equal to the reducer's `clearError` case |
| TaskStore.Store.UploadPending | app/store/testSlice.ts:123-126 | in-place update equal to the reducer's upload-pending case |
| TaskStore.Store.UploadFulfilled | app/store/testSlice.ts:127-131 | in-place update equal to the reducer's upload-fulfilled case |
| TaskStore.Store.UploadRejected | app/store/testSlice.ts:132-135 | in-place update equal to the reducer's upload-rejected case |
| TaskStore.Store.SubmitPending | app/store/testSlice.ts:137-140 | in-place update equal to the reducer's submit-pending case |
| TaskStore.Store.SubmitFulfilled | app/store/testSlice.ts:141-144 | in-place update equal to the reducer's submit-fulfilled case |
| TaskStore.Store.SubmitRejected | app/store/testSlice.ts:145-148 | in-place update equal to the reducer's submit-rejected case |
| TaskStore.Store.CheckPending | app/store/testSlice.ts:150-152 | in-place update equal to the reducer's check-pending case |
| TaskStore.Store.CheckFulfilled | app/store/testSlice.ts:153-164 | in-place update equal to the reducer's check-fulfilled case, all four branches |
| TaskStore.Store.CheckRejected | app/store/testSlice.ts:165-168 | in-place update equal to the reducer's check-rejected case |
| TaskStore.Store.Dispatch | app/store/testSlice.ts:106-170 | dispatching any action updates the fields as the reducer says |
| TaskStore.Store.DispatchAll | app/store/testSlice.ts:106-170 | dispatching a sequence in order leaves the state `RunDispatches` gives, with a thunk contributing its pending action |
| ScreenRouter.Render | app/components/PsychologyTest.tsx:37-49 | each of upload, questions and results draws its own screen; every other value, unknown ones included, draws welcome |
| ScreenRouter.Router.constructor | app/components/PsychologyTest.tsx:12 | the wizard starts on the welcome screen |
| ScreenRouter.Router.HandleStartTest | app/components/PsychologyTest.tsx:16-18 | start always moves to upload |
| ScreenRouter.Router.HandlePhotosUploaded | app/components/PsychologyTest.tsx:20-24 | moves to questions iff the upload succeeded; otherwise the screen is unchanged |
| ScreenRouter.Router.HandleQuestionsCompleted | app/components/PsychologyTest.tsx:26-30 | moves to results iff the submission succeeded; otherwise the screen is unchanged |
| ScreenRouter.Router.HandleRestart | app/components/PsychologyTest.tsx:32-35 | back to welcome, with the store in its initial state |
| PhotoSlots.Spread | app/components/PhotoUploadScreen.tsx:48 | the copy has the same length and elements, with every hole turned into `undefined` |
| PhotoSlots.WriteAt | app/components/PhotoUploadScreen.tsx:50 | writing index i sets it, keeps every other element, and past the end lengthens the array to i+1 with holes in between |
| PhotoSlots.FirstUnfilled | app/components/PhotoUploadScreen.tsx:52 | the first element holding no file (hole or `undefined`), or none when every element holds a file |
| PhotoSlots.SelectFile | app/components/PhotoUploadScreen.tsx:47-59 | an index writes that slot, else the first empty slot is filled, else the file is appended only below three; the other elements are kept and at most three slots result |
| PhotoSlots.IsImage | app/components/PhotoUploadScreen.tsx:46 | a file is accepted iff its MIME type starts with `image/`; `PhotoUploadScreen.HandleFileSelect` states that any other file changes nothing |
| PhotoSlots.Removed | app/components/PhotoUploadScreen.tsx:71 | the filtered array never has a hole and is never longer than before; `RemovedSplits`, `RemovedOutOfRange` and `RemovedWithoutHoles` state which elements remain |
| PhotoSlots.RemovedSplits | app/components/PhotoUploadScreen.tsx:71 | removing slot i keeps the elements before and after it in order, without the holes |
| PhotoSlots.RemovedOutOfRange | app/components/PhotoUploadScreen.tsx:71 | removal with an index outside the array only drops holes |
| PhotoSlots.RemovedWithoutHoles | app/components/PhotoUploadScreen.tsx:71 | on an array without holes, removal leaves exactly the other elements in order, one fewer |
| PhotoSlots.IsComplete | app/components/PhotoUploadScreen.tsx:83 | completeness as written, a length of three; `SparseSelectionCompletes` and `AllFilledIsThreeFiles` relate it to the files actually held |
| PhotoSlots.UploadButtonEnabled | app/components/PhotoUploadScreen.tsx:193 | the upload button is enabled iff the array is complete and no upload is loading; `UploadLocksControls` and `RemoveAndRefill` state it |
| PhotoSlots.SlotControlsEnabled | app/components/PhotoUploadScreen.tsx:84 | the remove buttons and file inputs (lines 148 and 167) are enabled iff no upload is loading; `UploadLocksControls` states it |
| PhotoSlots.UploadLocksControls | app/components/PhotoUploadScreen.tsx:74-193 | the upload button is enabled iff three slots exist and the slot controls are enabled; starting the upload disables the button and the slot controls, and either settlement enables the slot controls again |
| PhotoSlots.SparseSelectionCompletes | app/components/PhotoUploadScreen.tsx:83 | as written: one file for the third slot of an empty screen counts as complete and enables the upload |
| PhotoSlots.AllFilledIsThreeFiles | app/components/PhotoUploadScreen.tsx:83 | intended completeness: three slots all filled iff the array is complete and holds three files |
| PhotoSlots.FillingEachSlotCompletes | app/components/PhotoUploadScreen.tsx:49-50 | choosing a file for each of the three slots fills them all, from any screen state |
| PhotoSlots.RemovalShiftsSlots | app/components/PhotoUploadScreen.tsx:71 | as written: removing the first of three photos moves the other two down a slot |
| PhotoSlots.ClearSlot | app/components/PhotoUploadScreen.tsx:70-72 | intended removal: the slot is emptied in place and every other slot is kept |
| PhotoSlots.ClearedSlotIsRefilledInPlace | app/components/PhotoUploadScreen.tsx:47-54 | after an in-place removal, a file chosen through the cleared box's input (which passes its index) lands in the cleared slot, and so does a file chosen without an index |
| PhotoSlots.RemoveAndRefill | app/components/PhotoUploadScreen.tsx:47-83 | three files, each chosen through its box's index, enable the upload; removing the second disables it and shifts the third down; a file chosen through the third box's input re-enables it |
| PhotoSlots.PhotoUploadScreen.constructor | app/components/PhotoUploadScreen.tsx:14 | the slots start empty |
| PhotoSlots.PhotoUploadScreen.HandleFileSelect | app/components/PhotoUploadScreen.tsx:42-62 | a null or empty file list or a non-image file changes nothing; otherwise the slots become `SelectFile` of the first file |
| PhotoSlots.PhotoUploadScreen.RemovePhoto | app/components/PhotoUploadScreen.tsx:70-72 | the slots become the filtered array |
| PhotoSlots.PhotoUploadScreen.HandleUpload | app/components/PhotoUploadScreen.tsx:74-77 | the upload starts, with the store's upload loading, iff the array has length 3; otherwise nothing changes |
| Questionnaire.Flatten | app/components/QuestionsScreen.tsx:58 | a question is in the flat list iff some section holds it, a missing question list counting as empty |
| Questionnaire.FlattenOne | app/components/QuestionsScreen.tsx:58 | one section contributes exactly its own question list, in order; with `FlattenAppend`, flattening is the in-order concatenation of every section's list |
| Questionnaire.FlattenAppend | app/components/QuestionsScreen.tsx:58 | flattening keeps the order of the sections |
| Questionnaire.AllQuestions | app/components/QuestionsScreen.tsx:55-61 | the flattened sections, or no questions when the section list is missing; `AllQuestionsEdgeCases` and `FlattenOne` state it |
| Questionnaire.AllQuestionsEdgeCases | app/components/QuestionsScreen.tsx:55-61 | a missing section list gives no questions, and a section without questions adds none |
| Questionnaire.RequiredIds | app/components/QuestionsScreen.tsx:65 | an id is listed iff some required question has it |
| Questionnaire.IsFormValid | app/components/QuestionsScreen.tsx:63-67 | every required id has an answer; `FormValidIff` states it over the questions themselves |
| Questionnaire.FormValidIff | app/components/QuestionsScreen.tsx:63-67 | the form is valid iff every required question, in any section, has an answer that is neither undefined nor empty |
| Questionnaire.OnlyRequiredAnswersMatter | app/components/QuestionsScreen.tsx:63-67 | answers to questions that are not required never change validity |
| Questionnaire.AnsweringKeepsFormValid | app/components/QuestionsScreen.tsx:46-48 | a non-empty answer never invalidates a valid form; an empty answer to a required question invalidates it |
| Questionnaire.SubmitDispatches | app/components/QuestionsScreen.tsx:69-90 | nothing is dispatched without a task id or with an invalid form; otherwise `setAnswers` and then the survey submission for that task with the same answers |
| Questionnaire.SubmitEffect | app/components/QuestionsScreen.tsx:88-89 | a submit copies the answers into the store and marks the submission loading; nothing else changes |
| Questionnaire.Submitting | app/components/QuestionsScreen.tsx:92 | a submission is in flight iff the submit status is loading; `SubmitEffect` states that a submit sets it |
| Questionnaire.SubmitButtonEnabled | app/components/QuestionsScreen.tsx:238 | the submit button's enabled state; `SubmitButtonGuardsSubmission` states it |
| Questionnaire.SubmitButtonGuardsSubmission | app/components/QuestionsScreen.tsx:63-92 | the submit button (line 238) is enabled iff every required question is answered and no submission is loading; pressing it while enabled, with a task id, disables it |
| Questionnaire.SubmitKeepsSubmitHasTask | app/components/QuestionsScreen.tsx:69-90 | submitting keeps "submission loading implies a task id" |
| Questionnaire.QuestionsScreen.constructor | app/components/QuestionsScreen.tsx:25 | the local answers start empty |
| Questionnaire.QuestionsScreen.HandleInputChange | app/components/QuestionsScreen.tsx:46-48 | sets one answer; every other key keeps its value |
| Questionnaire.QuestionsScreen.HandleSubmit | app/components/QuestionsScreen.tsx:69-90 | dispatches what `SubmitDispatches` gives for the store's task id and starts the submission exactly when it passes both guards |
| ResultsRules.ArmsPolling | app/components/ResultsScreen.tsx:26 | the effect's guard: a task id and a report that is not ready; `EffectRequests` and `TickOnlyWhileProcessing` state what passing it issues |
| ResultsRules.EffectRequests | app/components/ResultsScreen.tsx:25-29 | the effect issues one immediate check of that task id iff there is a task id and the report is not ready |
| ResultsRules.TickRequests | app/components/ResultsScreen.tsx:31-35 | a tick checks the armed task id iff the status captured at arming was processing |
| ResultsRules.RetryRequests | app/components/ResultsScreen.tsx:73-77 | retry checks that task id iff there is a task id |
| ResultsRules.TickOnlyWhileProcessing | app/components/ResultsScreen.tsx:25-39 | an armed interval's ticks check the same task the effect checked, and never for a report failed when armed |
| ResultsRules.StatusMessage | app/components/ResultsScreen.tsx:79-90 | processing, ready and failed each get their own message, and idle gets the default |
| ResultsRules.EmotionalVerdict | app/components/ResultsScreen.tsx:92-102 | one of three texts: normal iff joy ≥ 4 and sadness ≤ 2; otherwise attention iff joy ≤ 2 or sadness ≥ 4; otherwise the middle text |
| ResultsRules.SocialVerdict | app/components/ResultsScreen.tsx:104-113 | one of three texts: good iff friends ≥ 4, difficulty iff ≤ 2, normal otherwise |
| ResultsRules.EmotionalAnalysis | app/components/ResultsScreen.tsx:92-102 | `EmotionalVerdict` of the joy and sadness answers read with the fallback to 0, shown as the verbatim text `VerdictText` gives; `MissingScoresCountAsZero`, `LabelAnswersGiveMiddleVerdicts` and `ReportText.ScreenAgreesWithReport` state it on answers |
| ResultsRules.SocialAnalysis | app/components/ResultsScreen.tsx:104-113 | `SocialVerdict` of the friends answer read with the fallback to 0, shown as the verbatim text `VerdictText` gives; the same lemmas state it on answers |
| ResultsRules.MissingScoresCountAsZero | app/components/ResultsScreen.tsx:92-113 | missing joy and friends answers give the attention and difficulty verdicts |
| ResultsRules.ThreeIsTheMiddle | app/components/ResultsScreen.tsx:92-113 | scores of 3 give the middle emotional and the normal social verdict |
| ResultsRules.LabelAnswersGiveMiddleVerdicts | app/components/ResultsScreen.tsx:92-113 | as written: with label answers the verdicts are always middle and normal |
| ResultsRules.ScaleScoresReachEveryVerdict | app/components/ResultsScreen.tsx:92-113 | with intended scoring, label answers reach the normal, attention and good verdicts |
| ResultsRules.ShowsReportActions | app/components/ResultsScreen.tsx:235 | the view and download buttons show iff the report is ready with a truthy URL; `CompletedReportShowsActions` and `ActionsNeedCompletedCheck` state when that happens |
| ResultsRules.CompletedReportShowsActions | app/components/ResultsScreen.tsx:235 | a completed check with a URL makes the report ready, shows view and download, and stops polling |
| ResultsRules.ActionsNeedCompletedCheck | app/components/ResultsScreen.tsx:235 | only a completed check with a truthy URL turns the view and download buttons on |
| ResultsRules.FailedCheckStopsTicks | app/components/ResultsScreen.tsx:25-77 | a failed check makes the report failed; a tick of the interval armed on that status issues nothing, the effect that runs again on it issues one immediate check of that task id, and so does a retry |
| ResultsRules.StaleCheckAfterReset | app/store/testSlice.ts:150-157 | a status check in flight at a restart and then completed with a URL leaves in the store a ready report with that URL and no task id |
| ResultsRules.StaleCheckShownInNextRun | app/components/ResultsScreen.tsx:25-39 | an old completed reply that lands after the next submission and its first "processing" reply keeps the new task id, makes the report ready with the old URL and shows its buttons, and the effect then issues no check |
| ReportText.Join | app/utils/pdfGenerator.ts:124-134 | the texts of a paragraph list appended in order; `JoinAppend`, `JoinConcat` and `JoinBounds` state it |
| ReportText.JoinAppend | app/utils/pdfGenerator.ts:124-134 | appending one paragraph's text to a joined list is joining the list with that paragraph added at the end |
| ReportText.JoinConcat | app/utils/pdfGenerator.ts:124-134 | appending paragraph after paragraph is concatenation: joining two lists one after the other is the first text followed by the second |
| ReportText.JoinBounds | app/utils/pdfGenerator.ts:124-134 | a joined text starts with its first paragraph's text and ends with its last one's |
| ReportText.AnalysisParagraphs | app/utils/pdfGenerator.ts:124-134 | an analysis's paragraph list; `AnalysisParagraphsLayout` and `AnalysisParagraphsChoice` state which paragraphs it holds and where |
| ReportText.AnalysisParagraphsLayout | app/utils/pdfGenerator.ts:124-134 | an analysis holds one to three paragraphs, the header first, the extra paragraph last when its condition holds, and no paragraph but its four |
| ReportText.AnalysisParagraphsChoice | app/utils/pdfGenerator.ts:126-134 | the high paragraph is present iff the score is ≥ 4, the low one iff ≤ 2 (so neither for 3 or NaN), the extra one iff its condition holds |
| ReportText.AnalysisText | app/utils/pdfGenerator.ts:124-134 | the analysis text is the header's text, then the high or low text chosen by the thresholds, then the extra text when its condition holds |
| ReportText.AnalysisStartsWithHeader | app/utils/pdfGenerator.ts:124 | every analysis text starts with its header's text |
| ReportText.AppendParagraphs | app/utils/pdfGenerator.ts:124-136 | the text built by appending in the source's order is the analysis paragraphs joined in order |
| ReportText.EmotionalParagraphs | app/utils/pdfGenerator.ts:119-137 | header first; joy ≥ 4 positive, joy ≤ 2 low, 3 neither; negative paragraph iff sadness ≥ 4 or anger ≥ 4 |
| ReportText.SocialParagraphs | app/utils/pdfGenerator.ts:139-156 | header first; friends ≥ 4 and ≤ 2 paragraphs; solitary-play paragraph iff avoids ≥ 4 |
| ReportText.RegulationParagraphs | app/utils/pdfGenerator.ts:158-175 | header first; rules ≥ 4 and ≤ 2 paragraphs; impulsivity paragraph iff impulse ≥ 4 |
| ReportText.AnalyzeEmotionalSphere | app/utils/pdfGenerator.ts:119-137 | the text is the emotional paragraphs for the joy, sadness and anger scores (a falsy answer scoring 0), joined in order, each paragraph as its verbatim text from `Wording` |
| ReportText.AnalyzeSocialInteraction | app/utils/pdfGenerator.ts:139-156 | the text is the social paragraphs for the friends and solitary-play scores, joined in order, each paragraph as its verbatim text from `Wording` |
| ReportText.AnalyzeSelfRegulation | app/utils/pdfGenerator.ts:158-175 | the text is the self-regulation paragraphs for the rules and impulsivity scores, joined in order, each paragraph as its verbatim text from `Wording` |
| ReportText.RecommendationParagraphs | app/utils/pdfGenerator.ts:177-192 | header and items 1 to 4 always come first, the disclaimer always last, and item 5 is present iff there are concerns |
| ReportText.AppendRecommendations | app/utils/pdfGenerator.ts:178-189 | the appended text is the recommendation paragraphs joined; it starts with the header's text and ends with the disclaimer's |
| ReportText.GenerateRecommendations | app/utils/pdfGenerator.ts:177-192 | the text is those paragraphs joined, with item 5 iff `development_concerns` is truthy; it starts with the header and ends with the disclaimer |
| ReportText.MissingAnswersTakeLowParagraphs | app/utils/pdfGenerator.ts:119-175 | missing answers score 0: each analysis is its header and its low paragraph |
| ReportText.ScreenAgreesWithReport | app/utils/pdfGenerator.ts:119-156 | the results screen's verdicts and the report's paragraphs agree on the same scores |
| ReportText.LabelAnswersGiveBareHeaders | app/utils/pdfGenerator.ts:119-156 | as written: with label answers the emotional and social analyses are their bare headers |
| ReportText.ScaleScoresChooseParagraphs | app/utils/pdfGenerator.ts:119-137 | with intended scoring, the labels choose the high, low and negative paragraphs |

## Left out

- The network is not modelled: `fetch`, `FormData`, the endpoint URLs and JSON parsing. A reply is an input to the outcome functions. A truthy `detail` field arrives as its JSON text, and a failed parse of an error body counts as no detail.
- The order in which requests settle is not modelled as a schedule. Any interleaving is a sequence of actions given to `Run` or `RunDispatches`.
- Timers are not modelled: the 5-second `setInterval`, `clearInterval`, and when React re-runs the polling effect. The model states what one effect run and one tick issue. When the status changes to failed, the effect runs again and issues one more immediate check (`ResultsRules.FailedCheckStopsTicks`).
- Toasts, `window.open`, the download link, `URL.createObjectURL`, image previews, and the effects that call the router's callbacks are left out. These are browser side effects.
- Drag and drop is not modelled separately. `handleDrop` only forwards to `handleFileSelect`, which is modelled.
- `handleDateChange` is left out, because dates and `toISOString` are not modelled.
- PhotoSlots.PhotoUploadScreen.RemovePhoto: during an upload the remove buttons and file inputs are disabled (app/components/PhotoUploadScreen.tsx:148, 167), so `removePhoto` and picker selection cannot run. The methods `RemovePhoto` and `HandleFileSelect` do not check `SlotControlsEnabled` and allow them, an over-approximation. A drop still reaches `handleFileSelect`, since the drop zone (line 118) has no such guard.
- app/data/question.json is not part of this model. `Definition` takes any section list.
- `generatePDFReport` is left out: the page layout, text measurement and `pdf.save`. So are the UI components, the welcome screen and the route.
- JsValues.ScoreOf: models falsy answers, integers and strings of decimal digits. It does not model signs, whitespace, fractions, exponents, or non-integer numbers. Hexadecimal, octal and binary literals (`0x…`, `0o…`, `0b…`) and "Infinity" convert to numbers in JavaScript but are NaN here.
- PhotoSlots.PhotoUploadScreen.HandleFileSelect: the slot index is a non-negative integer. A negative or fractional index, which sets a property rather than an element, is not modelled.
- ResultsRules.TickRequests: states one tick. It does not state how many ticks run before the interval is cleared.

## Findings

| source | as written | input that shows it | evidently intended | confidence | as-written member | corrected member |
|---|---|---|---|---|---|---|
| app/components/PhotoUploadScreen.tsx:83 | `isComplete` tests only the array length. Writing slot 2 of an empty array gives length 3 with two holes, so the upload is enabled with a single drawing | on a fresh screen, choose one image for the third category | the upload needs a file in each of the three slots | not executed | PhotoSlots.SparseSelectionCompletes | PhotoSlots.AllFilledIsThreeFiles |
| app/components/PhotoUploadScreen.tsx:71 | removing a photo filters the array, so later photos move down a slot into another drawing category | three photos chosen; remove the first | the removed slot is emptied in place and the other drawings keep their categories | not executed | PhotoSlots.RemovalShiftsSlots | PhotoSlots.ClearSlot |
| app/components/ResultsScreen.tsx:92-113 | scale questions store their Russian label, so `>= 4` and `<= 2` compare NaN and are always false. The screen always shows the middle and normal verdicts, and the report analyses (app/utils/pdfGenerator.ts:119-156) are bare headers | answer "Всегда" to `joy_frequency` and "Очень редко" to `sadness_frequency` | a label scores its position on the scale, 1 to 5 | not executed; assumes these ids are scale questions in the questionnaire data | ResultsRules.LabelAnswersGiveMiddleVerdicts | JsValues.ScaleScoreOf |
