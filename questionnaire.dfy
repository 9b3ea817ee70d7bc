/**
 * The questions screen: the questionnaire definition is a list of sections,
 * each with its questions; the screen keeps a local answers record, checks
 * that every required question is answered, and on submit copies the answers
 * into the store and starts the survey submission for the current task.
 */
module Questionnaire {

  import opened Wrappers
  import opened JsValues
  import opened TaskStore

  /** A question's type tag; it chooses the input widget and plays no part in validation. */
  datatype QuestionType = TextInput | TextArea | Radio | ScaleQuestion | DateQuestion

  datatype Question = Question(id: string, kind: QuestionType, required: bool)

  /** A section; `questions` is `None` when the field is missing. */
  datatype Section = Section(questions: Option<seq<Question>>)

  /** The questionnaire definition; `sections` is `None` when it is missing or not an array. */
  datatype Definition = Definition(sections: Option<seq<Section>>)

  /** `section.questions || []`. */
  function QuestionsOf(s: Section): seq<Question>
  {
    if s.questions.Some? then s.questions.value else []
  }

  /** `sections.flatMap(section => section.questions || [])`. */
  function Flatten(ss: seq<Section>): (qs: seq<Question>)
    ensures forall k, q :: 0 <= k < |ss| && q in QuestionsOf(ss[k]) ==> q in qs
    ensures forall q :: q in qs ==> exists k :: 0 <= k < |ss| && q in QuestionsOf(ss[k])
  {
    if ss == [] then []
    else
      var rest := Flatten(ss[1..]);
      assert forall k :: 1 <= k < |ss| ==> ss[k] == ss[1..][k - 1];
      QuestionsOf(ss[0]) + rest
  }

  /** `getAllQuestions`. */
  function AllQuestions(d: Definition): seq<Question>
  {
    if d.sections.Some? then Flatten(d.sections.value) else []
  }

  /** The questions of consecutive groups of sections come out one group after the other. */
  lemma {:induction false} FlattenAppend(a: seq<Section>, b: seq<Section>)
    ensures Flatten(a + b) == Flatten(a) + Flatten(b)
    decreases |a|
  {
    if a == [] {
      assert a + b == b;
    } else {
      assert (a + b)[0] == a[0] && (a + b)[1..] == a[1..] + b;
      FlattenAppend(a[1..], b);
    }
  }

  /** One section contributes exactly its own question list, in order, repeats included. */
  lemma FlattenOne(s: Section)
    ensures Flatten([s]) == QuestionsOf(s)
  {
    assert [s][1..] == [];
  }

  /** A missing definition or section list gives no questions; a section without questions adds none. */
  lemma AllQuestionsEdgeCases(d: Definition, ss: seq<Section>)
    ensures d.sections.None? ==> AllQuestions(d) == []
    ensures Flatten(ss + [Section(None)]) == Flatten(ss)
  {
    FlattenAppend(ss, [Section(None)]);
  }

  /** `allQuestions.filter(q => q.required).map(q => q.id)`. */
  function RequiredIds(qs: seq<Question>): (ids: seq<string>)
    ensures forall id :: id in ids <==> exists q :: q in qs && q.required && q.id == id
  {
    if qs == [] then []
    else
      var rest := RequiredIds(qs[1..]);
      assert forall q :: q in qs[1..] ==> q in qs;
      assert forall q :: q in qs && q != qs[0] ==> q in qs[1..];
      (if qs[0].required then [qs[0].id] else []) + rest
  }

  /** `answers[id] !== undefined && answers[id] !== ''`. */
  predicate Answered(answers: map<string, Value>, id: string)
  {
    Lookup(answers, id) != Missing && Lookup(answers, id) != Text("")
  }

  /** `isFormValid`: every required id is answered. */
  predicate IsFormValid(d: Definition, answers: map<string, Value>)
  {
    var ids := RequiredIds(AllQuestions(d));
    forall k :: 0 <= k < |ids| ==> Answered(answers, ids[k])
  }

  /** The form is valid exactly when every required question, in any section, is answered. */
  lemma FormValidIff(d: Definition, answers: map<string, Value>)
    ensures IsFormValid(d, answers) <==>
              forall q :: q in AllQuestions(d) && q.required ==> Answered(answers, q.id)
  {
    var ids := RequiredIds(AllQuestions(d));
    if IsFormValid(d, answers) {
      forall q | q in AllQuestions(d) && q.required ensures Answered(answers, q.id) {
        assert q.id in ids;
      }
    }
    if forall q :: q in AllQuestions(d) && q.required ==> Answered(answers, q.id) {
      forall k | 0 <= k < |ids| ensures Answered(answers, ids[k]) {
        assert ids[k] in ids;
        var q :| q in AllQuestions(d) && q.required && q.id == ids[k];
      }
    }
  }

  /** Answers to questions that are not required never affect validity. */
  lemma OnlyRequiredAnswersMatter(d: Definition, a1: map<string, Value>, a2: map<string, Value>)
    requires forall q :: q in AllQuestions(d) && q.required ==> Lookup(a1, q.id) == Lookup(a2, q.id)
    ensures IsFormValid(d, a1) == IsFormValid(d, a2)
  {
    FormValidIff(d, a1);
    FormValidIff(d, a2);
  }

  /** Giving a non-empty answer never makes a valid form invalid; an empty one to a required question does. */
  lemma AnsweringKeepsFormValid(d: Definition, answers: map<string, Value>, id: string, v: Value)
    ensures IsFormValid(d, answers) && v != Missing && v != Text("") ==> IsFormValid(d, answers[id := v])
    ensures (exists q :: q in AllQuestions(d) && q.required && q.id == id) ==>
              !IsFormValid(d, answers[id := Text("")])
  {
    FormValidIff(d, answers);
    FormValidIff(d, answers[id := v]);
    FormValidIff(d, answers[id := Text("")]);
  }

  /**
   * What `handleSubmit` dispatches: nothing without a task id or with an
   * invalid form; otherwise `setAnswers(answers)` and then the survey
   * submission for that task with the same answers.
   */
  function SubmitDispatches(taskId: Option<string>, d: Definition, answers: map<string, Value>): (ds: seq<Dispatch>)
    ensures !Present(taskId) ==> ds == []
    ensures !IsFormValid(d, answers) ==> ds == []
    ensures Present(taskId) && IsFormValid(d, answers) ==>
              |ds| == 2 && ds[0] == Plain(SetAnswers(answers)) &&
              ds[1].Thunk? && ds[1].request == SubmitSurvey(taskId.value, answers)
  {
    if !Present(taskId) then []
    else if !IsFormValid(d, answers) then []
    else [Plain(SetAnswers(answers)), Thunk(SubmitSurvey(taskId.value, answers))]
  }

  /** Submitting copies the answers into the store and marks the submission loading; nothing else changes. */
  lemma SubmitEffect(s: TaskState, d: Definition, answers: map<string, Value>)
    requires Present(s.taskId) && IsFormValid(d, answers)
    ensures RunDispatches(s, SubmitDispatches(s.taskId, d, answers)) ==
              s.(answers := answers, submitStatus := Loading, error := None)
  {
    var ds := SubmitDispatches(s.taskId, d, answers);
    var s1 := Reduce(s, SetAnswers(answers));
    assert RunDispatches(s, ds) == RunDispatches(s1, ds[1..]);
    assert ds[1..][0] == Thunk(SubmitSurvey(s.taskId.value, answers)) && ds[1..][1..] == [];
    assert RunDispatches(s1, ds[1..]) == RunDispatches(Reduce(s1, SubmitPending), []);
  }

  /** The questions screen never moves the submission to loading while the store has no task id. */
  lemma SubmitKeepsSubmitHasTask(s: TaskState, d: Definition, answers: map<string, Value>)
    requires SubmitHasTask(s)
    ensures SubmitHasTask(RunDispatches(s, SubmitDispatches(s.taskId, d, answers)))
  {
    if Present(s.taskId) && IsFormValid(d, answers) {
      SubmitEffect(s, d, answers);
    }
  }

  /** `submitting`. */
  predicate Submitting(submitStatus: PhaseStatus)
  {
    submitStatus == Loading
  }

  /** The submit button: disabled when the form is invalid or a submission is in flight. */
  predicate SubmitButtonEnabled(d: Definition, answers: map<string, Value>, submitStatus: PhaseStatus)
  {
    IsFormValid(d, answers) && !Submitting(submitStatus)
  }

  /**
   * The submit button is enabled exactly when every required question is
   * answered and no submission is in flight; pressing it while enabled (with
   * a task id) starts the submission, which disables it again, so the same
   * answers cannot be submitted twice from the button.
   */
  lemma SubmitButtonGuardsSubmission(s: TaskState, d: Definition, answers: map<string, Value>)
    ensures SubmitButtonEnabled(d, answers, s.submitStatus) <==>
              (forall q :: q in AllQuestions(d) && q.required ==> Answered(answers, q.id)) && s.submitStatus != Loading
    ensures Present(s.taskId) && SubmitButtonEnabled(d, answers, s.submitStatus) ==>
              !SubmitButtonEnabled(d, answers, RunDispatches(s, SubmitDispatches(s.taskId, d, answers)).submitStatus)
  {
    FormValidIff(d, answers);
    if Present(s.taskId) && IsFormValid(d, answers) {
      SubmitEffect(s, d, answers);
    }
  }

  /** The screen's local state: the answers record, the definition it renders, and the store. */
  class QuestionsScreen {
    var answers: map<string, Value>
    const definition: Definition
    const store: Store

    constructor (definition: Definition, store: Store)
      ensures answers == map[] && this.definition == definition && this.store == store
    {
      answers := map[];
      this.definition := definition;
      this.store := store;
    }

    /** `handleInputChange(id, value)`: sets one answer, every other key keeps its value. */
    method HandleInputChange(id: string, v: Value)
      modifies this
      ensures answers == old(answers)[id := v]
      ensures Lookup(answers, id) == v
      ensures forall k :: k != id ==> Lookup(answers, k) == Lookup(old(answers), k)
    {
      answers := answers[id := v];
    }

    /**
     * `handleSubmit`, with the `taskId` the store holds: dispatches what
     * `SubmitDispatches` says and reports the request it started.
     */
    method HandleSubmit() returns (started: seq<Request>)
      modifies store
      ensures store.State() == RunDispatches(old(store.State()), SubmitDispatches(old(store.taskId), definition, answers))
      ensures started == if Present(old(store.taskId)) && IsFormValid(definition, answers)
                         then [SubmitSurvey(old(store.taskId).value, answers)] else []
      ensures store.submitStatus == Loading && old(store.submitStatus) != Loading ==> Present(store.taskId)
    {
      started := [];
      var taskId := store.taskId;
      if !Present(taskId) {
        return;
      }
      if !IsFormValid(definition, answers) {
        return;
      }
      var ds := SubmitDispatches(taskId, definition, answers);
      store.DispatchAll(ds);
      SubmitEffect(old(store.State()), definition, answers);
      started := [SubmitSurvey(taskId.value, answers)];
    }
  }
}
