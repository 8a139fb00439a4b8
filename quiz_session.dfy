/** The quiz session state of the Quiz screen, as values: the seven pieces of
    component state, the three transitions the screen's handlers perform, and
    the invariant that every reachable state keeps. */
module QuizSession {

  datatype Option<T> = None | Some(value: T)

  /** One entry of the question data: the question text, the options shown
      for it, and the option that is the correct answer. Nothing requires the
      answer to be one of the options. */
  datatype Question = Question(question: string, options: seq<string>, answer: string)

  /** The screen's component state, one field per state hook. */
  datatype State = State(
    currentIndex: int,
    currentOptionSelected: Option<string>,
    answer: Option<string>,
    isOptionDisabled: bool,
    score: int,
    showNextButton: bool,
    showScoreModal: bool)

  /** The state the screen is created in. */
  function Initial(): State
  {
    State(0, None, None, false, 0, false, false)
  }

  /** How many of the options chosen so far, question by question, were the
      correct answer of their question. */
  function CorrectCount(questions: seq<Question>, chosen: seq<string>): (k: nat)
    requires |chosen| <= |questions|
    ensures k <= |chosen|
    ensures chosen == [] ==> k == 0
  {
    if chosen == [] then 0
    else
      var last := |chosen| - 1;
      CorrectCount(questions, chosen[..last]) + (if chosen[last] == questions[last].answer then 1 else 0)
  }

  /** A perfect count means every chosen option was the right one. */
  lemma {:induction false} CorrectCountFull(questions: seq<Question>, chosen: seq<string>)
    requires |chosen| <= |questions|
    ensures CorrectCount(questions, chosen) == |chosen| <==>
              forall i :: 0 <= i < |chosen| ==> chosen[i] == questions[i].answer
  {
    if chosen != [] {
      var last := |chosen| - 1;
      var prefix := chosen[..last];
      CorrectCountFull(questions, prefix);
      assert forall i :: 0 <= i < last ==> prefix[i] == chosen[i];
    }
  }

  /** The session invariant, relative to the options chosen so far (one per
      question reached and answered):
      - the current index is a valid question index;
      - the Next button is shown exactly when the options are locked;
      - a question has been answered exactly when the options are locked, and
        then the selection and the correct answer are recorded;
      - the score is the number of correct choices;
      - the score modal is only open after the last question was answered. */
  ghost predicate Consistent(questions: seq<Question>, s: State, chosen: seq<string>)
  {
    && 0 <= s.currentIndex < |questions|
    && s.showNextButton == s.isOptionDisabled
    && |chosen| == s.currentIndex + (if s.isOptionDisabled then 1 else 0)
    && s.score == CorrectCount(questions, chosen)
    && (if s.isOptionDisabled
        then s.currentOptionSelected == Some(chosen[|chosen| - 1])
             && s.answer == Some(questions[s.currentIndex].answer)
        else s.currentOptionSelected == None && s.answer == None)
    && (s.showScoreModal ==> s.isOptionDisabled && s.currentIndex == |questions| - 1)
  }

  /** validateAnswer: record the chosen option and the correct answer, lock
      the options, score one point for a correct choice, show Next. */
  function Validated(questions: seq<Question>, s: State, selected: string): (t: State)
    requires 0 <= s.currentIndex < |questions|
    ensures t.currentOptionSelected == Some(selected)
    ensures t.answer == Some(questions[s.currentIndex].answer)
    ensures t.isOptionDisabled && t.showNextButton
    ensures t.score == s.score + 1 <==> selected == questions[s.currentIndex].answer
    ensures selected != questions[s.currentIndex].answer ==> t.score == s.score
    ensures t.currentIndex == s.currentIndex && t.showScoreModal == s.showScoreModal
  {
    var correctAnswer := questions[s.currentIndex].answer;
    s.(currentOptionSelected := Some(selected),
       answer := Some(correctAnswer),
       isOptionDisabled := true,
       score := if selected == correctAnswer then s.score + 1 else s.score,
       showNextButton := true)
  }

  /** handleNext: on the last question open the score modal; otherwise move
      to the next question and clear the per-question fields. */
  function Advanced(questions: seq<Question>, s: State): (t: State)
    ensures s.currentIndex == |questions| - 1 ==> t == s.(showScoreModal := true)
    ensures s.currentIndex != |questions| - 1 ==>
              && t.currentIndex == s.currentIndex + 1
              && t.currentOptionSelected == None && t.answer == None
              && !t.isOptionDisabled && !t.showNextButton
              && t.score == s.score && t.showScoreModal == s.showScoreModal
  {
    if s.currentIndex == |questions| - 1 then
      s.(showScoreModal := true)
    else
      s.(currentIndex := s.currentIndex + 1,
         currentOptionSelected := None,
         answer := None,
         isOptionDisabled := false,
         showNextButton := false)
  }

  /** restartQuiz: every field back to the value it is created with. */
  function Restarted(s: State): (t: State)
    ensures t == Initial()
  {
    s.(showScoreModal := false,
       currentIndex := 0,
       score := 0,
       currentOptionSelected := None,
       answer := None,
       isOptionDisabled := false,
       showNextButton := false)
  }

  /** A freshly created session over a non-empty question list is consistent,
      with nothing chosen yet. */
  lemma InitialConsistent(questions: seq<Question>)
    requires |questions| > 0
    ensures Consistent(questions, Initial(), [])
  {
  }

  /** Answering an unlocked question keeps the invariant, with the choice
      appended to the history; the score grows by that choice's contribution. */
  lemma ValidatedConsistent(questions: seq<Question>, s: State, chosen: seq<string>, selected: string)
    requires Consistent(questions, s, chosen) && !s.isOptionDisabled
    ensures Consistent(questions, Validated(questions, s, selected), chosen + [selected])
  {
  }

  /** Pressing Next (only possible once the question is answered) keeps the
      invariant; the history does not change. */
  lemma AdvancedConsistent(questions: seq<Question>, s: State, chosen: seq<string>)
    requires Consistent(questions, s, chosen) && s.showNextButton
    ensures Consistent(questions, Advanced(questions, s), chosen)
  {
  }

  /** Restarting from any state gives a consistent state with an empty history. */
  lemma RestartedConsistent(questions: seq<Question>, s: State)
    requires |questions| > 0
    ensures Consistent(questions, Restarted(s), [])
  {
  }

  /** The score never exceeds the number of questions answered so far, which
      never exceeds the number of questions. */
  lemma ScoreBounded(questions: seq<Question>, s: State, chosen: seq<string>)
    requires Consistent(questions, s, chosen)
    ensures 0 <= s.score <= s.currentIndex + (if s.isOptionDisabled then 1 else 0) <= |questions|
  {
  }

  /** Once the score modal is open every question has been answered, the
      score is final (Next changes nothing and the options are locked), and
      a full score means every answer was right. */
  lemma {:induction false} CompleteIsFinal(questions: seq<Question>, s: State, chosen: seq<string>)
    requires Consistent(questions, s, chosen) && s.showScoreModal
    ensures |chosen| == |questions|
    ensures s.isOptionDisabled
    ensures Advanced(questions, s) == s
    ensures s.score == |questions| <==> forall i :: 0 <= i < |questions| ==> chosen[i] == questions[i].answer
  {
    CorrectCountFull(questions, chosen);
  }
}
