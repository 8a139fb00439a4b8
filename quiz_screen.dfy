/** The Quiz screen component: its state hooks as fields, its handlers as
    methods that update those fields one setter at a time. Each handler is
    proved to produce exactly the state its QuizSession function describes. */
module QuizScreen {
  import opened QuizSession

  class Quiz {
    /** The question data, fixed for the component's lifetime. */
    const allQuestions: seq<Question>

    var currentIndex: int
    var currentOptionSelected: Option<string>
    var answer: Option<string>
    var isOptionDisabled: bool
    var score: int
    var showNextButton: bool
    var showScoreModal: bool

    /** The option chosen for each question reached and answered since the
        last restart; it exists only to state what the score counts. */
    ghost var chosen: seq<string>

    /** The current component state as a value. */
    function Snapshot(): State
      reads this
    {
      State(currentIndex, currentOptionSelected, answer, isOptionDisabled,
            score, showNextButton, showScoreModal)
    }

    ghost predicate Valid()
      reads this
    {
      |allQuestions| > 0 && Consistent(allQuestions, Snapshot(), chosen)
    }

    /** Mounting the screen: the state hooks take their initial values. */
    constructor (data: seq<Question>)
      requires |data| > 0
      ensures Valid()
      ensures allQuestions == data && Snapshot() == Initial() && chosen == []
    {
      allQuestions := data;
      currentIndex := 0;
      currentOptionSelected := None;
      answer := None;
      isOptionDisabled := false;
      score := 0;
      showNextButton := false;
      showScoreModal := false;
      chosen := [];
      new;
      InitialConsistent(data);
    }

    /** The question on screen; always a valid index into the data. */
    method CurrentQuestion() returns (q: Question)
      requires Valid()
      ensures 0 <= currentIndex < |allQuestions| && q == allQuestions[currentIndex]
    {
      q := allQuestions[currentIndex];
    }

    /** Pressing an option. The options are disabled once one is pressed,
        so this runs at most once per question. */
    method ValidateAnswer(selectedOption: string)
      requires Valid() && !isOptionDisabled
      modifies this
      ensures Valid()
      ensures Snapshot() == Validated(allQuestions, old(Snapshot()), selectedOption)
      ensures chosen == old(chosen) + [selectedOption]
      ensures score == old(score) + (if selectedOption == allQuestions[currentIndex].answer then 1 else 0)
    {
      ghost var before := Snapshot();
      var correctAnswer := allQuestions[currentIndex].answer;
      currentOptionSelected := Some(selectedOption);
      answer := Some(correctAnswer);
      isOptionDisabled := true;
      if selectedOption == correctAnswer {
        score := score + 1;
      }
      showNextButton := true;
      ValidatedConsistent(allQuestions, before, chosen, selectedOption);
      chosen := chosen + [selectedOption];
    }

    /** Pressing Next, which is only shown once the question is answered. */
    method HandleNext()
      requires Valid() && showNextButton
      modifies this
      ensures Valid()
      ensures Snapshot() == Advanced(allQuestions, old(Snapshot()))
      ensures chosen == old(chosen)
    {
      AdvancedConsistent(allQuestions, Snapshot(), chosen);
      if currentIndex == |allQuestions| - 1 {
        showScoreModal := true;
      } else {
        currentIndex := currentIndex + 1;
        currentOptionSelected := None;
        answer := None;
        isOptionDisabled := false;
        showNextButton := false;
      }
    }

    /** Pressing Retry: every field back to its initial value. */
    method RestartQuiz()
      requires Valid()
      modifies this
      ensures Valid()
      ensures Snapshot() == Restarted(old(Snapshot())) && chosen == []
    {
      RestartedConsistent(allQuestions, Snapshot());
      showScoreModal := false;
      currentIndex := 0;
      score := 0;
      currentOptionSelected := None;
      answer := None;
      isOptionDisabled := false;
      showNextButton := false;
      chosen := [];
    }
  }

  /** A three-question session whose correct answers are "B", "A", "A":
      answering "B", "C", "A" finishes with a score of 2, and Retry returns
      to the creation state. */
  method ExampleSession()
  {
    var options := ["A", "B", "C"];
    var data := [Question("first", options, "B"), Question("second", options, "A"),
                 Question("third", options, "A")];
    var quiz := new Quiz(data);
    quiz.ValidateAnswer("B");
    assert quiz.score == 1 && quiz.showNextButton;
    quiz.HandleNext();
    assert quiz.currentIndex == 1 && !quiz.isOptionDisabled;
    quiz.ValidateAnswer("C");
    assert quiz.score == 1;
    quiz.HandleNext();
    assert quiz.currentIndex == 2;
    quiz.ValidateAnswer("A");
    quiz.HandleNext();
    assert quiz.showScoreModal && quiz.score == 2 && quiz.currentIndex == 2;
    quiz.RestartQuiz();
    assert quiz.Snapshot() == Initial();
  }
}
