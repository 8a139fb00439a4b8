/** What the Quiz screen derives from its state for display: how each option
    is highlighted once a question is answered, and the verdict in the score
    modal. Colours are the palette entries of the app's constants, kept
    abstract; a hex alpha suffix appended to a colour is kept as a string. */
module QuizDisplay {
  import opened QuizSession

  /** How an option is marked. */
  datatype Highlight = Correct | Wrong | Neutral

  /** The palette entries the screen uses for feedback. */
  datatype Tone = Success | Error | Secondary

  /** A palette colour with the alpha suffix appended to it ("" for none). */
  datatype Paint = Paint(tone: Tone, alpha: string)

  /** A status badge: its background tone and the icon glyph drawn in it. */
  datatype Badge = Badge(tone: Tone, glyph: string)

  /** The classification all three visual channels follow: the correct answer
      is marked correct; otherwise the selected option is marked wrong. */
  function Classify(option: string, s: State): (h: Highlight)
    ensures h == Correct <==> s.answer == Some(option)
    ensures h == Wrong <==> s.answer != Some(option) && s.currentOptionSelected == Some(option)
  {
    if s.answer == Some(option) then Correct
    else if s.currentOptionSelected == Some(option) then Wrong
    else Neutral
  }

  /** The tone each classification is painted in. */
  function ToneOf(h: Highlight): Tone
  {
    match h
    case Correct => Success
    case Wrong => Error
    case Neutral => Secondary
  }

  /** The option box's border colour, as its own conditional chooses it. */
  function BorderColor(option: string, s: State): (p: Paint)
    ensures p.tone == ToneOf(Classify(option, s))
    ensures p.alpha == (if Classify(option, s) == Neutral then "40" else "")
  {
    if s.answer == Some(option) then Paint(Success, "")
    else if s.currentOptionSelected == Some(option) then Paint(Error, "")
    else Paint(Secondary, "40")
  }

  /** The option box's background colour, as its own conditional chooses it. */
  function BackgroundColor(option: string, s: State): (p: Paint)
    ensures p == Paint(ToneOf(Classify(option, s)), "20")
  {
    if s.answer == Some(option) then Paint(Success, "20")
    else if s.currentOptionSelected == Some(option) then Paint(Error, "20")
    else Paint(Secondary, "20")
  }

  /** The status badge as the screen draws it: both marked cases use the
      "check" glyph. */
  function StatusBadgeAsWritten(option: string, s: State): (b: Option<Badge>)
    ensures b.None? <==> Classify(option, s) == Neutral
    ensures b.Some? ==> b.value.tone == ToneOf(Classify(option, s)) && b.value.glyph == "check"
  {
    if s.answer == Some(option) then Some(Badge(Success, "check"))
    else if s.currentOptionSelected == Some(option) then Some(Badge(Error, "check"))
    else None
  }

  /** A wrong choice gets the same glyph as the correct answer: only the
      badge colour tells them apart. */
  lemma WrongChoiceShowsCheckGlyph()
    ensures var s := State(0, Some("B"), Some("A"), true, 0, true, false);
            && Classify("B", s) == Wrong
            && StatusBadgeAsWritten("B", s) == Some(Badge(Error, "check"))
            && StatusBadgeAsWritten("A", s) == Some(Badge(Success, "check"))
  {
  }

  /** The status badge with a check for the correct answer and a cross
      ("close") for a wrong choice. */
  function StatusBadge(option: string, s: State): (b: Option<Badge>)
    ensures b.None? <==> Classify(option, s) == Neutral
    ensures b.Some? ==> b.value.tone == ToneOf(Classify(option, s))
  {
    if s.answer == Some(option) then Some(Badge(Success, "check"))
    else if s.currentOptionSelected == Some(option) then Some(Badge(Error, "close"))
    else None
  }

  /** With the corrected badge the glyph alone tells correct from wrong. */
  lemma StatusBadgeGlyphDistinguishes(option: string, s: State)
    ensures StatusBadge(option, s) == Some(Badge(Success, "check")) <==> Classify(option, s) == Correct
    ensures StatusBadge(option, s) == Some(Badge(Error, "close")) <==> Classify(option, s) == Wrong
    ensures StatusBadge(option, s).Some? ==>
              (StatusBadge(option, s).value.glyph == "check" <==> Classify(option, s) == Correct)
  {
  }

  /** In any reachable state: before the question is answered nothing is
      marked; after it, the correct answer is marked correct, the chosen
      option (if it is not the answer) wrong, and every other option neutral. */
  lemma HighlightInSession(questions: seq<Question>, s: State, chosen: seq<string>, option: string)
    requires Consistent(questions, s, chosen)
    ensures !s.isOptionDisabled ==> Classify(option, s) == Neutral
    ensures s.isOptionDisabled ==>
              (Classify(option, s) == Correct <==> option == questions[s.currentIndex].answer)
    ensures s.isOptionDisabled ==>
              (Classify(option, s) == Wrong <==>
                 option == chosen[|chosen| - 1] && option != questions[s.currentIndex].answer)
  {
  }

  /** The modal's pass test, over integers: more than half the questions. */
  function Passed(score: int, count: int): (b: bool)
    ensures b <==> (score as real) > (count as real) / 2.0
  {
    2 * score > count
  }

  /** The modal's title. */
  function VerdictTitle(score: int, count: int): (title: string)
    ensures title == "Congratulations!" <==> Passed(score, count)
    ensures title == "Oops!" <==> !Passed(score, count)
  {
    if Passed(score, count) then "Congratulations!" else "Oops!"
  }

  /** The colour of the score figure in the modal. */
  function ScoreTone(score: int, count: int): (t: Tone)
    ensures t == Success <==> VerdictTitle(score, count) == "Congratulations!"
    ensures t == Error <==> VerdictTitle(score, count) == "Oops!"
  {
    if Passed(score, count) then Success else Error
  }

  /** The final verdict of a finished session: all correct passes, none
      correct fails, and passing means more than half the choices were right. */
  lemma FinalVerdict(questions: seq<Question>, s: State, chosen: seq<string>)
    requires Consistent(questions, s, chosen) && s.showScoreModal
    ensures Passed(s.score, |questions|) <==> 2 * CorrectCount(questions, chosen) > |questions|
    ensures (forall i :: 0 <= i < |questions| ==> chosen[i] == questions[i].answer) ==>
              VerdictTitle(s.score, |questions|) == "Congratulations!"
    ensures s.score == 0 ==> VerdictTitle(s.score, |questions|) == "Oops!"
  {
    CompleteIsFinal(questions, s, chosen);
  }
}
