/**
 * The `QuizClient` component as an object: its state hooks are fields, its
 * handlers are methods that update those fields, and `quizHistory` stands for
 * the list kept under the `userProgress` key of local storage. Each method
 * states its effect as the matching function of `QuizSession`, so the
 * invariant and the lemmas proved there apply to the object.
 */
module QuizComponent {
  import opened Shuffling
  import opened QuizSession

  class QuizClient {
    const initialQuestions: seq<Question>
    var shuffledQuestions: seq<Question>
    var currentQuestionIndex: int
    var selectedAnswer: Option<string>
    var score: int
    var showResult: bool
    var quizFinished: bool
    var currentOptions: seq<string>
    var quizHistory: seq<Entry>

    function Snapshot(): Session
      reads this
    {
      Session(initialQuestions, shuffledQuestions, currentQuestionIndex, selectedAnswer, score,
              showResult, quizFinished, currentOptions, quizHistory)
    }

    predicate Valid()
      reads this
    {
      Inv(Snapshot())
    }

    function Current(): Option<Question>
      reads this
    {
      CurrentOf(shuffledQuestions, currentQuestionIndex)
    }

    /**
     * Mounting: the first render has no questions; the effect then shuffles
     * them, and the next render computes the first question's options.
     * `stored` is the history already in local storage.
     */
    constructor (questions: seq<Question>, stored: seq<Entry>,
                 questionDraws: nat -> real, optionDraws: nat -> real)
      ensures Valid()
      ensures IsPermutation(shuffledQuestions, questions)
      ensures 0 < |shuffledQuestions| ==> IsPermutation(currentOptions, shuffledQuestions[0].options)
      ensures Snapshot() == Start(questions, stored, shuffledQuestions, currentOptions)
    {
      initialQuestions := questions;
      shuffledQuestions := [];
      currentQuestionIndex := 0;
      selectedAnswer := None;
      score := 0;
      showResult := false;
      quizFinished := false;
      currentOptions := [];
      quizHistory := stored;
      new;
      ShuffleQuestions(questionDraws);
      RefreshOptions(None, optionDraws);
    }

    /** `shuffleQuestions`. */
    method ShuffleQuestions(draws: nat -> real)
      modifies this`shuffledQuestions
      ensures IsPermutation(shuffledQuestions, initialQuestions)
      ensures |shuffledQuestions| == |initialQuestions|
    {
      shuffledQuestions := Shuffle(initialQuestions, draws);
    }

    /** The `currentOptions` memo, recomputed after a handler when the current
        question is no longer `before`. */
    method RefreshOptions(before: Option<Question>, draws: nat -> real)
      modifies this`currentOptions
      ensures Current() == before ==> currentOptions == old(currentOptions)
      ensures Current() != before && Current() == None ==> currentOptions == []
      ensures Current() != before && Current().Some? ==>
                IsPermutation(currentOptions, Current().value.options)
    {
      var after := Current();
      if after != before {
        match after
        case None =>
          currentOptions := [];
        case Some(q) =>
          currentOptions := Shuffle(q.options, draws);
      }
    }

    /** `onValueChange={setSelectedAnswer}`: the radio group offers the
        displayed options and is disabled once the result is shown. */
    method SelectAnswer(option: string)
      requires Valid()
      requires HasCurrent(Snapshot()) && !quizFinished && !showResult
      requires option in currentOptions
      modifies this`selectedAnswer
      ensures Valid()
      ensures Snapshot() == Select(old(Snapshot()), option)
    {
      selectedAnswer := Some(option);
    }

    /** `handleAnswerSubmit`, offered only while the result is hidden. */
    method HandleAnswerSubmit()
      requires Valid()
      requires HasCurrent(Snapshot()) && !quizFinished && !showResult
      modifies this`showResult, this`score
      ensures Valid()
      ensures Snapshot() == Submit(old(Snapshot()))
    {
      if Falsy(selectedAnswer) {
        return;
      }
      showResult := true;
      if selectedAnswer.value == shuffledQuestions[currentQuestionIndex].correctAnswer {
        score := score + 1;
      }
    }

    /**
     * `handleNextQuestion`, offered once the result is shown. The answer and
     * score it records are those of the render it was clicked in, before its
     * own updates; `now` is the completion timestamp and `saved` tells
     * whether the local-storage read and write went through.
     */
    method HandleNextQuestion(draws: nat -> real, now: string, saved: bool)
      requires Valid()
      requires !quizFinished && showResult
      modifies this
      ensures Valid()
      ensures Snapshot() == Advance(old(Snapshot()), currentOptions, now, saved)
    {
      var heldAnswer, heldScore := selectedAnswer, score;
      var before := Current();
      showResult := false;
      selectedAnswer := None;
      if currentQuestionIndex < |shuffledQuestions| - 1 {
        currentQuestionIndex := currentQuestionIndex + 1;
      } else {
        quizFinished := true;
        if saved {
          var finalScore :=
            if heldAnswer == Some(shuffledQuestions[currentQuestionIndex].correctAnswer)
            then heldScore + 1 else heldScore;
          quizHistory := quizHistory + [Entry(finalScore, |shuffledQuestions|, now)];
        }
      }
      RefreshOptions(before, draws);
    }

    /** `restartQuiz`, offered on the finished screen. */
    method RestartQuiz(questionDraws: nat -> real, optionDraws: nat -> real)
      requires Valid()
      requires quizFinished
      modifies this
      ensures Valid()
      ensures IsPermutation(shuffledQuestions, initialQuestions)
      ensures Snapshot() == Restart(old(Snapshot()), shuffledQuestions, currentOptions)
    {
      var before := Current();
      ShuffleQuestions(questionDraws);
      currentQuestionIndex := 0;
      selectedAnswer := None;
      score := 0;
      showResult := false;
      quizFinished := false;
      RefreshOptions(before, optionDraws);
    }
  }
}
