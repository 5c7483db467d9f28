/**
 * The quiz session of `QuizClient` as values: the component's state, one
 * function per handler, the invariant every handler keeps, and the events a
 * user can cause on the rendered page.
 *
 * React applies a handler's state updates after the handler returns, so a
 * handler reads the values of the render in which it was clicked. The
 * functions below are written that way: each reads only `s` and builds the
 * next state from it.
 */
module QuizSession {
  import opened Shuffling

  datatype Option<T> = None | Some(value: T)

  /** A question as the quiz page supplies it. */
  datatype Question = Question(prompt: string, options: seq<string>, correctAnswer: string)

  /** One record of the stored quiz history. `date` is the ISO timestamp taken
      when the quiz finished; the model treats it as an opaque string. */
  datatype Entry = Entry(score: int, total: int, date: string)

  /**
   * The component's state: `initial` is the `questions` prop, `questions` the
   * shuffled order, `index` the current question, `selected` the pending
   * answer (`null` is `None`), `options` the displayed order of the current
   * question's options, and `history` the `quizHistory` list kept in local
   * storage.
   */
  datatype Session = Session(
    initial: seq<Question>,
    questions: seq<Question>,
    index: int,
    selected: Option<string>,
    score: int,
    showResult: bool,
    finished: bool,
    options: seq<string>,
    history: seq<Entry>)

  /** JavaScript truthiness of a `string | null`: `null` and `""` are falsy. */
  predicate Falsy(answer: Option<string>)
    ensures !Falsy(answer) <==> answer.Some? && |answer.value| > 0
  {
    answer == None || answer == Some("")
  }

  /** `shuffledQuestions[currentQuestionIndex]`, which is `undefined` out of range. */
  function CurrentOf(questions: seq<Question>, index: int): (r: Option<Question>)
    ensures r.Some? <==> 0 <= index < |questions|
    ensures r.Some? ==> r.value == questions[index]
  {
    if 0 <= index < |questions| then Some(questions[index]) else None
  }

  /** The `currentQuestion` test behind "Loading quiz...": the page shows a
      question exactly when the index names one. */
  predicate HasCurrent(s: Session)
    ensures HasCurrent(s) <==> CurrentOf(s.questions, s.index).Some?
  {
    0 <= s.index < |s.questions|
  }

  /**
   * The `currentOptions` memo: it is recomputed only when the current
   * question changes (the model compares questions by value where React
   * compares references); it is empty without a current question and a
   * fresh shuffle of the question's options otherwise.
   */
  function Redisplay(before: Option<Question>, after: Option<Question>,
                     kept: seq<string>, shuffled: seq<string>): (r: seq<string>)
    ensures after == before ==> r == kept
    ensures after == None && (before == None ==> kept == []) ==> r == []
    ensures after != before && after.Some? ==> r == shuffled
    ensures after.Some?
              && (after == before ==> IsPermutation(kept, after.value.options))
              && (after != before ==> IsPermutation(shuffled, after.value.options))
            ==> IsPermutation(r, after.value.options)
  {
    if after == before then kept
    else match after
      case None => []
      case Some(_) => shuffled
  }

  /** How many questions of this run have had their answer submitted. */
  function Answered(s: Session): int {
    s.index + if s.showResult || s.finished then 1 else 0
  }

  /**
   * What holds between any two renders: the order is a permutation of the
   * questions given, the index stays on a question, the displayed options are
   * a permutation of the current question's, the score never exceeds the
   * number of submitted answers, a finished quiz sits on its last question,
   * and a revealed result always has a non-empty answer behind it.
   */
  predicate Inv(s: Session) {
    && IsPermutation(s.questions, s.initial)
    && 0 <= s.index
    && (|s.questions| == 0 ==>
          s.index == 0 && !s.showResult && !s.finished && s.selected == None && s.options == [])
    && (0 < |s.questions| ==>
          s.index < |s.questions| && IsPermutation(s.options, s.questions[s.index].options))
    && 0 <= s.score <= Answered(s)
    && (s.finished ==> s.index == |s.questions| - 1 && !s.showResult && s.selected == None)
    && (s.showResult ==> !Falsy(s.selected))
    && (s.selected.Some? ==> s.selected.value in s.options)
  }

  /**
   * The state once the component has mounted and its effect has shuffled the
   * questions into `order`; `shown` is the shuffle of the first question's
   * options.
   */
  function Start(initial: seq<Question>, stored: seq<Entry>,
                 order: seq<Question>, shown: seq<string>): (s: Session)
    requires IsPermutation(order, initial)
    requires 0 < |order| ==> IsPermutation(shown, order[0].options)
    ensures Inv(s)
    ensures s.index == 0 && s.score == 0 && s.selected == None
    ensures !s.showResult && !s.finished
    ensures s.initial == initial && s.questions == order && s.history == stored
  {
    Session(initial, order, 0, None, 0, false, false,
            Redisplay(None, CurrentOf(order, 0), [], shown), stored)
  }

  /** `onValueChange={setSelectedAnswer}` on the radio group. */
  function Select(s: Session, option: string): (t: Session)
    ensures t.selected == Some(option) && !Falsy(t.selected) == (option != "")
    ensures t.(selected := s.selected) == s
  {
    s.(selected := Some(option))
  }

  /** `handleAnswerSubmit`. */
  function Submit(s: Session): (t: Session)
    requires HasCurrent(s)
    ensures Falsy(s.selected) ==> t == s
    ensures !Falsy(s.selected) ==> t.showResult && t.(showResult := s.showResult, score := s.score) == s
    ensures t.score == s.score + 1 <==>
              !Falsy(s.selected) && s.selected.value == s.questions[s.index].correctAnswer
    ensures t.score == s.score || t.score == s.score + 1
  {
    if Falsy(s.selected) then s
    else s.(showResult := true,
            score := if s.selected.value == s.questions[s.index].correctAnswer then s.score + 1 else s.score)
  }

  /** The score `handleNextQuestion` writes to the history: the current answer
      is counted again on top of `score`, which already counts it. */
  function RecordedScore(s: Session): (r: int)
    requires HasCurrent(s)
    ensures s.score <= r <= s.score + 1
    ensures r == s.score + 1 <==> s.selected == Some(s.questions[s.index].correctAnswer)
  {
    if s.selected == Some(s.questions[s.index].correctAnswer) then s.score + 1 else s.score
  }

  /** The last element of a non-empty sequence. */
  function Last<T>(xs: seq<T>): T
    requires xs != []
  {
    xs[|xs| - 1]
  }

  /**
   * `handleNextQuestion`. `shown` is the shuffle of the next question's
   * options, `now` the completion timestamp, and `saved` whether reading and
   * writing local storage succeeded; a failure there is caught and only
   * logged.
   */
  function Advance(s: Session, shown: seq<string>, now: string, saved: bool): (t: Session)
    requires HasCurrent(s)
    ensures !t.showResult && t.selected == None
    ensures t.score == s.score && t.questions == s.questions && t.initial == s.initial
    ensures s.index < |s.questions| - 1 ==>
              t.index == s.index + 1 && t.finished == s.finished && t.history == s.history
    ensures s.index == |s.questions| - 1 ==>
              t.finished && t.index == s.index && t.options == s.options
    ensures s.index == |s.questions| - 1 && saved ==>
              && |t.history| == |s.history| + 1
              && t.history[..|s.history|] == s.history
              && Last(t.history) == Entry(RecordedScore(s), |s.questions|, now)
    ensures !saved ==> t.history == s.history
  {
    var cleared := s.(showResult := false, selected := None);
    if s.index < |s.questions| - 1 then
      cleared.(index := s.index + 1,
               options := Redisplay(CurrentOf(s.questions, s.index), CurrentOf(s.questions, s.index + 1),
                                    s.options, shown))
    else
      cleared.(finished := true,
               history := if saved then s.history + [Entry(RecordedScore(s), |s.questions|, now)]
                          else s.history)
  }

  /** `restartQuiz`, with `order` the new shuffle of the questions and `shown`
      the shuffle of the first question's options. */
  function Restart(s: Session, order: seq<Question>, shown: seq<string>): (t: Session)
    ensures t.index == 0 && t.selected == None && t.score == 0
    ensures !t.showResult && !t.finished
    ensures t.questions == order && t.initial == s.initial && t.history == s.history
  {
    s.(questions := order, index := 0, selected := None, score := 0, showResult := false,
       finished := false,
       options := Redisplay(CurrentOf(s.questions, s.index), CurrentOf(order, 0), s.options, shown))
  }

  /** A restart from the finished screen is a fresh start on the same
      questions and stored history, showing the new shuffle of the first
      question's options unless that question was already the one showing,
      in which case the options memo keeps its order. */
  lemma RestartIsStart(s: Session, order: seq<Question>, shown: seq<string>)
    requires Inv(s) && s.finished
    requires IsPermutation(order, s.initial)
    requires 0 < |order| ==> IsPermutation(shown, order[0].options)
    ensures var t := Restart(s, order, shown);
      && t == Start(s.initial, s.history, order, t.options)
      && (CurrentOf(order, 0) != CurrentOf(s.questions, s.index) ==> t.options == shown)
      && (CurrentOf(order, 0) == CurrentOf(s.questions, s.index) ==> t.options == s.options)
  {
  }

  /** What a user can do on the rendered page. */
  datatype Event =
    | Choose(option: string)
    | SubmitAnswer
    | NextQuestion(shown: seq<string>, now: string, saved: bool)
    | PlayAgain(order: seq<Question>, shown: seq<string>)

  /**
   * When the page offers an event: the radio group and the submit button only
   * while a question is shown and its result is not, the radio group only
   * with the displayed options, the next button only once the result is
   * shown, and the play-again button only on the finished screen. The submit
   * button is also disabled while the selection is falsy; the model still
   * lets that click through, where `Submit` leaves the state unchanged. The
   * shuffles an event carries are permutations, as `Shuffling.Shuffle`
   * guarantees.
   */
  predicate Enabled(s: Session, e: Event)
    ensures Enabled(s, e) && !e.PlayAgain? ==> HasCurrent(s) && !s.finished
    ensures Enabled(s, e) && (e.Choose? || e.SubmitAnswer?) ==> !s.showResult
    ensures Enabled(s, e) && e.Choose? ==> e.option in s.options
    ensures Enabled(s, e) && e.NextQuestion? ==> s.showResult
    ensures Enabled(s, e) && e.PlayAgain? ==> s.finished
  {
    match e
    case Choose(option) =>
      HasCurrent(s) && !s.finished && !s.showResult && option in s.options
    case SubmitAnswer =>
      HasCurrent(s) && !s.finished && !s.showResult
    case NextQuestion(shown, _, _) =>
      && HasCurrent(s) && !s.finished && s.showResult
      && (s.index < |s.questions| - 1 ==> IsPermutation(shown, s.questions[s.index + 1].options))
    case PlayAgain(order, shown) =>
      && s.finished && IsPermutation(order, s.initial)
      && (0 < |order| ==> IsPermutation(shown, order[0].options))
  }

  /** The page's response to one offered event: the handler it triggers,
      followed by the options memo. */
  function Step(s: Session, e: Event): (t: Session)
    requires Enabled(s, e)
    ensures t.initial == s.initial
    ensures |s.history| <= |t.history| && t.history[..|s.history|] == s.history
    ensures e.Choose? || e.SubmitAnswer? ==> t.history == s.history && t.index == s.index
  {
    match e
    case Choose(option) => Select(s, option)
    case SubmitAnswer => Submit(s)
    case NextQuestion(shown, now, saved) => Advance(s, shown, now, saved)
    case PlayAgain(order, shown) => Restart(s, order, shown)
  }

  /** Every event the page offers keeps the invariant. */
  lemma StepPreservesInv(s: Session, e: Event)
    requires Inv(s) && Enabled(s, e)
    ensures Inv(Step(s, e))
  {
  }

  /** Between two reveals the score moves by at most one, and only a restart
      lowers it (to zero). */
  lemma StepScore(s: Session, e: Event)
    requires Inv(s) && Enabled(s, e)
    ensures var t := Step(s, e);
      if e.PlayAgain? then t.score == 0
      else s.score <= t.score <= s.score + 1 && (t.score == s.score + 1 ==> e.SubmitAnswer?)
  {
  }
}
