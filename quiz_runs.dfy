/**
 * Whole runs of the quiz page: a sequence of user events applied one after
 * another from some state. What holds after any run, and one run worked
 * through to the end.
 */
module QuizRuns {
  import opened Shuffling
  import opened QuizSession

  /** Every event of `events` is offered by the page when it happens (see
      `Enabled` for the disabled submit, which the model lets through). */
  predicate Allowed(s: Session, events: seq<Event>)
    decreases |events|
  {
    events == [] || (Enabled(s, events[0]) && Allowed(Step(s, events[0]), events[1..]))
  }

  function Run(s: Session, events: seq<Event>): Session
    requires Allowed(s, events)
    decreases |events|
  {
    if events == [] then s else Run(Step(s, events[0]), events[1..])
  }

  /** The invariant holds after every run: the index stays on a question, the
      orders stay permutations, and the score never exceeds the answers
      submitted. */
  lemma {:induction false} RunPreservesInv(s: Session, events: seq<Event>)
    requires Inv(s) && Allowed(s, events)
    ensures Inv(Run(s, events)) && Run(s, events).initial == s.initial
    ensures 0 <= Run(s, events).score <= Answered(Run(s, events)) <= |s.initial|
    decreases |events|
  {
    if events == [] {
      AnsweredWithinTotal(s);
    } else {
      StepPreservesInv(s, events[0]);
      RunPreservesInv(Step(s, events[0]), events[1..]);
    }
  }

  lemma AnsweredWithinTotal(s: Session)
    requires Inv(s)
    ensures Answered(s) <= |s.initial|
  {
    assert |s.questions| == |multiset(s.questions)| == |multiset(s.initial)| == |s.initial|;
  }

  /** Running one event and then the rest is running them all. */
  lemma RunCons(s: Session, e: Event, rest: seq<Event>)
    requires Enabled(s, e) && Allowed(Step(s, e), rest)
    ensures Allowed(s, [e] + rest) && Run(s, [e] + rest) == Run(Step(s, e), rest)
  {
    assert ([e] + rest)[0] == e && ([e] + rest)[1..] == rest;
  }

  /** One event either leaves the history alone or appends one complete
      entry for the questions given. */
  lemma StepAppendsAtMostOne(s: Session, e: Event)
    requires Inv(s) && Enabled(s, e)
    ensures var h := Step(s, e).history;
      || h == s.history
      || (&& |h| == |s.history| + 1 && h[..|s.history|] == s.history
          && Last(h).total == |s.initial| && 0 <= Last(h).score <= Last(h).total + 1)
  {
    if e.NextQuestion? && s.index == |s.questions| - 1 && e.saved {
      assert |s.questions| == |multiset(s.questions)| == |multiset(s.initial)| == |s.initial|;
    }
  }

  /**
   * The stored history only grows: a run keeps every earlier entry in place,
   * and each entry it appends records the number of questions given and a
   * score between zero and one more than that number.
   */
  lemma {:induction false} HistoryOnlyGrows(s: Session, events: seq<Event>)
    requires Inv(s) && Allowed(s, events)
    ensures var h := Run(s, events).history;
      && |s.history| <= |h| && h[..|s.history|] == s.history
      && forall i | |s.history| <= i < |h| :: h[i].total == |s.initial| && 0 <= h[i].score <= h[i].total + 1
    decreases |events|
  {
    if events != [] {
      var t := Step(s, events[0]);
      StepAppendsAtMostOne(s, events[0]);
      StepPreservesInv(s, events[0]);
      HistoryOnlyGrows(t, events[1..]);
      var h := Run(s, events).history;
      assert h == Run(t, events[1..]).history;
      assert h[..|t.history|] == t.history;
      assert h[..|s.history|] == t.history[..|s.history|];
    }
  }

  /**
   * The history entry records the last answer twice when it is correct:
   * submitting it already raised `score`, and finishing adds one again on
   * top. The finished screen shows `score`, so the stored score is one
   * more than the shown one.
   */
  lemma LastCorrectAnswerCountedTwice(s: Session, shown: seq<string>, now: string)
    requires Inv(s) && HasCurrent(s) && !s.finished && !s.showResult
    requires s.index == |s.questions| - 1
    requires s.selected == Some(s.questions[s.index].correctAnswer) && s.selected != Some("")
    ensures var t := Advance(Submit(s), shown, now, true);
      && t.finished && t.score == s.score + 1
      && t.history == s.history + [Entry(t.score + 1, |s.questions|, now)]
  {
  }

  /** When the last answer is not correct, the stored score is the shown one. */
  lemma LastWrongAnswerRecordedOnce(s: Session, shown: seq<string>, now: string)
    requires Inv(s) && HasCurrent(s) && s.showResult
    requires s.index == |s.questions| - 1
    requires s.selected != Some(s.questions[s.index].correctAnswer)
    ensures var t := Advance(s, shown, now, true);
      t.finished && t.history == s.history + [Entry(t.score, |s.questions|, now)]
  {
  }

  /** Finishing does not depend on local storage: the quiz finishes with the
      same state either way, and a failed save leaves the history as it was. */
  lemma FinishingIgnoresStorage(s: Session, shown: seq<string>, now: string)
    requires HasCurrent(s) && s.index == |s.questions| - 1
    ensures Advance(s, shown, now, false).finished
    ensures Advance(s, shown, now, false) == Advance(s, shown, now, true).(history := s.history)
  {
  }

  /** Running two stretches of events one after the other is running them
      together. */
  lemma {:induction false} RunAppend(s: Session, first: seq<Event>, second: seq<Event>)
    requires Allowed(s, first) && Allowed(Run(s, first), second)
    ensures Allowed(s, first + second) && Run(s, first + second) == Run(Run(s, first), second)
    decreases |first|
  {
    if first == [] {
      assert first + second == second;
    } else {
      assert (first + second)[0] == first[0] && (first + second)[1..] == first[1..] + second;
      RunAppend(Step(s, first[0]), first[1..], second);
    }
  }

  /** One round on a question: choosing a non-empty displayed option,
      submitting it and moving on. */
  lemma Round(s: Session, option: string, shown: seq<string>, now: string, saved: bool)
    requires Inv(s) && HasCurrent(s) && !s.finished && !s.showResult
    requires option in s.options && option != ""
    requires s.index < |s.questions| - 1 ==> IsPermutation(shown, s.questions[s.index + 1].options)
    ensures var events := [Choose(option), SubmitAnswer, NextQuestion(shown, now, saved)];
      && Allowed(s, events)
      && Run(s, events) == Advance(Submit(Select(s, option)), shown, now, saved)
  {
    var s1 := Select(s, option);
    var s2 := Submit(s1);
    RunCons(s2, NextQuestion(shown, now, saved), []);
    RunCons(s1, SubmitAnswer, [NextQuestion(shown, now, saved)]);
    RunCons(s, Choose(option), [SubmitAnswer, NextQuestion(shown, now, saved)]);
  }

  // A three-question quiz with two options per question.
  const Q1 := Question("Tulsi", ["Ocimum", "Neem"], "Ocimum")
  const Q2 := Question("Neem", ["Curcuma", "Azadirachta"], "Azadirachta")
  const Q3 := Question("Haldi", ["Curcuma", "Zingiber"], "Curcuma")

  // The three rounds of CorrectWrongCorrect, one lemma each.
  lemma FirstRound(stored: seq<Entry>, now: string)
    ensures var qs := [Q1, Q2, Q3];
      var r := [Choose("Ocimum"), SubmitAnswer, NextQuestion(Q2.options, now, true)];
      var s0 := Session(qs, qs, 0, None, 0, false, false, Q1.options, stored);
      Allowed(s0, r) && Run(s0, r) == Session(qs, qs, 1, None, 1, false, false, Q2.options, stored)
  {
    var qs := [Q1, Q2, Q3];
    var s0 := Session(qs, qs, 0, None, 0, false, false, Q1.options, stored);
    assert Inv(s0);
    Round(s0, "Ocimum", Q2.options, now, true);
  }

  lemma SecondRound(stored: seq<Entry>, now: string)
    ensures var qs := [Q1, Q2, Q3];
      var r := [Choose("Curcuma"), SubmitAnswer, NextQuestion(Q3.options, now, true)];
      var s1 := Session(qs, qs, 1, None, 1, false, false, Q2.options, stored);
      Allowed(s1, r) && Run(s1, r) == Session(qs, qs, 2, None, 1, false, false, Q3.options, stored)
  {
    var qs := [Q1, Q2, Q3];
    var s1 := Session(qs, qs, 1, None, 1, false, false, Q2.options, stored);
    assert Inv(s1);
    Round(s1, "Curcuma", Q3.options, now, true);
  }

  lemma LastRound(stored: seq<Entry>, now: string)
    ensures var qs := [Q1, Q2, Q3];
      var r := [Choose("Curcuma"), SubmitAnswer, NextQuestion([], now, true)];
      var s2 := Session(qs, qs, 2, None, 1, false, false, Q3.options, stored);
      && Allowed(s2, r)
      && Run(s2, r) == Session(qs, qs, 2, None, 2, false, true, Q3.options, stored + [Entry(3, 3, now)])
  {
    var qs := [Q1, Q2, Q3];
    var s2 := Session(qs, qs, 2, None, 1, false, false, Q3.options, stored);
    assert Inv(s2);
    Round(s2, "Curcuma", [], now, true);
  }

  /**
   * Answering correctly, wrongly, then correctly: the finished screen shows 2
   * of 3, while the stored entry says 3 of 3 because the last correct answer
   * is counted again.
   */
  lemma CorrectWrongCorrect(stored: seq<Entry>, now: string)
    ensures var events := [
        Choose("Ocimum"), SubmitAnswer, NextQuestion(Q2.options, now, true),
        Choose("Curcuma"), SubmitAnswer, NextQuestion(Q3.options, now, true),
        Choose("Curcuma"), SubmitAnswer, NextQuestion([], now, true)];
      var s0 := Start([Q1, Q2, Q3], stored, [Q1, Q2, Q3], Q1.options);
      && Allowed(s0, events)
      && Run(s0, events).finished
      && Run(s0, events).score == 2
      && Run(s0, events).history == stored + [Entry(3, 3, now)]
  {
    var qs := [Q1, Q2, Q3];
    var r1 := [Choose("Ocimum"), SubmitAnswer, NextQuestion(Q2.options, now, true)];
    var r2 := [Choose("Curcuma"), SubmitAnswer, NextQuestion(Q3.options, now, true)];
    var r3 := [Choose("Curcuma"), SubmitAnswer, NextQuestion([], now, true)];
    var s0 := Start(qs, stored, qs, Q1.options);
    var s1 := Session(qs, qs, 1, None, 1, false, false, Q2.options, stored);
    var s2 := Session(qs, qs, 2, None, 1, false, false, Q3.options, stored);
    var s3 := Session(qs, qs, 2, None, 2, false, true, Q3.options, stored + [Entry(3, 3, now)]);
    assert s0 == Session(qs, qs, 0, None, 0, false, false, Q1.options, stored);
    FirstRound(stored, now);
    SecondRound(stored, now);
    LastRound(stored, now);
    RunAppend(s1, r2, r3);
    RunAppend(s0, r1, r2 + r3);
    assert r1 + (r2 + r3) == [
        Choose("Ocimum"), SubmitAnswer, NextQuestion(Q2.options, now, true),
        Choose("Curcuma"), SubmitAnswer, NextQuestion(Q3.options, now, true),
        Choose("Curcuma"), SubmitAnswer, NextQuestion([], now, true)];
  }

  /** A one-question quiz answered correctly stores a score above its total. */
  lemma RecordedScoreCanExceedTotal(stored: seq<Entry>, now: string)
    ensures var s := Start([Q1], stored, [Q1], Q1.options);
      var t := Advance(Submit(Select(s, "Ocimum")), [], now, true);
      t.score == 1 && Last(t.history) == Entry(2, 1, now) && Last(t.history).score > Last(t.history).total
  {
  }
}
