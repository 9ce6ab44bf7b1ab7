/**
 * The quiz-taking page: one session walks through the loaded questions, scores
 * each answer by exact string equality, keeps a log of wrong answers and, past
 * the last question, builds the attempt record and hands it to the backend.
 */
module QuizView {
  import opened Records
  import Numbers

  /** The row inserted into `quiz_attempts` when the session ends. */
  datatype AttemptInsert = AttemptInsert(
    quiz_id: string,
    user_id: Option<string>,
    score: int,
    total_questions: int,
    time_spent: int,
    incorrect_answers: seq<IncorrectAnswer>)

  /** The arguments of the `update_user_stats_after_quiz` remote procedure. */
  datatype StatsUpdate = StatsUpdate(
    input_user_id: Option<string>,
    quiz_score: int,
    total_questions: int,
    quiz_id: string)

  /** What one call of HandleNext did. */
  datatype NextStep =
    | Ignored   // no answer was selected
    | Advanced  // moved on to the next question
    | Finished(attempt: AttemptInsert, statsCall: Option<StatsUpdate>, errorReported: bool)

  /** One call of HandleAnswer: the question it was on and the answer given. */
  datatype Submission = Submission(index: nat, answer: string)

  /** An answer is correct when it is the very same string as the expected one. */
  predicate IsCorrect(answer: string, q: Question)
  {
    answer == q.correct_answer
  }

  /** Answers that differ from "Paris" only by a trailing space or by case are wrong; "Paris" itself is right. */
  lemma ExactMatchOnly(q: Question)
    requires q.correct_answer == "Paris"
    ensures !IsCorrect("Paris ", q) && !IsCorrect("paris", q) && IsCorrect("Paris", q)
  {
  }

  /** `Math.round(ms / 1000)`: elapsed milliseconds to the nearest second, halves rounded up. */
  function ElapsedSeconds(now: int, startTime: int): (s: int)
    ensures 1000 * s - 500 <= now - startTime < 1000 * s + 500
  {
    Numbers.RoundedQuotient(now - startTime, 1000)
  }

  ghost predicate Indexed(qs: seq<Question>, subs: seq<Submission>)
  {
    forall i :: 0 <= i < |subs| ==> subs[i].index < |qs|
  }

  /** The number of correct submissions. */
  ghost function ScoreOf(qs: seq<Question>, subs: seq<Submission>): nat
    requires Indexed(qs, subs)
    decreases |subs|
  {
    if subs == [] then 0
    else
      var last := subs[|subs| - 1];
      ScoreOf(qs, subs[..|subs| - 1]) + if IsCorrect(last.answer, qs[last.index]) then 1 else 0
  }

  /** The wrong submissions as log entries, in submission order. */
  ghost function LogOf(qs: seq<Question>, subs: seq<Submission>): seq<IncorrectAnswer>
    requires Indexed(qs, subs)
    decreases |subs|
  {
    if subs == [] then []
    else
      var last := subs[|subs| - 1];
      LogOf(qs, subs[..|subs| - 1])
        + if IsCorrect(last.answer, qs[last.index]) then []
          else [IncorrectAnswer(qs[last.index].id, last.answer)]
  }

  /** Every submission is counted exactly once: either in the score or in the log. */
  lemma {:induction false} TallyCountsEachSubmission(qs: seq<Question>, subs: seq<Submission>)
    requires Indexed(qs, subs)
    ensures ScoreOf(qs, subs) + |LogOf(qs, subs)| == |subs|
    decreases |subs|
  {
    if subs != [] {
      TallyCountsEachSubmission(qs, subs[..|subs| - 1]);
    }
  }

  /** When every answer given is correct, the score is the number of answers and the log is empty. */
  lemma {:induction false} AllCorrectTally(qs: seq<Question>, subs: seq<Submission>)
    requires Indexed(qs, subs)
    requires forall i :: 0 <= i < |subs| ==> IsCorrect(subs[i].answer, qs[subs[i].index])
    ensures ScoreOf(qs, subs) == |subs| && LogOf(qs, subs) == []
    decreases |subs|
  {
    if subs != [] {
      AllCorrectTally(qs, subs[..|subs| - 1]);
    }
  }

  /** Every log entry names a question that was answered wrongly, with the answer given. */
  lemma {:induction false} LogEntriesAreWrongAnswers(qs: seq<Question>, subs: seq<Submission>, k: nat)
    requires Indexed(qs, subs)
    requires k < |LogOf(qs, subs)|
    ensures exists i :: 0 <= i < |subs| && !IsCorrect(subs[i].answer, qs[subs[i].index])
                        && LogOf(qs, subs)[k] == IncorrectAnswer(qs[subs[i].index].id, subs[i].answer)
    decreases |subs|
  {
    var n := |subs| - 1;
    var front := LogOf(qs, subs[..n]);
    if k < |front| {
      LogEntriesAreWrongAnswers(qs, subs[..n], k);
      var i :| 0 <= i < n && !IsCorrect(subs[..n][i].answer, qs[subs[..n][i].index])
               && front[k] == IncorrectAnswer(qs[subs[..n][i].index].id, subs[..n][i].answer);
      assert subs[..n][i] == subs[i];
    } else {
      assert !IsCorrect(subs[n].answer, qs[subs[n].index]);
    }
  }

  /** The quiz page's state from the moment its questions are loaded. */
  class Session {
    const quizId: string
    const userId: Option<string>
    const questions: seq<Question>
    const startTime: int
    var currentQuestion: nat
    var selectedAnswer: Option<string>
    var showExplanation: bool
    var showResult: bool
    var score: nat
    var incorrectAnswers: seq<IncorrectAnswer>
    /** Every call of HandleAnswer so far, oldest first. */
    ghost var submissions: seq<Submission>

    ghost predicate Valid()
      reads this
    {
      && (currentQuestion < |questions| || (currentQuestion == 0 && selectedAnswer.None?))
      && (showResult ==> selectedAnswer.Some? && currentQuestion + 1 == |questions|)
      && Indexed(questions, submissions)
      && score == ScoreOf(questions, submissions)
      && incorrectAnswers == LogOf(questions, submissions)
    }

    /**
     * The discipline of one answer per question, taken in order: the questions
     * before the current one, and the current one once an answer is selected,
     * were each answered exactly once. HandleAnswer does not enforce it.
     */
    ghost predicate AnsweredInOrder()
      reads this
    {
      && |submissions| == currentQuestion + (if selectedAnswer.Some? then 1 else 0)
      && forall i :: 0 <= i < |submissions| ==> submissions[i].index == i
    }

    constructor (quizId: string, userId: Option<string>, questions: seq<Question>, startTime: int)
      ensures Valid() && AnsweredInOrder()
      ensures this.quizId == quizId && this.userId == userId
      ensures this.questions == questions && this.startTime == startTime
      ensures currentQuestion == 0 && selectedAnswer == None
      ensures score == 0 && incorrectAnswers == []
      ensures !showExplanation && !showResult
    {
      this.quizId := quizId;
      this.userId := userId;
      this.questions := questions;
      this.startTime := startTime;
      currentQuestion := 0;
      selectedAnswer := None;
      showExplanation := false;
      showResult := false;
      score := 0;
      incorrectAnswers := [];
      submissions := [];
    }

    /** handleAnswer: select `answer` for the current question and score it. */
    method HandleAnswer(answer: string)
      requires Valid()
      requires currentQuestion < |questions|
      modifies this
      ensures Valid()
      ensures selectedAnswer == Some(answer) && showExplanation
      ensures currentQuestion == old(currentQuestion) && showResult == old(showResult)
      ensures IsCorrect(answer, questions[currentQuestion]) ==>
                score == old(score) + 1 && incorrectAnswers == old(incorrectAnswers)
      ensures !IsCorrect(answer, questions[currentQuestion]) ==>
                && score == old(score)
                && incorrectAnswers == old(incorrectAnswers)
                     + [IncorrectAnswer(questions[currentQuestion].id, answer)]
      ensures score + |incorrectAnswers| == old(score + |incorrectAnswers|) + 1
      ensures submissions == old(submissions) + [Submission(currentQuestion, answer)]
      ensures old(selectedAnswer.None? && AnsweredInOrder()) ==>
                AnsweredInOrder() && score + |incorrectAnswers| == currentQuestion + 1
    {
      selectedAnswer := Some(answer);
      var isCorrect := answer == questions[currentQuestion].correct_answer;
      if !isCorrect {
        incorrectAnswers := incorrectAnswers + [IncorrectAnswer(questions[currentQuestion].id, answer)];
      }
      if isCorrect {
        score := score + 1;
      }
      showExplanation := true;
      ghost var before := submissions;
      submissions := submissions + [Submission(currentQuestion, answer)];
      assert submissions[..|submissions| - 1] == before;
      TallyCountsEachSubmission(questions, submissions);
    }

    /**
     * handleNext: with no answer selected nothing happens; before the last
     * question it moves on; past the last one it builds the attempt record, asks
     * the backend to insert it (`insertOk` is that call's outcome) and, only if
     * the insert succeeded, to update the user's statistics (`statsOk`), and then
     * shows the result whatever either call returned. `now` is the clock reading.
     */
    method HandleNext(now: int, insertOk: bool, statsOk: bool) returns (step: NextStep)
      requires Valid()
      modifies this
      ensures Valid()
      ensures submissions == old(submissions)
      ensures old(selectedAnswer).None? ==> step == Ignored && unchanged(this)
      ensures old(selectedAnswer).Some? && old(currentQuestion) + 1 < |questions| ==>
                && step == Advanced
                && currentQuestion == old(currentQuestion) + 1
                && selectedAnswer == None && !showExplanation
                && score == old(score) && incorrectAnswers == old(incorrectAnswers)
                && showResult == old(showResult)
      ensures old(selectedAnswer).Some? && old(currentQuestion) + 1 >= |questions| ==>
                && step == Finished(
                     AttemptInsert(quizId, userId, score, |questions|,
                                   ElapsedSeconds(now, startTime), incorrectAnswers),
                     if insertOk then Some(StatsUpdate(userId, score, |questions|, quizId)) else None,
                     !insertOk || !statsOk)
                && showResult && !showExplanation
                && currentQuestion == old(currentQuestion) && selectedAnswer == old(selectedAnswer)
                && score == old(score) && incorrectAnswers == old(incorrectAnswers)
      ensures old(AnsweredInOrder()) ==> AnsweredInOrder()
      ensures step.Finished? && old(AnsweredInOrder()) ==>
                step.attempt.score + |step.attempt.incorrect_answers| == step.attempt.total_questions
    {
      if selectedAnswer == None {
        return Ignored;
      }
      showExplanation := false;
      if currentQuestion + 1 < |questions| {
        currentQuestion := currentQuestion + 1;
        selectedAnswer := None;
        step := Advanced;
      } else {
        var timeSpent := ElapsedSeconds(now, startTime);
        var attempt := AttemptInsert(quizId, userId, score, |questions|, timeSpent, incorrectAnswers);
        var statsCall := None;
        var failed := false;
        if !insertOk {
          failed := true;
        } else {
          statsCall := Some(StatsUpdate(userId, score, |questions|, quizId));
          if !statsOk {
            failed := true;
          }
        }
        showResult := true;
        step := Finished(attempt, statsCall, failed);
        TallyCountsEachSubmission(questions, submissions);
      }
    }
  }

  /**
   * A three-question session answered right, wrong, right: what a caller can
   * conclude from the contracts of Session alone.
   */
  method MixedAnswersSession(q1: Question, q2: Question, q3: Question, wrong: string, now: int)
    requires wrong != q2.correct_answer
  {
    var s := new Session("quiz", Some("user"), [q1, q2, q3], 0);
    s.HandleAnswer(q1.correct_answer);
    var step := s.HandleNext(now, true, true);
    assert step == Advanced;
    s.HandleAnswer(wrong);
    step := s.HandleNext(now, true, true);
    s.HandleAnswer(q3.correct_answer);
    step := s.HandleNext(now, true, false);
    assert step.Finished? && step.attempt.score == 2 && step.attempt.total_questions == 3;
    assert step.attempt.incorrect_answers == [IncorrectAnswer(q2.id, wrong)];
    assert step.statsCall.Some? && step.errorReported;
    assert s.showResult;
  }
}
