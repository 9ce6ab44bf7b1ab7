/** The records the pages fetch from and send to the backend. */
module Records {

  /** A value that may be absent (`undefined` or `null` in the application). */
  datatype Option<+T> = None | Some(value: T)

  /** What one backend call returned: its data, or an error. */
  datatype Reply<+T> = Ok(value: T) | Failed

  datatype Subject = Subject(
    id: string,
    name: string,
    description: string,
    icon: string,
    color: Option<string>,
    user_id: Option<string>)

  datatype Quiz = Quiz(
    id: string,
    title: string,
    subject_id: string,
    description: Option<string>,  // declared a string, but quizzes the app creates have none
    created_at: string,
    user_id: string,
    document_id: string,
    total_questions: int,
    difficulty_level: int)

  datatype Question = Question(
    id: string,
    quiz_id: string,
    question: string,
    correct_answer: string,
    options: seq<string>,
    explanation: Option<string>,
    latex_content: Option<string>)

  /** One entry of an attempt's log of wrong answers. */
  datatype IncorrectAnswer = IncorrectAnswer(question_id: string, selected_answer: string)

  datatype QuizAttempt = QuizAttempt(
    id: string,
    quiz_id: string,
    user_id: string,
    score: int,
    total_questions: int,
    time_spent: int,
    completed_at: string,
    incorrect_answers: seq<IncorrectAnswer>)

  datatype UserStats = UserStats(
    total_quizzes: int,
    average_score: real,
    subjects_mastered: int,
    current_level: int,
    xp_points: int,
    recent_activity: seq<QuizAttempt>)
}
