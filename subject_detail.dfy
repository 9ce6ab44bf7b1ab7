/** The page of one subject: its quizzes with a search box, and its statistics. */
module SubjectDetail {
  import opened Records
  import Text
  import opened Sequences
  import Numbers

  /** The statistics shown for a subject. */
  datatype SubjectStats = SubjectStats(totalQuizzes: int, averageScore: real, totalAttempts: int, timeSpent: int)

  /** The statistics shown before any are loaded, and when the backend returns none. */
  const NoStats := SubjectStats(0, 0.0, 0, 0)

  /** The lower-cased title or the present description includes the lower-cased query. */
  predicate QuizMatches(quiz: Quiz, query: string)
  {
    Text.Matches(quiz.title, query) || (quiz.description.Some? && Text.Matches(quiz.description.value, query))
  }

  /**
   * The filter reads the description only when the title does not match; a
   * missing description then throws, since its `toLowerCase` is called unguarded.
   */
  predicate Throws(quiz: Quiz, query: string)
  {
    !Text.Matches(quiz.title, query) && quiz.description.None?
  }

  /**
   * handleSearch's list: the quizzes that match, in their loaded order, or None
   * when the filter throws on a quiz without a description. Every copy of a
   * repeated quiz is kept or dropped together (Sequences.FilterCounts).
   */
  function SearchQuizzes(quizzes: seq<Quiz>, query: string): (r: Option<seq<Quiz>>)
    ensures r.None? <==> exists q :: q in quizzes && Throws(q, query)
    ensures r.Some? ==> SubSeq(r.value, quizzes)
    ensures r.Some? ==> forall q :: q in r.value <==> q in quizzes && QuizMatches(q, query)
  {
    if exists q :: q in quizzes && Throws(q, query) then None
    else Some(Filter(quizzes, q => QuizMatches(q, query)))
  }

  /** With an empty query the filter never throws and every quiz is kept, in its place. */
  lemma EmptyQueryKeepsAllQuizzes(quizzes: seq<Quiz>)
    ensures SearchQuizzes(quizzes, "") == Some(quizzes)
  {
    forall q | q in quizzes ensures QuizMatches(q, "") && !Throws(q, "") {
      Text.EmptyQueryMatches(q.title);
    }
    FilterKeepsAll(quizzes, q => QuizMatches(q, ""));
  }

  /** A search for "x" over one quiz titled "Quiz - a.pdf" without a description throws. */
  lemma MissingDescriptionThrows(quiz: Quiz)
    requires quiz.title == "Quiz - a.pdf" && quiz.description.None?
    ensures SearchQuizzes([quiz], "x") == None
  {
    var lowered := Text.Lower(quiz.title);
    assert forall i :: 0 <= i < |lowered| ==> lowered[i] != 'x';
    assert Text.Lower("x") == "x";
    forall i | 0 <= i <= |lowered| ensures !("x" <= lowered[i..]) {
      if i < |lowered| {
        assert lowered[i..][0] == lowered[i];
      }
    }
    assert Throws(quiz, "x");
    assert quiz in [quiz];
  }

  /** When every quiz has a description, the filter never throws. */
  lemma DescribedQuizzesNeverThrow(quizzes: seq<Quiz>, query: string)
    requires forall q :: q in quizzes ==> q.description.Some?
    ensures SearchQuizzes(quizzes, query).Some?
  {
  }

  /** `Math.round(timeSpent / 60)`: seconds to the nearest minute, halves rounded up. */
  function MinutesShown(timeSpent: int): (m: int)
    ensures 60 * m - 30 <= timeSpent < 60 * m + 30
  {
    Numbers.RoundedQuotient(timeSpent, 60)
  }

  /** The subject page's state. */
  class Page {
    var subject: Option<Subject>
    var quizzes: seq<Quiz>
    var filteredQuizzes: seq<Quiz>
    var stats: SubjectStats
    var loading: bool

    /** What is shown is always an order-preserving sub-list of what was loaded. */
    ghost predicate Valid()
      reads this
    {
      SubSeq(filteredQuizzes, quizzes)
    }

    constructor ()
      ensures Valid()
      ensures subject == None && quizzes == [] && filteredQuizzes == [] && stats == NoStats && loading
    {
      subject := None;
      quizzes := [];
      filteredQuizzes := [];
      stats := NoStats;
      loading := true;
    }

    /**
     * loadSubjectData: without a subject id nothing happens; otherwise the
     * subject, its quizzes and its statistics are fetched one after the other,
     * each stored as it arrives, and the first failed call stops the sequence.
     * Statistics that come back empty read as NoStats.
     */
    method Load(hasSubjectId: bool, subjectReply: Reply<Subject>, quizzesReply: Reply<seq<Quiz>>,
                statsReply: Reply<Option<SubjectStats>>)
      requires Valid()
      modifies this
      ensures Valid()
      ensures !hasSubjectId ==> unchanged(this)
      ensures hasSubjectId ==> !loading
      ensures hasSubjectId && subjectReply.Ok? ==> subject == Some(subjectReply.value)
      ensures hasSubjectId && subjectReply.Failed? ==>
                subject == old(subject) && quizzes == old(quizzes)
                && filteredQuizzes == old(filteredQuizzes) && stats == old(stats)
      ensures hasSubjectId && subjectReply.Ok? && quizzesReply.Ok? ==>
                quizzes == quizzesReply.value && filteredQuizzes == quizzesReply.value
      ensures hasSubjectId && subjectReply.Ok? && quizzesReply.Failed? ==>
                quizzes == old(quizzes) && filteredQuizzes == old(filteredQuizzes) && stats == old(stats)
      ensures hasSubjectId && subjectReply.Ok? && quizzesReply.Ok? && statsReply.Ok? ==>
                stats == (if statsReply.value.Some? then statsReply.value.value else NoStats)
      ensures hasSubjectId && statsReply.Failed? ==> stats == old(stats)
    {
      if !hasSubjectId {
        return;
      }
      if subjectReply.Ok? {
        subject := Some(subjectReply.value);
        if quizzesReply.Ok? {
          quizzes := quizzesReply.value;
          filteredQuizzes := quizzesReply.value;
          SubSeqRefl(quizzes);
          if statsReply.Ok? {
            stats := if statsReply.value.Some? then statsReply.value.value else NoStats;
          }
        }
      }
      loading := false;
    }

    /**
     * handleSearch: filter the whole loaded list, never the previous result; if
     * the filter throws, the shown list keeps its old value.
     */
    method HandleSearch(query: string)
      requires Valid()
      modifies this`filteredQuizzes
      ensures Valid()
      ensures SearchQuizzes(quizzes, query).Some? ==> filteredQuizzes == SearchQuizzes(quizzes, query).value
      ensures SearchQuizzes(quizzes, query).None? ==> filteredQuizzes == old(filteredQuizzes)
    {
      var result := SearchQuizzes(quizzes, query);
      if result.Some? {
        filteredQuizzes := result.value;
      }
    }
  }
}
