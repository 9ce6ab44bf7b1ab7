/** The page listing the user's quizzes, with a text search and a subject filter. */
module QuizList {
  import opened Records
  import Text
  import opened Sequences

  /** The quiz row as this page declares it: description, subject and difficulty may be absent. */
  datatype Listing = Listing(
    id: string,
    title: string,
    created_at: string,
    description: Option<string>,
    subject_id: Option<string>,
    difficulty_level: Option<int>,
    total_questions: int)

  /** A subject as this page loads it: `id, name` only. */
  datatype SubjectRef = SubjectRef(id: string, name: string)

  /** The subject selection that applies no subject filter. */
  const AllSubjects := "all"

  /** The title matches, or the description is present (non-empty) and matches. */
  predicate TextMatch(quiz: Listing, query: string)
  {
    || Text.Matches(quiz.title, query)
    || (quiz.description.Some? && quiz.description.value != "" && Text.Matches(quiz.description.value, query))
  }

  predicate InSubject(quiz: Listing, subjectId: string)
  {
    quiz.subject_id == Some(subjectId)
  }

  function ByText(quizzes: seq<Listing>, query: string): (r: seq<Listing>)
    ensures SubSeq(r, quizzes)
    ensures forall q :: q in r <==> q in quizzes && TextMatch(q, query)
  {
    Filter(quizzes, q => TextMatch(q, query))
  }

  function BySubject(quizzes: seq<Listing>, subjectId: string): (r: seq<Listing>)
    ensures SubSeq(r, quizzes)
    ensures forall q :: q in r <==> q in quizzes && InSubject(q, subjectId)
  {
    Filter(quizzes, q => InSubject(q, subjectId))
  }

  /**
   * The list handleSearch shows: the text filter applies only to a non-empty
   * query, the subject filter only when a subject other than "all" is selected.
   */
  function SearchResult(quizzes: seq<Listing>, query: string, selectedSubject: string): (r: seq<Listing>)
    ensures SubSeq(r, quizzes)
    ensures forall q :: q in r <==>
              && q in quizzes
              && (query == "" || TextMatch(q, query))
              && (selectedSubject == AllSubjects || InSubject(q, selectedSubject))
    ensures forall q :: multiset(r)[q] ==
              if (query == "" || TextMatch(q, query)) && (selectedSubject == AllSubjects || InSubject(q, selectedSubject))
              then multiset(quizzes)[q] else 0
    ensures query == "" && selectedSubject == AllSubjects ==> r == quizzes
  {
    var byText := if query != "" then ByText(quizzes, query) else quizzes;
    SubSeqRefl(quizzes);
    forall q ensures multiset(byText)[q] == if query == "" || TextMatch(q, query) then multiset(quizzes)[q] else 0 {
      if query != "" {
        FilterCounts(quizzes, q' => TextMatch(q', query), q);
      }
    }
    forall q ensures multiset(BySubject(byText, selectedSubject))[q] ==
                     if InSubject(q, selectedSubject) then multiset(byText)[q] else 0 {
      FilterCounts(byText, q' => InSubject(q', selectedSubject), q);
    }
    if selectedSubject != AllSubjects then
      SubSeqTrans(BySubject(byText, selectedSubject), byText, quizzes);
      BySubject(byText, selectedSubject)
    else
      byText
  }

  function DifficultyLabel(level: int): (text: string)
    ensures level == 1 ==> text == "Débutant"
    ensures level == 2 ==> text == "Intermédiaire"
    ensures level == 3 ==> text == "Avancé"
    ensures !(1 <= level <= 3) ==> text == "Non défini"
  {
    if level == 1 then "Débutant"
    else if level == 2 then "Intermédiaire"
    else if level == 3 then "Avancé"
    else "Non défini"
  }

  function DifficultyColor(level: int): (color: string)
    ensures level == 1 ==> color == "text-green-600 bg-green-50"
    ensures level == 2 ==> color == "text-yellow-600 bg-yellow-50"
    ensures level == 3 ==> color == "text-red-600 bg-red-50"
    ensures !(1 <= level <= 3) ==> color == "text-gray-600 bg-gray-50"
  {
    if level == 1 then "text-green-600 bg-green-50"
    else if level == 2 then "text-yellow-600 bg-yellow-50"
    else if level == 3 then "text-red-600 bg-red-50"
    else "text-gray-600 bg-gray-50"
  }

  /** The two tables share their cases: a level gets the default label iff it gets the gray class. */
  lemma LabelAndColorAgree(level: int)
    ensures DifficultyLabel(level) == "Non défini" <==> DifficultyColor(level) == "text-gray-600 bg-gray-50"
  {
  }

  /** The quiz list page's state. */
  class Page {
    var quizzes: seq<Listing>
    var filteredQuizzes: seq<Listing>
    var subjects: seq<SubjectRef>
    var selectedSubject: string
    var loading: bool

    /** What is shown is always an order-preserving sub-list of what was loaded. */
    ghost predicate Valid()
      reads this
    {
      SubSeq(filteredQuizzes, quizzes)
    }

    constructor ()
      ensures Valid()
      ensures quizzes == [] && filteredQuizzes == [] && subjects == []
      ensures selectedSubject == AllSubjects && loading
    {
      quizzes := [];
      filteredQuizzes := [];
      subjects := [];
      selectedSubject := AllSubjects;
      loading := true;
    }

    /**
     * loadData: without a user nothing happens; otherwise the quizzes, then the
     * subjects are fetched, and the lists are set only if both calls succeeded.
     */
    method Load(signedIn: bool, quizzesReply: Reply<seq<Listing>>, subjectsReply: Reply<seq<SubjectRef>>)
      requires Valid()
      modifies this
      ensures Valid()
      ensures !signedIn ==> unchanged(this)
      ensures signedIn ==> !loading && selectedSubject == old(selectedSubject)
      ensures signedIn && quizzesReply.Ok? && subjectsReply.Ok? ==>
                && quizzes == quizzesReply.value && filteredQuizzes == quizzesReply.value
                && subjects == subjectsReply.value
      ensures signedIn && (quizzesReply.Failed? || subjectsReply.Failed?) ==>
                quizzes == old(quizzes) && filteredQuizzes == old(filteredQuizzes) && subjects == old(subjects)
    {
      if !signedIn {
        return;
      }
      if quizzesReply.Ok? && subjectsReply.Ok? {
        quizzes := quizzesReply.value;
        filteredQuizzes := quizzesReply.value;
        subjects := subjectsReply.value;
        SubSeqRefl(quizzes);
      }
      loading := false;
    }

    /** handleSearch: filter the whole loaded list by the query and the selected subject. */
    method HandleSearch(query: string)
      requires Valid()
      modifies this`filteredQuizzes
      ensures Valid()
      ensures filteredQuizzes == SearchResult(quizzes, query, selectedSubject)
    {
      var filtered := quizzes;
      if query != "" {
        filtered := ByText(filtered, query);
      }
      if selectedSubject != AllSubjects {
        filtered := BySubject(filtered, selectedSubject);
      }
      filteredQuizzes := filtered;
      assert filteredQuizzes == SearchResult(quizzes, query, selectedSubject);
    }

    /** handleSubjectChange: select the subject and filter by it alone; any text query is dropped. */
    method HandleSubjectChange(subjectId: string)
      requires Valid()
      modifies this`selectedSubject, this`filteredQuizzes
      ensures Valid()
      ensures selectedSubject == subjectId
      ensures filteredQuizzes == SearchResult(quizzes, "", subjectId)
    {
      selectedSubject := subjectId;
      var filtered := quizzes;
      if subjectId != AllSubjects {
        filtered := BySubject(filtered, subjectId);
      }
      filteredQuizzes := filtered;
      assert filteredQuizzes == SearchResult(quizzes, "", subjectId);
    }
  }
}
