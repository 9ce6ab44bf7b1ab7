/** The subject search shared by the dashboard and the subject list. */
module SubjectSearch {
  import opened Records
  import Text
  import opened Sequences

  /** The lower-cased name or description includes the lower-cased query. */
  predicate SubjectMatches(s: Subject, query: string)
  {
    Text.Matches(s.name, query) || Text.Matches(s.description, query)
  }

  /**
   * `subjects.filter(...)` by SubjectMatches: always over the whole list given.
   * Every copy of a repeated subject is kept or dropped together (Sequences.FilterCounts).
   */
  function FilterSubjects(subjects: seq<Subject>, query: string): (r: seq<Subject>)
    ensures SubSeq(r, subjects)
    ensures forall s :: s in r <==> s in subjects && SubjectMatches(s, query)
  {
    Filter(subjects, s => SubjectMatches(s, query))
  }

  /** With an empty query every subject is kept, in its place. */
  lemma EmptyQueryKeepsAllSubjects(subjects: seq<Subject>)
    ensures FilterSubjects(subjects, "") == subjects
  {
    forall s | s in subjects ensures SubjectMatches(s, "") {
      Text.EmptyQueryMatches(s.name);
    }
    FilterKeepsAll(subjects, s => SubjectMatches(s, ""));
  }
}
