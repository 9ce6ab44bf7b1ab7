/** The page listing every subject, with a search box. */
module SubjectList {
  import opened Records
  import opened Sequences
  import opened SubjectSearch

  /** The subject list page's state. */
  class Page {
    var subjects: seq<Subject>
    var filteredSubjects: seq<Subject>
    var loading: bool

    /** What is shown is always an order-preserving sub-list of what was loaded. */
    ghost predicate Valid()
      reads this
    {
      SubSeq(filteredSubjects, subjects)
    }

    constructor ()
      ensures Valid()
      ensures subjects == [] && filteredSubjects == [] && loading
    {
      subjects := [];
      filteredSubjects := [];
      loading := true;
    }

    /** loadSubjects: without a user nothing happens; otherwise both lists are set from one fetch. */
    method Load(signedIn: bool, reply: Reply<seq<Subject>>)
      requires Valid()
      modifies this
      ensures Valid()
      ensures !signedIn ==> unchanged(this)
      ensures signedIn ==> !loading
      ensures signedIn && reply.Ok? ==> subjects == reply.value && filteredSubjects == reply.value
      ensures signedIn && reply.Failed? ==> subjects == old(subjects) && filteredSubjects == old(filteredSubjects)
    {
      if !signedIn {
        return;
      }
      if reply.Ok? {
        subjects := reply.value;
        filteredSubjects := reply.value;
        SubSeqRefl(subjects);
      }
      loading := false;
    }

    /** handleSearch: filter the whole loaded list, never the previous result. */
    method HandleSearch(query: string)
      requires Valid()
      modifies this`filteredSubjects
      ensures Valid()
      ensures filteredSubjects == FilterSubjects(subjects, query)
    {
      filteredSubjects := FilterSubjects(subjects, query);
    }
  }
}
