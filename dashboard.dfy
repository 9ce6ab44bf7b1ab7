/**
 * The dashboard: the six built-in subjects followed by the user's own, a
 * subject search, icon and colour lookups with fallbacks, the level badge and
 * the form that adds a subject.
 */
module Dashboard {
  import opened Records
  import opened Sequences
  import opened SubjectSearch

  /** The icons a subject can be drawn with. */
  datatype Icon = ChartBar | PieChart | Building2 | Briefcase | Calculator | Languages | BookOpen

  /** The key under which each icon is looked up. */
  function IconName(icon: Icon): string
  {
    match icon
    case ChartBar => "ChartBar"
    case PieChart => "PieChart"
    case Building2 => "Building2"
    case Briefcase => "Briefcase"
    case Calculator => "Calculator"
    case Languages => "Languages"
    case BookOpen => "BookOpen"
  }

  const IconNames: set<string> :=
    {"ChartBar", "PieChart", "Building2", "Briefcase", "Calculator", "Languages", "BookOpen"}

  /** getSubjectIcon: the icon registered under `name`, BookOpen for any other name. */
  function IconFor(name: string): (icon: Icon)
    ensures name in IconNames ==> IconName(icon) == name
    ensures name !in IconNames ==> icon == BookOpen
  {
    if name == "ChartBar" then ChartBar
    else if name == "PieChart" then PieChart
    else if name == "Building2" then Building2
    else if name == "Briefcase" then Briefcase
    else if name == "Calculator" then Calculator
    else if name == "Languages" then Languages
    else BookOpen
  }

  /** Looking an icon up by its own name gives that icon back. */
  lemma IconRoundTrip(icon: Icon)
    ensures IconName(icon) in IconNames && IconFor(IconName(icon)) == icon
  {
  }

  /** The colour table of getSubjectColorClass. */
  const ColorClasses: map<string, string> := map[
    "blue" := "bg-blue-100 text-blue-600",
    "green" := "bg-green-100 text-green-600",
    "purple" := "bg-purple-100 text-purple-600",
    "orange" := "bg-orange-100 text-orange-600",
    "red" := "bg-red-100 text-red-600",
    "indigo" := "bg-indigo-100 text-indigo-600",
    "gray" := "bg-gray-100 text-gray-600"]

  /** getSubjectColorClass: the classes of a known colour; those of gray otherwise, an absent colour included. */
  function ColorClass(color: Option<string>): (cls: string)
    ensures color.Some? && color.value in ColorClasses ==> cls == ColorClasses[color.value]
    ensures color.None? || color.value !in ColorClasses ==> cls == "bg-gray-100 text-gray-600"
    ensures cls in ColorClasses.Values
  {
    if color.Some? && color.value in ColorClasses then ColorClasses[color.value]
    else ColorClasses["gray"]
  }

  /** A subject whose icon and colour are both in the lookup tables, so no fallback is needed. */
  ghost predicate Styled(s: Subject)
  {
    s.icon in IconNames && s.color.Some? && s.color.value in ColorClasses
  }

  /** A styled subject is drawn with its own icon and colour, never with a fallback. */
  lemma StyledNeedsNoFallback(s: Subject)
    requires Styled(s)
    ensures IconName(IconFor(s.icon)) == s.icon
    ensures ColorClass(s.color) == ColorClasses[s.color.value]
  {
  }

  const DefaultSubjects: seq<Subject> := [
    Subject("microeconomics", "Microéconomie", "Principes fondamentaux de la microéconomie",
            "ChartBar", Some("blue"), None),
    Subject("statistics", "Statistiques", "Méthodes statistiques et analyse de données",
            "PieChart", Some("green"), None),
    Subject("national-accounting", "Comptabilité Nationale", "Principes de la comptabilité nationale",
            "Building2", Some("purple"), None),
    Subject("management", "Management", "Théories et pratiques du management",
            "Briefcase", Some("orange"), None),
    Subject("economic-calculations", "Calculs Économiques", "Méthodes de calcul économique",
            "Calculator", Some("red"), None),
    Subject("english", "Anglais", "Business English et communication",
            "Languages", Some("indigo"), None)]

  /** A user's own subject as the dashboard shows it: gray, with the BookOpen icon. */
  function Customize(s: Subject): (c: Subject)
    ensures c.color == Some("gray") && c.icon == "BookOpen"
    ensures Styled(c)
    ensures c.id == s.id && c.name == s.name && c.description == s.description && c.user_id == s.user_id
  {
    s.(color := Some("gray"), icon := "BookOpen")
  }

  /** The subject list built by loadData: the defaults in their order, then the user's subjects in fetched order. */
  function MergeSubjects(custom: seq<Subject>): (r: seq<Subject>)
    ensures |r| == |DefaultSubjects| + |custom|
    ensures r[..|DefaultSubjects|] == DefaultSubjects
    ensures forall i :: 0 <= i < |custom| ==> r[|DefaultSubjects| + i] == Customize(custom[i])
    ensures forall s :: s in r ==> Styled(s)
  {
    DefaultSubjects + seq(|custom|, i requires 0 <= i < |custom| => Customize(custom[i]))
  }

  /** The props handed to the level badge. */
  datatype Badge = Badge(level: int, xp: int, nextLevelXp: int)

  /**
   * `stats?.current_level || 1`, `stats?.xp_points || 0` and the threshold
   * `(stats?.current_level || 1) * 1000`; a level of 0 is falsy and also reads as 1.
   */
  function LevelBadge(stats: Option<UserStats>): (b: Badge)
    ensures stats.None? ==> b == Badge(1, 0, 1000)
    ensures stats.Some? ==> b.xp == stats.value.xp_points
    ensures stats.Some? && stats.value.current_level != 0 ==> b.level == stats.value.current_level
    ensures stats.None? || stats.value.current_level == 0 ==> b.level == 1
    ensures b.level != 0 && b.nextLevelXp == b.level * 1000
    ensures b.nextLevelXp != 0
  {
    var level := if stats.Some? && stats.value.current_level != 0 then stats.value.current_level else 1;
    var xp := if stats.Some? then stats.value.xp_points else 0;
    Badge(level, xp, level * 1000)
  }

  /** The add-subject form. */
  datatype SubjectForm = SubjectForm(name: string, description: string)

  /** The row handleAddSubject inserts into `subjects`. */
  datatype SubjectInsert = SubjectInsert(name: string, description: string, user_id: string)

  /** The dashboard's state. */
  class Page {
    var stats: Option<UserStats>
    var subjects: seq<Subject>
    var searchQuery: string
    var showAddSubject: bool
    var newSubject: SubjectForm
    var loading: bool

    /** Every subject on the dashboard has a known icon and a known colour. */
    ghost predicate Valid()
      reads this
    {
      forall s :: s in subjects ==> Styled(s)
    }

    constructor ()
      ensures Valid()
      ensures stats == None && subjects == [] && searchQuery == ""
      ensures !showAddSubject && newSubject == SubjectForm("", "") && loading
    {
      stats := None;
      subjects := [];
      searchQuery := "";
      showAddSubject := false;
      newSubject := SubjectForm("", "");
      loading := true;
    }

    /**
     * loadData: without a user nothing happens; otherwise the statistics are
     * fetched and stored, then the user's subjects, which are merged after the
     * defaults. A failed call stops the sequence.
     */
    method Load(signedIn: bool, statsReply: Reply<UserStats>, subjectsReply: Reply<seq<Subject>>)
      requires Valid()
      modifies this
      ensures Valid()
      ensures !signedIn ==> unchanged(this)
      ensures signedIn ==> && !loading && searchQuery == old(searchQuery)
                           && showAddSubject == old(showAddSubject) && newSubject == old(newSubject)
      ensures signedIn && statsReply.Ok? ==> stats == Some(statsReply.value)
      ensures signedIn && statsReply.Ok? && subjectsReply.Ok? ==> subjects == MergeSubjects(subjectsReply.value)
      ensures signedIn && statsReply.Failed? ==> stats == old(stats) && subjects == old(subjects)
      ensures signedIn && subjectsReply.Failed? ==> subjects == old(subjects)
    {
      if !signedIn {
        return;
      }
      if statsReply.Ok? {
        stats := Some(statsReply.value);
        if subjectsReply.Ok? {
          subjects := MergeSubjects(subjectsReply.value);
        }
      }
      loading := false;
    }

    /** handleSearch: remember the query; the filtered list is derived from it. */
    method HandleSearch(query: string)
      requires Valid()
      modifies this`searchQuery
      ensures Valid()
      ensures searchQuery == query
    {
      searchQuery := query;
    }

    /** filteredSubjects: the subjects the search keeps, each drawable without a fallback. */
    function FilteredSubjects(): (r: seq<Subject>)
      requires Valid()
      reads this
      ensures SubSeq(r, subjects)
      ensures forall s :: s in r <==> s in subjects && SubjectMatches(s, searchQuery)
      ensures forall s :: s in r ==> Styled(s)
    {
      FilterSubjects(subjects, searchQuery)
    }

    /**
     * handleAddSubject: without a user or with an empty name nothing happens;
     * otherwise the form is inserted and, when the backend returns the new row,
     * that row is appended in gray with the BookOpen icon, the form is cleared and
     * closed. On a failed insert nothing changes.
     */
    method HandleAddSubject(userId: Option<string>, inserted: Reply<Subject>) returns (request: Option<SubjectInsert>)
      requires Valid()
      modifies this
      ensures Valid()
      ensures stats == old(stats) && searchQuery == old(searchQuery) && loading == old(loading)
      ensures userId.None? || old(newSubject.name) == "" ==> request == None && unchanged(this)
      ensures userId.Some? && old(newSubject.name) != "" ==>
                request == Some(SubjectInsert(old(newSubject.name), old(newSubject.description), userId.value))
      ensures request.Some? && inserted.Ok? ==>
                && subjects == old(subjects) + [Customize(inserted.value)]
                && newSubject == SubjectForm("", "") && !showAddSubject
      ensures request.Some? && inserted.Failed? ==> unchanged(this)
    {
      if userId.None? || newSubject.name == "" {
        return None;
      }
      request := Some(SubjectInsert(newSubject.name, newSubject.description, userId.value));
      if inserted.Ok? {
        subjects := subjects + [Customize(inserted.value)];
        newSubject := SubjectForm("", "");
        showAddSubject := false;
      }
    }
  }
}
