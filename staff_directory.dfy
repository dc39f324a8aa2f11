/** The staff directory page (pages/StaffDirectory.tsx): a search box, a faculty filter and a
    title filter over the professor table, and a profile modal for the selected card. */
module StaffDirectory {
  import opened Types
  import opened Text
  import opened Seqs

  /** The title options of the title drop-down (besides "all"). */
  const Titles: seq<string> := ["Professor", "Associate Professor", "Lecturer", "Assistant"]

  /** The name the page shows and searches: `nameAr` in Arabic, `name` otherwise. */
  function DisplayName(p: Professor, lang: Language): string {
    if lang == Ar then p.nameAr else p.name
  }

  /** Case-insensitive substring match of the query on the displayed name. */
  predicate NameMatch(p: Professor, lang: Language, query: string) {
    Includes(Lower(DisplayName(p, lang)), Lower(query))
  }

  /** "all" admits every faculty; any other value must equal the professor's faculty id. */
  predicate FacultyMatch(p: Professor, facultyId: string) {
    facultyId == "all" || p.facultyId == facultyId
  }

  /** "all" admits every title; any other value must occur, case-insensitively, in the
      professor's (English) title. */
  predicate TitleMatch(p: Professor, title: string) {
    title == "all" || Includes(Lower(p.title), Lower(title))
  }

  predicate Matches(p: Professor, lang: Language, query: string, facultyId: string, title: string) {
    NameMatch(p, lang, query) && FacultyMatch(p, facultyId) && TitleMatch(p, title)
  }

  /** `filteredStaff`: the professors that pass all three tests, in table order. */
  function FilterStaff(ps: seq<Professor>, lang: Language, query: string, facultyId: string, title: string)
    : (r: seq<Professor>)
    ensures IsSubsequence(r, ps)
    ensures forall p :: p in r <==>
      && p in ps
      && Includes(Lower(DisplayName(p, lang)), Lower(query))
      && (facultyId == "all" || p.facultyId == facultyId)
      && (title == "all" || Includes(Lower(p.title), Lower(title)))
    ensures forall p :: multiset(r)[p] == if Matches(p, lang, query, facultyId, title) then multiset(ps)[p] else 0
  {
    Filter(ps, p => Matches(p, lang, query, facultyId, title))
  }

  /** With an empty query and both filters on "all", the page lists the whole table, in
      either language. */
  lemma NoCriteriaListsAll(ps: seq<Professor>, lang: Language)
    ensures FilterStaff(ps, lang, "", "all", "all") == ps
  {
    forall p | p in ps ensures Matches(p, lang, "", "all", "all") {
      IncludesEmpty(Lower(DisplayName(p, lang)));
    }
    FilterKeepsAll(ps, p => Matches(p, lang, "", "all", "all"));
  }

  /** The search is case-insensitive: a query and its lowercased form list the same
      professors. */
  lemma QueryCaseInsensitive(ps: seq<Professor>, lang: Language, query: string, facultyId: string, title: string)
    ensures FilterStaff(ps, lang, query, facultyId, title) == FilterStaff(ps, lang, Lower(query), facultyId, title)
  {
    LowerIdempotent(query);
    FilterCongruent(ps, p => Matches(p, lang, query, facultyId, title),
                        p => Matches(p, lang, Lower(query), facultyId, title));
  }

  /** A professor whose displayed name contains the query verbatim is found, provided the
      two drop-downs admit it. */
  lemma VerbatimNameIsFound(ps: seq<Professor>, p: Professor, lang: Language, query: string, facultyId: string, title: string)
    requires p in ps
    requires Includes(DisplayName(p, lang), query)
    requires FacultyMatch(p, facultyId) && TitleMatch(p, title)
    ensures p in FilterStaff(ps, lang, query, facultyId, title)
  {
    IncludesLower(DisplayName(p, lang), query);
  }

  /** The empty-state panel is shown exactly when no professor passes the three tests. */
  lemma EmptyStateExactly(ps: seq<Professor>, lang: Language, query: string, facultyId: string, title: string)
    ensures |FilterStaff(ps, lang, query, facultyId, title)| == 0 <==>
            forall p :: p in ps ==> !Matches(p, lang, query, facultyId, title)
  {
    FilterEmpty(ps, p => Matches(p, lang, query, facultyId, title));
  }

  /** Title matching is by substring: choosing "Professor" keeps every professor whose
      title contains the word in any letter case. */
  lemma ProfessorOptionKeepsAllProfessorTitles(p: Professor)
    requires Includes(Lower(p.title), "professor")
    ensures TitleMatch(p, "Professor")
  {
    assert Lower("Professor") == "professor";
  }

  /** For example, the "Professor" option also keeps every "Associate Professor". */
  lemma ProfessorOptionKeepsAssociates(p: Professor)
    requires p.title == "Associate Professor"
    ensures TitleMatch(p, "Professor")
  {
    assert p.title[10..19] == "Professor";
    IncludesAt(p.title, "Professor", 10);
    IncludesLower(p.title, "Professor");
  }

  /** The page's state: the three filter inputs and the profile shown in the modal. */
  class DirectoryPage {
    const professors: seq<Professor>
    const faculties: seq<Faculty>
    var searchQuery: string
    var selectedFacultyId: string
    var selectedTitle: string
    var selectedStaff: Option<Professor>

    /** Mounting the page: an empty query, both filters on "all", no modal; so the page
        starts by listing every professor. */
    constructor (professors: seq<Professor>, faculties: seq<Faculty>)
      ensures this.professors == professors && this.faculties == faculties
      ensures searchQuery == "" && selectedFacultyId == "all" && selectedTitle == "all"
      ensures selectedStaff == None
      ensures forall lang: Language :: Filtered(lang) == professors
    {
      this.professors := professors;
      this.faculties := faculties;
      searchQuery := "";
      selectedFacultyId := "all";
      selectedTitle := "all";
      selectedStaff := None;
      new;
      NoCriteriaListsAll(professors, Ar);
      NoCriteriaListsAll(professors, En);
    }

    /** The cards on screen. */
    function Filtered(lang: Language): seq<Professor>
      reads this
    {
      FilterStaff(professors, lang, searchQuery, selectedFacultyId, selectedTitle)
    }

    /** The empty-state panel is rendered exactly when no card is. */
    predicate ShowsEmptyState(lang: Language): (shown: bool)
      reads this
      ensures shown <==> forall p :: p in professors ==> !Matches(p, lang, searchQuery, selectedFacultyId, selectedTitle)
    {
      EmptyStateExactly(professors, lang, searchQuery, selectedFacultyId, selectedTitle);
      |Filtered(lang)| == 0
    }

    /** Typing in the search box. */
    method SetSearchQuery(query: string)
      modifies this
      ensures searchQuery == query
      ensures selectedFacultyId == old(selectedFacultyId) && selectedTitle == old(selectedTitle)
      ensures selectedStaff == old(selectedStaff)
    {
      searchQuery := query;
    }

    /** Choosing a faculty option: "all" or the id of one of the faculties. */
    method SelectFaculty(facultyId: string)
      requires facultyId == "all" || exists f :: f in faculties && f.id == facultyId
      modifies this
      ensures selectedFacultyId == facultyId
      ensures searchQuery == old(searchQuery) && selectedTitle == old(selectedTitle)
      ensures selectedStaff == old(selectedStaff)
    {
      selectedFacultyId := facultyId;
    }

    /** Choosing a title option: "all" or one of the four titles. */
    method SelectTitle(title: string)
      requires title == "all" || title in Titles
      modifies this
      ensures selectedTitle == title
      ensures searchQuery == old(searchQuery) && selectedFacultyId == old(selectedFacultyId)
      ensures selectedStaff == old(selectedStaff)
    {
      selectedTitle := title;
    }

    /** Clicking a card, which is only on screen for a listed professor, opens its profile. */
    method OpenProfile(lang: Language, p: Professor)
      requires p in Filtered(lang)
      modifies this
      ensures selectedStaff == Some(p)
      ensures searchQuery == old(searchQuery) && selectedFacultyId == old(selectedFacultyId)
      ensures selectedTitle == old(selectedTitle)
    {
      selectedStaff := Some(p);
    }

    /** The backdrop and the "Close Profile" button both close the modal. */
    method CloseProfile()
      modifies this
      ensures selectedStaff == None
      ensures searchQuery == old(searchQuery) && selectedFacultyId == old(selectedFacultyId)
      ensures selectedTitle == old(selectedTitle)
    {
      selectedStaff := None;
    }
  }
}
