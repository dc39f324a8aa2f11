/** The anonymous staff-evaluation page (pages/StaffEvaluation.tsx): pick a faculty, pick one
    of its professors, give one to five stars and an optional comment, submit; a timer armed
    by the submission later clears the form. */
module StaffEvaluation {
  import opened Types
  import opened Seqs

  /** The staff list shown under a selected faculty. */
  function ProfessorsOf(ps: seq<Professor>, faculty: Faculty): (r: seq<Professor>)
    ensures IsSubsequence(r, ps)
    ensures forall p :: p in r <==> p in ps && p.facultyId == faculty.id
  {
    Filter(ps, (p: Professor) => p.facultyId == faculty.id)
  }

  /** The three screens the page can show. */
  datatype Screen = ThankYou | RatingForm | FacultySelection

  /** The page's state. The submit timer is not modelled as time: every successful submit
      arms one reset, counted in `pendingResets`, and `Tick` is one of them firing. */
  class EvaluationPage {
    const faculties: seq<Faculty>
    const professors: seq<Professor>
    var selectedFaculty: Option<Faculty>
    var selectedProf: Option<Professor>
    var rating: int
    var comment: string
    var submitted: bool
    var pendingResets: nat

    /** The thank-you screen is only reached with a star rating, a professor and an armed
        reset; the professor under evaluation always belongs to the highlighted faculty. */
    ghost predicate Valid()
      reads this
    {
      && 0 <= rating <= 5
      && (submitted ==> 1 <= rating && selectedProf.Some? && pendingResets >= 1)
      && (selectedProf.Some? ==>
            selectedFaculty.Some? && selectedProf.value in ProfessorsOf(professors, selectedFaculty.value))
    }

    /** The rating form is on screen. */
    predicate FormShown()
      reads this
    {
      !submitted && selectedProf.Some?
    }

    /** The faculty grid (and, once a faculty is chosen, its staff list) is on screen. */
    predicate SelectionShown()
      reads this
    {
      !submitted && selectedProf.None?
    }

    /** The screen on display: the thank-you screen while submitted, else the rating form
        once a professor is chosen, else the faculty grid. Exactly one is shown. */
    function CurrentScreen(): (s: Screen)
      reads this
      ensures s == ThankYou <==> submitted
      ensures s == RatingForm <==> FormShown()
      ensures s == FacultySelection <==> SelectionShown()
    {
      if submitted then ThankYou else if selectedProf.Some? then RatingForm else FacultySelection
    }

    /** The submit button is disabled exactly while no star is chosen. */
    predicate SubmitDisabled()
      reads this
    {
      rating == 0
    }

    constructor (faculties: seq<Faculty>, professors: seq<Professor>)
      ensures Valid()
      ensures this.faculties == faculties && this.professors == professors
      ensures selectedFaculty == None && selectedProf == None && rating == 0 && comment == ""
      ensures !submitted && pendingResets == 0
    {
      this.faculties := faculties;
      this.professors := professors;
      selectedFaculty := None;
      selectedProf := None;
      rating := 0;
      comment := "";
      submitted := false;
      pendingResets := 0;
    }

    /** Clicking a faculty tile. */
    method SelectFaculty(f: Faculty)
      requires Valid() && SelectionShown() && f in faculties
      modifies this
      ensures Valid()
      ensures selectedFaculty == Some(f)
      ensures selectedProf == old(selectedProf) && rating == old(rating) && comment == old(comment)
      ensures submitted == old(submitted) && pendingResets == old(pendingResets)
    {
      selectedFaculty := Some(f);
    }

    /** Clicking a row of the staff list, which lists exactly the selected faculty's
        professors. */
    method SelectProfessor(p: Professor)
      requires Valid() && SelectionShown() && selectedFaculty.Some?
      requires p in ProfessorsOf(professors, selectedFaculty.value)
      modifies this
      ensures Valid()
      ensures selectedProf == Some(p)
      ensures selectedFaculty == old(selectedFaculty) && rating == old(rating) && comment == old(comment)
      ensures submitted == old(submitted) && pendingResets == old(pendingResets)
    {
      selectedProf := Some(p);
    }

    /** Clicking star number `star` of the five. */
    method SetRating(star: int)
      requires Valid() && FormShown() && 1 <= star <= 5
      modifies this
      ensures Valid()
      ensures rating == star && !SubmitDisabled()
      ensures selectedFaculty == old(selectedFaculty) && selectedProf == old(selectedProf)
      ensures comment == old(comment) && submitted == old(submitted) && pendingResets == old(pendingResets)
    {
      rating := star;
    }

    /** Typing in the comment box. */
    method SetComment(text: string)
      requires Valid() && FormShown()
      modifies this
      ensures Valid()
      ensures comment == text
      ensures selectedFaculty == old(selectedFaculty) && selectedProf == old(selectedProf)
      ensures rating == old(rating) && submitted == old(submitted) && pendingResets == old(pendingResets)
    {
      comment := text;
    }

    /** `handleSubmit`: without a rating nothing changes; otherwise the thank-you screen is
        shown and one reset is armed. */
    method Submit()
      requires Valid() && FormShown()
      modifies this
      ensures Valid()
      ensures old(rating) == 0 ==> submitted == old(submitted) && pendingResets == old(pendingResets)
      ensures old(rating) != 0 ==> submitted && pendingResets == old(pendingResets) + 1
      ensures selectedFaculty == old(selectedFaculty) && selectedProf == old(selectedProf)
      ensures rating == old(rating) && comment == old(comment)
    {
      if rating == 0 {
        return;
      }
      submitted := true;
      pendingResets := pendingResets + 1;
    }

    /** The back arrow and the Cancel button, both on the form, return to the staff list. */
    method Cancel()
      requires Valid() && FormShown()
      modifies this
      ensures Valid()
      ensures selectedProf == None
      ensures selectedFaculty == old(selectedFaculty) && rating == old(rating) && comment == old(comment)
      ensures submitted == old(submitted) && pendingResets == old(pendingResets)
    {
      selectedProf := None;
    }

    /** "Return to Selection" on the thank-you screen. It does not disarm the pending reset,
        and it leaves the rating and the comment as they were. */
    method ReturnToSelection()
      requires Valid() && submitted
      modifies this
      ensures Valid()
      ensures !submitted && selectedProf == None
      ensures selectedFaculty == old(selectedFaculty) && rating == old(rating) && comment == old(comment)
      ensures pendingResets == old(pendingResets)
    {
      submitted := false;
      selectedProf := None;
    }

    /** One armed reset fires: the form is cleared, but the faculty stays selected. */
    method Tick()
      requires Valid() && pendingResets > 0
      modifies this
      ensures Valid()
      ensures !submitted && rating == 0 && comment == "" && selectedProf == None
      ensures selectedFaculty == old(selectedFaculty) && pendingResets == old(pendingResets) - 1
    {
      pendingResets := pendingResets - 1;
      submitted := false;
      rating := 0;
      comment := "";
      selectedProf := None;
    }
  }

  /** A reset armed by one evaluation still fires after "Return to Selection", and then
      discards a second evaluation the student has started in the meantime. */
  method StaleResetDiscardsNextEvaluation(f: Faculty, p: Professor, q: Professor)
    requires p.facultyId == f.id && q.facultyId == f.id
  {
    var page := new EvaluationPage([f], [p, q]);
    page.SelectFaculty(f);
    page.SelectProfessor(p);
    page.SetRating(5);
    page.Submit();
    assert page.submitted && page.pendingResets == 1;
    page.ReturnToSelection();
    page.SelectProfessor(q);
    page.SetRating(3);
    page.SetComment("clear explanations");
    assert page.FormShown() && page.rating == 3;
    page.Tick();
    assert page.selectedProf == None && page.rating == 0 && page.comment == "";
  }
}
