/** The complaints page (pages/Complaints.tsx): a category, an optional faculty, the
    complaint text, and a timed reset after submission. */
module Complaints {
  import opened Types

  /** The three category buttons. */
  datatype Category = AcademicIssue | AdminIssue | FacilitiesIssue

  /** The id each category button assigns: one of the three the state's type admits. */
  function CategoryId(c: Category): (id: string)
    ensures id == "academic" || id == "admin" || id == "facilities"
  {
    match c
    case AcademicIssue => "academic"
    case AdminIssue => "admin"
    case FacilitiesIssue => "facilities"
  }

  /** The three buttons assign three different ids, so the id identifies the category. */
  lemma CategoryIdInjective(a: Category, b: Category)
    ensures CategoryId(a) == CategoryId(b) <==> a == b
  {
  }

  /** What a complaint is about: the university in general, or one faculty. */
  datatype Scope = General | OfFaculty(facultyId: string)

  /** The faculty drop-down's value: `""` is the "General University Issue" option; any other
      value is a faculty id. */
  function ComplaintScope(facultyId: string): (s: Scope)
    ensures s == General <==> facultyId == ""
    ensures s.OfFaculty? ==> s.facultyId == facultyId
  {
    if facultyId == "" then General else OfFaculty(facultyId)
  }

  /** The page's state. `pendingResets` counts armed reset timers; `Tick` is one firing. */
  class ComplaintsPage {
    const faculties: seq<Faculty>
    var category: Option<Category>
    var facultyId: string
    var complaint: string
    var submitted: bool
    var pendingResets: nat

    /** The form is hidden while the confirmation is shown, so it cannot be submitted twice:
        exactly one reset is armed while the confirmation is up, none otherwise. The
        drop-down only offers "" and the faculties' ids. */
    ghost predicate Valid()
      reads this
    {
      && pendingResets == (if submitted then 1 else 0)
      && (facultyId == "" || exists f :: f in faculties && f.id == facultyId)
    }

    /** The initial values, to which the reset also returns. */
    predicate IsBlank()
      reads this
    {
      category == None && facultyId == "" && complaint == "" && !submitted
    }

    constructor (faculties: seq<Faculty>)
      ensures Valid() && IsBlank() && this.faculties == faculties
    {
      this.faculties := faculties;
      category := None;
      facultyId := "";
      complaint := "";
      submitted := false;
      pendingResets := 0;
    }

    /** What the complaint is about, as the drop-down now says: the general option, or a
        faculty the drop-down offers. */
    function CurrentScope(): (s: Scope)
      requires Valid()
      reads this
      ensures s == General <==> facultyId == ""
      ensures s.OfFaculty? ==> s.facultyId == facultyId && exists f :: f in faculties && f.id == s.facultyId
    {
      ComplaintScope(facultyId)
    }

    /** Clicking one of the category buttons. */
    method SelectCategory(c: Category)
      requires Valid() && !submitted
      modifies this
      ensures Valid()
      ensures category == Some(c)
      ensures facultyId == old(facultyId) && complaint == old(complaint)
      ensures submitted == old(submitted) && pendingResets == old(pendingResets)
    {
      category := Some(c);
    }

    /** Choosing an option of the faculty drop-down. */
    method SelectFaculty(id: string)
      requires Valid() && !submitted
      requires id == "" || exists f :: f in faculties && f.id == id
      modifies this
      ensures Valid()
      ensures facultyId == id
      ensures category == old(category) && complaint == old(complaint)
      ensures submitted == old(submitted) && pendingResets == old(pendingResets)
    {
      facultyId := id;
    }

    /** Typing in the complaint box. */
    method SetComplaint(text: string)
      requires Valid() && !submitted
      modifies this
      ensures Valid()
      ensures complaint == text
      ensures category == old(category) && facultyId == old(facultyId)
      ensures submitted == old(submitted) && pendingResets == old(pendingResets)
    {
      complaint := text;
    }

    /** `handleSubmit`: no check of its own; shows the confirmation and arms the reset. */
    method HandleSubmit()
      requires Valid() && !submitted
      modifies this
      ensures Valid()
      ensures submitted && pendingResets == 1
      ensures category == old(category) && facultyId == old(facultyId) && complaint == old(complaint)
    {
      submitted := true;
      pendingResets := pendingResets + 1;
    }

    /** Pressing the submit button. The complaint box is a `required` field, so the browser
        only delivers the submit event when it is not empty; category and faculty are never
        checked. */
    method PressSubmit()
      requires Valid() && !submitted
      modifies this
      ensures Valid()
      ensures submitted <==> old(complaint) != ""
      ensures category == old(category) && facultyId == old(facultyId) && complaint == old(complaint)
    {
      if complaint != "" {
        HandleSubmit();
      }
    }

    /** The armed reset fires: every field is back to its initial value. */
    method Tick()
      requires Valid() && pendingResets > 0
      modifies this
      ensures Valid() && IsBlank() && pendingResets == 0
    {
      pendingResets := pendingResets - 1;
      submitted := false;
      category := None;
      facultyId := "";
      complaint := "";
    }
  }
}
