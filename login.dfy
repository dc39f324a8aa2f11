/** The mock sign-in page (pages/Login.tsx): after a delay it hands the application a fixed
    student record, whatever was typed. */
module Login {
  import opened Types
  import opened Effects

  /** The id used when the id field is left empty. */
  const DefaultStudentId: string := "2024001"

  /** The record passed to `onLogin`. Only the id depends on the input (`studentId ||
      '2024001'`); there is no password parameter because the record does not use it. */
  function MockUser(studentId: string): (u: User)
    ensures u.id == if studentId == "" then DefaultStudentId else studentId
    ensures u.id != ""
    ensures u.role == Student && u.level == 4 && u.creditsEarned == 112
  {
    User(
      id := if studentId == "" then DefaultStudentId else studentId,
      name := "Mohamed Yasser",
      nameAr := "المهندس محمد ياسر",
      role := Student,
      faculty := "Faculty of Engineering",
      facultyAr := "كلية الهندسة",
      department := "Mechatronics Dept.",
      departmentAr := "قسم هندسة الميكاترونكس",
      level := 4,
      gpa := 3.82,
      creditsEarned := 112,
      avatar := Some(""))
  }

  /** Two sign-ins differ at most in the id. */
  lemma OnlyIdVaries(a: string, b: string)
    ensures MockUser(a).(id := "") == MockUser(b).(id := "")
  {
  }

  /** The page's state. `pending` is the armed timer, holding the id as it was when the form
      was submitted (the timer's callback reads that render's `studentId`). */
  class LoginPage {
    var studentId: string
    var password: string
    var isLoading: bool
    var pending: Option<string>

    ghost predicate Valid()
      reads this
    {
      pending.Some? ==> isLoading
    }

    /** The submit button is disabled exactly while loading. */
    predicate SubmitDisabled()
      reads this
    {
      isLoading
    }

    constructor ()
      ensures Valid()
      ensures studentId == "" && password == "" && !isLoading && pending == None
    {
      studentId := "";
      password := "";
      isLoading := false;
      pending := None;
    }

    method EditStudentId(text: string)
      requires Valid()
      modifies this
      ensures Valid()
      ensures studentId == text
      ensures password == old(password) && isLoading == old(isLoading) && pending == old(pending)
    {
      studentId := text;
    }

    method EditPassword(text: string)
      requires Valid()
      modifies this
      ensures Valid()
      ensures password == text
      ensures studentId == old(studentId) && isLoading == old(isLoading) && pending == old(pending)
    {
      password := text;
    }

    /** `handleLogin`, reachable only while the submit button is enabled: the spinner starts
        and the timer is armed with the current id. */
    method HandleLogin()
      requires Valid() && !SubmitDisabled()
      modifies this
      ensures Valid()
      ensures isLoading && SubmitDisabled() && pending == Some(studentId)
      ensures studentId == old(studentId) && password == old(password)
    {
      isLoading := true;
      pending := Some(studentId);
    }

    /** The timer fires and calls `onLogin` with the mock record for the captured id. The
        loading flag is never cleared: the application leaves this page on sign-in. */
    method Tick() returns (e: Effect)
      requires Valid() && pending.Some?
      modifies this
      ensures Valid()
      ensures e == SignIn(MockUser(old(pending).value))
      ensures pending == None && isLoading
      ensures studentId == old(studentId) && password == old(password)
    {
      e := SignIn(MockUser(pending.value));
      pending := None;
    }
  }
}
