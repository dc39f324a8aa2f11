/** The portal's data types (types.ts), as Dafny values. */
module Types {

  /** `T | null` and optional (`?`) fields. */
  datatype Option<+T> = None | Some(value: T)

  /** The screens of the portal; each carries the string the source's enum assigns to it. */
  datatype AppView =
    | LANDING | DASHBOARD | FACULTIES | DRIVE | RESULTS | EXAMS | EVALUATION | COMPLAINTS
    | SERVICES | LOGIN | PROFILE | SURVEYS | ALUMNI | ELEARNING | RESEARCH | STAFF_DIRECTORY

  /** The string value of each enum member. */
  function ViewId(v: AppView): string {
    match v
    case LANDING => "landing"
    case DASHBOARD => "dashboard"
    case FACULTIES => "faculties"
    case DRIVE => "drive"
    case RESULTS => "results"
    case EXAMS => "exams"
    case EVALUATION => "evaluation"
    case COMPLAINTS => "complaints"
    case SERVICES => "services"
    case LOGIN => "login"
    case PROFILE => "profile"
    case SURVEYS => "surveys"
    case ALUMNI => "alumni"
    case ELEARNING => "elearning"
    case RESEARCH => "research"
    case STAFF_DIRECTORY => "staff_directory"
  }

  /** The enum's members in declaration order. */
  const AllViews: seq<AppView> :=
    [LANDING, DASHBOARD, FACULTIES, DRIVE, RESULTS, EXAMS, EVALUATION, COMPLAINTS,
     SERVICES, LOGIN, PROFILE, SURVEYS, ALUMNI, ELEARNING, RESEARCH, STAFF_DIRECTORY]

  /** The position of a member in the declaration order. */
  function ViewOrdinal(v: AppView): (k: nat)
    ensures k < |AllViews| && AllViews[k] == v
  {
    match v
    case LANDING => 0
    case DASHBOARD => 1
    case FACULTIES => 2
    case DRIVE => 3
    case RESULTS => 4
    case EXAMS => 5
    case EVALUATION => 6
    case COMPLAINTS => 7
    case SERVICES => 8
    case LOGIN => 9
    case PROFILE => 10
    case SURVEYS => 11
    case ALUMNI => 12
    case ELEARNING => 13
    case RESEARCH => 14
    case STAFF_DIRECTORY => 15
  }

  /** The enum has exactly sixteen members, each listed once. */
  lemma AllViewsExact()
    ensures |AllViews| == 16
    ensures forall v: AppView :: v in AllViews
    ensures forall i, j :: 0 <= i < j < |AllViews| ==> AllViews[i] != AllViews[j]
  {
    forall v: AppView ensures v in AllViews {
      var k := ViewOrdinal(v);
    }
  }

  /** No two members share a string value, so comparisons by string (as the source's
      `item.id === AppView.PROFILE`) identify a member exactly. */
  lemma ViewIdInjective(v: AppView, w: AppView)
    ensures ViewId(v) == ViewId(w) <==> v == w
  {
  }

  datatype Language = Ar | En

  function LangCode(l: Language): string {
    match l
    case Ar => "ar"
    case En => "en"
  }

  /** The two language codes are different, and they are the only two. */
  lemma LangCodes(l: Language)
    ensures LangCode(l) == "ar" || LangCode(l) == "en"
    ensures LangCode(l) == "ar" <==> l == Ar
  {
  }

  datatype UserRole = Student | Staff | Admin | FacultyAdmin

  datatype Faculty = Faculty(
    id: string, name: string, nameAr: string, code: string, icon: string,
    description: string, descriptionAr: string)

  datatype FileType = Pdf | Doc | Xls | Zip

  datatype ResourceFile = ResourceFile(
    id: string, name: string, nameAr: string, fileType: FileType, size: string, date: string)

  /** A member of the teaching staff. `rating` is a JavaScript number; here an exact real. */
  datatype Professor = Professor(
    id: string, name: string, nameAr: string, title: string, titleAr: string,
    facultyId: string, department: string, departmentAr: Option<string>,
    specialization: Option<string>, specializationAr: Option<string>,
    email: string, bio: Option<string>, bioAr: Option<string>,
    officeHours: Option<string>, officeHoursAr: Option<string>,
    courses: Option<seq<string>>, coursesAr: Option<seq<string>>,
    rating: real, image: Option<string>)

  datatype CourseResult = CourseResult(
    code: string, name: string, nameAr: string, credits: int, grade: string,
    points: real, semester: string)

  datatype ServiceCategory = Academic | Financial | Administrative | Government

  datatype ServiceStatus = Available | Maintenance | Restricted

  /** A service tile; `view` and `externalUrl` are both optional. */
  datatype UniversityService = UniversityService(
    id: string, view: Option<AppView>, externalUrl: Option<string>,
    title: string, titleAr: string, description: string, descriptionAr: string,
    category: ServiceCategory, status: ServiceStatus, icon: string, color: Option<string>)

  /** The signed-in session record. */
  datatype User = User(
    id: string, name: string, nameAr: string, role: UserRole,
    faculty: string, facultyAr: string, department: string, departmentAr: string,
    level: int, gpa: real, creditsEarned: int, avatar: Option<string>)
}
