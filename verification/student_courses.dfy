/** The student's "My Courses" page: the search filter over enrolled courses, the empty
    state, and enrolment by join code. */
module StudentCourses {
  import opened Wrappers
  import opened Ui
  import opened JsText
  import opened Lists

  datatype Lecturer = Lecturer(firstName: string, lastName: string, email: string, department: string)

  datatype Course = Course(id: string, title: string, description: string, courseCode: string,
                           courseUnits: int, lecturer: Lecturer, courseJoinCode: string)

  /** `field.toLowerCase().includes(searchTerm.toLowerCase())`. */
  predicate FieldMatches(field: string, searchTerm: string) {
    Includes(ToLower(field), ToLower(searchTerm))
  }

  /** A course stays in the list when the search term occurs, ignoring case, in its title,
      its course code or its lecturer's department. */
  predicate Matches(searchTerm: string, course: Course) {
    FieldMatches(course.title, searchTerm) || FieldMatches(course.courseCode, searchTerm) ||
    FieldMatches(course.lecturer.department, searchTerm)
  }

  /** `filteredCourses`. */
  function FilteredCourses(courses: seq<Course>, searchTerm: string): (r: seq<Course>)
    ensures |r| <= |courses| && SubsequenceOf(r, courses)
    ensures forall i | 0 <= i < |r| :: r[i] in courses && Matches(searchTerm, r[i])
    ensures forall i | 0 <= i < |courses| && Matches(searchTerm, courses[i]) :: courses[i] in r
  {
    Filter(courses, c => Matches(searchTerm, c))
  }

  /** A matching course is shown as many times as it is enrolled; a course that does not
      match is not shown. */
  lemma {:induction false} FilteredCounts(courses: seq<Course>, searchTerm: string, c: Course)
    ensures multiset(FilteredCourses(courses, searchTerm))[c] == if Matches(searchTerm, c) then multiset(courses)[c] else 0
  {
    FilterCounts(courses, x => Matches(searchTerm, x), c);
  }

  /** Lower-casing twice is lower-casing once. */
  lemma {:induction false} ToLowerIdempotent(s: string)
    ensures ToLower(ToLower(s)) == ToLower(s)
  {
    var once := ToLower(s);
    forall i | 0 <= i < |s| ensures ToLower(once)[i] == once[i] {
      assert once[i] == ToLowerChar(s[i]);
    }
  }

  /** The search ignores the case of the term: a term and its lower-case form keep the same
      courses. */
  lemma {:induction false} SearchIgnoresCase(courses: seq<Course>, searchTerm: string)
    ensures FilteredCourses(courses, ToLower(searchTerm)) == FilteredCourses(courses, searchTerm)
  {
    ToLowerIdempotent(searchTerm);
    FilterAgrees(courses, c => Matches(ToLower(searchTerm), c), c => Matches(searchTerm, c));
  }

  /** An empty search term keeps every course, in order. */
  lemma {:induction false} EmptySearchKeepsAll(courses: seq<Course>)
    ensures FilteredCourses(courses, "") == courses
  {
    assert ToLower("") == "";
    forall i | 0 <= i < |courses| ensures Matches("", courses[i]) {
      IncludesEmpty(ToLower(courses[i].title));
    }
    FilterKeepsAll(courses, c => Matches("", c));
  }

  /** What the page shows under its header: the empty state, or a card per kept course. */
  datatype CoursesView = NoCoursesEnrolled | CourseCards(shown: seq<Course>)

  /** The empty state is chosen by `courses.length`, not by the filtered list. */
  function View(courses: seq<Course>, searchTerm: string): (v: CoursesView)
    ensures v.NoCoursesEnrolled? <==> courses == []
    ensures v.CourseCards? ==> v.shown == FilteredCourses(courses, searchTerm)
  {
    if |courses| == 0 then NoCoursesEnrolled else CourseCards(FilteredCourses(courses, searchTerm))
  }

  /** A search that matches nothing in a non-empty list shows no cards and no empty-state
      message. */
  lemma {:induction false} NoMatchShowsNoCards(courses: seq<Course>, searchTerm: string)
    requires courses != []
    requires forall i | 0 <= i < |courses| :: !Matches(searchTerm, courses[i])
    ensures View(courses, searchTerm) == CourseCards([])
  {
    FilterKeepsNone(courses, c => Matches(searchTerm, c));
  }

  // ----- enrolment -----

  const BlankCodeMessage := "Please enter a course code"
  const EnrolledMessage := "Successfully enrolled in course"
  const EnrolFailedMessage := "Failed to enroll in course"

  /** The answer to `POST /courses/join`; a missing error message is the empty string. */
  datatype JoinReply = Joined | JoinFailed(message: string)

  /** The answer to the `GET /courses/enrolled` that follows a successful join. */
  datatype FetchReply = Fetched(courses: seq<Course>) | FetchFailed(message: string)

  /** `error.response?.data.message || 'Failed to enroll in course'`. */
  function ErrorText(message: string): (t: string)
    ensures t != ""
    ensures message != "" ==> t == message
    ensures message == "" ==> t == EnrolFailedMessage
  {
    if message != "" then message else EnrolFailedMessage
  }

  /** The page's state after a submission of the join form, and what the submission did. */
  datatype EnrolStep = EnrolStep(courses: seq<Course>, joinCode: string, posted: Option<string>, toasts: seq<Toast>)

  /** `handleEnroll`, as a function of the page's state and the two replies. */
  function Enrol(courses: seq<Course>, joinCode: string, join: JoinReply, fetch: FetchReply): (step: EnrolStep) {
    if Trim(joinCode) == [] then
      EnrolStep(courses, joinCode, None, [ErrorToast(BlankCodeMessage)])
    else
      match join
      case JoinFailed(m) => EnrolStep(courses, joinCode, Some(joinCode), [ErrorToast(ErrorText(m))])
      case Joined =>
        match fetch
        case Fetched(cs) => EnrolStep(cs, "", Some(joinCode), [SuccessToast(EnrolledMessage)])
        case FetchFailed(m) =>
          EnrolStep(courses, joinCode, Some(joinCode), [SuccessToast(EnrolledMessage), ErrorToast(ErrorText(m))])
  }

  /** A code that is blank after trimming is refused before any request; otherwise the code
      is posted as typed, and only after both the join and the refetch succeed are the
      courses replaced and the code cleared. */
  lemma {:induction false} EnrolBehaviour(courses: seq<Course>, joinCode: string, join: JoinReply, fetch: FetchReply)
    ensures var r := Enrol(courses, joinCode, join, fetch);
      (r.posted == None <==> AllWhiteSpace(joinCode)) &&
      (AllWhiteSpace(joinCode) ==> r == EnrolStep(courses, joinCode, None, [ErrorToast(BlankCodeMessage)])) &&
      (r.posted.Some? ==> r.posted.value == joinCode) &&
      (r.posted.Some? && join.Joined? && fetch.Fetched? ==> r.courses == fetch.courses && r.joinCode == "") &&
      (!(r.posted.Some? && join.Joined? && fetch.Fetched?) ==> r.courses == courses && r.joinCode == joinCode) &&
      (r.posted.Some? && join.JoinFailed? ==> r.toasts == [ErrorToast(ErrorText(join.message))]) &&
      (r.posted.Some? && join.Joined? ==> |r.toasts| >= 1 && r.toasts[0] == SuccessToast(EnrolledMessage))
  {
    assert Trim(joinCode) == [] <==> AllWhiteSpace(joinCode);
  }

  /** A join code with surrounding spaces is sent with them: only the blank test trims. */
  lemma PaddedCodeSentAsTyped(courses: seq<Course>, join: JoinReply, fetch: FetchReply)
    ensures Enrol(courses, " ABC123 ", join, fetch).posted == Some(" ABC123 ")
  {
    assert !IsWhiteSpace(" ABC123 "[1]);
  }

  class StudentCoursesPage {
    var courses: seq<Course>
    var joinCode: string
    var searchTerm: string

    /** The page after its first fetch of the enrolled courses. */
    constructor (enrolled: seq<Course>)
      ensures courses == enrolled && joinCode == "" && searchTerm == ""
    {
      courses := enrolled;
      joinCode := "";
      searchTerm := "";
    }

    /** The join-code input's `onChange`. */
    method SetJoinCode(text: string)
      modifies this
      ensures joinCode == text && courses == old(courses) && searchTerm == old(searchTerm)
    {
      joinCode := text;
    }

    /** The search input's `onChange`. */
    method SetSearchTerm(text: string)
      modifies this
      ensures searchTerm == text && courses == old(courses) && joinCode == old(joinCode)
    {
      searchTerm := text;
    }

    method HandleEnroll(join: JoinReply, fetch: FetchReply) returns (posted: Option<string>, toasts: seq<Toast>)
      modifies this
      ensures EnrolStep(courses, joinCode, posted, toasts) == Enrol(old(courses), old(joinCode), join, fetch)
      ensures searchTerm == old(searchTerm)
    {
      var code, before := joinCode, courses;
      if Trim(code) == [] {
        posted, toasts := None, [ErrorToast(BlankCodeMessage)];
        return;
      }
      posted := Some(code);
      match join {
        case JoinFailed(m) =>
          toasts := [ErrorToast(ErrorText(m))];
          assert Enrol(before, code, join, fetch) == EnrolStep(courses, joinCode, posted, toasts);
        case Joined =>
          match fetch {
            case Fetched(cs) =>
              toasts := [SuccessToast(EnrolledMessage)];
              courses, joinCode := cs, "";
              assert Enrol(before, code, join, fetch) == EnrolStep(courses, joinCode, posted, toasts);
            case FetchFailed(m) =>
              toasts := [SuccessToast(EnrolledMessage), ErrorToast(ErrorText(m))];
              assert Enrol(before, code, join, fetch) == EnrolStep(courses, joinCode, posted, toasts);
          }
      }
    }
  }
}
