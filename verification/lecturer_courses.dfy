/** The lecturer's course list: the create-course form record and its field updates, the
    title filter, and the pagination bar. */
module LecturerCourses {
  import opened Wrappers
  import opened JsText
  import opened Lists

  /** A value held in `formData`: the text fields hold strings, `course_units` a number. */
  datatype FieldValue = Text(text: string) | Number(n: int)

  /** `formData`, keyed by the inputs' `name` attributes. */
  type FormData = map<string, FieldValue>

  const UnitsField := "course_units"

  /** `{ title: "", description: "", course_code: "", course_units: 10 }`, the initial form
      and the form after a course is created. */
  const InitialForm: FormData :=
    map["title" := Text(""), "description" := Text(""), "course_code" := Text(""), UnitsField := Number(10)]

  /** `parseInt(value, 10) || 0`: the parsed integer, or 0 where `parseInt` gives `NaN`. */
  function CourseUnits(value: string): (n: int)
    ensures ParseInt(value).Some? ==> n == ParseInt(value).value
    ensures ParseInt(value).None? ==> n == 0
  {
    ParseInt(value).GetOr(0)
  }

  /** The value `handleInputChange` stores for an input named `name` showing `value`. */
  function Coerced(name: string, value: string): (v: FieldValue)
    ensures name == UnitsField ==> v == Number(CourseUnits(value))
    ensures name != UnitsField ==> v == Text(value)
  {
    if name == UnitsField then Number(CourseUnits(value)) else Text(value)
  }

  /** `{ ...formData, [name]: … }`: only the named field changes. */
  function InputChanged(form: FormData, name: string, value: string): (r: FormData)
    ensures r.Keys == form.Keys + {name}
    ensures r[name] == Coerced(name, value)
    ensures forall k | k in form && k != name :: r[k] == form[k]
  {
    form[name := Coerced(name, value)]
  }

  /** Typing a number's decimal numeral into the units field stores that number, and text
      with no digits stores 0. */
  lemma {:induction false} UnitsRoundTrip(form: FormData, n: nat, junk: string)
    requires forall i | 0 <= i < |junk| :: !IsDigit(junk[i])
    ensures InputChanged(form, UnitsField, Decimal(n))[UnitsField] == Number(n)
    ensures InputChanged(form, UnitsField, junk)[UnitsField] == Number(0)
  {
    ParseIntDecimal(n);
    ParseIntNoDigits(junk);
  }

  /** The form's own four inputs keep the form's four keys, with the units field a number. */
  ghost predicate WellShaped(form: FormData) {
    form.Keys == InitialForm.Keys && form[UnitsField].Number? &&
    forall k | k in form && k != UnitsField :: form[k].Text?
  }

  lemma {:induction false} InputChangeKeepsShape(form: FormData, name: string, value: string)
    requires WellShaped(form) && name in InitialForm
    ensures WellShaped(InputChanged(form, name, value))
  {
    var r := InputChanged(form, name, value);
    assert r.Keys == InitialForm.Keys;
    forall k | k in r && k != UnitsField ensures r[k].Text? {
      if k == name { assert name != UnitsField; } else { assert form[k].Text?; }
    }
  }

  datatype Course = Course(id: string, title: string, description: string, courseCode: string,
                           courseUnits: int, courseJoinCode: string)

  /** `filteredCourses`: the courses whose title is exactly the search term. The page
      defines it but renders `coursesData.results` instead. */
  function FilteredCourses(courses: seq<Course>, searchTerm: string): (r: seq<Course>)
    ensures |r| <= |courses| && SubsequenceOf(r, courses)
    ensures forall i | 0 <= i < |r| :: r[i] in courses && r[i].title == searchTerm
    ensures forall i | 0 <= i < |courses| && courses[i].title == searchTerm :: courses[i] in r
  {
    Filter(courses, (c: Course) => c.title == searchTerm)
  }

  /** A course titled exactly as the search term is kept as many times as it occurs; any
      other course is not kept. */
  lemma {:induction false} FilteredCounts(courses: seq<Course>, searchTerm: string, c: Course)
    ensures multiset(FilteredCourses(courses, searchTerm))[c] == if c.title == searchTerm then multiset(courses)[c] else 0
  {
    FilterCounts(courses, (x: Course) => x.title == searchTerm, c);
  }

  /** The title test is case-sensitive: a differently cased title is not kept. */
  lemma CaseSensitiveTitle(c: Course)
    requires c.title == "Algorithms"
    ensures FilteredCourses([c], "algorithms") == []
  {
    assert c.title[0] != "algorithms"[0];
  }

  // ----- pagination -----

  /** A page of `GET /courses`: `next` and `previous` are links, or `null`. */
  datatype CoursePage = CoursePage(count: int, next: Option<string>, previous: Option<string>, results: seq<Course>)

  /** The controls under the course grid. */
  datatype Pagination = NoPagination | PaginationBar(previousDisabled: bool, nextDisabled: bool)

  function PaginationOf(page: CoursePage): (p: Pagination)
    ensures p.PaginationBar? <==> Truthy(page.next) || Truthy(page.previous)
    ensures p.PaginationBar? ==> (p.previousDisabled <==> !Truthy(page.previous))
    ensures p.PaginationBar? ==> (p.nextDisabled <==> !Truthy(page.next))
    ensures p.PaginationBar? ==> !(p.previousDisabled && p.nextDisabled)
  {
    if Truthy(page.next) || Truthy(page.previous) then PaginationBar(!Truthy(page.previous), !Truthy(page.next))
    else NoPagination
  }

  /** `link && fetchCourses(link)`: the url a button's click fetches, if any. */
  function ClickTarget(link: Option<string>): (url: Option<string>)
    ensures url.Some? <==> Truthy(link)
    ensures url.Some? ==> url == link
  {
    if Truthy(link) then link else None
  }

  /** A bar with a button enabled fetches that button's link; a disabled one fetches nothing. */
  lemma {:induction false} EnabledButtonsFetch(page: CoursePage)
    requires PaginationOf(page).PaginationBar?
    ensures !PaginationOf(page).previousDisabled <==> ClickTarget(page.previous) == page.previous && page.previous.Some?
    ensures !PaginationOf(page).nextDisabled <==> ClickTarget(page.next) == page.next && page.next.Some?
  {
  }

  class LecturerCoursesPage {
    var formData: FormData
    var coursesData: CoursePage
    var searchTerm: string

    constructor ()
      ensures formData == InitialForm && searchTerm == ""
      ensures coursesData == CoursePage(0, None, None, [])
    {
      formData := InitialForm;
      coursesData := CoursePage(0, None, None, []);
      searchTerm := "";
    }

    /** `handleInputChange` for the input named `name` now showing `value`. */
    method HandleInputChange(name: string, value: string)
      modifies this
      ensures formData == InputChanged(old(formData), name, value)
      ensures coursesData == old(coursesData) && searchTerm == old(searchTerm)
    {
      formData := formData[name := Coerced(name, value)];
    }

    /** The end of a successful `handleCreateCourse`: the list is refetched and the form
        is cleared. */
    method CourseCreated(refetched: CoursePage)
      modifies this
      ensures formData == InitialForm && coursesData == refetched && searchTerm == old(searchTerm)
    {
      coursesData := refetched;
      formData := InitialForm;
    }
  }
}
