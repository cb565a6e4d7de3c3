/** The lecturer's "create assignment" page: the editable list of test cases, the form's
    validation schema, and what a submission sends and resets. Date parsing
    (`Date.parse`) is a parameter returning milliseconds, `None` for `NaN`. */
module CreateAssignment {
  import opened Wrappers
  import opened Ui
  import opened Lists
  import opened JsText

  datatype TestCase = TestCase(input: string, output: string, isHidden: bool)

  /** `{ input: '', output: '', is_hidden: false }`. */
  const EmptyTestCase := TestCase("", "", false)

  /** `updateTestCase(index, field, value)` with a value of the field's own type. */
  datatype Edit = SetInput(text: string) | SetOutput(text: string) | SetHidden(flag: bool)

  datatype Language = Language(id: int, name: string)

  // ----- the test-case list -----

  /** `addTestCase`: `[...testCases, newTestCase]`. */
  function Appended(cases: seq<TestCase>): (r: seq<TestCase>)
    ensures |r| == |cases| + 1 && r[..|cases|] == cases && r[|cases|] == EmptyTestCase
  {
    cases + [EmptyTestCase]
  }

  /** Where `Array.prototype.splice(index, 1)` starts: a negative index counts from the
      end (clamped at 0), an index past the end is clamped to the length. */
  function SpliceStart(index: int, len: nat): (k: nat)
    ensures k <= len
  {
    if index < 0 then (if len + index < 0 then 0 else len + index)
    else if index > len then len
    else index
  }

  /** The array after `splice(index, 1)`. */
  function Spliced(cases: seq<TestCase>, index: int): (r: seq<TestCase>)
    ensures |cases| - 1 <= |r| <= |cases|
    ensures var k := SpliceStart(index, |cases|);
      (k < |cases| ==> r == cases[..k] + cases[k + 1..]) && (k == |cases| ==> r == cases)
  {
    var k := SpliceStart(index, |cases|);
    if k < |cases| then cases[..k] + cases[k + 1..] else cases
  }

  /** One test case after an edit of one of its fields. */
  function Applied(tc: TestCase, edit: Edit): (r: TestCase) {
    match edit
    case SetInput(t) => tc.(input := t)
    case SetOutput(t) => tc.(output := t)
    case SetHidden(b) => tc.(isHidden := b)
  }

  /** Removing at an index inside the list takes out exactly that element and keeps the
      others in order. */
  lemma {:induction false} SplicedAt(cases: seq<TestCase>, i: nat)
    requires i < |cases|
    ensures |Spliced(cases, i)| == |cases| - 1
    ensures forall j | 0 <= j < i :: Spliced(cases, i)[j] == cases[j]
    ensures forall j | i <= j < |cases| - 1 :: Spliced(cases, i)[j] == cases[j + 1]
    ensures multiset(Spliced(cases, i)) + multiset{cases[i]} == multiset(cases)
  {
    var r := Spliced(cases, i);
    assert r == cases[..i] + cases[i + 1..];
    assert cases == cases[..i] + [cases[i]] + cases[i + 1..];
  }

  /** `splice` with an index past the end removes nothing; with -1 it removes the last. */
  lemma {:induction false} SplicedOutside(cases: seq<TestCase>, i: int)
    ensures i >= |cases| ==> Spliced(cases, i) == cases
    ensures cases != [] ==> Spliced(cases, -1) == cases[..|cases| - 1]
  {
    if cases != [] {
      assert SpliceStart(-1, |cases|) == |cases| - 1;
      assert cases[..|cases| - 1] + cases[|cases|..] == cases[..|cases| - 1];
    }
  }

  /** Adding a test case and then removing the last one gives back the original list. */
  lemma {:induction false} RemoveUndoesAdd(cases: seq<TestCase>)
    ensures |Appended(cases)| == |cases| + 1 && Appended(cases)[..|cases|] == cases
    ensures Spliced(Appended(cases), |cases|) == cases
    ensures Spliced(Appended(cases), -1) == cases
  {
    var a := Appended(cases);
    assert SpliceStart(-1, |a|) == |cases|;
    assert a[..|cases|] + a[|cases| + 1..] == cases;
  }

  /** An edit changes only the named field of the element at the index; every other
      element, and every other field of that element, stays. */
  lemma {:induction false} EditTouchesOneField(cases: seq<TestCase>, i: nat, edit: Edit)
    requires i < |cases|
    ensures var r := cases[i := Applied(cases[i], edit)];
      |r| == |cases| && (forall j | 0 <= j < |cases| && j != i :: r[j] == cases[j]) &&
      (edit.SetInput? ==> r[i].input == edit.text && r[i].output == cases[i].output && r[i].isHidden == cases[i].isHidden) &&
      (edit.SetOutput? ==> r[i].output == edit.text && r[i].input == cases[i].input && r[i].isHidden == cases[i].isHidden) &&
      (edit.SetHidden? ==> r[i].isHidden == edit.flag && r[i].input == cases[i].input && r[i].output == cases[i].output)
  {
  }

  // ----- the validation schema -----

  /** The values react-hook-form holds. A number field whose text is not a number holds
      `NaN`, here `None`. */
  datatype FormValues = FormValues(title: string, description: string, deadline: string, maxScore: Option<real>,
                                   languageId: Option<int>, courseId: string, testCases: seq<TestCase>)

  /** The schema's complaints, in the schema's field order. */
  datatype FormIssue =
    | TitleTooShort | DescriptionTooShort | InvalidDeadline
    | ScoreNotANumber | ScoreBelowMinimum | ScoreAboveMaximum
    | LanguageNotANumber | NoTestCases

  /** The message each complaint shows under its field. */
  function IssueMessage(issue: FormIssue): (message: string) {
    match issue
    case TitleTooShort => "Title must be at least 2 characters"
    case DescriptionTooShort => "Please make your description more explanatory"
    case InvalidDeadline => "Please provide a valid date and time"
    case ScoreNotANumber => "Expected number, received nan"
    case ScoreBelowMinimum => "Maximum score must be at least 1 point"
    case ScoreAboveMaximum => "Maximum score cannot exceed 1000 points"
    case LanguageNotANumber => "Expected number, received nan"
    case NoTestCases => "At least one test case is required"
  }

  /** The values the schema accepts, stated field by field. zod's `min` on a string
      measures its `length`, in UTF-16 code units. */
  ghost predicate Acceptable(v: FormValues, parseDate: string -> Option<int>) {
    Utf16Length(v.title) >= 2 && Utf16Length(v.description) >= 20 && parseDate(v.deadline).Some? &&
    v.maxScore.Some? && 1.0 <= v.maxScore.value <= 1000.0 &&
    v.languageId.Some? && |v.testCases| >= 1
  }

  /** The rule behind each complaint, as the schema states it. */
  predicate Breaks(v: FormValues, parseDate: string -> Option<int>, issue: FormIssue) {
    match issue
    case TitleTooShort => Utf16Length(v.title) < 2
    case DescriptionTooShort => Utf16Length(v.description) < 20
    case InvalidDeadline => parseDate(v.deadline).None?
    case ScoreNotANumber => v.maxScore.None?
    case ScoreBelowMinimum => v.maxScore.Some? && v.maxScore.value < 1.0
    case ScoreAboveMaximum => v.maxScore.Some? && v.maxScore.value > 1000.0
    case LanguageNotANumber => v.languageId.None?
    case NoTestCases => |v.testCases| < 1
  }

  /** Every complaint, in the order of the schema's fields. */
  const SchemaOrder := [TitleTooShort, DescriptionTooShort, InvalidDeadline, ScoreNotANumber,
                        ScoreBelowMinimum, ScoreAboveMaximum, LanguageNotANumber, NoTestCases]

  lemma {:induction false} SchemaOrderComplete(issue: FormIssue)
    ensures issue in SchemaOrder
  {
    match issue
    case TitleTooShort => assert SchemaOrder[0] == issue;
    case DescriptionTooShort => assert SchemaOrder[1] == issue;
    case InvalidDeadline => assert SchemaOrder[2] == issue;
    case ScoreNotANumber => assert SchemaOrder[3] == issue;
    case ScoreBelowMinimum => assert SchemaOrder[4] == issue;
    case ScoreAboveMaximum => assert SchemaOrder[5] == issue;
    case LanguageNotANumber => assert SchemaOrder[6] == issue;
    case NoTestCases => assert SchemaOrder[7] == issue;
  }

  /** `formSchema.safeParse(values)`: the complaints raised, each exactly when its rule is
      broken, in field order; none exactly when the values are acceptable. */
  function Validate(v: FormValues, parseDate: string -> Option<int>): (issues: seq<FormIssue>)
    ensures forall x: FormIssue :: x in issues <==> Breaks(v, parseDate, x)
    ensures SubsequenceOf(issues, SchemaOrder)
    ensures issues == [] <==> Acceptable(v, parseDate)
  {
    var issues := Filter(SchemaOrder, x => Breaks(v, parseDate, x));
    forall x: FormIssue ensures x in issues <==> Breaks(v, parseDate, x) {
      SchemaOrderComplete(x);
      if x in issues {
        var i :| 0 <= i < |issues| && issues[i] == x;
      }
    }
    AcceptableIffNoRuleBroken(v, parseDate);
    issues
  }

  lemma {:induction false} AcceptableIffNoRuleBroken(v: FormValues, parseDate: string -> Option<int>)
    ensures Acceptable(v, parseDate) <==> forall x: FormIssue :: !Breaks(v, parseDate, x)
  {
    if !Acceptable(v, parseDate) {
      assert Breaks(v, parseDate, TitleTooShort) || Breaks(v, parseDate, DescriptionTooShort) ||
             Breaks(v, parseDate, InvalidDeadline) || Breaks(v, parseDate, ScoreNotANumber) ||
             Breaks(v, parseDate, ScoreBelowMinimum) || Breaks(v, parseDate, ScoreAboveMaximum) ||
             Breaks(v, parseDate, LanguageNotANumber) || Breaks(v, parseDate, NoTestCases);
    }
  }

  /** Read field by field, a list holding exactly the broken rules' complaints names each
      out-of-bounds field: a title under 2 characters, a description under 20, a deadline
      that does not parse, a score that is not a number or outside [1, 1000], a language id
      that is not a number, an empty test-case list. */
  lemma {:induction false} ComplaintsByField(v: FormValues, parseDate: string -> Option<int>, issues: seq<FormIssue>)
    requires forall x: FormIssue :: x in issues <==> Breaks(v, parseDate, x)
    ensures TitleTooShort in issues <==> Utf16Length(v.title) < 2
    ensures DescriptionTooShort in issues <==> Utf16Length(v.description) < 20
    ensures InvalidDeadline in issues <==> parseDate(v.deadline).None?
    ensures ScoreNotANumber in issues <==> v.maxScore.None?
    ensures ScoreBelowMinimum in issues <==> v.maxScore.Some? && v.maxScore.value < 1.0
    ensures ScoreAboveMaximum in issues <==> v.maxScore.Some? && v.maxScore.value > 1000.0
    ensures LanguageNotANumber in issues <==> v.languageId.None?
    ensures NoTestCases in issues <==> v.testCases == []
  {
    assert TitleTooShort in issues <==> Breaks(v, parseDate, TitleTooShort);
    assert DescriptionTooShort in issues <==> Breaks(v, parseDate, DescriptionTooShort);
    assert InvalidDeadline in issues <==> Breaks(v, parseDate, InvalidDeadline);
    assert ScoreNotANumber in issues <==> Breaks(v, parseDate, ScoreNotANumber);
    assert ScoreBelowMinimum in issues <==> Breaks(v, parseDate, ScoreBelowMinimum);
    assert ScoreAboveMaximum in issues <==> Breaks(v, parseDate, ScoreAboveMaximum);
    assert LanguageNotANumber in issues <==> Breaks(v, parseDate, LanguageNotANumber);
    assert NoTestCases in issues <==> Breaks(v, parseDate, NoTestCases);
  }

  /** A title of one character outside the Basic Multilingual Plane, such as an emoji, is
      two code units long and so long enough. */
  lemma {:induction false} AstralTitleLongEnough(v: FormValues, parseDate: string -> Option<int>)
    requires |v.title| == 1 && v.title[0] as int >= 0x10000
    ensures !Breaks(v, parseDate, TitleTooShort)
  {
    assert v.title[1..] == [];
  }

  /** The score field shows at most one complaint: not a number, below 1, or above 1000. */
  lemma {:induction false} OneScoreComplaint(v: FormValues, parseDate: string -> Option<int>, issues: seq<FormIssue>)
    requires forall x: FormIssue :: x in issues <==> Breaks(v, parseDate, x)
    ensures !(ScoreNotANumber in issues && ScoreBelowMinimum in issues)
    ensures !(ScoreNotANumber in issues && ScoreAboveMaximum in issues)
    ensures !(ScoreBelowMinimum in issues && ScoreAboveMaximum in issues)
  {
    ComplaintsByField(v, parseDate, issues);
  }

  // ----- the submission -----

  /** `languages.find(lang => lang.id === id)`: the first language with that id. */
  function FindLanguage(languages: seq<Language>, id: int): (r: Option<Language>)
    ensures r.None? <==> forall i | 0 <= i < |languages| :: languages[i].id != id
    ensures r.Some? ==> exists i | 0 <= i < |languages| ::
      languages[i] == r.value && r.value.id == id && forall j | 0 <= j < i :: languages[j].id != id
  {
    if languages == [] then None
    else if languages[0].id == id then Some(languages[0])
    else
      var r := FindLanguage(languages[1..], id);
      FindLanguageShift(languages, id, r);
      r
  }

  /** A first match in the tail of a list whose head does not match is a first match in
      the whole list. */
  lemma {:induction false} FindLanguageShift(languages: seq<Language>, id: int, r: Option<Language>)
    requires languages != [] && languages[0].id != id
    requires r.None? <==> forall i | 0 <= i < |languages[1..]| :: languages[1..][i].id != id
    requires r.Some? ==> exists i | 0 <= i < |languages[1..]| ::
      languages[1..][i] == r.value && r.value.id == id && forall j | 0 <= j < i :: languages[1..][j].id != id
    ensures r.None? <==> forall i | 0 <= i < |languages| :: languages[i].id != id
    ensures r.Some? ==> exists i | 0 <= i < |languages| ::
      languages[i] == r.value && r.value.id == id && forall j | 0 <= j < i :: languages[j].id != id
  {
    var tail := languages[1..];
    if r.Some? {
      var i :| 0 <= i < |tail| && tail[i] == r.value && r.value.id == id &&
               forall j | 0 <= j < i :: tail[j].id != id;
      assert languages[i + 1] == r.value;
      forall j | 0 <= j < i + 1 ensures languages[j].id != id {
        if j > 0 { assert languages[j] == tail[j - 1]; }
      }
    } else {
      forall i | 0 <= i < |languages| ensures languages[i].id != id {
        if i > 0 { assert languages[i] == tail[i - 1]; }
      }
    }
  }

  /** `selectedLanguage ? selectedLanguage.name : ""`. */
  function LanguageName(languages: seq<Language>, id: int): (name: string)
    ensures (forall i | 0 <= i < |languages| :: languages[i].id != id) ==> name == ""
    ensures forall i | 0 <= i < |languages| ::
      languages[i].id == id && (forall j | 0 <= j < i :: languages[j].id != id) ==> name == languages[i].name
  {
    match FindLanguage(languages, id)
    case None => ""
    case Some(l) =>
      FirstMatchUnique(languages, id, l);
      l.name
  }

  /** Only one position is the first with a given id. */
  lemma {:induction false} FirstMatchUnique(languages: seq<Language>, id: int, l: Language)
    requires exists k | 0 <= k < |languages| ::
      languages[k] == l && l.id == id && forall j | 0 <= j < k :: languages[j].id != id
    ensures forall i | 0 <= i < |languages| ::
      languages[i].id == id && (forall j | 0 <= j < i :: languages[j].id != id) ==> languages[i] == l
  {
    var k :| 0 <= k < |languages| && languages[k] == l && l.id == id && forall j | 0 <= j < k :: languages[j].id != id;
    forall i | 0 <= i < |languages| && languages[i].id == id && (forall j | 0 <= j < i :: languages[j].id != id)
      ensures languages[i] == l
    {
      assert !(i < k) && !(k < i);
    }
  }

  datatype Payload = Payload(title: string, description: string, deadline: int, maxScore: real,
                             languageId: int, programmingLanguage: string, testCases: seq<TestCase>)

  /** The body posted to `/courses/{course_id}/assignments/create`. */
  function BuildPayload(v: FormValues, parseDate: string -> Option<int>, languages: seq<Language>): (p: Payload)
    requires Acceptable(v, parseDate)
    ensures p.title == v.title && p.description == v.description && p.testCases == v.testCases
    ensures p.deadline == parseDate(v.deadline).value
    ensures p.maxScore == v.maxScore.value && 1.0 <= p.maxScore <= 1000.0
    ensures p.languageId == v.languageId.value
    ensures p.programmingLanguage == LanguageName(languages, v.languageId.value)
  {
    Payload(v.title, v.description, parseDate(v.deadline).value, v.maxScore.value, v.languageId.value,
            LanguageName(languages, v.languageId.value), v.testCases)
  }

  function CreateUrl(courseId: string): (url: string) {
    "/courses/" + courseId + "/assignments/create"
  }

  const AssignmentsPath := "/dashboard/lecturer/assignments"

  /** How the server answers the post: created, or an error body whose `message` (empty
      when absent) and `non_field_errors` become error toasts. */
  datatype PostReply = Created | Failed(message: string, nonFieldErrors: seq<string>)

  function FailureToasts(message: string, nonFieldErrors: seq<string>): (ts: seq<Toast>)
    ensures message != "" ==> ts == [ErrorToast(message)]
    ensures message == "" ==>
      (|ts| == |nonFieldErrors| && forall i | 0 <= i < |ts| :: ts[i] == ErrorToast(nonFieldErrors[i]))
  {
    if message != "" then [ErrorToast(message)]
    else seq(|nonFieldErrors|, i requires 0 <= i < |nonFieldErrors| => ErrorToast(nonFieldErrors[i]))
  }

  /** The page's state: the `testCases` list and the form's values, which `setValue`
      keeps equal to it. */
  class CreateAssignmentForm {
    var testCases: seq<TestCase>
    var values: FormValues
    const defaults: FormValues

    ghost predicate Valid()
      reads this
    {
      |testCases| >= 1 && values.testCases == testCases && defaults.testCases == [EmptyTestCase]
    }

    /** The form as first rendered; `defaultDeadline` is one week after the page opened. */
    constructor (defaultDeadline: string)
      ensures Valid() && testCases == [EmptyTestCase]
      ensures values == defaults
      ensures defaults == FormValues("", "", defaultDeadline, Some(100.0), Some(0), "", [EmptyTestCase])
    {
      testCases := [EmptyTestCase];
      defaults := FormValues("", "", defaultDeadline, Some(100.0), Some(0), "", [EmptyTestCase]);
      values := FormValues("", "", defaultDeadline, Some(100.0), Some(0), "", [EmptyTestCase]);
    }

    /** What the registered inputs hold after the user types; the test cases are only
        changed through the list operations below. */
    method EnterValues(entered: FormValues)
      requires Valid()
      modifies this
      ensures Valid()
      ensures values == entered.(testCases := old(testCases)) && testCases == old(testCases)
    {
      values := entered.(testCases := testCases);
    }

    method AddTestCase()
      requires Valid()
      modifies this
      ensures Valid()
      ensures testCases == Appended(old(testCases)) && values == old(values).(testCases := testCases)
    {
      testCases := testCases + [EmptyTestCase];
      values := values.(testCases := testCases);
    }

    /** Removes nothing when only one test case is left, so the list is never empty. */
    method RemoveTestCase(index: int)
      requires Valid()
      modifies this
      ensures Valid()
      ensures testCases == if |old(testCases)| > 1 then Spliced(old(testCases), index) else old(testCases)
      ensures values == old(values).(testCases := testCases)
    {
      if |testCases| > 1 {
        testCases := Spliced(testCases, index);
        values := values.(testCases := testCases);
      }
    }

    /** `ok` is false where `updatedTestCases[index]` is `undefined` and the assignment
        throws; the state is then unchanged. */
    method UpdateTestCase(index: int, edit: Edit) returns (ok: bool)
      requires Valid()
      modifies this
      ensures Valid()
      ensures ok <==> 0 <= index < |old(testCases)|
      ensures ok ==> testCases == old(testCases)[index := Applied(old(testCases)[index], edit)]
      ensures !ok ==> testCases == old(testCases)
      ensures values == old(values).(testCases := testCases)
    {
      if 0 <= index < |testCases| {
        testCases := testCases[index := Applied(testCases[index], edit)];
        values := values.(testCases := testCases);
        ok := true;
      } else {
        ok := false;
      }
    }

    /** `handleSubmit(onSubmit)`: validate; when valid, post the payload and, on success,
        reset the form and the list and go back to the assignment list. */
    method Submit(parseDate: string -> Option<int>, languages: seq<Language>, reply: PostReply)
      returns (issues: seq<FormIssue>, posted: Option<(string, Payload)>, toasts: seq<Toast>, navigate: Option<string>)
      requires Valid()
      modifies this
      ensures Valid()
      ensures issues == Validate(old(values), parseDate)
      ensures issues != [] ==> posted == None && toasts == [] && navigate == None
      ensures issues == [] ==>
        posted == Some((CreateUrl(old(values).courseId), BuildPayload(old(values), parseDate, languages)))
      ensures issues == [] && reply.Created? ==>
        testCases == [EmptyTestCase] && values == defaults &&
        toasts == [SuccessToast("Assignment created successfully!")] && navigate == Some(AssignmentsPath)
      ensures !(issues == [] && reply.Created?) ==> testCases == old(testCases) && values == old(values)
      ensures issues == [] && reply.Failed? ==>
        toasts == FailureToasts(reply.message, reply.nonFieldErrors) && navigate == None
    {
      issues := Validate(values, parseDate);
      toasts, navigate := [], None;
      if issues != [] {
        posted := None;
        return;
      }
      var payload := BuildPayload(values, parseDate, languages);
      posted := Some((CreateUrl(values.courseId), payload));
      match reply
      case Created =>
        values := defaults;
        testCases := [EmptyTestCase];
        toasts := [SuccessToast("Assignment created successfully!")];
        navigate := Some(AssignmentsPath);
      case Failed(message, nonFieldErrors) =>
        toasts := FailureToasts(message, nonFieldErrors);
    }
  }
}
