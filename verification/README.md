# Automated Code Grader front end — a Dafny model of its logic

The Automated Code Grader front end is a Next.js application for students and lecturers.
This project models the part of it that decides things, rather than the part that draws pages:

- the route guard that admits requests to the student and lecturer dashboards by refresh-token
  cookie, decoded role and expiry;
- the `api` HTTP client and its 401 refresh-and-resend interceptor;
- the sidebar store and the lecturer side bar's navigation;
- the test-case list, validation schema and submission of the "create assignment" form;
- the course search and join-code enrolment on the student's course page;
- the course form, title filter and pagination on the lecturer's course page;
- the deadline classification, description preview and publish gating on the lecturer's
  assignment table;
- the progress-bar clamp and trend indicator of the dashboard's statistic tile.

Code that works on values is modelled as functions. State that the code updates step by step is
modelled as classes with methods, each proved against a specification function:

- the sidebar store;
- the HTTP session (page location and requests sent);
- the create-assignment form;
- the two course pages.

Outside input is a parameter of the model:

- `jwtDecode` is a `Decoder` (a function returning `None` when decoding throws);
- `Date.now()` is an integer number of milliseconds;
- `Date.parse` / `new Date` is a function or an `Option<int>` of milliseconds;
- the server is an oracle `server(request, k)` answering the `k`-th request of a session;
- server replies to the pages are parameters of the methods that await them.

Files:

- `wrappers.dfy`: `Option` and toasts.
- `text.dfy`: JavaScript string semantics (`trim`, ASCII `toLowerCase`, `includes`, `startsWith`,
  `parseInt`, truthiness).
- `lists.dfy`: `Array.prototype.filter`.
- `auth.dfy`: `withAuth`, the two role guards and `middleware.ts`.
- `axios_config.dfy`: the HTTP client.
- `sidebar.dfy`: the store and the lecturer side bar.
- `create_assignment.dfy`, `student_courses.dfy`, `lecturer_courses.dfy`,
  `lecturer_assignments.dfy`, `quick_statistic.dfy`: one per page or component.

Where the behaviour described for the system and the code differ, the model follows the code:

- The interceptor attaches no `Authorization` header. Credentials travel only as cookies
  (`withCredentials: true`).
- The interceptor sets no retry marker on a resent request.
- The refresh is posted through `api` itself, not through a separate client, so a 401 on the
  refresh re-enters the handler. The model bounds this re-entry with `fuel`, and
  `UnboundedReentry` shows that nothing else bounds it.
- There is no single-flight refresh coordination and no draft autosave in the code, so neither
  is modelled.
- The lecturer page's `filteredCourses` is defined but never rendered: the grid shows
  `coursesData.results`. The model defines the filter and states its meaning, but the page
  does not use it.

## Model

| member | source | states |
|---|---|---|
| WithAuth.IsExpired | middleware/withAuth.ts:20 | `Date.now() >= exp * 1000`, false when `exp` is missing; `ExpiryBoundary` and `MissingExpNeverExpires` state its meaning |
| WithAuth.RoleAllowed | middleware/withAuth.ts:26 | `allowedRoles.includes(role)` |
| WithAuth.SessionValid | middleware/withAuth.ts:12-24 | the cookie is present, decodes and is not expired; `Decide` and `Guard` are stated in its terms |
| WithAuth.Decide | middleware/withAuth.ts:12-33 | the decision is login exactly when the cookie is missing, fails to decode or is expired; unauthorized exactly when the session is valid and the role is not allowed; admit exactly when valid and allowed |
| WithAuth.Guard | middleware/withAuth.ts:10-35 | no cookie, an undecodable token or an expired token redirects to `/login`; a valid token with a disallowed role redirects to `/unauthorized`; a valid allowed token returns exactly the handler's response |
| WithAuth.ExpiryBoundary | middleware/withAuth.ts:20 | a token is already expired at the millisecond `exp * 1000` and not one millisecond before |
| WithAuth.ExpiredGoesToLogin | middleware/withAuth.ts:20-28 | an expired token goes to `/login` whatever its role and the allowed roles, never to `/unauthorized` |
| WithAuth.OnlyCookieMatters | middleware/withAuth.ts:12-33 | two requests with the same refresh cookie (and the same handler result) get the same response |
| WithAuth.MissingExpNeverExpires | middleware/withAuth.ts:19-30 | a token with no `exp` claim is never expired, so with an allowed role it reaches the handler |
| StudentDashboard.StudentAdmission | middleware/studentDashboard.ts:4-7 | the student guard passes a request on exactly when the session is valid and the role is `STUDENT`; an invalid session goes to `/login`; a valid `LECTURER` token goes to `/unauthorized` |
| LecturerDashboard.LecturerAdmission | middleware/lecturerDashboard.ts:4-7 | the lecturer guard passes a request on exactly when the session is valid and the role is `LECTURER`; an invalid session goes to `/login`; a valid `STUDENT` token goes to `/unauthorized` |
| StudentDashboard.StudentMiddleware | middleware/studentDashboard.ts:4-7 | `withAuth(next, ['STUDENT'])`; its meaning is stated by `StudentAdmission` |
| LecturerDashboard.LecturerMiddleware | middleware/lecturerDashboard.ts:4-7 | `withAuth(next, ['LECTURER'])`; its meaning is stated by `LecturerAdmission` |
| Middleware.InMatcherScope | middleware.ts:17-19 | the matcher `/dashboard/:path*`: `/dashboard` and the paths below it; `PrefixesInScope` and `DashboardRootUnguarded` relate it to the guards |
| Middleware.Dispatch | middleware.ts:5-15 | the raw student-first prefix dispatch; `Serve` states what it returns for each prefix |
| Middleware.Serve | middleware.ts:5-19 | a path starting with `/dashboard/student` is decided by the student guard, one starting with `/dashboard/lecturer` by the lecturer guard, and any other path passes unguarded |
| Middleware.PrefixesInScope | middleware.ts:6-19 | every path with a guarded prefix lies inside the matcher's `/dashboard/:path*` scope |
| Middleware.PrefixesDisjoint | middleware.ts:6-12 | no path starts with both prefixes, so a request reaches at most one guard |
| Middleware.DashboardRootUnguarded | middleware.ts:14-19 | `/dashboard` is in the matcher's scope but is served unguarded, with or without a session |
| Middleware.RawPrefixMatch | middleware.ts:6-8 | one example: the prefix test is raw, so `/dashboard/studentX` is decided by the student guard |
| Middleware.ExpiredStudentScenario | middleware.ts:6-7 | one example: a student token that expired a second ago, on `/dashboard/student`, is redirected to `/login` |
| AxiosConfig.ApiRequest | lib/axiosConfig.ts:3-9 | every request through `api` carries the fixed base URL, credentials and the JSON content type, with its own verb, url and body |
| AxiosConfig.Settle | lib/axiosConfig.ts:11-14 | a reply fulfils exactly when it is an answer with a 2xx status, with a response holding that status, data and the request; otherwise the request is rejected with an error carrying the request's own configuration and, for an answer, a response with the answer's status and data (the status the handler tests for 401); no answer gives no response |
| AxiosConfig.StatusOf | lib/axiosConfig.ts:14 | `error.response?.status`, absent when there was no answer |
| AxiosConfig.CallTrace | lib/axiosConfig.ts:11-13 | a request through `api`: sent, settled, a rejection handed to the handler; its meaning is stated by the lemmas below |
| AxiosConfig.HandlerTrace | lib/axiosConfig.ts:13-27 | the interceptor's error handler: non-401 rejected as is, 401 refresh through `api`, then a bare resend or `/login`; its meaning is stated by the lemmas below |
| AxiosConfig.HttpSession.Send | lib/axiosConfig.ts:18 | a bare `axios` call sends the request once, settles it without an interceptor, and leaves the location alone |
| AxiosConfig.HttpSession.Call | lib/axiosConfig.ts:11-27 | a call through `api` leaves the outcome, the requests sent and the location that the interceptor's specification gives |
| AxiosConfig.HttpSession.HandleError | lib/axiosConfig.ts:13-27 | the error handler leaves the outcome, the requests sent and the location that its specification gives: non-401 rejected as is, 401 refresh then resend, refresh failure to `/login` |
| AxiosConfig.SuccessPassesThrough | lib/axiosConfig.ts:12 | a successful response is returned unchanged after exactly one request |
| AxiosConfig.OtherErrorsPropagate | lib/axiosConfig.ts:14-26 | a network failure or a non-401 error status is rejected with the same error; no refresh is sent and the location stays |
| AxiosConfig.RefreshThenResend | lib/axiosConfig.ts:15-18 | on a 401 with a successful refresh, exactly the original, one refresh and the original again are sent; the resend's outcome, even another 401, reaches the caller with no redirect |
| AxiosConfig.RefreshFailureRedirects | lib/axiosConfig.ts:15-23 | on a 401 whose refresh is rejected, by its own reply or after its own 401 and resend, the location becomes `/login`, the requests are those of the refresh, and the caller gets the refresh's error, not the original 401 |
| AxiosConfig.RefreshErrorReplyRedirects | lib/axiosConfig.ts:15-23 | when the refresh's own reply fails without a 401, exactly the original and the refresh are sent, the location becomes `/login` and the caller gets the refresh's error |
| AxiosConfig.FulfilledKeepsLocation | lib/axiosConfig.ts:11-27 | a call that ends fulfilled leaves the location where it was, at any re-entry depth |
| AxiosConfig.HandlerFulfilledKeepsLocation | lib/axiosConfig.ts:13-27 | the handler-side half of the same induction: a fulfilled handler outcome keeps the location |
| AxiosConfig.UnboundedReentry | lib/axiosConfig.ts:11-17 | when every refresh gets a 401, each level of re-entry sends one more refresh and the call never settles within any bound |
| AxiosConfig.CallSendsOnly | lib/axiosConfig.ts:11-27 | a call sends its own configuration first, then only that configuration unchanged or the refresh; the location stays or becomes `/login` |
| AxiosConfig.HandlerSendsOnly | lib/axiosConfig.ts:13-27 | the handler sends only the failed configuration unchanged or the refresh, and the location stays or becomes `/login` |
| AxiosConfig.OriginalSentAtMostTwice | lib/axiosConfig.ts:15-18 | the original request is sent at least once and at most twice, however deep the refresh re-enters |
| SidebarStore.Toggled | app/stores/useSidebarStore.ts:14 | `toggleSidebar`'s update; `ToggleInvolution` states its meaning |
| SidebarStore.WithActiveLink | app/stores/useSidebarStore.ts:13 | `setActiveLink`'s update; `SetActiveLinkIdempotent` states its meaning |
| SidebarStore.ToggleInvolution | app/stores/useSidebarStore.ts:14 | toggling negates `open`, keeps `activeLink`, and toggling twice restores the state |
| SidebarStore.SetActiveLinkIdempotent | app/stores/useSidebarStore.ts:13 | setting the active link keeps `open`, and setting the same link twice equals setting it once |
| SidebarStore.Store.constructor | app/stores/useSidebarStore.ts:10-12 | the store starts closed with `Dashboard` active |
| SidebarStore.Store.ToggleSidebar | app/stores/useSidebarStore.ts:14 | the store's new state is the toggled old state |
| SidebarStore.Store.SetActiveLink | app/stores/useSidebarStore.ts:13 | the store's new state is the old state with the given active link |
| LecturerSideNav.IsMobileWidth | app/dashboard/lecturer/SideNavigationBar.tsx:36-38 | `window.innerWidth < 768`; `CheckIfMobile` stores it |
| LecturerSideNav.IsHighlighted | app/dashboard/lecturer/SideNavigationBar.tsx:160 | a link is bold when the pathname equals its path; `AtMostOneHighlighted` and `NestedRouteHighlightsNothing` state what follows |
| LecturerSideNav.OverlayShown | app/dashboard/lecturer/SideNavigationBar.tsx:97-98 | the overlay is rendered on mobile while the sidebar is open; `LinkClickClosesOnMobile` and `ClickOverlay` use it |
| LecturerSideNav.AfterLinkClick | app/dashboard/lecturer/SideNavigationBar.tsx:64-70 | the store after a link click; `LinkClickClosesOnMobile` states its meaning |
| LecturerSideNav.LinkClickClosesOnMobile | app/dashboard/lecturer/SideNavigationBar.tsx:64-70 | after a link click the sidebar is open exactly when it was open on a desktop; the active link is untouched and no overlay remains |
| LecturerSideNav.AtMostOneHighlighted | app/dashboard/lecturer/SideNavigationBar.tsx:72-93 | the four link paths are distinct, so at most one link is highlighted for any pathname |
| LecturerSideNav.NestedRouteHighlightsNothing | app/dashboard/lecturer/SideNavigationBar.tsx:160 | one example: highlighting is exact equality, so a nested route such as a course page highlights no link |
| LecturerSideNav.SideNav.CheckIfMobile | app/dashboard/lecturer/SideNavigationBar.tsx:36-38 | `isMobile` holds exactly when the window is narrower than 768 pixels |
| LecturerSideNav.SideNav.HandleLinkClicked | app/dashboard/lecturer/SideNavigationBar.tsx:64-70 | the click navigates to the link's path and leaves the store as the click transition gives: toggled once on mobile when open, unchanged otherwise |
| LecturerSideNav.SideNav.ClickOverlay | app/dashboard/lecturer/SideNavigationBar.tsx:98-102 | a click on the visible overlay toggles the sidebar and leaves it closed |
| CreateAssignment.Appended | app/dashboard/lecturer/assignments/create-assignment/page.tsx:126-130 | adding a test case keeps every earlier case in place and puts one empty visible case at the end |
| CreateAssignment.SpliceStart | app/dashboard/lecturer/assignments/create-assignment/page.tsx:135 | `splice`'s start position lies within the list |
| CreateAssignment.Spliced | app/dashboard/lecturer/assignments/create-assignment/page.tsx:135 | `splice(index, 1)` removes exactly the element at its start position when that is inside the list, keeping the others in order, and removes nothing when the start is the length |
| CreateAssignment.SplicedAt | app/dashboard/lecturer/assignments/create-assignment/page.tsx:132-137 | removing at an in-range index takes out exactly that element, keeps the others in order, and the removed element plus the rest are a permutation of the list |
| CreateAssignment.SplicedOutside | app/dashboard/lecturer/assignments/create-assignment/page.tsx:135 | an index past the end removes nothing; index -1 removes the last element |
| CreateAssignment.Applied | app/dashboard/lecturer/assignments/create-assignment/page.tsx:141-148 | one test case after an edit of one field; `EditTouchesOneField` states its meaning |
| CreateAssignment.RemoveUndoesAdd | app/dashboard/lecturer/assignments/create-assignment/page.tsx:126-137 | adding keeps the earlier entries and removing the added case gives the original list back |
| CreateAssignment.EditTouchesOneField | app/dashboard/lecturer/assignments/create-assignment/page.tsx:141-152 | an edit changes only the named field of the element at the index; other elements and fields are unchanged |
| CreateAssignment.IssueMessage | app/dashboard/lecturer/assignments/create-assignment/page.tsx:52-78 | the message the schema shows for each complaint |
| CreateAssignment.Acceptable | app/dashboard/lecturer/assignments/create-assignment/page.tsx:51-79 | the values the schema accepts, field by field, with string lengths in UTF-16 code units; `Validate` is proved to accept exactly these |
| CreateAssignment.Breaks | app/dashboard/lecturer/assignments/create-assignment/page.tsx:52-78 | the rule behind each complaint; `Validate` raises a complaint exactly when its rule is broken |
| CreateAssignment.SchemaOrderComplete | app/dashboard/lecturer/assignments/create-assignment/page.tsx:51-79 | the schema's check order lists every one of the eight complaints |
| CreateAssignment.AcceptableIffNoRuleBroken | app/dashboard/lecturer/assignments/create-assignment/page.tsx:51-79 | a form meets every field bound exactly when none of the eight rules is broken |
| CreateAssignment.Validate | app/dashboard/lecturer/assignments/create-assignment/page.tsx:51-79 | each complaint is raised exactly when its own rule is broken, in the schema's field order, and the form is accepted exactly when every field meets its bound |
| CreateAssignment.ComplaintsByField | app/dashboard/lecturer/assignments/create-assignment/page.tsx:52-78 | field by field: a title under 2 UTF-16 code units, a description under 20, an unparseable deadline, a score that is not a number, below 1 or above 1000, a language id that is not a number, and an empty test-case list each raise their own complaint, and nothing else does |
| CreateAssignment.AstralTitleLongEnough | app/dashboard/lecturer/assignments/create-assignment/page.tsx:52-54 | a one-character title outside the Basic Multilingual Plane (an emoji) is two code units long and raises no title complaint |
| CreateAssignment.OneScoreComplaint | app/dashboard/lecturer/assignments/create-assignment/page.tsx:61-65 | the score field raises at most one of its three complaints |
| CreateAssignment.FindLanguage | app/dashboard/lecturer/assignments/create-assignment/page.tsx:156 | the result is absent exactly when no language has the id, and otherwise is the first language with that id |
| CreateAssignment.FindLanguageShift | app/dashboard/lecturer/assignments/create-assignment/page.tsx:156 | a first match in the tail, behind a non-matching head, is a first match of the whole list |
| CreateAssignment.FirstMatchUnique | app/dashboard/lecturer/assignments/create-assignment/page.tsx:156 | only one position is the first with a given id |
| CreateAssignment.LanguageName | app/dashboard/lecturer/assignments/create-assignment/page.tsx:164 | the payload's language name is the first matching language's name, or `""` when none matches |
| CreateAssignment.BuildPayload | app/dashboard/lecturer/assignments/create-assignment/page.tsx:156-166 | the payload carries the form's title, description, test cases, parsed deadline, score (within [1, 1000]), language id and looked-up language name |
| CreateAssignment.CreateUrl | app/dashboard/lecturer/assignments/create-assignment/page.tsx:168 | the post goes to `/courses/{course_id}/assignments/create` |
| CreateAssignment.FailureToasts | app/dashboard/lecturer/assignments/create-assignment/page.tsx:180-186 | a failed post shows its message alone if it has one, and otherwise one toast per non-field error, in order |
| CreateAssignment.CreateAssignmentForm.constructor | app/dashboard/lecturer/assignments/create-assignment/page.tsx:82-101 | the list starts as the single empty visible case, and the form starts at its defaults (score 100, language 0, deadline a week ahead) |
| CreateAssignment.CreateAssignmentForm.EnterValues | app/dashboard/lecturer/assignments/create-assignment/page.tsx:90 | typing into the registered inputs changes every field but the test cases |
| CreateAssignment.CreateAssignmentForm.AddTestCase | app/dashboard/lecturer/assignments/create-assignment/page.tsx:126-130 | the list and the form's copy both become the old list with one empty case appended |
| CreateAssignment.CreateAssignmentForm.RemoveTestCase | app/dashboard/lecturer/assignments/create-assignment/page.tsx:132-139 | with more than one case the list loses the element `splice` removes; with one case nothing changes, so the list is never empty |
| CreateAssignment.CreateAssignmentForm.UpdateTestCase | app/dashboard/lecturer/assignments/create-assignment/page.tsx:141-152 | an in-range index gets its field edited; an out-of-range index throws and changes nothing |
| CreateAssignment.CreateAssignmentForm.Submit | app/dashboard/lecturer/assignments/create-assignment/page.tsx:154-188 | invalid values send nothing; valid ones post the payload to the course's create URL; on success the form and list reset, a success toast shows and the page moves to the assignment list; on failure the state stays and error toasts show |
| Lists.Filter | app/dashboard/student/courses/page.tsx:74 | `filter` keeps only elements passing the test and every element that passes, as an order-preserving subsequence |
| Lists.FilterCounts | app/dashboard/student/courses/page.tsx:74 | each value passing the test is kept as many times as it occurs, and a failing value not at all |
| Lists.FilterKeepsAll | app/dashboard/student/courses/page.tsx:74-78 | a test every element passes keeps the whole sequence |
| Lists.FilterKeepsNone | app/dashboard/student/courses/page.tsx:74-78 | a test no element passes keeps nothing |
| Lists.FilterAgrees | app/dashboard/student/courses/page.tsx:74-78 | two tests that agree on every element keep the same elements |
| StudentCourses.FilteredCourses | app/dashboard/student/courses/page.tsx:74-78 | a course is kept exactly when the lower-cased term occurs in its lower-cased title, code or lecturer department; the result is an order-preserving subsequence |
| StudentCourses.FilteredCounts | app/dashboard/student/courses/page.tsx:74-78 | a matching course is shown as many times as it is enrolled, a non-matching one not at all |
| StudentCourses.FieldMatches | app/dashboard/student/courses/page.tsx:75-77 | `field.toLowerCase().includes(term.toLowerCase())`; `IncludesAt` gives `includes` its meaning |
| StudentCourses.Matches | app/dashboard/student/courses/page.tsx:74-78 | the search term matches the title, the course code or the lecturer's department |
| StudentCourses.ToLowerIdempotent | app/dashboard/student/courses/page.tsx:75-77 | lower-casing twice is lower-casing once |
| StudentCourses.SearchIgnoresCase | app/dashboard/student/courses/page.tsx:74-78 | a search term and its lower-case form keep the same courses |
| StudentCourses.EmptySearchKeepsAll | app/dashboard/student/courses/page.tsx:74-78 | an empty search term keeps every course in order |
| StudentCourses.View | app/dashboard/student/courses/page.tsx:149-159 | the empty-state message appears exactly when there are no enrolled courses; otherwise the filtered courses are shown |
| StudentCourses.NoMatchShowsNoCards | app/dashboard/student/courses/page.tsx:149-159 | a search matching nothing in a non-empty list shows no cards and no empty-state message |
| StudentCourses.ErrorText | app/dashboard/student/courses/page.tsx:62 | the error toast shows the server's message, or `Failed to enroll in course` when there is none |
| StudentCourses.Enrol | app/dashboard/student/courses/page.tsx:47-64 | `handleEnroll` as a function of the state and the two replies; `EnrolBehaviour` states its meaning |
| StudentCourses.EnrolBehaviour | app/dashboard/student/courses/page.tsx:47-64 | a blank code (after trimming) sends nothing and shows an error; otherwise the untrimmed code is posted; courses are replaced and the code cleared only after both the join and the refetch succeed |
| StudentCourses.PaddedCodeSentAsTyped | app/dashboard/student/courses/page.tsx:49-55 | one example: a code with surrounding spaces is posted with them |
| StudentCourses.StudentCoursesPage.SetJoinCode | app/dashboard/student/courses/page.tsx:135 | the join-code input sets only the code |
| StudentCourses.StudentCoursesPage.SetSearchTerm | app/dashboard/student/courses/page.tsx:104 | the search input sets only the term |
| StudentCourses.StudentCoursesPage.HandleEnroll | app/dashboard/student/courses/page.tsx:47-64 | the page's courses, code, request and toasts become what the enrolment specification gives; the search term stays |
| LecturerCourses.CourseUnits | app/dashboard/lecturer/courses/page.tsx:87 | the units value is `parseInt`'s integer, or 0 when `parseInt` gives `NaN` |
| LecturerCourses.Coerced | app/dashboard/lecturer/courses/page.tsx:87 | `course_units` stores the coerced integer; any other field stores the raw text |
| LecturerCourses.InputChanged | app/dashboard/lecturer/courses/page.tsx:81-89 | only the named field changes; all other fields keep their values |
| LecturerCourses.UnitsRoundTrip | app/dashboard/lecturer/courses/page.tsx:87 | typing a number's decimal numeral stores that number; text without digits stores 0 |
| LecturerCourses.InputChangeKeepsShape | app/dashboard/lecturer/courses/page.tsx:81-89 | a change from one of the form's own inputs keeps the four keys, with text fields as text and the units as a number |
| LecturerCourses.FilteredCourses | app/dashboard/lecturer/courses/page.tsx:101-103 | a course is kept exactly when its title equals the search term, in order |
| LecturerCourses.FilteredCounts | app/dashboard/lecturer/courses/page.tsx:101-103 | a course titled exactly as the term is kept as many times as it occurs, any other not at all |
| LecturerCourses.CaseSensitiveTitle | app/dashboard/lecturer/courses/page.tsx:102 | one example: the title test is case-sensitive |
| LecturerCourses.PaginationOf | app/dashboard/lecturer/courses/page.tsx:211-227 | the bar shows exactly when `next` or `previous` is set, each button is disabled exactly when its link is not, and a shown bar always has an enabled button |
| LecturerCourses.ClickTarget | app/dashboard/lecturer/courses/page.tsx:216 | a button's click fetches its link exactly when the link is set |
| LecturerCourses.EnabledButtonsFetch | app/dashboard/lecturer/courses/page.tsx:211-227 | in a shown bar a button is enabled exactly when its click fetches its link |
| LecturerCourses.LecturerCoursesPage.constructor | app/dashboard/lecturer/courses/page.tsx:20-33 | the form starts at `{title, description, course_code: "", course_units: 10}` with an empty course page |
| LecturerCourses.LecturerCoursesPage.HandleInputChange | app/dashboard/lecturer/courses/page.tsx:81-89 | the form becomes the input-change update of the old form; nothing else changes |
| LecturerCourses.LecturerCoursesPage.CourseCreated | app/dashboard/lecturer/courses/page.tsx:66-68 | after a created course, the list is refetched and the form is back at its initial values |
| LecturerAssignments.CeilDiv | app/dashboard/lecturer/assignments/page.tsx:63 | the ceiling quotient is the least `q` with `a <= q * d` |
| LecturerAssignments.IsDeadlinePassed | app/dashboard/lecturer/assignments/page.tsx:67-71 | `dueDate < today`, false for a date that does not parse; `StatusByDistance` states its meaning |
| LecturerAssignments.IsDeadlineApproaching | app/dashboard/lecturer/assignments/page.tsx:60-65 | the rounded-up day count lies in [0, 3]; `ApproachingWindow` states its meaning |
| LecturerAssignments.ApproachingWindow | app/dashboard/lecturer/assignments/page.tsx:60-65 | a deadline is approaching exactly when it is less than one day past and at most three days ahead |
| LecturerAssignments.JustPassedIsAlsoApproaching | app/dashboard/lecturer/assignments/page.tsx:60-71 | during the day after a deadline, both the passed and the approaching tests hold |
| LecturerAssignments.StatusOf | app/dashboard/lecturer/assignments/page.tsx:153-176 | the status is overdue when passed, due soon when approaching and not passed, upcoming otherwise |
| LecturerAssignments.StatusByDistance | app/dashboard/lecturer/assignments/page.tsx:60-71 | overdue exactly before now, due soon from now to three days ahead, upcoming after that |
| LecturerAssignments.UnreadableDeadlineIsUpcoming | app/dashboard/lecturer/assignments/page.tsx:60-71 | a deadline that is not a date is neither passed nor approaching |
| LecturerAssignments.DateColour | app/dashboard/lecturer/assignments/page.tsx:153-158 | the date is red when overdue, amber when due soon, blue otherwise; passed wins |
| LecturerAssignments.DeadlineNote | app/dashboard/lecturer/assignments/page.tsx:166-176 | the note is `Overdue`, `Due soon` or absent, with the same precedence |
| LecturerAssignments.Preview | app/dashboard/lecturer/assignments/page.tsx:133-137 | a description of at most 30 characters is shown unchanged; a longer one as its first 30 characters then `...` |
| LecturerAssignments.PreviewIdempotent | app/dashboard/lecturer/assignments/page.tsx:133-137 | previewing a preview changes nothing |
| LecturerAssignments.RowOf | app/dashboard/lecturer/assignments/page.tsx:129-189 | the row shows the title and language as given, the preview of the description, the date colour and note of the deadline status; the badge is Draft exactly for drafts, and Publish is offered exactly with the Draft badge |
| LecturerAssignments.ColourAgreesWithNote | app/dashboard/lecturer/assignments/page.tsx:153-176 | the date colour and the note always agree |
| LecturerAssignments.PageLinksOf | app/dashboard/lecturer/assignments/page.tsx:195-210 | the Prev and Next buttons exist exactly when their links are non-empty |
| QuickStatistic.BarWidth | app/dashboard/components/quick_statistic.tsx:36 | the width is within [0, 100], equals the value inside that range, 0 below and 100 above |
| QuickStatistic.BarWidthIdempotentMonotone | app/dashboard/components/quick_statistic.tsx:36 | clamping is idempotent and never narrows the bar for a larger value |
| QuickStatistic.TrendValue | app/dashboard/components/quick_statistic.tsx:6 | a missing trend is 0 |
| QuickStatistic.TrendIndicator | app/dashboard/components/quick_statistic.tsx:24-28 | no indicator exactly when the trend is 0; a `+` and green exactly when positive; red exactly when negative |
| QuickStatistic.NoTrendByDefault | app/dashboard/components/quick_statistic.tsx:6-24 | a tile given no trend shows no indicator |
| JsText.Utf16Length | app/dashboard/lecturer/assignments/create-assignment/page.tsx:52-57 | JavaScript's `length`: between the number of characters and twice that, and equal to it when every character is in the Basic Multilingual Plane |
| JsText.AstralCharacterLength | app/dashboard/lecturer/assignments/create-assignment/page.tsx:52-57 | one example: an emoji is two code units long |
| JsText.AllWhiteSpaceConcat | app/dashboard/student/courses/page.tsx:49 | a concatenation is blank exactly when both parts are |
| JsText.TrimStart | app/dashboard/student/courses/page.tsx:49 | the result is a suffix of the input that does not start with white space, and is empty exactly when the input is all white space |
| JsText.TrimEnd | app/dashboard/student/courses/page.tsx:49 | the result is a prefix of the input that does not end with white space, and is empty exactly when the input is all white space |
| JsText.TrimStartRemovesWhiteSpace | app/dashboard/student/courses/page.tsx:49 | what `trimStart` removes is all white space |
| JsText.TrimEndRemovesWhiteSpace | app/dashboard/student/courses/page.tsx:49 | what `trimEnd` removes is all white space |
| JsText.Trim | app/dashboard/student/courses/page.tsx:49 | the result is empty exactly when the input is all white space, and otherwise neither starts nor ends with white space |
| JsText.TrimIsSlice | app/dashboard/student/courses/page.tsx:49 | `trim` returns a slice of its input with only white space before and after it |
| JsText.ToLower | app/dashboard/student/courses/page.tsx:75 | lower-casing keeps the length and folds each character |
| JsText.StartsWith | middleware.ts:6-10 | `s.startsWith(p)`: `p` is a prefix of `s` |
| JsText.Includes | app/dashboard/student/courses/page.tsx:75 | `hay.includes(needle)`; `IncludesAt` proves it equal to "occurs at some position" |
| JsText.IncludesAt | app/dashboard/student/courses/page.tsx:75 | `includes` holds exactly when the needle occurs at some position |
| JsText.IncludesEmpty | app/dashboard/student/courses/page.tsx:75 | every string includes the empty string |
| JsText.LeadingDigits | app/dashboard/lecturer/courses/page.tsx:87 | the result is the longest prefix of digits |
| JsText.ParseInt | app/dashboard/lecturer/courses/page.tsx:87 | `parseInt(s, 10)`: skip white space, an optional sign, the longest run of digits, `NaN` when none; the lemmas below state its meaning |
| JsText.ParseIntDecimal | app/dashboard/lecturer/courses/page.tsx:87 | `parseInt` reads back any decimal numeral, and its negation with a leading `-` |
| JsText.ParseIntUnsigned | app/dashboard/lecturer/courses/page.tsx:87 | a non-empty run of digits parses to its decimal value |
| JsText.ParseIntNegative | app/dashboard/lecturer/courses/page.tsx:87 | a `-` followed by a non-empty run of digits parses to the negated value |
| JsText.ParseIntNoDigits | app/dashboard/lecturer/courses/page.tsx:87 | text without digits parses to `NaN` |
| JsText.DecimalValue | app/dashboard/lecturer/courses/page.tsx:87 | a numeral's digit value is the number it was written from |

## Left out

- JWT decoding is the `Decoder` parameter. The model does not see the token format or its
  signature.
- Date parsing and formatting are left out: `Date.parse`, `new Date`, `toISOString`, and the
  locale date and time strings. Dates enter as integer milliseconds or as a parsing function.
  The default deadline is the constructor's parameter, and the payload carries the parsed
  instant rather than its ISO text.
- JavaScript numbers are not modelled as floating point. Scores, trends and bar values are
  `real`, and `NaN` appears only where the code can produce it from input text (`valueAsNumber`,
  `parseInt`).
- LecturerCourses.CourseUnits: does not model the loss of precision of `parseInt` beyond 2^53,
  and does not distinguish `-0`, because both give the same stored value for numerals a form
  would hold.
- LecturerAssignments.CeilDiv: computes the ceiling exactly on integers, while the code divides
  in floating point; the two differ only beyond about 10^8 days.
- `toLowerCase` is folded for ASCII letters only. Unicode case mapping is not modelled.
- HTTP transport and the server are oracles or reply parameters. Cookies, `window.location`
  (the session's `location` field stands for it), `NextResponse` and the router are recorded
  outcomes.
- Fetches on page load are not modelled: the courses and languages fetches, and
  `fetchAssignments`, whose result is the page parameter. `publishAssignment` with its
  confirmation dialog is not modelled either: these are I/O.
- Not modelled because they are I/O, timers or browser events: modals, the clipboard, the
  2-second copied-code timer, resize listeners, logout, and `console` and `alert` output.
- Concurrency is not modelled. Concurrent 401s each run their own refresh, and the session
  model runs one call at a time.
- CreateAssignment.CreateAssignmentForm.UpdateTestCase: models the edit on values. The code
  assigns the field of a test-case object that the previous state and the form's value share,
  so that aliasing is not captured.
- The `matcher`'s handling of trailing slashes and Next.js data routes is not modelled.
  `InMatcherScope` covers `/dashboard` and the paths below it.
- Strings are sequences of Unicode scalar values. The schema's length bounds are stated on
  `Utf16Length`, which counts a character outside the Basic Multilingual Plane as two code
  units, as `length` does; a lone surrogate, which a JavaScript string may hold, has no
  counterpart here.
- LecturerAssignments.Preview: measures and cuts the description in Unicode scalar values,
  not in the UTF-16 code units of `length` and `substring`. A description with characters
  outside the Basic Multilingual Plane is cut later than the page cuts it, and the page's cut
  can split a surrogate pair, which a `seq<char>` cannot hold.
- LecturerAssignments.ColourAgreesWithNote: holds for one reading of the clock. The page calls
  `new Date()` separately inside each of its four deadline tests per row, so a deadline that
  passes between those readings can show a warning colour next to an `Overdue` note; the
  model takes a single `now` for the whole row.
- The trend's number formatting (`{trend}%`) is not modelled. The indicator's colour and `+`
  prefix are.
