/** The lecturer's assignment table: deadline classification, the description preview, the
    status badge with its publish action, and the page links. Times are integer
    milliseconds since the epoch; a deadline that `new Date` cannot read is `None`. */
module LecturerAssignments {
  import opened Wrappers
  import opened JsText

  /** `1000 * 60 * 60 * 24`. */
  const DayMs := 86400000

  /** `Math.ceil(a / d)` for a positive divisor. Dafny's `/` rounds toward negative
      infinity when the divisor is positive, so the ceiling is the negated floor of `-a / d`. */
  function CeilDiv(a: int, d: int): (q: int)
    requires d > 0
    ensures (q - 1) * d < a <= q * d
  {
    -((-a) / d)
  }

  /** `dueDate < today`. A deadline that is not a date compares false. */
  predicate IsDeadlinePassed(due: Option<int>, now: int) {
    due.Some? && due.value < now
  }

  /** `isDeadlineApproaching`: the deadline is 0 to 3 days away, counting a started day as
      a whole one. */
  predicate IsDeadlineApproaching(due: Option<int>, now: int) {
    due.Some? && 0 <= CeilDiv(due.value - now, DayMs) <= 3
  }

  /** Rounding up the day count makes "approaching" hold exactly when the deadline is less
      than one day past and at most three days ahead. */
  lemma {:induction false} ApproachingWindow(due: int, now: int)
    ensures IsDeadlineApproaching(Some(due), now) <==> -DayMs < due - now <= 3 * DayMs
  {
    var a := due - now;
    var q := CeilDiv(a, DayMs);
    assert (q - 1) * DayMs < a <= q * DayMs;
    if 0 <= q <= 3 {
      assert -DayMs <= (q - 1) * DayMs;
      assert q * DayMs <= 3 * DayMs;
    }
    if -DayMs < a <= 3 * DayMs {
      assert (q - 1) * DayMs < 3 * DayMs;
      assert -DayMs < q * DayMs;
    }
  }

  /** In the last day before a deadline has passed, both tests hold. */
  lemma {:induction false} JustPassedIsAlsoApproaching(due: int, now: int)
    requires due < now < due + DayMs
    ensures IsDeadlinePassed(Some(due), now) && IsDeadlineApproaching(Some(due), now)
  {
    ApproachingWindow(due, now);
  }

  /** The three states the due-date cell distinguishes. */
  datatype DeadlineStatus = Overdue | DueSoon | Upcoming

  /** The status as the cell reports it: passed wins over approaching. */
  function StatusOf(due: Option<int>, now: int): (s: DeadlineStatus)
    ensures s == Overdue <==> IsDeadlinePassed(due, now)
    ensures s == DueSoon <==> !IsDeadlinePassed(due, now) && IsDeadlineApproaching(due, now)
    ensures s == Upcoming <==> !IsDeadlinePassed(due, now) && !IsDeadlineApproaching(due, now)
  {
    if IsDeadlinePassed(due, now) then Overdue
    else if IsDeadlineApproaching(due, now) then DueSoon
    else Upcoming
  }

  /** With a readable deadline: overdue before `now`, due soon up to three days ahead,
      upcoming after that. */
  lemma {:induction false} StatusByDistance(due: int, now: int)
    ensures StatusOf(Some(due), now) == Overdue <==> due < now
    ensures StatusOf(Some(due), now) == DueSoon <==> now <= due <= now + 3 * DayMs
    ensures StatusOf(Some(due), now) == Upcoming <==> due > now + 3 * DayMs
  {
    ApproachingWindow(due, now);
  }

  /** A deadline that is not a date is shown as upcoming. */
  lemma UnreadableDeadlineIsUpcoming(now: int)
    ensures StatusOf(None, now) == Upcoming
  {
  }

  /** The class of the date line. */
  function DateColour(due: Option<int>, now: int): (c: string)
    ensures StatusOf(due, now) == Overdue ==> c == "text-error"
    ensures StatusOf(due, now) == DueSoon ==> c == "text-warning"
    ensures StatusOf(due, now) == Upcoming ==> c == "text-info"
  {
    if IsDeadlinePassed(due, now) then "text-error"
    else if IsDeadlineApproaching(due, now) then "text-warning"
    else "text-info"
  }

  /** The note under the time. */
  function DeadlineNote(due: Option<int>, now: int): (n: Option<string>)
    ensures StatusOf(due, now) == Overdue ==> n == Some("Overdue")
    ensures StatusOf(due, now) == DueSoon ==> n == Some("Due soon")
    ensures StatusOf(due, now) == Upcoming ==> n == None
  {
    if IsDeadlinePassed(due, now) then Some("Overdue")
    else if IsDeadlineApproaching(due, now) then Some("Due soon")
    else None
  }

  const PreviewLength := 30

  /** The description cell: at most 30 characters, then `...` when something was cut. */
  function Preview(description: string): (r: string)
    ensures |description| <= PreviewLength ==> r == description
    ensures |description| > PreviewLength ==>
      |r| == PreviewLength + 3 && r[..PreviewLength] == description[..PreviewLength] && r[PreviewLength..] == "..."
  {
    if |description| > PreviewLength then description[..PreviewLength] + "..." else description
  }

  /** Previewing a preview changes nothing: a cut preview is cut at the same place and
      ends in the same `...`. */
  lemma {:induction false} PreviewIdempotent(description: string)
    ensures Preview(Preview(description)) == Preview(description)
  {
    if |description| > PreviewLength {
      var r := Preview(description);
      assert r[..PreviewLength] + "..." == r[..PreviewLength] + r[PreviewLength..] == r;
    }
  }

  datatype Assignment = Assignment(id: string, title: string, description: string, isDraft: bool,
                                   programmingLanguage: string, deadline: Option<int>)

  datatype Badge = Draft | Published

  /** One table row as rendered. */
  datatype Row = Row(title: string, description: string, badge: Badge, language: string,
                     dateColour: string, note: Option<string>, publishOffered: bool)

  function RowOf(a: Assignment, now: int): (row: Row)
    ensures row.badge == Draft <==> a.isDraft
    ensures row.publishOffered <==> row.badge == Draft
    ensures row.title == a.title && row.language == a.programmingLanguage
    ensures row.description == Preview(a.description)
    ensures row.dateColour == DateColour(a.deadline, now) && row.note == DeadlineNote(a.deadline, now)
    ensures row.note.Some? <==> StatusOf(a.deadline, now) != Upcoming
  {
    Row(a.title, Preview(a.description), if a.isDraft then Draft else Published, a.programmingLanguage,
        DateColour(a.deadline, now), DeadlineNote(a.deadline, now), a.isDraft)
  }

  /** The date colour and the note always tell the same story. */
  lemma {:induction false} ColourAgreesWithNote(a: Assignment, now: int)
    ensures RowOf(a, now).note == Some("Overdue") <==> RowOf(a, now).dateColour == "text-error"
    ensures RowOf(a, now).note == Some("Due soon") <==> RowOf(a, now).dateColour == "text-warning"
    ensures RowOf(a, now).note == None <==> RowOf(a, now).dateColour == "text-info"
  {
    var s := StatusOf(a.deadline, now);
    assert s == Overdue || s == DueSoon || s == Upcoming;
  }

  /** The page links under the table: each button exists when its link is truthy. */
  datatype PageLinks = PageLinks(prev: bool, next: bool)

  function PageLinksOf(previous: Option<string>, next: Option<string>): (p: PageLinks)
    ensures p.prev <==> previous.Some? && previous.value != ""
    ensures p.next <==> next.Some? && next.value != ""
  {
    PageLinks(Truthy(previous), Truthy(next))
  }
}
