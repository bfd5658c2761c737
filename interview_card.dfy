/**
 * The interview card: the status badge's variant, the displayed date with its
 * fallback to the raw string, the candidate line with its placeholder, the optional
 * description, and the identifier "View Details" reports.
 */
module InterviewCard {
  import opened Wrappers
  import opened Interviews

  /** The badge variants the card chooses between. */
  datatype BadgeVariant = Success | Default | Destructive | Warning | Secondary

  /** `getBadgeVariant`: one variant per known status, "secondary" for anything else. */
  function GetBadgeVariant(status: string): (v: BadgeVariant)
    ensures v == Secondary <==> !IsKnownStatus(status)
  {
    if status == Completed then Success
    else if status == Scheduled then Default
    else if status == Cancelled then Destructive
    else if status == Pending then Warning
    else Secondary
  }

  /** The four cases of the switch. */
  lemma BadgeVariantTable()
    ensures GetBadgeVariant(Completed) == Success
    ensures GetBadgeVariant(Scheduled) == Default
    ensures GetBadgeVariant(Cancelled) == Destructive
    ensures GetBadgeVariant(Pending) == Warning
  {
  }

  /** Distinct known statuses get distinct badges, so the badge tells the status apart. */
  lemma BadgeVariantSeparatesStatuses(a: string, b: string)
    requires IsKnownStatus(a) && IsKnownStatus(b)
    requires GetBadgeVariant(a) == GetBadgeVariant(b)
    ensures a == b
  {
  }

  /**
   * date-fns `format(date, "PPP 'at' p")` applied to a valid instant; None where it throws.
   * On an Invalid Date it always throws.
   */
  type DateFormatter = int -> Option<string>

  /** The body of the `try`: `format(new Date(date), ...)`, or None when it throws. */
  function TryFormat(date: string, parse: DateParser, format: DateFormatter): (r: Option<string>)
    ensures parse(date).None? ==> r.None?
    ensures r.Some? ==> parse(date).Some? && format(parse(date).value) == r
    ensures parse(date).Some? ==> r == format(parse(date).value)
  {
    match parse(date)
    case None => None
    case Some(t) => format(t)
  }

  /** `formattedDate`: the formatter's text, or the raw string when formatting throws. */
  function FormattedDate(date: string, parse: DateParser, format: DateFormatter): (r: string)
    ensures TryFormat(date, parse, format).Some? ==> r == TryFormat(date, parse, format).value
    ensures TryFormat(date, parse, format).None? ==> r == date
    ensures parse(date).None? ==> r == date
    ensures r == date || (parse(date).Some? && format(parse(date).value) == Some(r))
  {
    match TryFormat(date, parse, format)
    case Some(text) => text
    case None => date
  }

  /** The candidate line: the name when it is present and non-empty, else the placeholder. */
  datatype CandidateLine = CandidateName(name: string) | NoCandidateAssigned

  /** `candidateName ? ... : ...`: an absent name and the empty string are both falsy. */
  function CandidateLineOf(candidateName: Option<string>): (l: CandidateLine)
    ensures l.CandidateName? <==> candidateName.Some? && candidateName.value != ""
    ensures l.CandidateName? ==> l.name == candidateName.value
  {
    if candidateName.Some? && candidateName.value != "" then CandidateName(candidateName.value)
    else NoCandidateAssigned
  }

  /** `description && <p>...</p>`: the description paragraph, shown only when non-empty. */
  function DescriptionLine(description: Option<string>): (d: Option<string>)
    ensures d.Some? <==> description.Some? && description.value != ""
    ensures d.Some? ==> d.value == description.value
  {
    if description.Some? && description.value != "" then description else None
  }

  /** What a card shows, and the identifier its "View Details" button passes to the callback. */
  datatype CardView = CardView(
    title: string,
    dateText: string,
    candidate: CandidateLine,
    description: Option<string>,
    badge: BadgeVariant,
    statusLabel: string,
    viewDetailsId: string)

  function RenderCard(interview: Interview, parse: DateParser, format: DateFormatter): (c: CardView)
    ensures c.viewDetailsId == interview.id
    ensures c.dateText == FormattedDate(interview.value.date, parse, format)
    ensures c.candidate == CandidateLineOf(interview.value.candidateName)
    ensures c.description == DescriptionLine(interview.value.description)
    ensures c.badge == GetBadgeVariant(interview.value.status)
    ensures c.title == interview.value.title && c.statusLabel == interview.value.status
    ensures c.badge == Secondary <==> !IsKnownStatus(interview.value.status)
    ensures parse(interview.value.date).None? ==> c.dateText == interview.value.date
    ensures c.candidate == NoCandidateAssigned <==>
      interview.value.candidateName.None? || interview.value.candidateName.value == ""
  {
    var v := interview.value;
    CardView(
      v.title,
      FormattedDate(v.date, parse, format),
      CandidateLineOf(v.candidateName),
      DescriptionLine(v.description),
      GetBadgeVariant(v.status),
      v.status,
      interview.id)
  }
}
