/**
 * The interview record shared by the dashboard page, the list and the card
 * (`Interview` / `InterviewValue` in each of the three components).
 */
module Interviews {
  import opened Wrappers

  /** The payload of a record; `candidateName` and `description` are optional. */
  datatype InterviewValue = InterviewValue(
    title: string,
    date: string,
    candidateName: Option<string>,
    status: string,
    description: Option<string>)

  /** A record and its identifier (`ID` in the source). */
  datatype Interview = Interview(id: string, value: InterviewValue)

  /** The four status tags the record type admits. */
  const Scheduled: string := "scheduled"
  const Completed: string := "completed"
  const Cancelled: string := "cancelled"
  const Pending: string := "pending"

  lemma StatusTagsDistinct()
    ensures Completed != Scheduled && Completed != Cancelled && Completed != Pending
    ensures Scheduled != Cancelled && Scheduled != Pending && Cancelled != Pending
  {
  }

  predicate IsKnownStatus(status: string)
  {
    status == Scheduled || status == Completed || status == Cancelled || status == Pending
  }

  /**
   * `new Date(date).getTime()`: the instant a date string denotes, in milliseconds,
   * or None where JavaScript yields NaN (an Invalid Date). Supplied by the caller.
   */
  type DateParser = string -> Option<int>

  function Timestamp(x: Interview, parse: DateParser): Option<int>
  {
    parse(x.value.date)
  }

  /** Every record's date parses. */
  ghost predicate AllDated(s: seq<Interview>, parse: DateParser)
  {
    forall x :: x in s ==> Timestamp(x, parse).Some?
  }

  /** As a filter predicate: the record's date parses to exactly `t`. */
  function DatedAt(parse: DateParser, t: int): Interview -> bool
  {
    x => Timestamp(x, parse) == Some(t)
  }
}
