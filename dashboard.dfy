/**
 * The dashboard page: its summary counters over the full record list, and the
 * fixed records it hands to the list.
 */
module Dashboard {
  import opened Wrappers
  import opened Seqs
  import opened Interviews

  predicate IsCompleted(x: Interview) { x.value.status == Completed }
  predicate IsScheduled(x: Interview) { x.value.status == Scheduled }
  predicate IsPending(x: Interview) { x.value.status == Pending }

  /** The "Pending" card's bucket: pending or scheduled. */
  predicate IsPendingOrScheduled(x: Interview) { x.value.status == Pending || x.value.status == Scheduled }

  /** `totalInterviews`: the number of records. */
  function TotalInterviews(s: seq<Interview>): nat
  {
    |s|
  }

  /** `completedInterviews`. */
  function CompletedInterviews(s: seq<Interview>): (n: nat)
    ensures n <= TotalInterviews(s)
  {
    |Filter(s, IsCompleted)|
  }

  /** `scheduledInterviews` (computed by the page though no card displays it). */
  function ScheduledInterviews(s: seq<Interview>): (n: nat)
    ensures n <= TotalInterviews(s)
  {
    |Filter(s, IsScheduled)|
  }

  /** `pendingInterviews`: records that are pending or scheduled. */
  function PendingInterviews(s: seq<Interview>): (n: nat)
    ensures n <= TotalInterviews(s)
  {
    |Filter(s, IsPendingOrScheduled)|
  }

  /** Each counter is the number of positions holding a record with the counted status. */
  lemma CountersCountMatchingPositions(s: seq<Interview>)
    ensures CompletedInterviews(s) == |set i | 0 <= i < |s| && s[i].value.status == Completed|
    ensures ScheduledInterviews(s) == |set i | 0 <= i < |s| && s[i].value.status == Scheduled|
    ensures PendingInterviews(s) ==
      |set i | 0 <= i < |s| && (s[i].value.status == Pending || s[i].value.status == Scheduled)|
  {
    FilterLengthCountsPositions(s, IsCompleted);
    FilterLengthCountsPositions(s, IsScheduled);
    FilterLengthCountsPositions(s, IsPendingOrScheduled);
    assert PositionsWhere(s, IsCompleted) == set i | 0 <= i < |s| && s[i].value.status == Completed;
    assert PositionsWhere(s, IsScheduled) == set i | 0 <= i < |s| && s[i].value.status == Scheduled;
    assert PositionsWhere(s, IsPendingOrScheduled) ==
      set i | 0 <= i < |s| && (s[i].value.status == Pending || s[i].value.status == Scheduled);
  }

  /** The pending bucket is the scheduled records plus the pending ones, so it is never below `scheduled`. */
  lemma PendingBucketSplits(s: seq<Interview>)
    ensures PendingInterviews(s) == ScheduledInterviews(s) + |Filter(s, IsPending)|
    ensures PendingInterviews(s) >= ScheduledInterviews(s)
  {
    FilterDisjointUnion(s, IsScheduled, IsPending, IsPendingOrScheduled);
  }

  /** No record is both completed and pending-or-scheduled, so the two counters fit in the total. */
  lemma CompletedAndPendingWithinTotal(s: seq<Interview>)
    ensures CompletedInterviews(s) + PendingInterviews(s) <= TotalInterviews(s)
  {
    FilterDisjointBound(s, IsCompleted, IsPendingOrScheduled);
  }

  /** Neither completed nor pending-or-scheduled: cancelled, or a status outside the four tags. */
  predicate IsOther(x: Interview) { !IsCompleted(x) && !IsPendingOrScheduled(x) }

  predicate IsCompletedOrPendingOrScheduled(x: Interview) { IsCompleted(x) || IsPendingOrScheduled(x) }

  predicate IsAny(x: Interview) { IsCompletedOrPendingOrScheduled(x) || IsOther(x) }

  /**
   * The total counts every record once: the completed ones, the pending-or-scheduled
   * ones and the rest.
   */
  lemma TotalSplitsByStatus(s: seq<Interview>)
    ensures TotalInterviews(s) == CompletedInterviews(s) + PendingInterviews(s) + |Filter(s, IsOther)|
  {
    FilterDisjointUnion(s, IsCompleted, IsPendingOrScheduled, IsCompletedOrPendingOrScheduled);
    FilterDisjointUnion(s, IsCompletedOrPendingOrScheduled, IsOther, IsAny);
    FilterKeepsAll(s, IsAny);
  }

  /** With no records every counter is zero. */
  lemma EmptyCountersAreZero()
    ensures TotalInterviews([]) == 0 && CompletedInterviews([]) == 0
    ensures ScheduledInterviews([]) == 0 && PendingInterviews([]) == 0
  {
  }

  /** The page's fixed records (`mockInterviews`), one constant each. */
  const Int001: Interview := Interview("int-001", InterviewValue(
    "Software Engineer - Front End", "2023-08-15T13:00:00", Some("Alex Johnson"), Completed,
    Some("Interview for senior front-end position focusing on React and TypeScript experience.")))
  const Int002: Interview := Interview("int-002", InterviewValue(
    "UX Designer", "2023-08-18T10:30:00", Some("Sarah Williams"), Scheduled,
    Some("Reviewing portfolio and discussing past projects in the fintech industry.")))
  const Int003: Interview := Interview("int-003", InterviewValue(
    "DevOps Engineer", "2023-08-10T15:00:00", Some("Michael Chen"), Completed,
    Some("Technical interview covering CI/CD pipelines, Kubernetes, and cloud infrastructure.")))
  const Int004: Interview := Interview("int-004", InterviewValue(
    "Product Manager", "2023-08-22T14:00:00", Some("Emily Rodriguez"), Scheduled,
    Some("Discussion about product vision, roadmap planning, and stakeholder management.")))
  const Int005: Interview := Interview("int-005", InterviewValue(
    "Backend Developer", "2023-08-05T11:00:00", Some("David Kim"), Cancelled,
    Some("Technical assessment for Node.js expertise and database design principles.")))
  const Int006: Interview := Interview("int-006", InterviewValue(
    "Data Scientist", "2023-08-25T09:00:00", Some("Priya Patel"), Pending,
    Some("Discussion on machine learning models and data analysis techniques.")))

  const MockInterviews: seq<Interview> := [Int001, Int002, Int003, Int004, Int005, Int006]

  /** The statuses of the fixed records, in order. */
  lemma MockStatuses()
    ensures |MockInterviews| == 6
    ensures MockInterviews[0].value.status == Completed && MockInterviews[1].value.status == Scheduled
    ensures MockInterviews[2].value.status == Completed && MockInterviews[3].value.status == Scheduled
    ensures MockInterviews[4].value.status == Cancelled && MockInterviews[5].value.status == Pending
  {
  }

  /** The number of `true` entries. */
  function CountTrue(flags: seq<bool>): nat
  {
    if flags == [] then 0 else (if flags[0] then 1 else 0) + CountTrue(flags[1..])
  }

  /** A filtered length read off the per-record outcomes of the predicate. */
  lemma {:induction false} FilterLengthByFlags(s: seq<Interview>, p: Interview -> bool, flags: seq<bool>)
    requires |flags| == |s|
    requires forall k :: 0 <= k < |s| ==> p(s[k]) == flags[k]
    ensures |Filter(s, p)| == CountTrue(flags)
  {
    if s != [] {
      FilterLengthByFlags(s[1..], p, flags[1..]);
    }
  }

  lemma MockCompleted()
    ensures CompletedInterviews(MockInterviews) == 2
  {
    MockStatuses();
    StatusTagsDistinct();
    FilterLengthByFlags(MockInterviews, IsCompleted, [true, false, true, false, false, false]);
  }

  lemma MockScheduled()
    ensures ScheduledInterviews(MockInterviews) == 2
  {
    MockStatuses();
    StatusTagsDistinct();
    FilterLengthByFlags(MockInterviews, IsScheduled, [false, true, false, true, false, false]);
  }

  lemma MockPendingBucket()
    ensures PendingInterviews(MockInterviews) == 3
  {
    MockStatuses();
    StatusTagsDistinct();
    FilterLengthByFlags(MockInterviews, IsPendingOrScheduled, [false, true, false, true, false, true]);
  }

  /** On the fixed records: 6 in all, 2 completed, 2 scheduled, 3 pending or scheduled. */
  lemma MockCounters()
    ensures TotalInterviews(MockInterviews) == 6
    ensures CompletedInterviews(MockInterviews) == 2
    ensures ScheduledInterviews(MockInterviews) == 2
    ensures PendingInterviews(MockInterviews) == 3
  {
    MockCompleted();
    MockScheduled();
    MockPendingBucket();
  }
}
