# Interview dashboard — a Dafny model

This project models the logic of a small interview-management dashboard written
in React. That logic lives in three components:

- **The interview list** (`components/interviewlist.tsx`):
  - It holds three criteria as component state: a status filter, a sort order and a search query.
  - It derives the list it shows with a `.filter(...).sort(...)` pipeline. A record is kept when its status matches the filter (or the filter is `"all"`), and, for a non-empty query, when the lowered query occurs in the lowered title or in the lowered candidate name. The kept records are then ordered by the instant their date denotes: newest first for `"newest"`, oldest first otherwise.
  - It decides which controls and texts appear: the two clear buttons, the "Showing N of M" line, the cards, or one of two empty-state messages.
- **The dashboard page** (`app/page.tsx`): it defines six fixed records and counts them (total, completed, scheduled, and a "pending" bucket that takes in both `pending` and `scheduled`).
- **The interview card** (`components/interviewcard.tsx`):
  - It maps the status to a badge variant, with a default case.
  - It formats the date, falling back to the raw string when formatting throws.
  - It shows the candidate name or a placeholder, and the description when there is one.
  - Its "View Details" button reports the record's identifier.

Modules:

- `Wrappers` (`wrappers.dfy`): `Option`.
- `Seqs` (`seqs.dfy`): `Filter`, the model of `Array.prototype.filter`, together with its multiplicity, subsequence and counting lemmas.
- `Strings` (`strings.dfy`): ASCII `toLowerCase` and `includes`, plus the lemma relating `includes` to an occurrence at some position.
- `Interviews` (`interviews.dfy`): the record type, the four status tags, and the date parser passed in as an argument.
- `DateOrder` (`date_order.dfy`): the source's comparator and a stable insertion sort driven by it, with its ordering and stability lemmas.
- `InterviewList` (`interview_list.dfy`): the following pieces.
  - The pipeline `FilteredInterviews`.
  - The criteria: the value type `Criteria`, together with the class `ListFilters` whose fields the setters and `ClearFilters` update in place.
  - `Render`, which gives the data-dependent part of what the list shows.
- `InterviewCard` (`interview_card.dfy`): the badge mapping, the date fallback, the candidate and description lines, and `RenderCard`.
- `Dashboard` (`dashboard.dfy`): the counters, their relations, and their values on the six fixed records.

Two behaviours of the code worth noting:

- The comparator treats every sort order other than `"newest"` as ascending, not only `"oldest"`.
- A missing description shows nothing; only a missing candidate name gets a placeholder.

## Model

| member | source | states |
|---|---|---|
| Seqs.Filter | components/interviewlist.tsx:46-66 | the result is no longer than the input, and holds exactly the input's elements that satisfy the predicate |
| Seqs.FilterMultiplicity | components/interviewlist.tsx:46-66 | each element that satisfies the predicate occurs in the result as often as in the input; no other element occurs in it |
| Seqs.FilterIsSubsequence | components/interviewlist.tsx:46-66 | the filtered records keep their input order (they form a subsequence of the input) |
| Strings.Lower | components/interviewlist.tsx:55-58 | lowering keeps the length and lowers each character in place |
| Strings.LowerIdempotent | components/interviewlist.tsx:55 | lowering an already lowered string changes nothing |
| Strings.LowerHasNoUpper | components/interviewlist.tsx:55-58 | a lowered string holds no upper-case ASCII letter |
| Strings.IncludesIffOccurs | components/interviewlist.tsx:56-60 | `includes` holds exactly when the searched string occurs at some position |
| Strings.Includes | components/interviewlist.tsx:56-60 | a string includes every prefix of itself, and never a longer string |
| Strings.IncludesEmpty | components/interviewlist.tsx:54 | every string includes the empty string |
| Interviews.StatusTagsDistinct | components/interviewlist.tsx:22 | the four status tags are pairwise different |
| DateOrder.CompareDates | components/interviewlist.tsx:67-71 | the comparator is NaN exactly when one of the two dates does not parse; otherwise it is negative exactly when the first date is later (for "newest") or earlier (for any other order), and zero exactly when the two instants are equal |
| DateOrder.Precedes | components/interviewlist.tsx:67-71 | a record goes before another only when both dates parse, and never before a record at the same instant |
| DateOrder.PrecedesAsymmetric | components/interviewlist.tsx:69-71 | where defined, swapping the two records negates the comparator, so no two records each go before the other |
| DateOrder.Insert | components/interviewlist.tsx:67-72 | inserting adds exactly the new record to the multiset of records, and membership is the old members plus the new one |
| DateOrder.SortByDate | components/interviewlist.tsx:67-72 | sorting is a permutation of its input |
| DateOrder.PrecedesIffSmallerRank | components/interviewlist.tsx:69-71 | for records whose dates parse, the comparator is negative exactly when the first record lies strictly earlier along the chosen direction |
| DateOrder.InsertOrdered | components/interviewlist.tsx:67-72 | inserting a dated record into a list ordered by date keeps it ordered |
| DateOrder.SortOrdered | components/interviewlist.tsx:67-72 | when every date parses, the sorted records are ordered pairwise along the chosen direction |
| DateOrder.NewestFirst | components/interviewlist.tsx:71 | under `"newest"` adjacent timestamps of the sorted records never increase |
| DateOrder.OldestFirst | components/interviewlist.tsx:71 | under any other sort order adjacent timestamps never decrease |
| DateOrder.InsertKeepsEqualDatesInOrder | components/interviewlist.tsx:67-72 | inserting keeps the relative order of records that share a timestamp, with the inserted record first among them |
| DateOrder.SortKeepsEqualDatesInOrder | components/interviewlist.tsx:67-72 | the sort is stable: the records at any one instant appear in their input order |
| InterviewList.PassesStatus | components/interviewlist.tsx:49-51 | a record passes the status test exactly when the filter is "all" or equals its status |
| InterviewList.MatchesSearch | components/interviewlist.tsx:53-63 | an empty query matches every record; a title that includes the lowered query always matches; a match on a non-empty query comes from the title or from a present candidate name |
| InterviewList.FilteredInterviews | components/interviewlist.tsx:45-73 | the output is no longer than the input, and a record is in it exactly when it is in the input and passes both the status test and the search test |
| InterviewList.PermutationOfSelection | components/interviewlist.tsx:46-72 | the output is a permutation of the subsequence of the input that passes both tests; each passing record keeps its multiplicity and no other record appears |
| InterviewList.StatusFilterSelects | components/interviewlist.tsx:49-51 | with a status filter other than `"all"`, every output record has exactly that status |
| InterviewList.DefaultTestsPassEverything | components/interviewlist.tsx:49-65 | status `"all"` excludes nothing and the empty query excludes nothing, so each leaves only the other test |
| InterviewList.DefaultsKeepEverything | components/interviewlist.tsx:46-66 | with `"all"` and an empty query the output is a permutation of the whole input |
| InterviewList.SearchMatchIffOccurs | components/interviewlist.tsx:54-63 | a non-empty query matches exactly when its lowered form occurs in the lowered title or in the lowered candidate name; a record without a candidate name can match only by its title |
| InterviewList.EmptyQueryGuardRedundant | components/interviewlist.tsx:54-58 | the guard for an empty query changes nothing: the unguarded title test already passes every record on the empty query |
| InterviewList.SearchIgnoresQueryCase | components/interviewlist.tsx:55 | lowering the query beforehand does not change which records match |
| InterviewList.NewestFirstOutput | components/interviewlist.tsx:67-72 | under `"newest"`, when the date of every record that passes both tests parses, adjacent output timestamps never increase |
| InterviewList.OldestFirstOutput | components/interviewlist.tsx:67-72 | under any other order, when the date of every record that passes both tests parses, adjacent output timestamps never decrease |
| InterviewList.EqualDatesKeepInputOrder | components/interviewlist.tsx:67-72 | the output's records at one instant are the input's records at that instant that pass both tests, in input order |
| InterviewList.Criteria.HasActiveFilters | components/interviewlist.tsx:83-84 | filters are active exactly when the criteria differ from `("all", "newest", "")` |
| InterviewList.ListFilters.constructor | components/interviewlist.tsx:40-42 | the initial state is `("all", "newest", "")` and no filter is active |
| InterviewList.ListFilters.SetStatusFilter | components/interviewlist.tsx:136-138 | the status filter takes the chosen value; the other two criteria are unchanged |
| InterviewList.ListFilters.SetSortOrder | components/interviewlist.tsx:112 | the sort order takes the chosen value; the other two criteria are unchanged |
| InterviewList.ListFilters.SetSearchQuery | components/interviewlist.tsx:93-96 | the query takes the typed value; the other two criteria are unchanged |
| InterviewList.ListFilters.ClearSearch | components/interviewlist.tsx:99-104 | the query becomes empty; the other two criteria are unchanged |
| InterviewList.ListFilters.ClearFilters | components/interviewlist.tsx:76-80 | whatever the state was, it becomes `("all", "newest", "")` and no filter is active; since the new state does not depend on the old one, clearing is idempotent |
| InterviewList.Render | components/interviewlist.tsx:99-200 | the "Clear" button shows exactly when filters are active; the search box's clear button shows exactly when the query is non-empty; the cards and the count line show exactly when some record passes; in the empty state the "no interviews available" wording is used exactly when the input is empty; when cards show, there is one per output record, in output order, each rendered from that record |
| InterviewList.SummaryCounts | components/interviewlist.tsx:157-170 | the "Showing N of M" line shows exactly when cards show; N is the card count, M is the input length, N is at most M, and the status badge shows exactly when a status is chosen, with that status as its text |
| InterviewList.ViewDetailsNamesAShownRecord | components/interviewlist.tsx:176-182 | every card's "View Details" passes the identifier of a record of the input |
| InterviewList.NoInterviewsMessageIffEmpty | components/interviewlist.tsx:191-193 | the "no interviews available" empty state shows exactly when the input is empty |
| InterviewList.ClearAllButtonCondition | components/interviewlist.tsx:195-199 | "Clear All Filters" shows only when the input is non-empty and filters are active; whenever records exist but none match, the empty state is the no-match message with that button |
| InterviewCard.GetBadgeVariant | components/interviewcard.tsx:52-65 | the variant is "secondary" exactly when the status is none of the four tags |
| InterviewCard.BadgeVariantTable | components/interviewcard.tsx:53-61 | completed maps to success, scheduled to default, cancelled to destructive, pending to warning |
| InterviewCard.BadgeVariantSeparatesStatuses | components/interviewcard.tsx:52-65 | two known statuses with the same badge are the same status |
| InterviewCard.TryFormat | components/interviewcard.tsx:45 | formatting throws on an unparseable date; otherwise its outcome is the formatter's outcome on the parsed instant |
| InterviewCard.FormattedDate | components/interviewcard.tsx:43-49 | when formatting succeeds the text is the formatter's output; when it throws, including on an unparseable date, the text is the raw date string; the text is never anything else |
| InterviewCard.CandidateLineOf | components/interviewcard.tsx:78-87 | the candidate name shows exactly when it is present and non-empty, and then unchanged; otherwise the placeholder shows |
| InterviewCard.DescriptionLine | components/interviewcard.tsx:89-93 | the description paragraph shows exactly when the description is present and non-empty, unchanged |
| InterviewCard.RenderCard | components/interviewcard.tsx:67-110 | "View Details" reports exactly the record's identifier; title and status label are the record's; the date text is the formatted date (the formatter's output, or the raw string when formatting throws); the badge is the status's variant, "secondary" exactly for an unknown status; the candidate line is the name when present and non-empty, the placeholder otherwise; the description shows exactly when present and non-empty |
| Dashboard.TotalSplitsByStatus | app/page.tsx:81-90 | the total equals completed plus pending-or-scheduled plus the remaining records, so every record is counted once |
| Dashboard.CompletedInterviews | app/page.tsx:82-84 | the completed counter is at most the total |
| Dashboard.ScheduledInterviews | app/page.tsx:85-87 | the scheduled counter is at most the total |
| Dashboard.PendingInterviews | app/page.tsx:88-90 | the pending counter is at most the total |
| Dashboard.CountersCountMatchingPositions | app/page.tsx:82-90 | each counter equals the number of positions whose record has the counted status (pending or scheduled for the pending bucket) |
| Dashboard.PendingBucketSplits | app/page.tsx:85-90 | the pending counter is the scheduled count plus the pending count, so it is never below the scheduled counter |
| Dashboard.CompletedAndPendingWithinTotal | app/page.tsx:82-90 | completed plus pending-or-scheduled never exceeds the total |
| Dashboard.EmptyCountersAreZero | app/page.tsx:81-90 | with no records every counter is zero |
| Dashboard.MockStatuses | app/page.tsx:11-78 | the fixed record list has six records with statuses completed, scheduled, completed, scheduled, cancelled, pending |
| Dashboard.MockCounters | app/page.tsx:11-90 | on the fixed records the counters are 6 in total, 2 completed, 2 scheduled and 3 pending-or-scheduled |

## Left out

- Layout and presentation are not modelled: JSX structure, Tailwind classes, icons, and the UI primitives (`Tabs`, `Select`, `Input`, `Button`, `Badge`, `Card`), which come from libraries outside this code. Only the data-dependent choices made in the markup are modelled.
- `new Date(date).getTime()` is a foreign call. It is the parameter `parse: string -> Option<int>`, with None for NaN. JavaScript timestamps are floats; the model takes them as integers.
- Where a date does not parse, the comparator returns NaN and the resulting order depends on the engine. The model's sort follows one fixed rule there: NaN is not negative, so it never moves a record. The ordering lemmas require the dates to parse. `DateOrder.InsertKeepsEqualDatesInOrder`, `DateOrder.SortKeepsEqualDatesInOrder` and `InterviewList.EqualDatesKeepInputOrder` do not; on lists with unparseable dates they describe only this fixed rule, not what an engine must do.
- date-fns `format` with the `"PPP 'at' p"` pattern is a foreign call with locale-dependent output. It is the parameter `format: int -> Option<string>`; it is applied to the parsed instant, and None means it throws. An Invalid Date always throws.
- `toLowerCase` is modelled on ASCII letters only; Unicode case mapping is not modelled.
- `useMemo` caching and React's re-render scheduling are not modelled. The pipeline is recomputed from the current criteria, which gives the same values.
- `handleViewDetails` (app/page.tsx:92-95) only logs to the console, so it is not modelled. The model stops at the identifier the card passes to the callback.
- The source leaves its input array untouched because `.filter` copies before `.sort` sorts in place. In the model the input is an immutable sequence value, so this holds by construction and is not stated separately.
- The fixed records are modelled only as the instance on which the counters are computed. The list's output on them is not computed.
- The pending bucket's merging of `pending` and `scheduled` is kept as written; `Dashboard.PendingBucketSplits` states it.
