/**
 * The `.sort(...)` step of the list pipeline: records ordered by the instant their
 * `date` denotes, newest first when the sort order is "newest", oldest first otherwise.
 * `Array.prototype.sort` is stable, so this is a stable insertion sort driven by the
 * source's own comparator.
 */
module DateOrder {
  import opened Wrappers
  import opened Seqs
  import opened Interviews

  const Newest: string := "newest"

  /**
   * The comparator: `dateB - dateA` for "newest" and `dateA - dateB` for any other
   * order. None stands for NaN, the result when either date does not parse.
   */
  function CompareDates(a: Interview, b: Interview, sortOrder: string, parse: DateParser): (c: Option<int>)
    ensures c.None? <==> Timestamp(a, parse).None? || Timestamp(b, parse).None?
    ensures c.Some? && sortOrder == Newest ==> (c.value < 0 <==> Timestamp(b, parse).value < Timestamp(a, parse).value)
    ensures c.Some? && sortOrder != Newest ==> (c.value < 0 <==> Timestamp(a, parse).value < Timestamp(b, parse).value)
    ensures c.Some? ==> (c.value == 0 <==> Timestamp(a, parse) == Timestamp(b, parse))
  {
    var dateA := Timestamp(a, parse);
    var dateB := Timestamp(b, parse);
    if dateA.None? || dateB.None? then None
    else if sortOrder == Newest then Some(dateB.value - dateA.value)
    else Some(dateA.value - dateB.value)
  }

  /** `a` must be placed before `b`: the comparator is negative (NaN is not negative). */
  predicate Precedes(a: Interview, b: Interview, sortOrder: string, parse: DateParser): (p: bool)
    ensures p ==> Timestamp(a, parse).Some? && Timestamp(b, parse).Some?
    ensures Timestamp(a, parse) == Timestamp(b, parse) ==> !p
  {
    var c := CompareDates(a, b, sortOrder, parse);
    c.Some? && c.value < 0
  }

  /**
   * Places `x` in front of the first element of `t` that need not precede it, so `x`
   * stays ahead of every later element it compares equal to.
   */
  function Insert(x: Interview, t: seq<Interview>, sortOrder: string, parse: DateParser): (r: seq<Interview>)
    ensures multiset(r) == multiset(t) + multiset{x}
    ensures forall y :: y in r <==> y == x || y in t
    decreases |t|
  {
    if t == [] || !Precedes(t[0], x, sortOrder, parse) then [x] + t
    else
      assert t == [t[0]] + t[1..];
      [t[0]] + Insert(x, t[1..], sortOrder, parse)
  }

  /** The records of `s`, rearranged by date. */
  function SortByDate(s: seq<Interview>, sortOrder: string, parse: DateParser): (r: seq<Interview>)
    ensures multiset(r) == multiset(s)
    ensures |r| == |s|
  {
    if s == [] then []
    else
      assert s == [s[0]] + s[1..];
      Insert(s[0], SortByDate(s[1..], sortOrder, parse), sortOrder, parse)
  }

  /** The position of a dated record along the chosen direction: later is larger for ascending order. */
  function Rank(x: Interview, sortOrder: string, parse: DateParser): int
    requires Timestamp(x, parse).Some?
  {
    if sortOrder == Newest then -Timestamp(x, parse).value else Timestamp(x, parse).value
  }

  /** Every record's rank is at most that of every record after it. */
  ghost predicate Ordered(s: seq<Interview>, sortOrder: string, parse: DateParser)
    requires AllDated(s, parse)
  {
    forall i, j :: 0 <= i < j < |s| ==> Rank(s[i], sortOrder, parse) <= Rank(s[j], sortOrder, parse)
  }

  /** No two records each precede the other: the comparator is antisymmetric where it is defined. */
  lemma PrecedesAsymmetric(a: Interview, b: Interview, sortOrder: string, parse: DateParser)
    ensures Precedes(a, b, sortOrder, parse) ==> !Precedes(b, a, sortOrder, parse)
    ensures CompareDates(a, b, sortOrder, parse).Some? ==>
      CompareDates(b, a, sortOrder, parse) == Some(-CompareDates(a, b, sortOrder, parse).value)
  {
  }

  /** For dated records the comparator is negative exactly when the rank is strictly smaller. */
  lemma PrecedesIffSmallerRank(a: Interview, b: Interview, sortOrder: string, parse: DateParser)
    requires Timestamp(a, parse).Some? && Timestamp(b, parse).Some?
    ensures Precedes(a, b, sortOrder, parse) <==> Rank(a, sortOrder, parse) < Rank(b, sortOrder, parse)
  {
  }

  /** An ordered sequence stays ordered under a new head ranked no later than any element. */
  lemma OrderedCons(h: Interview, s: seq<Interview>, sortOrder: string, parse: DateParser)
    requires Timestamp(h, parse).Some? && AllDated(s, parse)
    requires Ordered(s, sortOrder, parse)
    requires forall y :: y in s ==> Rank(h, sortOrder, parse) <= Rank(y, sortOrder, parse)
    ensures AllDated([h] + s, parse)
    ensures Ordered([h] + s, sortOrder, parse)
  {
    var r := [h] + s;
    forall i, j | 0 <= i < j < |r|
      ensures Rank(r[i], sortOrder, parse) <= Rank(r[j], sortOrder, parse)
    {
      assert r[j] == s[j - 1];
      if i > 0 {
        assert r[i] == s[i - 1];
      }
    }
  }

  lemma {:induction false} InsertOrdered(x: Interview, t: seq<Interview>, sortOrder: string, parse: DateParser)
    requires Timestamp(x, parse).Some? && AllDated(t, parse)
    requires Ordered(t, sortOrder, parse)
    ensures AllDated(Insert(x, t, sortOrder, parse), parse)
    ensures Ordered(Insert(x, t, sortOrder, parse), sortOrder, parse)
    decreases |t|
  {
    if t == [] {
      OrderedCons(x, t, sortOrder, parse);
    } else if !Precedes(t[0], x, sortOrder, parse) {
      forall y | y in t
        ensures Rank(x, sortOrder, parse) <= Rank(y, sortOrder, parse)
      {
        var k :| 0 <= k < |t| && t[k] == y;
        if k > 0 {
          assert Rank(t[0], sortOrder, parse) <= Rank(t[k], sortOrder, parse);
        }
      }
      OrderedCons(x, t, sortOrder, parse);
    } else {
      var rest := t[1..];
      assert Ordered(rest, sortOrder, parse) by {
        forall i, j | 0 <= i < j < |rest|
          ensures Rank(rest[i], sortOrder, parse) <= Rank(rest[j], sortOrder, parse)
        {
          assert rest[i] == t[i + 1] && rest[j] == t[j + 1];
        }
      }
      InsertOrdered(x, rest, sortOrder, parse);
      var tail := Insert(x, rest, sortOrder, parse);
      forall y | y in tail
        ensures Rank(t[0], sortOrder, parse) <= Rank(y, sortOrder, parse)
      {
        if y != x {
          var k :| 0 <= k < |rest| && rest[k] == y;
          assert t[k + 1] == y;
        }
      }
      OrderedCons(t[0], tail, sortOrder, parse);
    }
  }

  /** When every date parses, the sorted records are in order of rank. */
  lemma {:induction false} SortOrdered(s: seq<Interview>, sortOrder: string, parse: DateParser)
    requires AllDated(s, parse)
    ensures AllDated(SortByDate(s, sortOrder, parse), parse)
    ensures Ordered(SortByDate(s, sortOrder, parse), sortOrder, parse)
  {
    if s != [] {
      var rest := SortByDate(s[1..], sortOrder, parse);
      SortOrdered(s[1..], sortOrder, parse);
      InsertOrdered(s[0], rest, sortOrder, parse);
    }
  }

  /** With "newest", adjacent sorted timestamps never increase. */
  lemma NewestFirst(s: seq<Interview>, parse: DateParser)
    requires AllDated(s, parse)
    ensures var r := SortByDate(s, Newest, parse);
      AllDated(r, parse) &&
      forall i :: 0 < i < |r| ==> Timestamp(r[i], parse).value <= Timestamp(r[i - 1], parse).value
  {
    SortOrdered(s, Newest, parse);
    var r := SortByDate(s, Newest, parse);
    forall i | 0 < i < |r|
      ensures Timestamp(r[i], parse).value <= Timestamp(r[i - 1], parse).value
    {
      assert Rank(r[i - 1], Newest, parse) <= Rank(r[i], Newest, parse);
    }
  }

  /** With any order other than "newest", adjacent sorted timestamps never decrease. */
  lemma OldestFirst(s: seq<Interview>, sortOrder: string, parse: DateParser)
    requires sortOrder != Newest
    requires AllDated(s, parse)
    ensures var r := SortByDate(s, sortOrder, parse);
      AllDated(r, parse) &&
      forall i :: 0 < i < |r| ==> Timestamp(r[i - 1], parse).value <= Timestamp(r[i], parse).value
  {
    SortOrdered(s, sortOrder, parse);
    var r := SortByDate(s, sortOrder, parse);
    forall i | 0 < i < |r|
      ensures Timestamp(r[i - 1], parse).value <= Timestamp(r[i], parse).value
    {
      assert Rank(r[i - 1], sortOrder, parse) <= Rank(r[i], sortOrder, parse);
    }
  }

  /** Inserting `x` adds it at the front of the records sharing its instant, and nowhere else. */
  lemma {:induction false} InsertKeepsEqualDatesInOrder(x: Interview, t: seq<Interview>, sortOrder: string, parse: DateParser, when: int)
    ensures Filter(Insert(x, t, sortOrder, parse), DatedAt(parse, when))
         == Filter([x] + t, DatedAt(parse, when))
    decreases |t|
  {
    var p := DatedAt(parse, when);
    if t != [] && Precedes(t[0], x, sortOrder, parse) {
      InsertKeepsEqualDatesInOrder(x, t[1..], sortOrder, parse, when);
      var tail := Insert(x, t[1..], sortOrder, parse);
      assert ([t[0]] + tail)[1..] == tail;
      assert ([x] + t)[1..] == t;
      assert ([x] + t[1..])[1..] == t[1..];
      assert ([t[0]] + ([x] + t[1..])[1..])[1..] == t[1..];
      assert t == [t[0]] + t[1..];
      // t[0] and x have different instants, so at most one of them passes `p`.
      assert !(p(t[0]) && p(x));
    }
  }

  /** Records with equal timestamps keep their input order (the sort is stable). */
  lemma {:induction false} SortKeepsEqualDatesInOrder(s: seq<Interview>, sortOrder: string, parse: DateParser, when: int)
    ensures Filter(SortByDate(s, sortOrder, parse), DatedAt(parse, when)) == Filter(s, DatedAt(parse, when))
  {
    if s != [] {
      var p := DatedAt(parse, when);
      var rest := SortByDate(s[1..], sortOrder, parse);
      InsertKeepsEqualDatesInOrder(s[0], rest, sortOrder, parse, when);
      SortKeepsEqualDatesInOrder(s[1..], sortOrder, parse, when);
      assert ([s[0]] + rest)[1..] == rest;
    }
  }
}
