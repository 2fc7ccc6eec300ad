/** The sales of the last 30 days in weekly buckets, for the dashboard of a store. Days are numbered as
    Python's `toordinal` does; amounts are in cents. */
module SalesGraph {
  import Sequences

  const LAST_SECOND := 86399

  datatype Time = Time(day: nat, second: nat, micro: nat)

  /** The sales of one day, as the query returns them. */
  datatype Row = Row(day: nat, total: int)

  datatype Bucket = Bucket(start: nat, end: nat, amount: int)

  predicate Before(a: Time, b: Time) {
    a.day < b.day || (a.day == b.day && (a.second < b.second || (a.second == b.second && a.micro < b.micro)))
  }

  /** Monday is 0. */
  function Weekday(day: nat): nat { (day + 6) % 7 }

  /** The last day of the week of a day, when weeks start on the given weekday. */
  function WeekEnd(day: nat, weekStart: nat): nat
    requires weekStart < 7
  {
    var last := if weekStart != 0 then weekStart - 1 else 6;
    day + (7 + last - Weekday(day)) % 7
  }

  // ------------------------------------------------------------------ the specification

  function Sales(rows: seq<Row>, start: nat, end: nat): int {
    if rows == [] then 0
    else (if start <= rows[0].day <= end then rows[0].total else 0) + Sales(rows[1..], start, end)
  }

  function Min(a: nat, b: nat): nat { if a < b then a else b }

  /** The weeks from a day to a last day, the first and the last one cut. */
  function Weeks(rows: seq<Row>, start: nat, last: nat, weekStart: nat): seq<Bucket>
    requires weekStart < 7
    decreases last + 1 - start
  {
    if start > last then []
    else
      var end := Min(WeekEnd(start, weekStart), last);
      [Bucket(start, end, Sales(rows, start, end))] + Weeks(rows, end + 1, last, weekStart)
  }

  /** The last day is lost when it starts a week and the first clock read does not have the smaller
      microseconds. */
  predicate LastDayLost(first: Time, now: Time, weekStart: nat) {
    Weekday(now.day) == weekStart && first.micro >= now.micro
  }

  /** The days the graph covers end here. */
  function Covered(first: Time, now: Time, weekStart: nat): int {
    if LastDayLost(first, now, weekStart) then now.day - 1 else now.day
  }

  // ------------------------------------------------------------------ the code

  /** `get_graph_datas` with its two clock reads. */
  method GetGraphDatas(first: Time, now: Time, rows: seq<Row>, weekStart: nat) returns (data: seq<Bucket>)
    requires weekStart < 7 && 30 <= first.day <= now.day
    ensures data == Weeks(rows, first.day - 30, Covered(first, now, weekStart), weekStart)
  {
    var today := Time(now.day, LAST_SECOND, now.micro);
    var index := Time(first.day - 30, 0, first.micro);
    ghost var last := Covered(first, now, weekStart);
    hide WeekEnd, Weekday, Covered, LastDayLost, Ready, Sales, Weeks;
    data := [];
    while Before(index, today)
      invariant index.day <= now.day + 1
      invariant index == Time(first.day - 30, 0, first.micro) || Ready(first, now, weekStart, index)
      invariant Weeks(rows, first.day - 30, last, weekStart) == data + Weeks(rows, index.day, last, weekStart)
      decreases now.day + 1 - index.day
    {
      var end := Time(WeekEnd(index.day, weekStart), LAST_SECOND, index.micro);
      RoundEnds(first, now, weekStart, index);
      if Before(today, end) {
        end := today;
      }
      var bucket := Bucket(index.day, end.day, Sales(rows, index.day, end.day));
      NextWeek(rows, index.day, end.day, last, weekStart);
      Sequences.Regroup(data, [bucket], Weeks(rows, end.day + 1, last, weekStart));
      data := data + [bucket];
      index := Time(end.day + 1, LAST_SECOND, end.micro);
    }
    LoopEnds(first, now, weekStart, index);
    NoWeeks(rows, index.day, last, weekStart);
  }

  lemma {:induction false} NextWeek(rows: seq<Row>, start: nat, end: nat, last: int, weekStart: nat)
    requires weekStart < 7 && start <= last && end == Min(WeekEnd(start, weekStart), last)
    ensures Weeks(rows, start, last, weekStart)
            == [Bucket(start, end, Sales(rows, start, end))] + Weeks(rows, end + 1, last, weekStart)
  {
  }

  lemma {:induction false} NoWeeks(rows: seq<Row>, start: nat, last: int, weekStart: nat)
    requires weekStart < 7 && start > last && last >= 0
    ensures Weeks(rows, start, last, weekStart) == []
  {
  }

  /** The loop ends behind the last day that is covered. */
  lemma {:induction false} LoopEnds(first: Time, now: Time, weekStart: nat, index: Time)
    requires 30 <= first.day <= now.day && index.day <= now.day + 1
    requires index == Time(first.day - 30, 0, first.micro) || Ready(first, now, weekStart, index)
    requires !Before(index, Time(now.day, LAST_SECOND, now.micro))
    ensures index.day > Covered(first, now, weekStart)
  {
  }

  /** The loop index after the first round. */
  ghost predicate Ready(first: Time, now: Time, weekStart: nat, index: Time) {
    && index.second == LAST_SECOND
    && (index.day <= now.day ==> index.micro == first.micro && Weekday(index.day) == weekStart)
    && (index.day > now.day ==> !LastDayLost(first, now, weekStart))
  }

  /** One round covers the days up to the end of the week or the last day, and the next begins after it. */
  lemma {:induction false} RoundEnds(first: Time, now: Time, weekStart: nat, index: Time)
    requires weekStart < 7 && 30 <= first.day <= now.day && index.day <= now.day + 1
    requires index == Time(first.day - 30, 0, first.micro) || Ready(first, now, weekStart, index)
    requires Before(index, Time(now.day, LAST_SECOND, now.micro))
    ensures var today, week := Time(now.day, LAST_SECOND, now.micro), Time(WeekEnd(index.day, weekStart), LAST_SECOND, index.micro);
            var end := if Before(today, week) then today else week;
            && index.day <= end.day == Min(WeekEnd(index.day, weekStart), Covered(first, now, weekStart))
            && Ready(first, now, weekStart, Time(end.day + 1, LAST_SECOND, end.micro)) && end.day <= now.day
            && index.day <= Covered(first, now, weekStart)
  {
    WeekEndIs(index.day, weekStart);
    WeekStartOnly(index.day, now.day, weekStart);
    hide WeekEnd, Weekday;
  }

  /** The weekday some days later, within a week. */
  lemma {:induction false} WeekdayAfter(day: nat, step: nat)
    requires step <= 7
    ensures Weekday(day + step) == if Weekday(day) + step < 7 then Weekday(day) + step else Weekday(day) + step - 7
  {
    var q := (day + 6) / 7;
    assert day + 6 == 7 * q + Weekday(day);
    assert day + step + 6 == 7 * q + (Weekday(day) + step);
  }

  lemma {:induction false} WeekEndIs(day: nat, weekStart: nat)
    requires weekStart < 7
    ensures day <= WeekEnd(day, weekStart) <= day + 6
    ensures Weekday(WeekEnd(day, weekStart) + 1) == weekStart
    ensures WeekEnd(day, weekStart) == day + if Weekday(day) < weekStart then weekStart - 1 - Weekday(day)
                                             else weekStart + 6 - Weekday(day)
  {
    WeekdayAfter(day, WeekEnd(day, weekStart) + 1 - day);
  }

  /** Within a week only its first day has the starting weekday. */
  lemma {:induction false} WeekStartOnly(day: nat, other: nat, weekStart: nat)
    requires weekStart < 7
    ensures day < other <= WeekEnd(day, weekStart) ==> Weekday(other) != weekStart
  {
    WeekEndIs(day, weekStart);
    if day < other <= WeekEnd(day, weekStart) {
      WeekdayAfter(day, other - day);
    }
  }

  // ------------------------------------------------------------------ the buckets

  /** The buckets cover the days from start to last without gap or overlap. */
  ghost predicate Partition(bs: seq<Bucket>, start: nat, last: nat) {
    && bs != [] && bs[0].start == start && bs[|bs| - 1].end == last
    && (forall k :: 0 <= k < |bs| ==> start <= bs[k].start <= bs[k].end <= last)
    && forall k :: 0 < k < |bs| ==> bs[k].start == bs[k - 1].end + 1
  }

  /** A bucket before adjacent ones is adjacent to them. */
  lemma {:induction false} PartitionCons(b: Bucket, bs: seq<Bucket>, last: nat)
    requires b.start <= b.end < last && Partition(bs, b.end + 1, last)
    ensures Partition([b] + bs, b.start, last)
  {
    var all := [b] + bs;
    forall k | 0 < k < |all| ensures all[k].start == all[k - 1].end + 1 && b.start <= all[k].start <= all[k].end <= last {
      assert all[k] == bs[k - 1];
      if k > 1 {
        assert all[k - 1] == bs[k - 2];
      }
    }
  }

  /** Each bucket starts where the one before ends, so each day falls in exactly one. */
  lemma {:induction false} WeeksPartition(rows: seq<Row>, start: nat, last: nat, weekStart: nat)
    requires weekStart < 7 && start <= last
    ensures Partition(Weeks(rows, start, last, weekStart), start, last)
    decreases last - start
  {
    var end := Min(WeekEnd(start, weekStart), last);
    WeekEndIs(start, weekStart);
    NextWeek(rows, start, end, last, weekStart);
    hide Weeks, Partition, WeekEnd, Sales;
    if end < last {
      WeeksPartition(rows, end + 1, last, weekStart);
      PartitionCons(Bucket(start, end, Sales(rows, start, end)), Weeks(rows, end + 1, last, weekStart), last);
    } else {
      NoWeeks(rows, end + 1, last, weekStart);
      PartitionOne(Bucket(start, end, Sales(rows, start, end)));
    }
  }

  lemma {:induction false} PartitionOne(b: Bucket)
    requires b.start <= b.end
    ensures Partition([b] + [], b.start, b.end)
  {
  }

  lemma {:induction false} BucketsInOrder(rows: seq<Row>, start: nat, last: nat, weekStart: nat, j: nat, k: nat)
    requires weekStart < 7 && j < k < |Weeks(rows, start, last, weekStart)|
    ensures Weeks(rows, start, last, weekStart)[j].end < Weeks(rows, start, last, weekStart)[k].start
    decreases k
  {
    WeeksPartition(rows, start, last, weekStart);
    if j < k - 1 {
      BucketsInOrder(rows, start, last, weekStart, j, k - 1);
    }
  }

  /** Each day is in one bucket and no other. */
  lemma {:induction false} InOneBucket(rows: seq<Row>, start: nat, last: nat, weekStart: nat, day: nat) returns (k: nat)
    requires weekStart < 7 && start <= day <= last
    ensures var bs := Weeks(rows, start, last, weekStart);
            && k < |bs| && bs[k].start <= day <= bs[k].end
            && forall j :: 0 <= j < |bs| && j != k ==> !(bs[j].start <= day <= bs[j].end)
    decreases last - start
  {
    var end := Min(WeekEnd(start, weekStart), last);
    var bs := Weeks(rows, start, last, weekStart);
    WeekEndIs(start, weekStart);
    k := 0;
    if day > end {
      var i := InOneBucket(rows, end + 1, last, weekStart, day);
      k := i + 1;
    }
    forall j | 0 <= j < |bs| && j != k ensures !(bs[j].start <= day <= bs[j].end) {
      if j < k {
        BucketsInOrder(rows, start, last, weekStart, j, k);
      } else {
        BucketsInOrder(rows, start, last, weekStart, k, j);
      }
    }
  }

  /** No bucket spans the start of a week, and only the first and the last are cut. */
  lemma {:induction false} BucketsAreWeeks(rows: seq<Row>, start: nat, last: nat, weekStart: nat, k: nat)
    requires weekStart < 7 && k < |Weeks(rows, start, last, weekStart)|
    ensures var bs := Weeks(rows, start, last, weekStart);
            && (forall day: nat :: bs[k].start < day <= bs[k].end ==> Weekday(day) != weekStart)
            && (k > 0 ==> Weekday(bs[k].start) == weekStart)
            && (k < |bs| - 1 ==> Weekday(bs[k].end + 1) == weekStart)
    decreases last + 1 - start
  {
    var end := Min(WeekEnd(start, weekStart), last);
    var rest := Weeks(rows, end + 1, last, weekStart);
    var bs := Weeks(rows, start, last, weekStart);
    WeekEndIs(start, weekStart);
    if k == 0 {
      forall day: nat | start < day <= end ensures Weekday(day) != weekStart {
        WeekStartOnly(start, day, weekStart);
      }
    } else {
      BucketsAreWeeks(rows, end + 1, last, weekStart, k - 1);
      assert bs[k] == rest[k - 1];
      if k == 1 {
        assert bs[1].start == end + 1;
      }
    }
  }

  /** From the second bucket on each takes a whole week, so n days make at most (n + 12) / 7 buckets. */
  lemma {:induction false} WeeksBound(rows: seq<Row>, start: nat, last: nat, weekStart: nat)
    requires weekStart < 7 && start <= last
    ensures var n := |Weeks(rows, start, last, weekStart)|;
            && 7 * (n - 1) <= last - start + (if Weekday(start) == weekStart then 0 else 6)
    decreases last - start
  {
    var end := Min(WeekEnd(start, weekStart), last);
    WeekEndIs(start, weekStart);
    if end < last {
      WeeksBound(rows, end + 1, last, weekStart);
      if Weekday(start) == weekStart {
        WholeWeek(start, weekStart);
      }
    }
  }

  lemma {:induction false} WholeWeek(day: nat, weekStart: nat)
    requires weekStart < 7 && Weekday(day) == weekStart
    ensures WeekEnd(day, weekStart) == day + 6
  {
    WeekEndIs(day, weekStart);
  }

  lemma {:induction false} SalesSplit(rows: seq<Row>, start: nat, middle: nat, end: nat)
    requires start <= middle <= end
    ensures Sales(rows, start, end) == Sales(rows, start, middle) + Sales(rows, middle + 1, end)
  {
    if rows != [] {
      SalesSplit(rows[1..], start, middle, end);
    }
  }

  lemma {:induction false} SalesAre(rows: seq<Row>, start: nat, end: nat)
    ensures Sales(rows, start, end) == Sequences.SumOf(rows, (r: Row) => if start <= r.day <= end then r.total else 0)
  {
    if rows != [] {
      SalesAre(rows[1..], start, end);
    }
  }

  /** The amount of a bucket is the sum over the rows of its days. */
  lemma {:induction false} BucketAmount(rows: seq<Row>, start: nat, last: nat, weekStart: nat, k: nat)
    requires weekStart < 7 && k < |Weeks(rows, start, last, weekStart)|
    ensures var b := Weeks(rows, start, last, weekStart)[k];
            b.amount == Sequences.SumOf(rows, (r: Row) => if b.start <= r.day <= b.end then r.total else 0)
    decreases k
  {
    var end := Min(WeekEnd(start, weekStart), last);
    if k == 0 {
      SalesAre(rows, start, end);
    } else {
      BucketAmount(rows, end + 1, last, weekStart, k - 1);
    }
  }

  function Amounts(bs: seq<Bucket>): int { if bs == [] then 0 else bs[0].amount + Amounts(bs[1..]) }

  /** The buckets together hold the sales of all the days they cover. */
  lemma {:induction false} AmountsAddUp(rows: seq<Row>, start: nat, last: nat, weekStart: nat)
    requires weekStart < 7 && start <= last
    ensures Amounts(Weeks(rows, start, last, weekStart)) == Sales(rows, start, last)
    ensures Sales(rows, start, last) == Sequences.SumOf(rows, (r: Row) => if start <= r.day <= last then r.total else 0)
    decreases last - start
  {
    SalesAre(rows, start, last);
    var end := Min(WeekEnd(start, weekStart), last);
    WeekEndIs(start, weekStart);
    assert Weeks(rows, start, last, weekStart)[1..] == Weeks(rows, end + 1, last, weekStart);
    if end < last {
      AmountsAddUp(rows, end + 1, last, weekStart);
      SalesSplit(rows, start, end, last);
    }
  }

  // ------------------------------------------------------------------ the graph

  /** For every week start, the graph has at most six buckets, also when midnight passes between the two
      clock reads, and they hold the sales of the days from 30 days ago on. */
  lemma {:induction false} GraphHasSixBuckets(first: Time, now: Time, rows: seq<Row>, weekStart: nat)
    requires weekStart < 7 && 30 <= first.day <= now.day <= first.day + 5
    ensures Covered(first, now, weekStart) >= first.day - 30
    ensures var data := Weeks(rows, first.day - 30, Covered(first, now, weekStart), weekStart);
            && 1 <= |data| <= 6 && data[0].start == first.day - 30
            && Amounts(data) == Sales(rows, first.day - 30, Covered(first, now, weekStart))
  {
    var start, last := first.day - 30, Covered(first, now, weekStart);
    WeeksPartition(rows, start, last, weekStart);
    WeeksBound(rows, start, last, weekStart);
    AmountsAddUp(rows, start, last, weekStart);
  }

  /** The graph reaches today exactly when today does not start a week, or the first clock read has the
      smaller microseconds. */
  lemma {:induction false} GraphReachesTodayIff(first: Time, now: Time, rows: seq<Row>, weekStart: nat)
    requires weekStart < 7 && 30 <= first.day <= now.day
    ensures var data := Weeks(rows, first.day - 30, Covered(first, now, weekStart), weekStart);
            (exists k :: 0 <= k < |data| && data[k].start <= now.day <= data[k].end)
            <==> (Weekday(now.day) != weekStart || first.micro < now.micro)
  {
    var start, last := first.day - 30, Covered(first, now, weekStart);
    WeeksPartition(rows, start, last, weekStart);
    if last == now.day {
      var k := InOneBucket(rows, start, last, weekStart, now.day);
    }
  }

  /** On a Monday, with weeks from Monday and both reads at the same microsecond, today's sale of 5.00 is
      not in the graph. */
  lemma {:induction false} MondaySalesLost(second: nat)
    ensures var now := Time(736996, second, 500);
            && Weekday(now.day) == 0
            && Amounts(Weeks([Row(now.day, 500)], now.day - 30, Covered(now, now, 0), 0)) == 0
  {
    var now := Time(736996, second, 500);
    AmountsAddUp([Row(now.day, 500)], now.day - 30, now.day - 1, 0);
    assert [Row(now.day, 500)][1..] == [];
  }
}
