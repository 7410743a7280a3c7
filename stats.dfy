/** The reading statistics page (`src/app/library/stats/stats.ts`): averages, the
    seven-day and twelve-week activity bars and the top-books donut, all computed
    from the tracker's sessions. Days are day numbers and "today" is a parameter;
    bar labels (locale weekday names, "Wk NN") are left out, each bar carrying the
    first day it covers instead. */
module Stats {
  import opened Wrappers
  import opened Js
  import opened Lists
  import opened TrackerStore

  /** No session has negative minutes, as every loaded or newly added one does. */
  ghost predicate NonNegative(list: seq<Session>) {
    forall i :: 0 <= i < |list| ==> list[i].minutes >= 0
  }

  /** The minutes `s` adds when its date is in `first..last`. */
  function MinutesIfIn(first: Day, last: Day): Session -> int {
    (s: Session) => if first <= s.date <= last then s.minutes else 0
  }

  /** The minutes logged in `first..last`. */
  function WindowMinutes(list: seq<Session>, first: Day, last: Day): int {
    SumBy(list, MinutesIfIn(first, last))
  }

  /** The days of `first..last` with more than zero minutes. */
  ghost function ActiveDays(list: seq<Session>, first: Day, last: Day): set<Day> {
    set d | first <= d <= last && MinutesOn(list, d) > 0
  }

  ghost function PositiveKeys(m: map<Day, int>, keys: set<Day>): set<Day> {
    set d | d in keys && d in m && m[d] > 0
  }

  /** No day is listed twice. */
  ghost predicate Distinct(order: seq<Day>) {
    forall a, b :: 0 <= a < b < |order| ==> order[a] != order[b]
  }

  /** `avgDailyMinutesOver(list, days, fillEmptyDays)` for the `days` days ending
      `today`. With the fill, the window's minutes divided by `days`, rounded; without
      it, divided (unrounded) by the number of days with minutes, or by `days` when no
      day has any. The day map is a `map` plus the order its keys were inserted in,
      which is the order `map.values()` lists them. */
  method AvgDailyMinutesOver(list: seq<Session>, days: int, fillEmptyDays: bool, today: Day) returns (avg: real)
    requires days >= 1
    ensures fillEmptyDays ==> avg == RoundDiv(WindowMinutes(list, today - (days - 1), today), days) as real
    ensures !fillEmptyDays ==>
              var n := |ActiveDays(list, today - (days - 1), today)|;
              avg == WindowMinutes(list, today - (days - 1), today) as real / (if n > 0 then n else days) as real
  {
    var first := today - (days - 1);
    var sums: map<Day, int> := map[];
    var order: seq<Day> := [];
    if fillEmptyDays {
      var d := first;
      while d <= today
        invariant first <= d <= today + 1
        invariant forall k :: k in sums ==> first <= k < d && sums[k] == 0
        invariant forall k :: k in sums <==> k in order
        invariant Distinct(order)
      {
        assert d !in sums;
        sums := sums[d := 0];
        order := order + [d];
        d := d + 1;
      }
    }
    assert forall d :: d in sums ==> first <= d <= today && sums[d] == MinutesOn(list[..0], d);
    var total := 0;
    var i := 0;
    while i < |list|
      invariant 0 <= i <= |list|
      invariant forall d :: d in sums ==> first <= d <= today && sums[d] == MinutesOn(list[..i], d)
      invariant forall d :: first <= d <= today && MinutesOn(list[..i], d) != 0 ==> d in sums
      invariant forall k :: k in sums <==> k in order
      invariant Distinct(order)
      invariant total == WindowMinutes(list[..i], first, today)
    {
      var s := list[i];
      assert list[..i + 1][..i] == list[..i];
      if first <= s.date <= today {
        if s.date !in sums {
          order := order + [s.date];
        }
        sums := sums[s.date := (if s.date in sums then sums[s.date] else 0) + s.minutes];
        total := total + s.minutes;
      }
      i := i + 1;
    }
    assert list[..i] == list;
    if fillEmptyDays {
      avg := RoundDiv(total, days) as real;
    } else {
      var present := CountPositive(sums, order);
      assert PositiveKeys(sums, sums.Keys) == ActiveDays(list, first, today);
      avg := total as real / (if present > 0 then present else days) as real;
    }
  }

  /** `vals.filter(v => v > 0).length` over the values of a day map, listed in the
      order of its keys. */
  method CountPositive(sums: map<Day, int>, order: seq<Day>) returns (present: int)
    requires forall k :: k in sums <==> k in order
    requires Distinct(order)
    ensures present == |PositiveKeys(sums, sums.Keys)|
  {
    present := 0;
    var j := 0;
    while j < |order|
      invariant 0 <= j <= |order|
      invariant present == |PositiveKeys(sums, Elems(order[..j]))|
    {
      assert order[j] in order;
      assert order[j] in sums;
      CountStep(sums, order, j);
      if sums[order[j]] > 0 {
        present := present + 1;
      }
      j := j + 1;
    }
    assert order[..j] == order;
    forall x ensures x in Elems(order) <==> x in sums.Keys {
      assert x in Elems(order) <==> x in order;
    }
    assert Elems(order) == sums.Keys;
  }

  /** The days listed in `s`. */
  function Elems(s: seq<Day>): (r: set<Day>)
    ensures forall x :: x in r <==> x in s
  {
    if s == [] then {} else Elems(s[..|s| - 1]) + {s[|s| - 1]}
  }

  lemma {:induction false} CountStep(sums: map<Day, int>, order: seq<Day>, j: int)
    requires Distinct(order) && 0 <= j < |order| && order[j] in sums
    ensures |PositiveKeys(sums, Elems(order[..j + 1]))|
            == |PositiveKeys(sums, Elems(order[..j]))| + (if sums[order[j]] > 0 then 1 else 0)
  {
    var day := order[j];
    assert order[..j + 1] == order[..j] + [day];
    assert Elems(order[..j + 1]) == Elems(order[..j]) + {day} by {
      assert order[..j + 1][..j] == order[..j];
    }
    assert day !in order[..j];
    PositiveAdd(sums, Elems(order[..j]), day);
  }

  lemma {:induction false} PositiveAdd(m: map<Day, int>, keys: set<Day>, x: Day)
    requires x !in keys && x in m
    ensures |PositiveKeys(m, keys + {x})| == |PositiveKeys(m, keys)| + (if m[x] > 0 then 1 else 0)
  {
    if m[x] > 0 {
      assert PositiveKeys(m, keys + {x}) == PositiveKeys(m, keys) + {x};
    } else {
      assert PositiveKeys(m, keys + {x}) == PositiveKeys(m, keys);
    }
  }

  /** One column of an activity chart: the first day it covers, its minutes and its
      height in percent of the tallest column. */
  datatype Bar = Bar(start: Day, value: int, pct: int)

  /** `Math.max(1, ...values)` */
  function PeakOf(values: seq<int>): (r: int)
    ensures r >= 1
    ensures forall j :: 0 <= j < |values| ==> values[j] <= r
    ensures r == 1 || exists j :: 0 <= j < |values| && values[j] == r
  {
    if values == [] then 1
    else
      var rest := PeakOf(values[1..]);
      assert forall j :: 1 <= j < |values| ==> values[j] == values[1..][j - 1];
      if values[0] > rest then values[0] else rest
  }

  /** The columns for `values`, the column at `j` starting on `starts[j]`. */
  function Columns(values: seq<int>, starts: seq<Day>): (bars: seq<Bar>)
    requires |starts| == |values|
    ensures |bars| == |values|
    ensures forall j :: 0 <= j < |bars| ==> bars[j].start == starts[j] && bars[j].value == values[j]
    ensures forall j :: 0 <= j < |bars| ==> bars[j].pct == Percent(values[j], PeakOf(values))
  {
    seq(|values|, j requires 0 <= j < |values| => Bar(starts[j], values[j], Percent(values[j], PeakOf(values))))
  }

  /** Columns of non-negative values are between 0 and 100 high, an empty one is 0
      high, and the tallest is 100 high as soon as any reaches 1. */
  lemma {:induction false} ColumnsScale(values: seq<int>, starts: seq<Day>)
    requires |starts| == |values|
    ensures var bars := Columns(values, starts);
            && ((forall j :: 0 <= j < |values| ==> values[j] >= 0) ==> forall j :: 0 <= j < |bars| ==> 0 <= bars[j].pct <= 100)
            && (forall j :: 0 <= j < |bars| && bars[j].value == 0 ==> bars[j].pct == 0)
            && ((exists j :: 0 <= j < |values| && values[j] >= 1) ==> exists j :: 0 <= j < |bars| && bars[j].pct == 100)
  {
    var peak := PeakOf(values);
    if exists j :: 0 <= j < |values| && values[j] >= 1 {
      var j :| 0 <= j < |values| && values[j] == peak;
      assert Columns(values, starts)[j].pct == 100;
    }
  }

  /** `buildLast7DaysBars`: one column for each of the seven days ending `today`,
      oldest first, each the minutes logged that day. */
  method Last7DaysBars(list: seq<Session>, today: Day) returns (bars: seq<Bar>)
    ensures |bars| == 7
    ensures forall j :: 0 <= j < 7 ==> bars[j].start == today - 6 + j && bars[j].value == MinutesOn(list, today - 6 + j)
    ensures NonNegative(list) ==> forall j :: 0 <= j < 7 ==> 0 <= bars[j].pct <= 100
    ensures forall j :: 0 <= j < 7 && bars[j].value == 0 ==> bars[j].pct == 0
    ensures (exists j :: 0 <= j < 7 && bars[j].value >= 1) ==> exists j :: 0 <= j < 7 && bars[j].pct == 100
  {
    var first := today - 6;
    var values := [0, 0, 0, 0, 0, 0, 0];
    var i := 0;
    while i < |list|
      invariant 0 <= i <= |list|
      invariant |values| == 7
      invariant forall j :: 0 <= j < 7 ==> values[j] == MinutesOn(list[..i], first + j)
    {
      var s := list[i];
      assert list[..i + 1][..i] == list[..i];
      if first <= s.date <= today {
        values := values[s.date - first := values[s.date - first] + s.minutes];
      }
      i := i + 1;
    }
    assert list[..i] == list;
    var starts := seq(7, j => first + j);
    bars := Columns(values, starts);
    if NonNegative(list) {
      forall j | 0 <= j < 7 ensures values[j] >= 0 {
        SumByNonNegative(list, MinutesIfOn(first + j));
      }
    }
    ColumnsScale(values, starts);
  }

  /** The Monday of the week `d` is in (day 0, 1 January 1970, was a Thursday). */
  function MondayOf(d: Day): (r: Day)
    ensures r <= d < r + 7
    ensures (r + 3) % 7 == 0
  {
    d - (d + 3) % 7
  }

  /** The Monday starting week `j` (0 the oldest, 11 the current week) of the twelve
      weeks `buildLast12WeeksBars` covers. */
  function WeekStart(today: Day, j: int): Day {
    MondayOf(today) - 7 * (11 - j)
  }

  /** `buildLast12WeeksBars`: one column for each of the twelve Monday-to-Sunday weeks
      ending with the current one, oldest first. A session adds its minutes to the one
      week its date falls in, so the columns together hold exactly the minutes of the
      twelve weeks. */
  method Last12WeeksBars(list: seq<Session>, today: Day) returns (bars: seq<Bar>)
    ensures |bars| == 12
    ensures forall j :: 0 <= j < 12 ==>
              bars[j].start == WeekStart(today, j) && bars[j].value == WindowMinutes(list, WeekStart(today, j), WeekStart(today, j) + 6)
    ensures SumBy(bars, (b: Bar) => b.value) == WindowMinutes(list, WeekStart(today, 0), WeekStart(today, 11) + 6)
    ensures NonNegative(list) ==> forall j :: 0 <= j < 12 ==> 0 <= bars[j].pct <= 100
    ensures forall j :: 0 <= j < 12 && bars[j].value == 0 ==> bars[j].pct == 0
  {
    var starts := seq(12, j => WeekStart(today, j));
    assert forall k :: 0 <= k < 12 ==> starts[k] == starts[0] + 7 * k;
    var sums := WeekBuckets(list, starts);
    WeekColumns(list, today, starts, sums);
    WeekShares(list, starts, sums);
    bars := Columns(sums, starts);
  }

  /** The week columns carry the week sums, so their values add up to the twelve
      weeks' minutes. */
  lemma {:induction false} WeekColumns(list: seq<Session>, today: Day, starts: seq<Day>, sums: seq<int>)
    requires |starts| == 12 && forall k :: 0 <= k < 12 ==> starts[k] == WeekStart(today, k)
    requires WeekSums(sums, starts, list)
    ensures forall j :: 0 <= j < 12 ==>
              Columns(sums, starts)[j].start == WeekStart(today, j)
              && Columns(sums, starts)[j].value == WindowMinutes(list, WeekStart(today, j), WeekStart(today, j) + 6)
    ensures SumBy(Columns(sums, starts), (b: Bar) => b.value) == WindowMinutes(list, WeekStart(today, 0), WeekStart(today, 11) + 6)
  {
    SumOfValues(Columns(sums, starts), sums);
  }

  /** Week sums of sessions with non-negative minutes are shares from 0 to 100 of the
      busiest week, and an empty week has share 0. */
  lemma {:induction false} WeekShares(list: seq<Session>, starts: seq<Day>, sums: seq<int>)
    requires |starts| == 12 && WeekSums(sums, starts, list)
    ensures NonNegative(list) ==> forall j :: 0 <= j < 12 ==> 0 <= Columns(sums, starts)[j].pct <= 100
    ensures forall j :: 0 <= j < 12 && Columns(sums, starts)[j].value == 0 ==> Columns(sums, starts)[j].pct == 0
  {
    if NonNegative(list) {
      forall j | 0 <= j < 12 ensures sums[j] >= 0 {
        SumByNonNegative(list, MinutesIfIn(starts[j], starts[j] + 6));
      }
    }
    ColumnsScale(sums, starts);
  }

  /** The bucketing loop over the sessions for twelve consecutive weeks. */
  method WeekBuckets(list: seq<Session>, starts: seq<Day>) returns (sums: seq<int>)
    requires |starts| == 12 && forall k :: 0 <= k < 12 ==> starts[k] == starts[0] + 7 * k
    ensures WeekSums(sums, starts, list)
  {
    sums := seq(12, _ => 0);
    SumZeros(sums);
    assert list[..0] == [];
    var i := 0;
    while i < |list|
      invariant 0 <= i <= |list|
      invariant WeekSums(sums, starts, list[..i])
    {
      var s := list[i];
      assert list[..i + 1] == list[..i] + [s];
      var j := FirstWeek(starts, s.date);
      var next := if j < 12 then sums[j := sums[j] + s.minutes] else sums;
      WeekStep(sums, starts, list[..i], s, j);
      sums := next;
      i := i + 1;
    }
    assert list[..i] == list;
  }

  /** The inner loop of the bucketing: the first of the twelve consecutive weeks that
      holds `date`, or 12 when none does; no other week holds it. */
  method FirstWeek(starts: seq<Day>, date: Day) returns (j: int)
    requires |starts| == 12 && forall k :: 0 <= k < 12 ==> starts[k] == starts[0] + 7 * k
    ensures 0 <= j <= 12
    ensures j < 12 ==> starts[j] <= date <= starts[j] + 6
    ensures forall k :: 0 <= k < 12 && k != j ==> !(starts[k] <= date <= starts[k] + 6)
    ensures j == 12 <==> !(starts[0] <= date <= starts[11] + 6)
  {
    if starts[0] <= date <= starts[11] + 6 {
      var k := (date - starts[0]) / 7;
      assert starts[k] <= date <= starts[k] + 6;
    }
    j := 0;
    while j < 12 && !(starts[j] <= date <= starts[j] + 6)
      invariant 0 <= j <= 12
      invariant forall k :: 0 <= k < j ==> !(starts[k] <= date <= starts[k] + 6)
    {
      j := j + 1;
    }
  }

  /** Bucket `j` of `sums` holds the minutes of `done` in the week starting
      `starts[j]`, and all buckets together those of the twelve weeks. */
  ghost predicate WeekSums(sums: seq<int>, starts: seq<Day>, done: seq<Session>)
    requires |starts| == 12
  {
    && |sums| == 12
    && (forall j :: 0 <= j < 12 ==> sums[j] == WindowMinutes(done, starts[j], starts[j] + 6))
    && SumBy(sums, (v: int) => v) == WindowMinutes(done, starts[0], starts[11] + 6)
  }

  lemma {:induction false} WeekStep(sums: seq<int>, starts: seq<Day>, done: seq<Session>, s: Session, j: int)
    requires |starts| == 12 && WeekSums(sums, starts, done)
    requires 0 <= j <= 12
    requires j < 12 ==> starts[j] <= s.date <= starts[j] + 6
    requires forall k :: 0 <= k < 12 && k != j ==> !(starts[k] <= s.date <= starts[k] + 6)
    requires j == 12 <==> !(starts[0] <= s.date <= starts[11] + 6)
    ensures WeekSums(if j < 12 then sums[j := sums[j] + s.minutes] else sums, starts, done + [s])
  {
    var id := (v: int) => v;
    assert (done + [s])[..|done|] == done;
    if j < 12 {
      SumByUpdate(sums, j, sums[j] + s.minutes, id);
    }
  }

  lemma {:induction false} SumZeros(s: seq<int>)
    requires forall j :: 0 <= j < |s| ==> s[j] == 0
    ensures SumBy(s, (v: int) => v) == 0
  {
    if s != [] {
      SumZeros(s[..|s| - 1]);
    }
  }

  lemma {:induction false} SumOfValues(bars: seq<Bar>, values: seq<int>)
    requires |bars| == |values| && forall j :: 0 <= j < |bars| ==> bars[j].value == values[j]
    ensures SumBy(bars, (b: Bar) => b.value) == SumBy(values, (v: int) => v)
  {
    if bars != [] {
      SumOfValues(bars[..|bars| - 1], values[..|values| - 1]);
    }
  }

  // ---------------------------------------------------------------------------
  // The top-books donut.

  const Unknown := "Unknown"

  lemma UnknownIsTrimmed()
    ensures Trim(Unknown) == Unknown
  {
    assert !IsSpace(Unknown[0]) && !IsSpace(Unknown[|Unknown| - 1]);
    TrimOfTrimmed(Unknown);
  }

  /** `(s.bookTitle || 'Unknown').trim() || 'Unknown'`: the title a session counts
      under. */
  function TitleKey(s: Session): (k: string)
    ensures k != ""
    ensures s.bookTitle.Some? && Trim(s.bookTitle.value) != "" ==> k == Trim(s.bookTitle.value)
    ensures s.bookTitle.None? || Trim(s.bookTitle.value) == "" ==> k == Unknown
  {
    UnknownIsTrimmed();
    var t := Trim(if s.bookTitle.Some? && s.bookTitle.value != "" then s.bookTitle.value else Unknown);
    if t == "" then Unknown else t
  }

  /** One entry of the per-title map: a title and the minutes read under it. */
  datatype Group = Group(title: string, minutes: int)

  function TitleOf(g: Group): string { g.title }
  function GroupMinutes(g: Group): int { g.minutes }

  /** The minutes `s` adds to the title `title`. */
  function MinutesIfTitled(titleOf: Session -> string, title: string): Session -> int {
    (s: Session) => if titleOf(s) == title then s.minutes else 0
  }

  /** `acc.get(title)` as a position: the first group with that title, or -1. */
  function IndexOfTitle(groups: seq<Group>, title: string): (r: int)
    ensures -1 <= r < |groups|
    ensures r >= 0 ==> groups[r].title == title && forall k :: 0 <= k < r ==> groups[k].title != title
    ensures r < 0 ==> forall k :: 0 <= k < |groups| ==> groups[k].title != title
  {
    if groups == [] then -1
    else if groups[0].title == title then 0
    else
      var r := IndexOfTitle(groups[1..], title);
      if r < 0 then -1 else r + 1
  }

  /** `acc.set(key, (acc.get(key) || 0) + minutes)`: a known title grows in place, a
      new one is added at the end, as a `Map` keeps insertion order. */
  function AddToGroups(groups: seq<Group>, key: string, minutes: int): seq<Group>
  {
    var k := IndexOfTitle(groups, key);
    if k < 0 then groups + [Group(key, minutes)]
    else groups[k := Group(key, groups[k].minutes + minutes)]
  }

  /** One step of the per-title map keeps the titles where they are and makes
      `key` present, adding a group at the end only for a new title. */
  lemma AddToGroupsOrder(groups: seq<Group>, key: string, minutes: int)
    ensures var r := AddToGroups(groups, key, minutes);
            && |groups| <= |r| <= |groups| + 1
            && (forall j :: 0 <= j < |groups| ==> r[j].title == groups[j].title)
            && (|r| > |groups| <==> IndexOfTitle(groups, key) < 0)
            && (|r| > |groups| ==> r[|groups|].title == key)
            && IndexOfTitle(r, key) >= 0
  {
    var r := AddToGroups(groups, key, minutes);
    if IndexOfTitle(groups, key) < 0 {
      assert r[|groups|].title == key;
    }
  }

  /** With distinct titles, only the group of `key` gains `minutes`; a new group
      starts from nothing. */
  lemma AddToGroupsMinutes(groups: seq<Group>, key: string, minutes: int)
    requires UniqueBy(groups, TitleOf)
    ensures var r := AddToGroups(groups, key, minutes);
            forall j :: 0 <= j < |r| ==>
              r[j].minutes == (if j < |groups| then groups[j].minutes else 0) + (if r[j].title == key then minutes else 0)
  {
    var r := AddToGroups(groups, key, minutes);
    var k := IndexOfTitle(groups, key);
    forall j | 0 <= j < |r|
      ensures r[j].minutes == (if j < |groups| then groups[j].minutes else 0) + (if r[j].title == key then minutes else 0)
    {
      if k >= 0 && j != k {
        assert TitleOf(groups[j]) != TitleOf(groups[k]);
      }
    }
  }

  /** Adding minutes keeps every title once. */
  lemma AddToGroupsUnique(groups: seq<Group>, key: string, minutes: int)
    requires UniqueBy(groups, TitleOf)
    ensures UniqueBy(AddToGroups(groups, key, minutes), TitleOf)
  {
    var r := AddToGroups(groups, key, minutes);
    if IndexOfTitle(groups, key) < 0 {
      assert r[|groups|].title == key;
    }
  }

  /** Adding minutes grows the total by exactly those minutes. */
  lemma AddToGroupsSum(groups: seq<Group>, key: string, minutes: int)
    ensures SumBy(AddToGroups(groups, key, minutes), GroupMinutes) == SumBy(groups, GroupMinutes) + minutes
  {
    var k := IndexOfTitle(groups, key);
    if k < 0 {
      SumByAppend(groups, [Group(key, minutes)], GroupMinutes);
      assert SumBy([Group(key, minutes)], GroupMinutes) == minutes by {
        assert [Group(key, minutes)][..0] == [];
      }
    } else {
      SumByUpdate(groups, k, Group(key, groups[k].minutes + minutes), GroupMinutes);
    }
  }

  /** The per-title map after all sessions. */
  function Grouped(list: seq<Session>, titleOf: Session -> string): seq<Group> {
    if list == [] then [] else
      var s := list[|list| - 1];
      AddToGroups(Grouped(list[..|list| - 1], titleOf), titleOf(s), s.minutes)
  }

  /** The per-title map lists every title once. */
  lemma {:induction false} GroupedUnique(list: seq<Session>, titleOf: Session -> string)
    ensures UniqueBy(Grouped(list, titleOf), TitleOf)
    decreases |list|
  {
    if list != [] {
      var init, s := list[..|list| - 1], list[|list| - 1];
      GroupedUnique(init, titleOf);
      AddToGroupsUnique(Grouped(init, titleOf), titleOf(s), s.minutes);
    }
  }

  /** The per-title map gathers all the minutes. */
  lemma {:induction false} GroupedTotal(list: seq<Session>, titleOf: Session -> string)
    ensures SumBy(Grouped(list, titleOf), GroupMinutes) == SumBy(list, MinutesOf)
    decreases |list|
  {
    if list != [] {
      var init, s := list[..|list| - 1], list[|list| - 1];
      GroupedTotal(init, titleOf);
      AddToGroupsSum(Grouped(init, titleOf), titleOf(s), s.minutes);
    }
  }

  /** Every session's title has a group. */
  lemma {:induction false} GroupedCovers(list: seq<Session>, titleOf: Session -> string)
    ensures forall i :: 0 <= i < |list| ==> IndexOfTitle(Grouped(list, titleOf), titleOf(list[i])) >= 0
    decreases |list|
  {
    if list != [] {
      var init, s := list[..|list| - 1], list[|list| - 1];
      GroupedCovers(init, titleOf);
      var g0 := Grouped(init, titleOf);
      var g := Grouped(list, titleOf);
      AddToGroupsOrder(g0, titleOf(s), s.minutes);
      forall i | 0 <= i < |list| ensures IndexOfTitle(g, titleOf(list[i])) >= 0 {
        if i < |init| {
          assert list[i] == init[i];
          var m := IndexOfTitle(g0, titleOf(init[i]));
          assert 0 <= m < |g0| <= |g|;
          assert g[m].title == g0[m].title == titleOf(list[i]);
        } else {
          assert list[i] == s;
        }
      }
    }
  }

  /** Each group holds the minutes of the sessions under its title. */
  lemma {:induction false} GroupedMinutes(list: seq<Session>, titleOf: Session -> string)
    ensures forall k :: 0 <= k < |Grouped(list, titleOf)| ==>
              Grouped(list, titleOf)[k].minutes == SumBy(list, MinutesIfTitled(titleOf, Grouped(list, titleOf)[k].title))
    decreases |list|
  {
    if list != [] {
      var init, s := list[..|list| - 1], list[|list| - 1];
      GroupedMinutes(init, titleOf);
      GroupedCovers(init, titleOf);
      GroupedUnique(init, titleOf);
      AddSessionMinutes(Grouped(init, titleOf), init, s, titleOf);
      assert init + [s] == list;
    }
  }

  /** Adding one session to groups that hold the minutes of the earlier sessions
      under their titles gives groups that hold the minutes of all of them. */
  lemma AddSessionMinutes(g0: seq<Group>, init: seq<Session>, s: Session, titleOf: Session -> string)
    requires UniqueBy(g0, TitleOf)
    requires forall i :: 0 <= i < |init| ==> IndexOfTitle(g0, titleOf(init[i])) >= 0
    requires forall k :: 0 <= k < |g0| ==> g0[k].minutes == SumBy(init, MinutesIfTitled(titleOf, g0[k].title))
    ensures var g := AddToGroups(g0, titleOf(s), s.minutes);
            forall k :: 0 <= k < |g| ==> g[k].minutes == SumBy(init + [s], MinutesIfTitled(titleOf, g[k].title))
  {
    var key := titleOf(s);
    var g := AddToGroups(g0, key, s.minutes);
    AddToGroupsOrder(g0, key, s.minutes);
    AddToGroupsMinutes(g0, key, s.minutes);
    forall j | 0 <= j < |g| ensures g[j].minutes == SumBy(init + [s], MinutesIfTitled(titleOf, g[j].title)) {
      var f := MinutesIfTitled(titleOf, g[j].title);
      assert (init + [s])[..|init|] == init;
      assert SumBy(init + [s], f) == SumBy(init, f) + f(s);
      if j < |g0| {
        assert g[j].title == g0[j].title;
      } else {
        assert g[j].title == key && IndexOfTitle(g0, key) < 0;
        SumZeroWithoutTitle(init, titleOf, key, g0);
      }
    }
  }

  /** A title no session carries gathers no minutes. */
  lemma {:induction false} SumZeroWithoutTitle(list: seq<Session>, titleOf: Session -> string, title: string, g: seq<Group>)
    requires forall i :: 0 <= i < |list| ==> IndexOfTitle(g, titleOf(list[i])) >= 0
    requires IndexOfTitle(g, title) < 0
    ensures SumBy(list, MinutesIfTitled(titleOf, title)) == 0
    decreases |list|
  {
    if list != [] {
      assert titleOf(list[|list| - 1]) != title;
      SumZeroWithoutTitle(list[..|list| - 1], titleOf, title, g);
    }
  }

  /** The grouping loop of `buildTopBooksDonut`. */
  method GroupByTitle(list: seq<Session>, titleOf: Session -> string) returns (groups: seq<Group>)
    ensures groups == Grouped(list, titleOf)
  {
    groups := [];
    var i := 0;
    while i < |list|
      invariant 0 <= i <= |list|
      invariant groups == Grouped(list[..i], titleOf)
    {
      var s := list[i];
      assert list[..i + 1][..i] == list[..i];
      assert list[..i + 1][i] == s;
      var key := titleOf(s);
      var k := FindTitle(groups, key);
      if k == |groups| {
        groups := groups + [Group(key, s.minutes)];
      } else {
        groups := groups[k := Group(key, groups[k].minutes + s.minutes)];
      }
      i := i + 1;
    }
    assert list[..i] == list;
  }

  /** The per-title map's look-up, as a scan: the position of `title`, or the
      length when it is not there yet. */
  method FindTitle(groups: seq<Group>, title: string) returns (k: int)
    ensures IndexOfTitle(groups, title) < 0 ==> k == |groups|
    ensures IndexOfTitle(groups, title) >= 0 ==> k == IndexOfTitle(groups, title)
  {
    k := 0;
    while k < |groups| && groups[k].title != title
      invariant 0 <= k <= |groups|
      invariant forall j :: 0 <= j < k ==> groups[j].title != title
    {
      k := k + 1;
    }
  }

  /** `sort((a, b) => b[1] - a[1])`: the comparison "at least as many minutes". */
  function ByMinutes(): (Group, Group) -> bool {
    (a: Group, b: Group) => a.minutes >= b.minutes
  }

  lemma ByMinutesIsPreorder()
    ensures TotalPreorder(ByMinutes())
  {
  }

  /** A slice of the donut: its title, minutes, colour and share in percent. */
  datatype Slice = Slice(title: string, minutes: int, color: string, pct: int)

  function SliceMinutes(s: Slice): int { s.minutes }

  const Palette: seq<string> := ["#0ea5a3", "#fb923c", "#60a5fa", "#f59e0b", "#a78bfa", "#94a3b8"]

  /** How many of the ranked titles get their own slice. */
  function TopCount(ranked: seq<Group>): (n: int)
    ensures 0 <= n <= 5 && n <= |ranked|
    ensures n == |ranked| || n == 5
  {
    Min(5, |ranked|)
  }

  /** What `entries.slice(5)` adds up to. */
  function OtherMinutes(ranked: seq<Group>): int {
    SumBy(ranked[TopCount(ranked)..], GroupMinutes)
  }

  /** The slices for titles already ranked by minutes: the first five, then "Other"
      when the rest add up to more than 0, each share rounded against the total (at
      least 1). */
  function SlicesOf(ranked: seq<Group>): (r: seq<Slice>)
    ensures |r| == TopCount(ranked) + (if OtherMinutes(ranked) > 0 then 1 else 0) && |r| <= 6
    ensures forall i :: 0 <= i < TopCount(ranked) ==> r[i].title == ranked[i].title && r[i].minutes == ranked[i].minutes
    ensures |r| > TopCount(ranked) ==> r[TopCount(ranked)].title == "Other" && r[TopCount(ranked)].minutes == OtherMinutes(ranked)
  {
    TopSlices(ranked) + OtherSlice(ranked)
  }

  /** `Math.max(1, top + other)`: what every share is taken of. */
  function DonutTotal(ranked: seq<Group>): int {
    Max(1, SumBy(ranked[..TopCount(ranked)], GroupMinutes) + OtherMinutes(ranked))
  }

  /** One slice for each of the first `TopCount` ranked titles. */
  function TopSlices(ranked: seq<Group>): (r: seq<Slice>)
    ensures |r| == TopCount(ranked)
    ensures forall i :: 0 <= i < |r| ==>
              r[i] == Slice(ranked[i].title, ranked[i].minutes, Palette[i % |Palette|], Percent(ranked[i].minutes, DonutTotal(ranked)))
  {
    var n := TopCount(ranked);
    seq(n, i requires 0 <= i < n => Slice(ranked[i].title, ranked[i].minutes, Palette[i % |Palette|], Percent(ranked[i].minutes, DonutTotal(ranked))))
  }

  /** The "Other" slice, present only when the remaining titles add up to more than
      0. */
  function OtherSlice(ranked: seq<Group>): seq<Slice> {
    var other := OtherMinutes(ranked);
    if other > 0 then [Slice("Other", other, Palette[|Palette| - 1], Percent(other, DonutTotal(ranked)))] else []
  }

  /** The slices drawn for a list of sessions grouped by `titleOf`. */
  function DonutBy(list: seq<Session>, titleOf: Session -> string): seq<Slice> {
    SlicesOf(SortBy(Grouped(list, titleOf), ByMinutes()))
  }

  /** The slices `buildTopBooksDonut` draws for a list of sessions. */
  function Donut(list: seq<Session>): seq<Slice> {
    DonutBy(list, TitleKey)
  }

  /** The titled slices come largest first, each under a different title and with
      the minutes of exactly the sessions under that title. */
  lemma {:induction false} DonutTopTitles(list: seq<Session>, titleOf: Session -> string)
    ensures var n := TopCount(SortBy(Grouped(list, titleOf), ByMinutes()));
            var d := DonutBy(list, titleOf);
            && (forall a, b :: 0 <= a < b < n ==> d[a].minutes >= d[b].minutes && d[a].title != d[b].title)
            && (forall a :: 0 <= a < n ==> d[a].minutes == SumBy(list, MinutesIfTitled(titleOf, d[a].title)))
  {
    var g := Grouped(list, titleOf);
    var ranked := SortBy(g, ByMinutes());
    GroupedUnique(list, titleOf);
    GroupedMinutes(list, titleOf);
    ByMinutesIsPreorder();
    SortBySorted(g, ByMinutes());
    SortByKeepsUnique(g, ByMinutes(), TitleOf);
    TopSlicesOrdered(ranked);
    TopSlicesMinutes(ranked, g, list, titleOf);
  }

  /** The titled slices are the titles with the most minutes: every title that
      gets no slice of its own has no more minutes than any titled slice. */
  lemma {:induction false} DonutShowsTopTitles(list: seq<Session>, titleOf: Session -> string)
    ensures var n := TopCount(SortBy(Grouped(list, titleOf), ByMinutes()));
            var d := DonutBy(list, titleOf);
            var g := Grouped(list, titleOf);
            forall j, a :: 0 <= j < |g| && 0 <= a < n && (forall b :: 0 <= b < n ==> d[b].title != g[j].title) ==>
              g[j].minutes <= d[a].minutes
  {
    var g := Grouped(list, titleOf);
    var ranked := SortBy(g, ByMinutes());
    var n := TopCount(ranked);
    var d := DonutBy(list, titleOf);
    ByMinutesIsPreorder();
    SortBySorted(g, ByMinutes());
    forall j, a | 0 <= j < |g| && 0 <= a < n && (forall b :: 0 <= b < n ==> d[b].title != g[j].title)
      ensures g[j].minutes <= d[a].minutes
    {
      assert g[j] in multiset(ranked);
      var k :| 0 <= k < |ranked| && ranked[k] == g[j];
      assert forall b :: 0 <= b < n ==> d[b].title == ranked[b].title;
      assert ByMinutes()(ranked[a], ranked[k]);
    }
  }

  /** Ranked groups with distinct titles give titled slices largest first, each under
      a different title. */
  lemma TopSlicesOrdered(ranked: seq<Group>)
    requires Sorted(ranked, ByMinutes()) && UniqueBy(ranked, TitleOf)
    ensures var d := SlicesOf(ranked);
            forall a, b :: 0 <= a < b < TopCount(ranked) ==> d[a].minutes >= d[b].minutes && d[a].title != d[b].title
  {
    var d := SlicesOf(ranked);
    forall a, b | 0 <= a < b < TopCount(ranked) ensures d[a].minutes >= d[b].minutes && d[a].title != d[b].title {
      assert ByMinutes()(ranked[a], ranked[b]);
      assert TitleOf(ranked[a]) != TitleOf(ranked[b]);
    }
  }

  /** When every group holds the minutes of the sessions under its title, so does
      every titled slice drawn from a reordering of those groups. */
  lemma TopSlicesMinutes(ranked: seq<Group>, g: seq<Group>, list: seq<Session>, titleOf: Session -> string)
    requires multiset(ranked) == multiset(g)
    requires forall k :: 0 <= k < |g| ==> g[k].minutes == SumBy(list, MinutesIfTitled(titleOf, g[k].title))
    ensures var d := SlicesOf(ranked);
            forall a :: 0 <= a < TopCount(ranked) ==> d[a].minutes == SumBy(list, MinutesIfTitled(titleOf, d[a].title))
  {
    var d := SlicesOf(ranked);
    forall a | 0 <= a < TopCount(ranked) ensures d[a].minutes == SumBy(list, MinutesIfTitled(titleOf, d[a].title)) {
      assert ranked[a] in multiset(g);
      var k :| 0 <= k < |g| && g[k] == ranked[a];
    }
  }

  /** With no negative session, no title gathers negative minutes. */
  lemma {:induction false} GroupedNonNegative(list: seq<Session>, titleOf: Session -> string)
    requires NonNegative(list)
    ensures forall k :: 0 <= k < |Grouped(list, titleOf)| ==> Grouped(list, titleOf)[k].minutes >= 0
    decreases |list|
  {
    if list != [] {
      var init, s := list[..|list| - 1], list[|list| - 1];
      GroupedNonNegative(init, titleOf);
      GroupedUnique(init, titleOf);
      AddToGroupsMinutes(Grouped(init, titleOf), titleOf(s), s.minutes);
    }
  }

  /** Sorting keeps the per-title minutes non-negative. */
  lemma {:induction false} RankedNonNegative(list: seq<Session>, titleOf: Session -> string)
    requires NonNegative(list)
    ensures forall i :: 0 <= i < |SortBy(Grouped(list, titleOf), ByMinutes())| ==>
              GroupMinutes(SortBy(Grouped(list, titleOf), ByMinutes())[i]) >= 0
  {
    var g := Grouped(list, titleOf);
    var ranked := SortBy(g, ByMinutes());
    GroupedNonNegative(list, titleOf);
    forall i | 0 <= i < |ranked| ensures GroupMinutes(ranked[i]) >= 0 {
      assert ranked[i] in multiset(g);
      assert ranked[i] in g;
      var k :| 0 <= k < |g| && g[k] == ranked[i];
      assert g[k].minutes >= 0;
    }
  }

  /** The first `TopCount` ranked titles and the rest ("Other") split the total. */
  lemma {:induction false} TopAndOther(ranked: seq<Group>)
    ensures var n := TopCount(ranked);
            SumBy(ranked[..n], GroupMinutes) + OtherMinutes(ranked) == SumBy(ranked, GroupMinutes)
  {
    var n := TopCount(ranked);
    assert ranked[..n] + ranked[n..] == ranked;
    SumByAppend(ranked[..n], ranked[n..], GroupMinutes);
  }

  /** For ranked titles without negative minutes, the slices keep every minute. */
  lemma {:induction false} SlicesKeepMinutes(ranked: seq<Group>)
    requires forall i :: 0 <= i < |ranked| ==> GroupMinutes(ranked[i]) >= 0
    ensures SumBy(SlicesOf(ranked), SliceMinutes) == SumBy(ranked, GroupMinutes)
  {
    var n := TopCount(ranked);
    var top, rest := TopSlices(ranked), OtherSlice(ranked);
    assert forall i :: 0 <= i < |ranked[n..]| ==> ranked[n..][i] == ranked[n + i];
    SumByNonNegative(ranked[n..], GroupMinutes);
    TopAndOther(ranked);
    SumByPointwise(top, SliceMinutes, ranked[..n], GroupMinutes);
    SumByAppend(top, rest, SliceMinutes);
    if rest != [] {
      assert rest[..0] == [];
    }
  }

  /** For ranked titles without negative minutes, every share lies between 0 and
      100 percent. */
  lemma {:induction false} SlicesShares(ranked: seq<Group>)
    requires forall i :: 0 <= i < |ranked| ==> GroupMinutes(ranked[i]) >= 0
    ensures forall i :: 0 <= i < |SlicesOf(ranked)| ==> 0 <= SlicesOf(ranked)[i].pct <= 100
  {
    var n := TopCount(ranked);
    var top := ranked[..n];
    assert forall i :: 0 <= i < |top| ==> top[i] == ranked[i];
    assert forall i :: 0 <= i < |ranked[n..]| ==> ranked[n..][i] == ranked[n + i];
    SumByNonNegative(top, GroupMinutes);
    SumByNonNegative(ranked[n..], GroupMinutes);
    var d := SlicesOf(ranked);
    forall i | 0 <= i < |d| ensures 0 <= d[i].pct <= 100 {
      if i < n {
        SumByBoundsTerm(top, i, GroupMinutes);
        assert d[i] == TopSlices(ranked)[i];
      } else {
        assert d[i] == OtherSlice(ranked)[0];
      }
    }
  }

  /** The donut shows all the minutes read: its slices add up to the sessions'
      total, and every share is between 0 and 100 percent. */
  lemma {:induction false} DonutSum(list: seq<Session>, titleOf: Session -> string)
    requires NonNegative(list)
    ensures SumBy(DonutBy(list, titleOf), SliceMinutes) == SumBy(list, MinutesOf)
    ensures forall i :: 0 <= i < |DonutBy(list, titleOf)| ==> 0 <= DonutBy(list, titleOf)[i].pct <= 100
  {
    var g := Grouped(list, titleOf);
    var ranked := SortBy(g, ByMinutes());
    GroupedTotal(list, titleOf);
    RankedNonNegative(list, titleOf);
    SlicesKeepMinutes(ranked);
    SlicesShares(ranked);
    SumByPermutation(ranked, g, GroupMinutes);
  }

  /** One `color start% end%` stop of the donut's conic gradient. */
  datatype Stop = Stop(color: string, start: int, end: int)

  function SlicePct(s: Slice): int { s.pct }

  /** The conic gradient for `slices`: slice `k` runs from the shares before it to
      the shares up to and including it. */
  function Gradient(slices: seq<Slice>): seq<Stop> {
    seq(|slices|, k requires 0 <= k < |slices| => Stop(slices[k].color, SumBy(slices[..k], SlicePct), SumBy(slices[..k + 1], SlicePct)))
  }

  /** The gradient's arcs start at 0, follow one another without gap or overlap, and
      each spans its slice's share in its slice's colour. */
  lemma {:induction false} GradientContiguous(slices: seq<Slice>)
    ensures var g := Gradient(slices);
            && |g| == |slices|
            && (|g| > 0 ==> g[0].start == 0)
            && (forall k :: 0 < k < |g| ==> g[k].start == g[k - 1].end)
            && (forall k :: 0 <= k < |g| ==> g[k].color == slices[k].color && g[k].end - g[k].start == slices[k].pct)
            && (|g| > 0 ==> g[|g| - 1].end == SumBy(slices, SlicePct))
  {
    var g := Gradient(slices);
    if |g| > 0 {
      GradientEnds(slices);
    }
    forall k | 0 <= k < |g| ensures g[k].color == slices[k].color && g[k].end - g[k].start == slices[k].pct {
      GradientArc(slices, k);
    }
    forall k | 0 < k < |g| ensures g[k].start == g[k - 1].end {
      GradientArc(slices, k);
      GradientArc(slices, k - 1);
    }
  }

  /** The first arc starts at 0 and the last ends at the sum of all shares. */
  lemma GradientEnds(slices: seq<Slice>)
    requires |slices| > 0
    ensures Gradient(slices)[0].start == 0
    ensures Gradient(slices)[|slices| - 1].end == SumBy(slices, SlicePct)
  {
    GradientArc(slices, 0);
    GradientArc(slices, |slices| - 1);
    assert slices[..0] == [];
    assert slices[..|slices| - 1 + 1] == slices;
  }

  /** Arc `k` runs from the shares before slice `k` to those up to and including it,
      in slice `k`'s colour. */
  lemma GradientArc(slices: seq<Slice>, k: int)
    requires 0 <= k < |slices|
    ensures Gradient(slices)[k].color == slices[k].color
    ensures Gradient(slices)[k].start == SumBy(slices[..k], SlicePct)
    ensures Gradient(slices)[k].end == SumBy(slices[..k + 1], SlicePct) == Gradient(slices)[k].start + slices[k].pct
  {
    var p := slices[..k + 1];
    assert p[..|p| - 1] == slices[..k] && p[|p| - 1] == slices[k];
  }

  /** The gradient loop of `buildTopBooksDonut`: a cursor that starts at 0 and moves
      on by each slice's share. */
  method GradientStops(slices: seq<Slice>) returns (stops: seq<Stop>)
    ensures stops == Gradient(slices)
  {
    var cursor := 0;
    stops := [];
    var i := 0;
    while i < |slices|
      invariant 0 <= i <= |slices|
      invariant |stops| == i
      invariant cursor == SumBy(slices[..i], SlicePct)
      invariant forall k :: 0 <= k < i ==> stops[k] == Gradient(slices)[k]
    {
      GradientArc(slices, i);
      var start := cursor;
      var end := cursor + slices[i].pct;
      assert Gradient(slices)[i] == Stop(slices[i].color, start, end);
      stops := stops + [Stop(slices[i].color, start, end)];
      cursor := end;
      i := i + 1;
    }
  }

  /** `${color} ${start}% ${end}%`. */
  function StopText(s: Stop): string {
    s.color + " " + IntToString(s.start) + "% " + IntToString(s.end) + "%"
  }

  /** The stops joined with `", "`, as the page's `genreStops`. */
  function StopsText(stops: seq<Stop>): string {
    Join(seq(|stops|, i requires 0 <= i < |stops| => StopText(stops[i])), ", ")
  }

  /** `buildTopBooksDonut` for sessions grouped by `titleOf`: the grouping loop, the
      ranking and the gradient loop. */
  method BuildDonutBy(list: seq<Session>, titleOf: Session -> string) returns (slices: seq<Slice>, stops: string)
    ensures slices == DonutBy(list, titleOf)
    ensures stops == StopsText(Gradient(slices))
  {
    var groups := GroupByTitle(list, titleOf);
    var ranked := SortBy(groups, ByMinutes());
    slices := SlicesOf(ranked);
    var arcs := GradientStops(slices);
    stops := StopsText(arcs);
  }

  /** `buildTopBooksDonut`, with each session counted under its trimmed title or
      "Unknown". */
  method BuildTopBooksDonut(list: seq<Session>) returns (slices: seq<Slice>, stops: string)
    ensures slices == Donut(list)
    ensures stops == StopsText(Gradient(slices))
  {
    slices, stops := BuildDonutBy(list, TitleKey);
  }
}

module StatsPage {
  import opened Wrappers
  import opened Js
  import opened Lists
  import opened TrackerStore
  import opened Stats

  datatype Timeframe = Days7 | Weeks12

  /** The seven-day average without filling empty days: the minutes of the last
      seven days over the number of those days that have minutes (or over 7 when
      none has). */
  ghost function Avg7(list: seq<Session>, today: Day): real {
    var n := |ActiveDays(list, today - 6, today)|;
    WindowMinutes(list, today - 6, today) as real / (if n > 0 then n else 7) as real
  }

  /** `Math.min(100, Math.round((avg7 / goal) * 100))`: the seven-day average as a
      share of the daily goal, capped at 100. */
  function GoalPercent(avg7: real, goal: int): (r: int)
    requires goal >= 1
    ensures r <= 100
    ensures avg7 >= goal as real ==> r == 100
    ensures avg7 >= 0.0 ==> r >= 0
    ensures avg7 < goal as real ==> r as real - 0.5 <= avg7 / goal as real * 100.0 < r as real + 0.5
  {
    assert avg7 >= goal as real ==> avg7 / goal as real >= 1.0;
    Min(100, Round(avg7 / goal as real * 100.0))
  }

  /** `Math.max(1, settings?.dailyGoalMinutes ?? 30)`. */
  function DailyGoalOf(setting: Option<int>): (g: int)
    ensures g >= 1
    ensures setting.None? ==> g == 30
    ensures setting.Some? ==> g == Max(1, setting.value)
  {
    Max(1, setting.GetOr(30))
  }

  /** Everything the statistics page shows for one state of the sessions and the
      goal setting. */
  datatype Figures = Figures(
    totalMinutes: int, totalPages: int, longestStreak: int, avgDailyMinutes: real,
    dailyGoalMinutes: int, cmpAvg7d: int, cmpPercentOfGoal: int,
    last7Bars: seq<Bar>, last12WeeksBars: seq<Bar>, genrePie: seq<Slice>, genreStops: string)

  /** The body of the page's subscription: the totals, the 30-day average (empty
      days counted), the two charts, the 7-day average (empty days not counted)
      against the daily goal, and the donut. The current streak is read from the
      tracker, and `today` is the clock's date. */
  method ComputeFigures(list: seq<Session>, goalSetting: Option<int>, streak: int, today: Day) returns (f: Figures)
    ensures f.dailyGoalMinutes == DailyGoalOf(goalSetting)
    ensures f.totalMinutes == SumBy(list, MinutesOf) && f.totalPages == SumBy(list, PagesOf)
    ensures f.longestStreak == streak
    ensures f.avgDailyMinutes == RoundDiv(WindowMinutes(list, today - 29, today), 30) as real
    ensures |f.last7Bars| == 7 && forall j :: 0 <= j < 7 ==> f.last7Bars[j].value == MinutesOn(list, today - 6 + j)
    ensures |f.last12WeeksBars| == 12 && forall j :: 0 <= j < 12 ==>
              f.last12WeeksBars[j].value == WindowMinutes(list, WeekStart(today, j), WeekStart(today, j) + 6)
    ensures f.cmpAvg7d == Round(Avg7(list, today))
    ensures f.cmpPercentOfGoal == GoalPercent(Avg7(list, today), f.dailyGoalMinutes)
    ensures f.genrePie == Donut(list) && f.genreStops == StopsText(Gradient(f.genrePie))
  {
    var goal := DailyGoalOf(goalSetting);
    var avg30 := AvgDailyMinutesOver(list, 30, true, today);
    var bars7 := Last7DaysBars(list, today);
    var bars12 := Last12WeeksBars(list, today);
    var avg7 := AvgDailyMinutesOver(list, 7, false, today);
    var pie, stops := BuildTopBooksDonut(list);
    f := Figures(SumBy(list, MinutesOf), SumBy(list, PagesOf), streak, avg30, goal,
                 Round(avg7), GoalPercent(avg7, goal), bars7, bars12, pie, stops);
  }

  /** The statistics page: the sessions it was last given, the chart it shows, and
      the figures computed from them. */
  class StatsComponent {
    var sessions: seq<Session>
    var timeframe: Timeframe
    var figures: Figures

    /** The page before any sessions arrive. */
    constructor()
      ensures sessions == [] && timeframe == Days7
      ensures figures == Figures(0, 0, 0, 0.0, 30, 0, 0, [], [], [], "")
    {
      sessions, timeframe := [], Days7;
      figures := Figures(0, 0, 0, 0.0, 30, 0, 0, [], [], [], "");
    }

    /** The subscription to the sessions and the settings: every figure is
        recomputed, the chart choice stays. */
    method Refresh(list: seq<Session>, goalSetting: Option<int>, streak: int, today: Day)
      modifies this
      ensures sessions == list && timeframe == old(timeframe)
      ensures var f := figures;
              && f.dailyGoalMinutes == DailyGoalOf(goalSetting)
              && f.totalMinutes == SumBy(list, MinutesOf) && f.totalPages == SumBy(list, PagesOf)
              && f.longestStreak == streak
              && f.avgDailyMinutes == RoundDiv(WindowMinutes(list, today - 29, today), 30) as real
              && |f.last7Bars| == 7 && (forall j :: 0 <= j < 7 ==> f.last7Bars[j].value == MinutesOn(list, today - 6 + j))
              && |f.last12WeeksBars| == 12
              && (forall j :: 0 <= j < 12 ==>
                    f.last12WeeksBars[j].value == WindowMinutes(list, WeekStart(today, j), WeekStart(today, j) + 6))
              && f.cmpAvg7d == Round(Avg7(list, today))
              && f.cmpPercentOfGoal == GoalPercent(Avg7(list, today), f.dailyGoalMinutes)
              && f.genrePie == Donut(list) && f.genreStops == StopsText(Gradient(f.genrePie))
    {
      var f := ComputeFigures(list, goalSetting, streak, today);
      sessions, figures := list, f;
    }

    /** `switchFrame`: only the chart shown changes. */
    method SwitchFrame(tf: Timeframe)
      modifies this
      ensures timeframe == tf && sessions == old(sessions) && figures == old(figures)
    {
      timeframe := tf;
    }
  }
}
