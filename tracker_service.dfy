/** The reading tracker (`src/app/tracker-service.ts`): logged reading sessions under
    the browser-storage key `litloom.tracker.sessions` and the daily minutes goal under
    `litloom.tracker.settings`, with the figures the pages derive from them. A date is
    a day number (consecutive days differ by one); the current day, the clock and fresh
    ids are parameters. Changes are published first and written to storage second. */
module TrackerStore {
  import opened Wrappers
  import opened Js
  import opened Lists

  const SessionsKey := "litloom.tracker.sessions"
  const SettingsKey := "litloom.tracker.settings"

  /** The goal used when none is stored or the stored one is unusable. */
  const DefaultGoal := 30
  /** The smallest goal `setDailyGoalMinutes` stores. */
  const MinGoal := 5
  /** How many days back the streak looks. */
  const StreakWindow := 365

  type Day = int

  datatype Session = Session(id: string, date: Day, minutes: int, pages: Option<int>,
                             bookId: Option<string>, bookTitle: Option<string>, notes: Option<string>)

  /** A session as read back from storage: the id may be empty, the date and the
      minutes missing. */
  datatype RawSession = RawSession(id: string, date: Option<Day>, minutes: Option<int>, pages: Option<int>,
                                   bookId: Option<string>, bookTitle: Option<string>, notes: Option<string>)

  /** What `addSession` is given; minutes and pages arrive as JavaScript numbers. */
  datatype SessionInput = SessionInput(date: Option<Day>, minutes: Num, pages: Option<real>,
                                       bookId: Option<string>, bookTitle: Option<string>, notes: Option<string>)

  /** A `Partial<ReadingSession>` patch. */
  datatype SessionPatch = SessionPatch(id: Field<string>, date: Field<Day>, minutes: Field<int>,
                                       pages: Field<Option<int>>, bookId: Field<Option<string>>,
                                       bookTitle: Field<Option<string>>, notes: Field<Option<string>>)

  /** `text?.trim() || undefined`: trimmed, and absent rather than empty. */
  function TrimmedOrNone(text: Option<string>): (r: Option<string>)
    ensures r.None? <==> text.None? || Trim(text.value) == ""
    ensures r.Some? ==> r.value == Trim(text.value) && r.value != "" && Trim(r.value) == r.value
  {
    if text.Some? && Trim(text.value) != "" then
      TrimIdempotent(text.value);
      Some(Trim(text.value))
    else None
  }

  /** The session `addSession` builds: minutes a whole number of at least 0, pages
      (when given) a whole number of at least 0, title and notes trimmed or absent. */
  function NewSession(input: SessionInput, id: string, today: Day): (s: Session)
    ensures s.id == id && s.date == input.date.GetOr(today)
    ensures s.minutes == FloorAtLeast(0, input.minutes) && s.minutes >= 0
    ensures s.pages.Some? <==> input.pages.Some?
    ensures s.pages.Some? ==> s.pages.value >= 0 && s.pages.value == Max(0, input.pages.value.Floor)
    ensures s.bookId == input.bookId
    ensures s.bookTitle == TrimmedOrNone(input.bookTitle) && s.notes == TrimmedOrNone(input.notes)
  {
    Session(id, input.date.GetOr(today), FloorAtLeast(0, input.minutes),
            if input.pages.Some? then Some(Max(0, input.pages.value.Floor)) else None,
            input.bookId, TrimmedOrNone(input.bookTitle), TrimmedOrNone(input.notes))
  }

  /** The `addSession` comparator, read as "`a` may stand before `b`": later date
      first, and on the same date the larger id first. */
  predicate LatestFirst(a: Session, b: Session) {
    if a.date != b.date then a.date > b.date else LexLe(b.id, a.id)
  }

  lemma {:induction false} LatestFirstIsPreorder()
    ensures TotalPreorder(LatestFirst)
  {
    forall a: Session, b: Session ensures LatestFirst(a, b) || LatestFirst(b, a) {
      LexLeTotal(a.id, b.id);
    }
    forall a: Session, b: Session, c: Session | LatestFirst(a, b) && LatestFirst(b, c)
      ensures LatestFirst(a, c)
    {
      if a.date == b.date == c.date {
        LexLeTrans(c.id, b.id, a.id);
      }
    }
  }

  /** `addSession`: the list with the new session, one longer, latest first. */
  function WithSession(sessions: seq<Session>, s: Session): (r: seq<Session>)
    ensures |r| == |sessions| + 1
    ensures multiset(r) == multiset(sessions) + multiset{s} && s in r
    ensures Sorted(r, LatestFirst)
  {
    LatestFirstIsPreorder();
    SortBySorted(sessions + [s], LatestFirst);
    assert multiset(sessions + [s]) == multiset(sessions) + multiset{s};
    assert s in multiset(SortBy(sessions + [s], LatestFirst));
    SortBy(sessions + [s], LatestFirst)
  }

  function Merge(s: Session, p: SessionPatch): Session {
    Session(p.id.Over(s.id), p.date.Over(s.date), p.minutes.Over(s.minutes), p.pages.Over(s.pages),
            p.bookId.Over(s.bookId), p.bookTitle.Over(s.bookTitle), p.notes.Over(s.notes))
  }

  /** `updateSession`: the sessions with the id take the patch, the others and the
      order stay as they are (the list is not sorted again). */
  function PatchWhere(sessions: seq<Session>, id: string, patch: SessionPatch): (r: seq<Session>)
    ensures |r| == |sessions|
    ensures forall i :: 0 <= i < |sessions| && sessions[i].id != id ==> r[i] == sessions[i]
    ensures forall i :: 0 <= i < |sessions| && sessions[i].id == id ==> r[i] == Merge(sessions[i], patch)
    ensures (forall i :: 0 <= i < |sessions| ==> sessions[i].id != id) ==> r == sessions
  {
    seq(|sessions|, i requires 0 <= i < |sessions| =>
      if sessions[i].id == id then Merge(sessions[i], patch) else sessions[i])
  }

  function OtherSession(id: string): Session -> bool {
    (s: Session) => s.id != id
  }

  /** `removeSession`: every session with the id goes, every other one stays, in order. */
  function Removed(sessions: seq<Session>, id: string): (r: seq<Session>)
    ensures forall i :: 0 <= i < |r| ==> r[i].id != id && r[i] in sessions
    ensures forall i :: 0 <= i < |sessions| && sessions[i].id != id ==> sessions[i] in r
    ensures IsSubsequence(r, sessions)
  {
    FilterIsSubsequence(sessions, OtherSession(id));
    FilterMembers(sessions, OtherSession(id));
    Filter(sessions, OtherSession(id))
  }

  function MinutesOf(s: Session): int { s.minutes }

  /** `Number(s.pages) || 0`: a missing page count adds nothing. */
  function PagesOf(s: Session): int { s.pages.GetOr(0) }

  datatype Totals = Totals(minutes: int, pages: int, sessions: nat)

  /** `getTotals` */
  function TotalsOf(list: seq<Session>): (t: Totals)
    ensures t.sessions == |list|
    ensures (forall i :: 0 <= i < |list| ==> list[i].minutes >= 0) ==> t.minutes >= 0
  {
    SumByNonNegative(list, MinutesOf);
    Totals(SumBy(list, MinutesOf), SumBy(list, PagesOf), |list|)
  }

  /** Adding a session adds exactly its minutes, its pages and one session to the
      totals, whatever place the sort gives it. */
  lemma {:induction false} TotalsAfterAdd(sessions: seq<Session>, s: Session)
    ensures TotalsOf(WithSession(sessions, s)) ==
            Totals(TotalsOf(sessions).minutes + s.minutes, TotalsOf(sessions).pages + PagesOf(s), |sessions| + 1)
  {
    var r := WithSession(sessions, s);
    SumByPermutation(r, sessions + [s], MinutesOf);
    SumByPermutation(r, sessions + [s], PagesOf);
    SumByAppend(sessions, [s], MinutesOf);
    SumByAppend(sessions, [s], PagesOf);
    assert SumBy([s], MinutesOf) == s.minutes by { assert [s][..0] == []; }
    assert SumBy([s], PagesOf) == PagesOf(s) by { assert [s][..0] == []; }
  }

  /** The minutes `s` adds to day `day`. */
  function MinutesIfOn(day: Day): Session -> int {
    (s: Session) => if s.date == day then s.minutes else 0
  }

  /** The minutes logged on one day: `minutesForDate$`, and what the daily map
      and `goalProgressToday` add up. */
  function MinutesOn(sessions: seq<Session>, day: Day): int {
    SumBy(sessions, MinutesIfOn(day))
  }

  /** The pages `s` adds when its date is in `first..last`; a missing count adds 0. */
  function PagesIfIn(first: Day, last: Day): Session -> int {
    (s: Session) => if first <= s.date <= last then s.pages.GetOr(0) else 0
  }

  /** `pagesForMonth$` for the month whose days are `first..last`: sessions without a
      page count are filtered out, the rest summed. */
  function PagesForMonth(sessions: seq<Session>, first: Day, last: Day): int {
    SumBy(Filter(sessions, (s: Session) => s.pages.Some? && first <= s.date <= last), PagesOf)
  }

  /** Filtering out the sessions without pages gives the same sum as counting them
      as 0, which is how the goals page sums the month. */
  lemma {:induction false} PagesForMonthSumsRange(sessions: seq<Session>, first: Day, last: Day)
    ensures PagesForMonth(sessions, first, last) == SumBy(sessions, PagesIfIn(first, last))
    decreases |sessions|
  {
    var keep := (s: Session) => s.pages.Some? && first <= s.date <= last;
    if sessions != [] {
      var init, x := sessions[..|sessions| - 1], sessions[|sessions| - 1];
      assert sessions == init + [x];
      PagesForMonthSumsRange(init, first, last);
      FilterAppend(init, [x], keep);
      SumByAppend(Filter(init, keep), Filter([x], keep), PagesOf);
      assert SumBy(Filter([x], keep), PagesOf) == PagesIfIn(first, last)(x) by {
        if keep(x) {
          assert Filter([x], keep) == [x];
          assert [x][..0] == [];
        }
      }
    }
  }

  /** One entry of the daily map: a day and the minutes logged on it. */
  datatype DayMinutes = DayMinutes(day: Day, minutes: int)

  /** `s?.id && s?.date && s?.minutes >= 0`: the stored sessions `loadSessions` keeps. */
  function KeepLoadable(raw: RawSession): bool {
    raw.id != "" && raw.date.Some? && raw.minutes.Some? && raw.minutes.value >= 0
  }

  function FromRaw(raw: RawSession): Session
    requires KeepLoadable(raw)
  {
    Session(raw.id, raw.date.value, raw.minutes.value, raw.pages, raw.bookId, raw.bookTitle, raw.notes)
  }

  function ToRaw(s: Session): RawSession {
    RawSession(s.id, Some(s.date), Some(s.minutes), s.pages, s.bookId, s.bookTitle, s.notes)
  }

  /** `loadSessions`: only stored sessions with an id, a date and minutes of at least
      0 are kept, in their stored order; nothing stored or unreadable text gives the
      empty list. */
  function LoadSessions(stored: Slot<seq<RawSession>>): (r: seq<Session>)
    ensures forall i :: 0 <= i < |r| ==> r[i].id != "" && r[i].minutes >= 0
    ensures !stored.Present? ==> r == []
    ensures stored.Present? ==> |r| <= |stored.value|
    ensures stored.Present? ==>
              |r| == |Filter(stored.value, KeepLoadable)|
              && forall i :: 0 <= i < |r| ==> ToRaw(r[i]) == Filter(stored.value, KeepLoadable)[i]
    ensures stored.Present? ==>
              forall j :: 0 <= j < |stored.value| && KeepLoadable(stored.value[j]) ==> FromRaw(stored.value[j]) in r
  {
    if stored.Present? then
      var kept := Filter(stored.value, KeepLoadable);
      FilterMembers(stored.value, KeepLoadable);
      var r := seq(|kept|, i requires 0 <= i < |kept| => FromRaw(kept[i]));
      forall j | 0 <= j < |stored.value| && KeepLoadable(stored.value[j]) ensures FromRaw(stored.value[j]) in r {
        var i :| 0 <= i < |kept| && kept[i] == stored.value[j];
        assert r[i] == FromRaw(stored.value[j]);
      }
      r
    else []
  }

  /** A saved list of sessions that all have ids and minutes of at least 0 loads back
      as it was. */
  lemma {:induction false} SessionsRoundTrip(sessions: seq<Session>)
    requires forall i :: 0 <= i < |sessions| ==> sessions[i].id != "" && sessions[i].minutes >= 0
    ensures LoadSessions(Present(seq(|sessions|, i requires 0 <= i < |sessions| => ToRaw(sessions[i])))) == sessions
  {
    var raws := seq(|sessions|, i requires 0 <= i < |sessions| => ToRaw(sessions[i]));
    FilterAll(raws, KeepLoadable);
  }

  /** `loadSettings`: a stored goal above 0 is rounded down (so a stored 0.5 gives 0);
      nothing stored, unreadable text, or a goal that is not above 0 gives 30. */
  function LoadGoal(stored: Slot<Num>): (g: int)
    ensures !stored.Present? || OrZero(stored.value) <= 0.0 ==> g == DefaultGoal
    ensures stored.Present? && OrZero(stored.value) > 0.0 ==> g >= 0 && g as real <= OrZero(stored.value) < g as real + 1.0
  {
    if stored.Present? && stored.value.Finite? && stored.value.value > 0.0 then stored.value.value.Floor
    else DefaultGoal
  }

  /** `setDailyGoalMinutes`: `max(5, floor(mins || 0))`. */
  function ClampGoal(mins: Num): (g: int)
    ensures g >= MinGoal
    ensures OrZero(mins) >= MinGoal as real ==> g as real <= OrZero(mins) < g as real + 1.0
  {
    FloorAtLeast(MinGoal, mins)
  }

  /** A goal written by `setDailyGoalMinutes` reads back unchanged. */
  lemma {:induction false} GoalRoundTrip(mins: Num)
    ensures LoadGoal(Present(Finite(ClampGoal(mins) as real))) == ClampGoal(mins)
  {
    var g := ClampGoal(mins);
    assert (g as real).Floor == g;
  }

  /** `goalProgressToday`. */
  datatype Progress = Progress(goal: int, minutes: int, percent: int)

  /** The percentage of the daily goal: never above 100, 0 without a positive goal,
      never negative for a non-negative count, and 100 once the goal is met. */
  function ProgressFor(goal: int, minutes: int): (p: Progress)
    ensures p.goal == goal && p.minutes == minutes
    ensures p.percent <= 100
    ensures goal <= 0 ==> p.percent == 0
    ensures minutes >= 0 ==> p.percent >= 0
    ensures goal > 0 && minutes >= goal ==> p.percent == 100
  {
    if goal > 0 then
      ProgressBounds(goal, minutes);
      Progress(goal, minutes, Min(100, RoundDiv(100 * minutes, goal)))
    else Progress(goal, minutes, 0)
  }

  lemma {:induction false} ProgressBounds(goal: int, minutes: int)
    requires goal > 0
    ensures minutes >= 0 ==> RoundDiv(100 * minutes, goal) >= 0
    ensures minutes >= goal ==> RoundDiv(100 * minutes, goal) >= 100
  {
    RoundDivExact(0, goal);
    RoundDivExact(100, goal);
    if minutes >= 0 {
      RoundDivMonotone(0, 100 * minutes, goal);
    }
    if minutes >= goal {
      RoundDivMonotone(100 * goal, 100 * minutes, goal);
    }
  }

  class TrackerService {
    var sessions: seq<Session>
    var goal: int
    var storedSessions: Slot<seq<RawSession>>
    var storedGoal: Slot<Num>
    var sessionEffects: seq<Effect<seq<Session>>>
    var goalEffects: seq<Effect<int>>

    constructor (sessionsCell: Slot<seq<RawSession>>, settingsCell: Slot<Num>)
      ensures sessions == LoadSessions(sessionsCell) && goal == LoadGoal(settingsCell)
      ensures storedSessions == sessionsCell && storedGoal == settingsCell
      ensures sessionEffects == [] && goalEffects == []
    {
      sessions := LoadSessions(sessionsCell);
      goal := LoadGoal(settingsCell);
      storedSessions := sessionsCell;
      storedGoal := settingsCell;
      sessionEffects := [];
      goalEffects := [];
    }

    /** Publish the list, then write it. */
    method Commit(list: seq<Session>)
      modifies this
      ensures sessions == list && storedSessions == Present(seq(|list|, i requires 0 <= i < |list| => ToRaw(list[i])))
      ensures sessionEffects == old(sessionEffects) + [Published(list), Stored(list)]
      ensures goal == old(goal) && storedGoal == old(storedGoal) && goalEffects == old(goalEffects)
    {
      sessions := list;
      sessionEffects := sessionEffects + [Published(list)];
      storedSessions := Present(seq(|list|, i requires 0 <= i < |list| => ToRaw(list[i])));
      sessionEffects := sessionEffects + [Stored(list)];
    }

    /** `addSession`, returning the session it stored. */
    method AddSession(input: SessionInput, id: string, today: Day) returns (s: Session)
      modifies this
      ensures s == NewSession(input, id, today)
      ensures sessions == WithSession(old(sessions), s)
      ensures sessionEffects == old(sessionEffects) + [Published(sessions), Stored(sessions)]
      ensures goal == old(goal) && storedGoal == old(storedGoal)
    {
      s := NewSession(input, id, today);
      Commit(WithSession(sessions, s));
    }

    method UpdateSession(id: string, patch: SessionPatch)
      modifies this
      ensures sessions == PatchWhere(old(sessions), id, patch)
      ensures sessionEffects == old(sessionEffects) + [Published(sessions), Stored(sessions)]
      ensures goal == old(goal) && storedGoal == old(storedGoal)
    {
      Commit(PatchWhere(sessions, id, patch));
    }

    method RemoveSession(id: string)
      modifies this
      ensures sessions == Removed(old(sessions), id)
      ensures sessionEffects == old(sessionEffects) + [Published(sessions), Stored(sessions)]
      ensures goal == old(goal) && storedGoal == old(storedGoal)
    {
      Commit(Removed(sessions, id));
    }

    method ClearAll()
      modifies this
      ensures sessions == [] && storedSessions == Present([])
      ensures sessionEffects == old(sessionEffects) + [Published([]), Stored([])]
      ensures goal == old(goal) && storedGoal == old(storedGoal)
    {
      Commit([]);
      assert storedSessions.value == [];
    }

    method SetDailyGoalMinutes(mins: Num)
      modifies this
      ensures goal == ClampGoal(mins) && goal >= MinGoal && storedGoal == Present(Finite(goal as real))
      ensures goalEffects == old(goalEffects) + [Published(goal), Stored(goal)]
      ensures sessions == old(sessions) && storedSessions == old(storedSessions)
    {
      goal := ClampGoal(mins);
      goalEffects := goalEffects + [Published(goal)];
      storedGoal := Present(Finite(goal as real));
      goalEffects := goalEffects + [Stored(goal)];
    }

    /** `getTotals` over the current sessions. */
    function GetTotals(): (t: Totals)
      reads this
      ensures t == TotalsOf(sessions) && t.sessions == |sessions|
    {
      TotalsOf(sessions)
    }

    /** `getDailyMinutesMap(days)`: one entry per day of the `days` days ending with
        `today`, oldest first, each the minutes logged that day; sessions outside the
        window are ignored. */
    method DailyMinutes(days: int, today: Day) returns (m: seq<DayMinutes>)
      ensures |m| == Max(days, 0)
      ensures forall i :: 0 <= i < |m| ==> m[i].day == today - |m| + 1 + i
      ensures forall i :: 0 <= i < |m| ==> m[i].minutes == MinutesOn(sessions, m[i].day)
    {
      var start := today - (days - 1);
      m := [];
      var d := start;
      while d <= today
        invariant start <= d <= Max(today + 1, start)
        invariant |m| == d - start
        invariant forall i :: 0 <= i < |m| ==> m[i] == DayMinutes(start + i, 0)
      {
        m := m + [DayMinutes(d, 0)];
        d := d + 1;
      }
      var j := 0;
      while j < |sessions|
        invariant 0 <= j <= |sessions|
        invariant |m| == Max(days, 0)
        invariant forall i :: 0 <= i < |m| ==> m[i].day == start + i
        invariant forall i :: 0 <= i < |m| ==> m[i].minutes == MinutesOn(sessions[..j], m[i].day)
      {
        var s := sessions[j];
        assert sessions[..j + 1][..j] == sessions[..j];
        if start <= s.date < start + |m| {
          var k := s.date - start;
          m := m[k := DayMinutes(s.date, m[k].minutes + s.minutes)];
        }
        j := j + 1;
      }
      assert sessions[..j] == sessions;
    }

    /** `getCurrentStreak`: the number of days in a row, ending today, with more than
        zero minutes, looking back at most a year. */
    method CurrentStreak(today: Day) returns (streak: int)
      ensures 0 <= streak <= StreakWindow
      ensures forall d :: today - streak < d <= today ==> MinutesOn(sessions, d) > 0
      ensures streak < StreakWindow ==> MinutesOn(sessions, today - streak) <= 0
    {
      var m := DailyMinutes(StreakWindow, today);
      streak := 0;
      while true
        invariant 0 <= streak <= StreakWindow
        invariant forall d :: today - streak < d <= today ==> MinutesOn(sessions, d) > 0
        decreases StreakWindow - streak
      {
        var mins := if streak < StreakWindow then m[StreakWindow - 1 - streak].minutes else 0;
        if mins > 0 {
          streak := streak + 1;
        } else {
          break;
        }
      }
    }

    /** `goalProgressToday` */
    function GoalProgressToday(today: Day): (p: Progress)
      reads this
      ensures p.goal == goal && p.minutes == MinutesOn(sessions, today)
      ensures p.percent <= 100 && (goal <= 0 ==> p.percent == 0)
      ensures goal > 0 && p.minutes >= goal ==> p.percent == 100
    {
      ProgressFor(goal, MinutesOn(sessions, today))
    }
  }
}
