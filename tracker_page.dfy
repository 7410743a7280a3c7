/** The tracker page: the quick-add form, the book picker, the key figures and the
    six-week heat map of minutes read. */
module TrackerPage {
  import opened Wrappers
  import opened Js
  import opened Lists
  import opened BookModel
  import opened TrackerStore

  /** The `scale` closure of `buildHeatmap`: 0 for a day without minutes, 1 for any
      other day while the busiest day has 10 minutes or fewer, and otherwise the
      quarter of the busiest day the minutes reach (1 below a quarter, 4 from three
      quarters up). */
  function Intensity(v: int, peak: int): (r: int)
    ensures r == 0 <==> v == 0
    ensures v != 0 ==> 1 <= r <= 4
    ensures v != 0 && peak <= 10 ==> r == 1
    ensures peak > 10 && v == peak ==> r == 4
  {
    if v == 0 then 0
    else if peak <= 10 then 1
    else if 4 * v < peak then 1
    else if 2 * v < peak then 2
    else if 4 * v < 3 * peak then 3
    else 4
  }

  /** For a fixed busiest day, more minutes never give a paler cell. */
  lemma IntensityMonotone(v1: int, v2: int, peak: int)
    requires 0 <= v1 <= v2
    ensures Intensity(v1, peak) <= Intensity(v2, peak)
  {
  }

  /** The quarter thresholds are those of the ratio `v / peak` against 0.25, 0.5 and
      0.75, as `scale` writes them. */
  lemma IntensityByRatio(v: int, peak: int)
    requires v != 0 && peak > 10
    ensures v as real / peak as real < 0.25 ==> Intensity(v, peak) == 1
    ensures 0.25 <= v as real / peak as real < 0.5 ==> Intensity(v, peak) == 2
    ensures 0.5 <= v as real / peak as real < 0.75 ==> Intensity(v, peak) == 3
    ensures 0.75 <= v as real / peak as real ==> Intensity(v, peak) == 4
  {
    RatioLess(v, peak, 0.25);
    RatioLess(v, peak, 0.5);
    RatioLess(v, peak, 0.75);
  }

  /** `v / peak < c` exactly when `v < c * peak`, for a positive `peak`. */
  lemma RatioLess(v: int, peak: int, c: real)
    requires peak > 0
    ensures v as real / peak as real < c <==> v as real < c * peak as real
  {
    var q := v as real / peak as real;
    var p := peak as real;
    assert q * p == v as real;
    if q < c {
      assert (c - q) * p > 0.0;
    } else {
      assert (q - c) * p >= 0.0;
    }
  }

  /** The `max` the first loop of `buildHeatmap` finds, starting from 0. */
  function Peak(m: seq<DayMinutes>): (r: int)
    ensures r >= 0
    ensures forall i :: 0 <= i < |m| ==> m[i].minutes <= r
    ensures r == 0 || exists i :: 0 <= i < |m| && m[i].minutes == r
  {
    if m == [] then 0 else Max(Peak(m[..|m| - 1]), m[|m| - 1].minutes)
  }

  /** One cell of the heat map. */
  datatype HeatCell = HeatCell(date: Day, minutes: int, intensity: int)

  /** `buildHeatmap` over a daily map: the busiest day first, then one cell per day,
      in the map's order. */
  method BuildHeatmap(m: seq<DayMinutes>) returns (cells: seq<HeatCell>)
    ensures |cells| == |m|
    ensures forall i :: 0 <= i < |m| ==>
              cells[i] == HeatCell(m[i].day, m[i].minutes, Intensity(m[i].minutes, Peak(m)))
  {
    var peak := 0;
    var i := 0;
    while i < |m|
      invariant 0 <= i <= |m|
      invariant peak == Peak(m[..i])
    {
      assert m[..i + 1][..i] == m[..i];
      peak := Max(peak, m[i].minutes);
      i := i + 1;
    }
    assert m[..i] == m;
    cells := [];
    i := 0;
    while i < |m|
      invariant 0 <= i <= |m|
      invariant |cells| == i
      invariant forall k :: 0 <= k < i ==> cells[k] == HeatCell(m[k].day, m[k].minutes, Intensity(m[k].minutes, peak))
    {
      cells := cells + [HeatCell(m[i].day, m[i].minutes, Intensity(m[i].minutes, peak))];
      i := i + 1;
    }
  }

  /** On a daily map without negative minutes, the busiest day is drawn at full
      intensity once it has more than 10 minutes. */
  lemma {:induction false} BusiestDayFull(m: seq<DayMinutes>, i: int)
    requires 0 <= i < |m| && m[i].minutes == Peak(m) && Peak(m) > 10
    ensures Intensity(m[i].minutes, Peak(m)) == 4
  {
  }

  /** `this.newNotes?.trim() || undefined` and the rest of the quick-add form as
      `addSession` receives them: the kept date, the minutes, the pages (`null`
      dropped) and the chosen book's id and title. */
  function FormSession(date: Day, minutes: real, pages: Option<real>, chosen: Option<Book>, notes: string): (input: SessionInput)
    ensures input.date == Some(date) && input.minutes == Finite(minutes) && input.pages == pages
    ensures chosen.Some? ==> input.bookId == Some(chosen.value.id) && input.bookTitle == Some(chosen.value.title)
    ensures chosen.None? ==> input.bookId.None? && input.bookTitle.None?
  {
    SessionInput(Some(date), Finite(minutes), pages,
                 if chosen.Some? then Some(chosen.value.id) else None,
                 if chosen.Some? then Some(chosen.value.title) else None,
                 TrimmedOrNone(Some(notes)))
  }

  /** The page trims the notes and the store trims them again; the stored notes are
      those of the form trimmed once, absent when blank. */
  lemma {:induction false} FormNotesStored(date: Day, minutes: real, pages: Option<real>, chosen: Option<Book>,
                                           notes: string, id: string, today: Day)
    ensures NewSession(FormSession(date, minutes, pages, chosen, notes), id, today).notes == TrimmedOrNone(Some(notes))
    ensures NewSession(FormSession(date, minutes, pages, chosen, notes), id, today).date == date
  {
  }

  /** `selectedBookId && !myBooks.find(b => b.id === selectedBookId)`: a selection
      whose book has left the library. */
  predicate StaleSelection(selected: string, books: seq<Book>) {
    selected != "" && !HasId(books, selected)
  }

  /** The tracker page. */
  class TrackerComponent {
    var sessions: seq<Session>
    var totalMinutes: int
    var totalPages: int
    var totalSessions: int
    var dailyGoalMinutes: int
    var goalToday: Progress
    var currentStreak: int
    var heatmap: seq<HeatCell>
    var newDate: Day
    var newMinutes: Option<real>
    var newPages: Option<real>
    var selectedBookId: string
    var newNotes: string
    var myBooks: seq<Book>
    var bookMenuOpen: bool
    const tracker: TrackerService

    /** The page as first shown; `today` is the clock's date. */
    constructor(tracker: TrackerService, today: Day)
      ensures this.tracker == tracker
      ensures sessions == [] && totalMinutes == 0 && totalPages == 0 && totalSessions == 0
      ensures dailyGoalMinutes == 30 && goalToday == Progress(30, 0, 0) && currentStreak == 0 && heatmap == []
      ensures newDate == today && newMinutes.None? && newPages.None? && selectedBookId == "" && newNotes == ""
      ensures myBooks == [] && !bookMenuOpen
    {
      this.tracker := tracker;
      sessions, totalMinutes, totalPages, totalSessions := [], 0, 0, 0;
      dailyGoalMinutes, goalToday, currentStreak, heatmap := 30, Progress(30, 0, 0), 0, [];
      newDate, newMinutes, newPages, selectedBookId, newNotes := today, None, None, "", "";
      myBooks, bookMenuOpen := [], false;
    }

    /** The subscription to the library's books: a selection whose book is gone is
        cleared, any other selection stays. */
    method BooksChanged(list: seq<Book>)
      modifies this
      ensures myBooks == list
      ensures selectedBookId == (if StaleSelection(old(selectedBookId), list) then "" else old(selectedBookId))
      ensures selectedBookId == "" || HasId(list, selectedBookId)
      ensures sessions == old(sessions) && heatmap == old(heatmap) && newNotes == old(newNotes)
      ensures newMinutes == old(newMinutes) && newDate == old(newDate)
    {
      myBooks := list;
      if selectedBookId != "" && Find(myBooks, selectedBookId).None? {
        selectedBookId := "";
      }
    }

    /** `refreshDerived`: today's goal progress, the current streak and the heat map
        of the last 42 days, all read from the tracker. */
    method RefreshDerived(today: Day)
      modifies this
      ensures goalToday == ProgressFor(tracker.goal, MinutesOn(tracker.sessions, today))
      ensures 0 <= currentStreak <= StreakWindow
      ensures forall d :: today - currentStreak < d <= today ==> MinutesOn(tracker.sessions, d) > 0
      ensures currentStreak < StreakWindow ==> MinutesOn(tracker.sessions, today - currentStreak) <= 0
      ensures |heatmap| == 42
      ensures forall i :: 0 <= i < 42 ==>
                heatmap[i].date == today - 41 + i && heatmap[i].minutes == MinutesOn(tracker.sessions, today - 41 + i)
      ensures forall i :: 0 <= i < 42 ==> (heatmap[i].intensity == 0 <==> heatmap[i].minutes == 0)
      ensures sessions == old(sessions) && totalMinutes == old(totalMinutes) && totalPages == old(totalPages)
      ensures totalSessions == old(totalSessions) && dailyGoalMinutes == old(dailyGoalMinutes)
      ensures myBooks == old(myBooks) && selectedBookId == old(selectedBookId) && newMinutes == old(newMinutes)
    {
      var progress := tracker.GoalProgressToday(today);
      var streak := tracker.CurrentStreak(today);
      var m := tracker.DailyMinutes(42, today);
      var cells := BuildHeatmap(m);
      goalToday, currentStreak, heatmap := progress, streak, cells;
    }

    /** The subscription to the sessions: the list, its totals, and the derived
        figures. */
    method SessionsChanged(today: Day)
      modifies this
      ensures sessions == tracker.sessions
      ensures totalMinutes == SumBy(sessions, MinutesOf) && totalPages == SumBy(sessions, PagesOf)
      ensures totalSessions == |sessions|
      ensures goalToday == ProgressFor(tracker.goal, MinutesOn(tracker.sessions, today))
      ensures |heatmap| == 42
      ensures dailyGoalMinutes == old(dailyGoalMinutes) && myBooks == old(myBooks)
    {
      var totals := TotalsOf(tracker.sessions);
      sessions := tracker.sessions;
      totalMinutes, totalPages, totalSessions := totals.minutes, totals.pages, totals.sessions;
      RefreshDerived(today);
    }

    /** The subscription to the settings. */
    method SettingsChanged(today: Day)
      modifies this
      ensures dailyGoalMinutes == tracker.goal
      ensures goalToday == ProgressFor(tracker.goal, MinutesOn(tracker.sessions, today))
      ensures |heatmap| == 42
      ensures sessions == old(sessions) && totalMinutes == old(totalMinutes) && myBooks == old(myBooks)
    {
      dailyGoalMinutes := tracker.goal;
      RefreshDerived(today);
    }

    /** `addSession`: nothing happens without a positive number of minutes; otherwise
        the form goes to the tracker with the chosen book, and the form is cleared
        except for the date. `id` is what the tracker takes from the id generator. */
    method AddSession(id: string, today: Day)
      modifies this, tracker
      ensures old(newMinutes.None? || newMinutes.value <= 0.0) ==>
                tracker.sessions == old(tracker.sessions) && newMinutes == old(newMinutes)
                && newNotes == old(newNotes) && selectedBookId == old(selectedBookId)
      ensures old(newMinutes.Some? && newMinutes.value > 0.0) ==>
                && tracker.sessions == WithSession(old(tracker.sessions),
                     NewSession(FormSession(old(newDate), old(newMinutes.value), old(newPages),
                                            Find(old(myBooks), old(selectedBookId)), old(newNotes)), id, today))
                && newMinutes.None? && newPages.None? && selectedBookId == "" && newNotes == ""
      ensures newDate == old(newDate) && myBooks == old(myBooks) && heatmap == old(heatmap)
    {
      if newMinutes.None? || newMinutes.value <= 0.0 {
        return;
      }
      var date, minutes, pages, chosen, notes := TakeForm();
      var _ := tracker.AddSession(FormSession(date, minutes, pages, chosen, notes), id, today);
    }

    /** The quick-add form's contents with the chosen book, and the form cleared
        except for the date. */
    method TakeForm() returns (date: Day, minutes: real, pages: Option<real>, chosen: Option<Book>, notes: string)
      requires newMinutes.Some?
      modifies this
      ensures date == old(newDate) && minutes == old(newMinutes.value) && pages == old(newPages)
      ensures chosen == Find(old(myBooks), old(selectedBookId)) && notes == old(newNotes)
      ensures newMinutes.None? && newPages.None? && selectedBookId == "" && newNotes == ""
      ensures newDate == old(newDate) && myBooks == old(myBooks) && heatmap == old(heatmap)
    {
      date, minutes, pages, chosen, notes := newDate, newMinutes.value, newPages, Find(myBooks, selectedBookId), newNotes;
      newMinutes, newPages, selectedBookId, newNotes := None, None, "", "";
    }

    /** `removeSession`. */
    method RemoveSession(id: string)
      modifies tracker
      ensures tracker.sessions == TrackerStore.Removed(old(tracker.sessions), id)
      ensures tracker.goal == old(tracker.goal)
    {
      tracker.RemoveSession(id);
    }

    /** `setDailyGoal`. */
    method SetDailyGoal(mins: Num)
      modifies tracker
      ensures tracker.goal == ClampGoal(mins) && tracker.sessions == old(tracker.sessions)
    {
      tracker.SetDailyGoalMinutes(mins);
    }

    /** `selectedBook`. */
    function SelectedBook(): (b: Option<Book>)
      reads this
      ensures b.Some? <==> HasId(myBooks, selectedBookId)
      ensures b.Some? ==> b.value.id == selectedBookId && b.value in myBooks
    {
      Find(myBooks, selectedBookId)
    }

    /** `getBookCover(id)`: no id, or no such book, gives no cover. */
    function BookCover(id: Option<string>): (c: Option<string>)
      reads this
      ensures id.None? || id.value == "" || !HasId(myBooks, id.value) ==> c.None?
      ensures id.Some? && id.value != "" && HasId(myBooks, id.value) ==> c == Find(myBooks, id.value).value.coverUrl
    {
      if id.None? || id.value == "" then None
      else
        var b := Find(myBooks, id.value);
        if b.Some? then b.value.coverUrl else None
    }

    /** `toggleBookMenu`. */
    method ToggleBookMenu()
      modifies this
      ensures bookMenuOpen == !old(bookMenuOpen) && selectedBookId == old(selectedBookId)
    {
      bookMenuOpen := !bookMenuOpen;
    }

    /** `closeBookMenu`, and a click outside the picker. */
    method CloseBookMenu()
      modifies this
      ensures !bookMenuOpen && selectedBookId == old(selectedBookId)
    {
      bookMenuOpen := false;
    }

    /** `openBookMenu`. */
    method OpenBookMenu()
      modifies this
      ensures bookMenuOpen && selectedBookId == old(selectedBookId)
    {
      bookMenuOpen := true;
    }

    /** `chooseBook`: the book is selected and the menu closes at once. */
    method ChooseBook(id: string)
      modifies this
      ensures selectedBookId == id && !bookMenuOpen && myBooks == old(myBooks)
    {
      selectedBookId, bookMenuOpen := id, false;
    }
  }
}
