/** The goals page: the add form, the per-goal progress shown against the tracker's
    sessions, and the ring helpers. */
module GoalsPage {
  import opened Wrappers
  import opened Js
  import opened Lists
  import opened TrackerStore
  import opened GoalsStore

  /** `toPercent`: no target (0 or less) shows 0; otherwise the value as a share of
      the target, rounded and kept within 0..100. */
  function ToPercent(value: int, target: int): (r: int)
    ensures 0 <= r <= 100
    ensures target <= 0 || value <= 0 ==> r == 0
    ensures target > 0 && value >= target ==> r == 100
    ensures target > 0 && 0 <= value <= target ==> r == Percent(value, target)
  {
    if target <= 0 then 0
    else
      RoundedShare(value, target);
      Max(0, Min(100, RoundDiv(100 * value, target)))
  }

  lemma {:induction false} RoundedShare(value: int, target: int)
    requires target > 0
    ensures value <= 0 ==> RoundDiv(100 * value, target) <= 0
    ensures value >= target ==> RoundDiv(100 * value, target) >= 100
  {
    RoundDivExact(0, target);
    RoundDivExact(100, target);
    if value <= 0 {
      RoundDivMonotone(100 * value, 0, target);
    }
    if value >= target {
      assert 100 * target <= 100 * value;
      RoundDivMonotone(100 * target, 100 * value, target);
    }
  }

  /** More progress never shows a smaller percentage. */
  lemma ToPercentMonotone(v1: int, v2: int, target: int)
    requires v1 <= v2
    ensures ToPercent(v1, target) <= ToPercent(v2, target)
  {
    if target > 0 {
      RoundDivMonotone(100 * v1, 100 * v2, target);
    }
  }

  /** `clamp(val, min, max)`. */
  function Clamp(val: int, lo: int, hi: int): (r: int)
    ensures lo <= hi ==> lo <= r <= hi
    ensures lo <= val <= hi ==> r == val
    ensures val < lo <= hi ==> r == lo
    ensures lo <= hi < val ==> r == hi
  {
    Min(hi, Max(lo, val))
  }

  /** `dashOffset(percent, r)` for a ring whose circumference is `c`: the share of the
      ring left undrawn, with the percentage rounded and clamped to 0..100. The
      circumference `2 * Math.PI * r` is taken as given. */
  function DashOffset(percent: Num, c: real): (r: real)
    ensures OrZero(percent) >= 99.5 ==> r == 0.0
    ensures OrZero(percent) < 0.5 ==> r == c
    ensures c >= 0.0 ==> 0.0 <= r <= c
  {
    var p := Max(0, Min(100, Round(OrZero(percent))));
    var undrawn := 1.0 - p as real / 100.0;
    assert 0.0 <= undrawn <= 1.0;
    assert c >= 0.0 ==> c * undrawn <= c * 1.0;
    c * undrawn
  }

  /** One active goal as the page shows it: the goal, its progress as a percentage of
      the target, the current value and the line under it. */
  datatype DisplayGoal = DisplayGoal(goal: Goal, percent: int, primaryValue: int, subtitle: string)

  /** The clock as the page reads it: today, the first and last day of the current
      month, and the month's name. */
  datatype Calendar = Calendar(today: Day, monthFirst: Day, monthLast: Day, monthName: string)

  /** `computeDisplayGoal`: a daily-minutes goal counts today's minutes, a
      monthly-pages goal the pages of the current month (a session without a count
      adds 0). */
  function DisplayOf(goal: Goal, sessions: seq<Session>, cal: Calendar): (d: DisplayGoal)
    ensures d.goal == goal
    ensures d.percent == ToPercent(d.primaryValue, goal.target)
    ensures goal.kind == MinutesDaily ==> d.subtitle == "Today"
    ensures goal.kind == PagesMonthly ==> d.subtitle == cal.monthName
  {
    var value := if goal.kind == MinutesDaily then MinutesOn(sessions, cal.today)
                 else SumBy(sessions, PagesIfIn(cal.monthFirst, cal.monthLast));
    DisplayGoal(goal, ToPercent(value, goal.target), value, if goal.kind == MinutesDaily then "Today" else cal.monthName)
  }

  /** The page and the tracker agree: a daily goal shows the minutes `minutesForDate$`
      reports for today, a monthly goal the pages `pagesForMonth$` reports for the
      month. */
  lemma {:induction false} DisplayAgreesWithTracker(goal: Goal, sessions: seq<Session>, cal: Calendar)
    ensures goal.kind == MinutesDaily ==> DisplayOf(goal, sessions, cal).primaryValue == MinutesOn(sessions, cal.today)
    ensures goal.kind == PagesMonthly ==>
              DisplayOf(goal, sessions, cal).primaryValue == PagesForMonth(sessions, cal.monthFirst, cal.monthLast)
  {
    PagesForMonthSumsRange(sessions, cal.monthFirst, cal.monthLast);
  }

  /** A daily goal shows full progress once today's minutes reach the target. */
  lemma {:induction false} DailyGoalReached(goal: Goal, sessions: seq<Session>, cal: Calendar)
    requires goal.kind == MinutesDaily && goal.target >= 1
    requires MinutesOn(sessions, cal.today) >= goal.target
    ensures DisplayOf(goal, sessions, cal).percent == 100
  {
  }

  /** The add form's title: trimmed, or "Untitled goal" when nothing is left. */
  function FormTitle(newTitle: string): (t: string)
    ensures t == TitleOrUntitled(Some(newTitle))
  {
    TrimIdempotent(newTitle);
    UntitledIsTrimmed();
    var t := Trim(newTitle);
    if t != "" then t else UntitledGoal
  }

  /** What `addGoal` hands to `add`: the form title, the form type and the target
      floored to a whole number of at least 1. */
  function FormInput(newTitle: string, kind: GoalType, newTarget: Num): (input: GoalInput)
    ensures input.title == Some(FormTitle(newTitle)) && input.archived.None?
    ensures input.target.Finite? && input.target.value == FloorAtLeast(1, newTarget) as real
  {
    GoalInput(Some(FormTitle(newTitle)), KindText(kind), Finite(FloorAtLeast(1, newTarget) as real), None)
  }

  /** The page's clean-up and the store's agree: the goal `add` creates from the
      form carries the trimmed title (or "Untitled goal"), the form's type, and the
      target the form clamped. */
  lemma {:induction false} FormInputStored(newTitle: string, kind: GoalType, newTarget: Num, id: string, now: string)
    ensures var g := NewGoal(FormInput(newTitle, kind, newTarget), id, now);
            && g.title == TitleOrUntitled(Some(newTitle))
            && g.kind == kind
            && g.target == FloorAtLeast(1, newTarget)
            && !g.archived
  {
    var t := FormTitle(newTitle);
    assert Trim(t) == t && t != "";
    KindRoundTrip(kind);
    ClampWhole(FloorAtLeast(1, newTarget));
  }

  /** The goals page: the add form, the active goals with their progress, and the
      archived ones. */
  class GoalsComponent {
    var showAdd: bool
    var newTitle: string
    var newType: GoalType
    var newTarget: Num
    var goals: seq<DisplayGoal>
    var completed: seq<Goal>
    const store: GoalsService

    constructor(store: GoalsService)
      ensures this.store == store
      ensures !showAdd && newTitle == "" && newType == MinutesDaily && newTarget == Finite(30.0)
      ensures goals == [] && completed == []
    {
      this.store := store;
      showAdd, newTitle, newType, newTarget := false, "", MinutesDaily, Finite(30.0);
      goals, completed := [], [];
    }

    /** The subscription to the active goals and the sessions: every active goal with
        its progress, in the store's order. */
    method ActiveChanged(active: seq<Goal>, sessions: seq<Session>, cal: Calendar)
      modifies this
      ensures |goals| == |active|
      ensures forall i :: 0 <= i < |active| ==> goals[i] == DisplayOf(active[i], sessions, cal)
      ensures completed == old(completed) && showAdd == old(showAdd) && newTitle == old(newTitle)
      ensures newType == old(newType) && newTarget == old(newTarget)
    {
      goals := seq(|active|, i requires 0 <= i < |active| => DisplayOf(active[i], sessions, cal));
    }

    /** The subscription to the archived goals. */
    method CompletedChanged(done: seq<Goal>)
      modifies this
      ensures completed == done && goals == old(goals) && showAdd == old(showAdd)
      ensures newTitle == old(newTitle) && newType == old(newType) && newTarget == old(newTarget)
    {
      completed := done;
    }

    /** `addGoal`: the form goes to the store, then the form is reset and closed.
        `id` and `now` are what the store would take from the id generator and the
        clock. */
    method AddGoal(id: string, now: string)
      modifies this, store
      ensures store.goals == Added(old(store.goals), FormInput(old(newTitle), old(newType), old(newTarget)), id, now)
      ensures store.persisted == Present(Raws(store.goals))
      ensures store.effects == old(store.effects) + [Stored(store.goals), Published(store.goals)]
      ensures newTitle == "" && newType == MinutesDaily && newTarget == Finite(30.0) && !showAdd
      ensures goals == old(goals) && completed == old(completed)
    {
      var title, kind, target := TakeForm();
      store.Add(FormInput(title, kind, target), id, now);
    }

    /** The form's contents, and the form reset and closed. */
    method TakeForm() returns (title: string, kind: GoalType, target: Num)
      modifies this
      ensures title == old(newTitle) && kind == old(newType) && target == old(newTarget)
      ensures newTitle == "" && newType == MinutesDaily && newTarget == Finite(30.0) && !showAdd
      ensures goals == old(goals) && completed == old(completed)
    {
      title, kind, target := newTitle, newType, newTarget;
      newTitle, newType, newTarget, showAdd := "", MinutesDaily, Finite(30.0), false;
    }

    /** `editTitle`. */
    method EditTitle(g: Goal, title: string)
      modifies store
      ensures store.goals == Updated(old(store.goals), g.id, TitlePatch(Some(title)))
      ensures store.effects == old(store.effects) + [Stored(store.goals), Published(store.goals)]
    {
      store.UpdateTitle(g.id, Some(title));
    }

    /** `archive`. */
    method Archive(g: Goal)
      modifies store
      ensures store.goals == Updated(old(store.goals), g.id, ArchivedPatch(true))
      ensures store.effects == old(store.effects) + [Stored(store.goals), Published(store.goals)]
    {
      store.Archive(g.id);
    }

    /** `unarchive`. */
    method Unarchive(g: Goal)
      modifies store
      ensures store.goals == Updated(old(store.goals), g.id, ArchivedPatch(false))
      ensures store.effects == old(store.effects) + [Stored(store.goals), Published(store.goals)]
    {
      store.Unarchive(g.id);
    }

    /** `remove`. */
    method Remove(g: Goal)
      requires store.Valid()
      modifies store
      ensures store.goals == GoalsStore.Removed(old(store.goals), g.id)
      ensures store.effects == old(store.effects) + [Stored(store.goals), Published(store.goals)]
    {
      store.Remove(g.id);
    }
  }
}
