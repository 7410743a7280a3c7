/** Reading goals (`src/app/goals-service.ts`): a list of goals kept in browser storage
    under the key `litloom.goals.v1`, always ordered newest first. Every change is
    written to storage first and published to subscribers second. Fresh ids and the
    current time are parameters. */
module GoalsStore {
  import opened Wrappers
  import opened Js
  import opened Lists

  const StorageKey := "litloom.goals.v1"
  const UntitledGoal := "Untitled goal"

  datatype GoalType = MinutesDaily | PagesMonthly

  /** A goal as the store keeps it; `target` is minutes for a daily goal and pages
      for a monthly one. */
  datatype Goal = Goal(id: string, title: string, kind: GoalType, target: int, createdAt: string,
                       archived: bool)

  /** What `add` is given: a title that may be missing, the type as text, a target
      that may not be a number, and an optional archived flag. */
  datatype GoalInput = GoalInput(title: Option<string>, kind: string, target: Num, archived: Option<bool>)

  /** A goal as read back from storage or handed to `replaceAll`: any key may be
      missing or hold something unusable. */
  datatype RawGoal = RawGoal(id: Option<string>, title: Option<string>, kind: Option<string>,
                             target: Num, createdAt: Option<string>, archived: Option<bool>)

  /** A `Partial<Goal>` patch. */
  datatype GoalPatch = GoalPatch(id: Field<string>, title: Field<string>, kind: Field<GoalType>,
                                 target: Field<Num>, createdAt: Field<string>, archived: Field<bool>)

  const EmptyPatch := GoalPatch(Keep, Keep, Keep, Keep, Keep, Keep)

  /** The text a goal type is stored as. */
  function KindText(k: GoalType): string {
    match k
    case MinutesDaily => "minutesDaily"
    case PagesMonthly => "pagesMonthly"
  }

  /** Only the exact text `pagesMonthly` selects the monthly type; anything else,
      or nothing, is a daily goal. */
  function ParseKind(text: Option<string>): (k: GoalType)
    ensures k == PagesMonthly <==> text == Some("pagesMonthly")
  {
    if text == Some("pagesMonthly") then PagesMonthly else MinutesDaily
  }

  /** Target at least 1 and title already trimmed: what `add`, `_sanitize` and
      `update` all produce. */
  predicate WellFormed(g: Goal) {
    g.target >= 1 && Trim(g.title) == g.title
  }

  lemma UntitledIsTrimmed()
    ensures Trim(UntitledGoal) == UntitledGoal
  {
    TrimOfTrimmed(UntitledGoal);
  }

  /** `(title ?? '').trim() || 'Untitled goal'`: trimmed and never empty. */
  function TitleOrUntitled(title: Option<string>): (r: string)
    ensures Trim(r) == r && r != ""
    ensures Trim(title.GetOr("")) != "" ==> r == Trim(title.GetOr(""))
    ensures Trim(title.GetOr("")) == "" ==> r == UntitledGoal
  {
    var t := Trim(title.GetOr(""));
    TrimIdempotent(title.GetOr(""));
    UntitledIsTrimmed();
    if t != "" then t else UntitledGoal
  }

  /** `_validateForAdd` with the id and creation time `add` puts in front: the title
      is trimmed and never empty, the target is a whole number of at least 1 and the
      archived flag is a boolean. */
  function NewGoal(input: GoalInput, id: string, now: string): (g: Goal)
    ensures WellFormed(g) && g.title != ""
    ensures g.title == TitleOrUntitled(input.title)
    ensures g.kind == ParseKind(Some(input.kind))
    ensures g.target == FloorAtLeast(1, input.target)
    ensures g.archived <==> input.archived == Some(true)
    ensures g.id == id && g.createdAt == now
  {
    Goal(id, TitleOrUntitled(input.title), ParseKind(Some(input.kind)),
         FloorAtLeast(1, input.target), now, input.archived == Some(true))
  }

  /** `_sanitize`: a missing or empty id takes `freshId`, a missing title becomes
      "Untitled goal" (an empty one stays empty), a missing or empty creation time
      takes `now`. The result is always well formed. */
  function Sanitize(raw: RawGoal, freshId: string, now: string): (g: Goal)
    ensures WellFormed(g)
    ensures g.id == (if raw.id.Some? && raw.id.value != "" then raw.id.value else freshId)
    ensures g.title == Trim(raw.title.GetOr(UntitledGoal))
    ensures g.createdAt == (if raw.createdAt.Some? && raw.createdAt.value != "" then raw.createdAt.value else now)
    ensures g.kind == ParseKind(raw.kind) && g.target >= 1
    ensures g.archived <==> raw.archived == Some(true)
  {
    TrimIdempotent(raw.title.GetOr(UntitledGoal));
    Goal(if raw.id.Some? && raw.id.value != "" then raw.id.value else freshId,
         Trim(raw.title.GetOr(UntitledGoal)),
         ParseKind(raw.kind),
         FloorAtLeast(1, raw.target),
         if raw.createdAt.Some? && raw.createdAt.value != "" then raw.createdAt.value else now,
         raw.archived == Some(true))
  }

  /** What `JSON.stringify` writes for a goal. */
  function ToRaw(g: Goal): RawGoal {
    RawGoal(Some(g.id), Some(g.title), Some(KindText(g.kind)), Finite(g.target as real),
            Some(g.createdAt), Some(g.archived))
  }

  lemma KindRoundTrip(k: GoalType)
    ensures ParseKind(Some(KindText(k))) == k
  {
    if k == MinutesDaily {
      assert KindText(k)[0] != "pagesMonthly"[0];
    }
  }

  /** A whole number of at least 1 survives the clamp. */
  lemma ClampWhole(t: int)
    requires t >= 1
    ensures FloorAtLeast(1, Finite(t as real)) == t
  {
    assert (t as real).Floor == t;
  }

  /** A well-formed goal with an id and a creation time reads back unchanged. */
  lemma {:induction false} SanitizeToRaw(g: Goal, freshId: string, now: string)
    requires WellFormed(g) && g.id != "" && g.createdAt != ""
    ensures Sanitize(ToRaw(g), freshId, now) == g
  {
    KindRoundTrip(g.kind);
    ClampWhole(g.target);
    var r := Sanitize(ToRaw(g), freshId, now);
    assert r.title == g.title;
  }

  /** The `_sort` comparator, read as "`a` may stand before `b`": later creation
      time first, and for equal times the larger id first. */
  predicate NewestFirst(a: Goal, b: Goal) {
    if a.createdAt != b.createdAt then LexLe(b.createdAt, a.createdAt) else LexLe(b.id, a.id)
  }

  lemma {:induction false} NewestFirstIsPreorder()
    ensures TotalPreorder(NewestFirst)
  {
    forall a: Goal, b: Goal ensures NewestFirst(a, b) || NewestFirst(b, a) {
      LexLeTotal(a.createdAt, b.createdAt);
      LexLeTotal(a.id, b.id);
    }
    forall a: Goal, b: Goal, c: Goal | NewestFirst(a, b) && NewestFirst(b, c)
      ensures NewestFirst(a, c)
    {
      if a.createdAt != b.createdAt && b.createdAt != c.createdAt {
        LexLeTrans(c.createdAt, b.createdAt, a.createdAt);
        if a.createdAt == c.createdAt {
          LexLeAntisym(a.createdAt, b.createdAt);
        }
      } else if a.createdAt != b.createdAt || b.createdAt != c.createdAt {
      } else {
        LexLeTrans(c.id, b.id, a.id);
      }
    }
  }

  /** `_sort`: the same goals, newest first; a list already in that order comes back
      as it was, since the sort is stable. */
  function Sort(list: seq<Goal>): (r: seq<Goal>)
    ensures multiset(r) == multiset(list) && |r| == |list|
    ensures Sorted(r, NewestFirst)
    ensures Sorted(list, NewestFirst) ==> r == list
  {
    NewestFirstIsPreorder();
    SortBySorted(list, NewestFirst);
    SortByOfSorted(list, NewestFirst);
    SortBy(list, NewestFirst)
  }

  /** `add`: one more goal, the new one included, still newest first. */
  function Added(goals: seq<Goal>, input: GoalInput, id: string, now: string): (r: seq<Goal>)
    ensures |r| == |goals| + 1
    ensures multiset(r) == multiset(goals) + multiset{NewGoal(input, id, now)}
    ensures Sorted(r, NewestFirst)
  {
    assert multiset([NewGoal(input, id, now)] + goals) == multiset{NewGoal(input, id, now)} + multiset(goals);
    Sort([NewGoal(input, id, now)] + goals)
  }

  /** One goal under an `update` patch: the spread, then a title that is not empty is
      trimmed (an empty one stays empty), and the target is clamped again to a whole
      number of at least 1, whether or not the patch carried one. */
  function Patched(g: Goal, patch: GoalPatch): (r: Goal)
    ensures r.target >= 1
    ensures r.target == FloorAtLeast(1, patch.target.Over(Finite(g.target as real)))
    ensures patch.title.Put? ==> r.title == (if patch.title.value != "" then Trim(patch.title.value) else "")
    ensures patch.title.Keep? && WellFormed(g) ==> r.title == g.title
    ensures WellFormed(g) || patch.title.Put? ==> WellFormed(r)
    ensures r.id == patch.id.Over(g.id) && r.kind == patch.kind.Over(g.kind)
    ensures r.createdAt == patch.createdAt.Over(g.createdAt) && r.archived == patch.archived.Over(g.archived)
  {
    var title := patch.title.Over(g.title);
    TrimIdempotent(title);
    Goal(patch.id.Over(g.id), if title != "" then Trim(title) else title, patch.kind.Over(g.kind),
         FloorAtLeast(1, patch.target.Over(Finite(g.target as real))),
         patch.createdAt.Over(g.createdAt), patch.archived.Over(g.archived))
  }

  /** The map step of `update`: only goals with the id take the patch. */
  function PatchWhere(goals: seq<Goal>, id: string, patch: GoalPatch): (r: seq<Goal>)
    ensures |r| == |goals|
    ensures forall i :: 0 <= i < |goals| ==> r[i] == (if goals[i].id == id then Patched(goals[i], patch) else goals[i])
  {
    seq(|goals|, i requires 0 <= i < |goals| => if goals[i].id == id then Patched(goals[i], patch) else goals[i])
  }

  /** `update`: the patched list, re-sorted. */
  function Updated(goals: seq<Goal>, id: string, patch: GoalPatch): (r: seq<Goal>)
    ensures multiset(r) == multiset(PatchWhere(goals, id, patch))
    ensures Sorted(r, NewestFirst)
  {
    Sort(PatchWhere(goals, id, patch))
  }

  /** An id no goal has leaves a sorted list exactly as it was. */
  lemma {:induction false} UpdateUnknownId(goals: seq<Goal>, id: string, patch: GoalPatch)
    requires Sorted(goals, NewestFirst)
    requires forall i :: 0 <= i < |goals| ==> goals[i].id != id
    ensures Updated(goals, id, patch) == goals
  {
    assert PatchWhere(goals, id, patch) == goals;
  }

  function ArchivedPatch(flag: bool): GoalPatch {
    EmptyPatch.(archived := Put(flag))
  }

  /** `archive`/`unarchive` change the archived flag of a well-formed goal and
      nothing else. */
  lemma {:induction false} ArchiveOnlyFlag(g: Goal, flag: bool)
    requires WellFormed(g)
    ensures Patched(g, ArchivedPatch(flag)) == g.(archived := flag)
  {
    assert (g.target as real).Floor == g.target;
  }

  /** The patch `updateTitle` builds: the trimmed title, or "Untitled goal" when that
      is empty or no title was given. */
  function TitlePatch(title: Option<string>): (p: GoalPatch)
    ensures p.title.Put? && p.title.value != ""
    ensures p.title.value == (if Trim(title.GetOr("")) != "" then Trim(title.GetOr("")) else UntitledGoal)
  {
    var t := Trim(title.GetOr(""));
    EmptyPatch.(title := Put(if t != "" then t else UntitledGoal))
  }

  /** After `updateTitle` the goal's title is never empty. */
  lemma {:induction false} UpdateTitleNonEmpty(g: Goal, title: Option<string>)
    ensures Patched(g, TitlePatch(title)).title != ""
    ensures Patched(g, TitlePatch(title)).title == TitlePatch(title).title.value
  {
    TrimIdempotent(title.GetOr(""));
    UntitledIsTrimmed();
  }

  /** The patch `setTarget` builds: `max(1, floor(target || 0))`. */
  function TargetPatch(target: Num): (p: GoalPatch)
    ensures p.target.Put? && p.target.value.Finite?
    ensures p.target.value.value == FloorAtLeast(1, target) as real
  {
    EmptyPatch.(target := Put(Finite(FloorAtLeast(1, target) as real)))
  }

  /** Clamping the clamped target again changes nothing. */
  lemma {:induction false} SetTargetClamps(g: Goal, target: Num)
    ensures Patched(g, TargetPatch(target)).target == FloorAtLeast(1, target)
  {
    var t := FloorAtLeast(1, target);
    assert (t as real).Floor == t;
  }

  function OtherGoal(id: string): Goal -> bool {
    (g: Goal) => g.id != id
  }

  /** `remove`: exactly the goals with the id go; the rest stay, still in order. */
  function Removed(goals: seq<Goal>, id: string): (r: seq<Goal>)
    ensures forall i :: 0 <= i < |r| ==> r[i].id != id && r[i] in goals
    ensures forall i :: 0 <= i < |goals| && goals[i].id != id ==> goals[i] in r
    ensures IsSubsequence(r, goals)
    ensures Sorted(goals, NewestFirst) ==> Sorted(r, NewestFirst)
  {
    FilterKeepsSorted(goals, OtherGoal(id), NewestFirst);
    FilterIsSubsequence(goals, OtherGoal(id));
    FilterMembers(goals, OtherGoal(id));
    Filter(goals, OtherGoal(id))
  }

  /** The map step of `replaceAll`: every goal sanitised, the i-th one taking
      `freshIds(i)` if it needs an id. */
  function Cleaned(raws: seq<RawGoal>, freshIds: int -> string, now: string): (r: seq<Goal>)
    ensures |r| == |raws|
    ensures forall i :: 0 <= i < |raws| ==> r[i] == Sanitize(raws[i], freshIds(i), now) && WellFormed(r[i])
  {
    seq(|raws|, i requires 0 <= i < |raws| => Sanitize(raws[i], freshIds(i), now))
  }

  /** `replaceAll`: the sanitised goals, every one well formed, newest first. */
  function Replaced(raws: seq<RawGoal>, freshIds: int -> string, now: string): (r: seq<Goal>)
    ensures multiset(r) == multiset(Cleaned(raws, freshIds, now))
    ensures forall i :: 0 <= i < |r| ==> WellFormed(r[i])
    ensures Sorted(r, NewestFirst)
  {
    var cleaned := Cleaned(raws, freshIds, now);
    var r := Sort(cleaned);
    PermutationWellFormed(cleaned, r);
    r
  }

  /** A reordering of well-formed goals holds only well-formed goals. */
  lemma {:induction false} PermutationWellFormed(a: seq<Goal>, b: seq<Goal>)
    requires multiset(a) == multiset(b)
    requires forall i :: 0 <= i < |a| ==> WellFormed(a[i])
    ensures forall i :: 0 <= i < |b| ==> WellFormed(b[i])
  {
    forall i | 0 <= i < |b| ensures WellFormed(b[i]) {
      assert b[i] in multiset(b);
      assert b[i] in a;
    }
  }

  /** `_load`: a stored list is sanitised and sorted; nothing stored, or text that
      is not a list, gives the empty list. */
  function Load(stored: Slot<seq<RawGoal>>, freshIds: int -> string, now: string): (r: seq<Goal>)
    ensures Sorted(r, NewestFirst)
    ensures !stored.Present? ==> r == []
  {
    if stored.Present? then Replaced(stored.value, freshIds, now) else []
  }

  /** What `_save` writes. */
  function Raws(goals: seq<Goal>): seq<RawGoal> {
    seq(|goals|, i requires 0 <= i < |goals| => ToRaw(goals[i]))
  }

  /** A saved list of well-formed goals with ids and creation times, in order, loads
      back exactly. */
  lemma {:induction false} SaveLoadRoundTrip(goals: seq<Goal>, freshIds: int -> string, now: string)
    requires Sorted(goals, NewestFirst)
    requires forall i :: 0 <= i < |goals| ==> WellFormed(goals[i]) && goals[i].id != "" && goals[i].createdAt != ""
    ensures Load(Present(Raws(goals)), freshIds, now) == goals
  {
    var raws := Raws(goals);
    var cleaned := Cleaned(raws, freshIds, now);
    forall i | 0 <= i < |goals| ensures cleaned[i] == goals[i] {
      SanitizeToRaw(goals[i], freshIds(i), now);
    }
    assert cleaned == goals;
  }

  predicate IsArchived(g: Goal) { g.archived }
  predicate IsActive(g: Goal) { !g.archived }

  /** `active$`: the goals not archived, in list order. */
  function Active(goals: seq<Goal>): (r: seq<Goal>)
    ensures forall i :: 0 <= i < |r| ==> !r[i].archived && r[i] in goals
    ensures forall i :: 0 <= i < |goals| && !goals[i].archived ==> goals[i] in r
  {
    FilterMembers(goals, IsActive);
    Filter(goals, IsActive)
  }

  /** `completed$`: the archived goals, in list order. */
  function Completed(goals: seq<Goal>): (r: seq<Goal>)
    ensures forall i :: 0 <= i < |r| ==> r[i].archived && r[i] in goals
    ensures forall i :: 0 <= i < |goals| && goals[i].archived ==> goals[i] in r
  {
    FilterMembers(goals, IsArchived);
    Filter(goals, IsArchived)
  }

  /** The two views split the goals: each goal lands in exactly one of them, as many
      times as it occurs. */
  lemma {:induction false} ActiveCompletedPartition(goals: seq<Goal>, g: Goal)
    ensures multiset(Active(goals))[g] + multiset(Completed(goals))[g] == multiset(goals)[g]
    ensures g in Active(goals) ==> g !in Completed(goals)
  {
    FilterMultiset(goals, IsActive, g);
    FilterMultiset(goals, IsArchived, g);
  }

  class GoalsService {
    var goals: seq<Goal>
    var persisted: Slot<seq<RawGoal>>
    var effects: seq<Effect<seq<Goal>>>

    /** The stream always holds the goals newest first. */
    ghost predicate Valid()
      reads this
    {
      Sorted(goals, NewestFirst)
    }

    constructor (stored: Slot<seq<RawGoal>>, freshIds: int -> string, now: string)
      ensures goals == Load(stored, freshIds, now) && persisted == stored && effects == []
      ensures Valid()
    {
      goals := Load(stored, freshIds, now);
      persisted := stored;
      effects := [];
    }

    /** `_save`: write to storage, then publish. */
    method Save(list: seq<Goal>)
      modifies this
      ensures goals == list && persisted == Present(Raws(list))
      ensures effects == old(effects) + [Stored(list), Published(list)]
    {
      persisted := Present(Raws(list));
      effects := effects + [Stored(list)];
      goals := list;
      effects := effects + [Published(list)];
    }

    method Add(input: GoalInput, id: string, now: string)
      modifies this
      ensures goals == Added(old(goals), input, id, now) && persisted == Present(Raws(goals))
      ensures effects == old(effects) + [Stored(goals), Published(goals)]
      ensures Valid()
    {
      Save(Added(goals, input, id, now));
    }

    method Update(id: string, patch: GoalPatch)
      modifies this
      ensures goals == Updated(old(goals), id, patch) && persisted == Present(Raws(goals))
      ensures effects == old(effects) + [Stored(goals), Published(goals)]
      ensures Valid()
    {
      Save(Updated(goals, id, patch));
    }

    method Remove(id: string)
      requires Valid()
      modifies this
      ensures goals == Removed(old(goals), id) && persisted == Present(Raws(goals))
      ensures effects == old(effects) + [Stored(goals), Published(goals)]
      ensures Valid()
    {
      Save(Removed(goals, id));
    }

    method Archive(id: string)
      modifies this
      ensures goals == Updated(old(goals), id, ArchivedPatch(true)) && Valid()
      ensures persisted == Present(Raws(goals)) && effects == old(effects) + [Stored(goals), Published(goals)]
    {
      Update(id, ArchivedPatch(true));
    }

    method Unarchive(id: string)
      modifies this
      ensures goals == Updated(old(goals), id, ArchivedPatch(false)) && Valid()
      ensures persisted == Present(Raws(goals)) && effects == old(effects) + [Stored(goals), Published(goals)]
    {
      Update(id, ArchivedPatch(false));
    }

    method UpdateTitle(id: string, title: Option<string>)
      modifies this
      ensures goals == Updated(old(goals), id, TitlePatch(title)) && Valid()
      ensures persisted == Present(Raws(goals)) && effects == old(effects) + [Stored(goals), Published(goals)]
    {
      Update(id, TitlePatch(title));
    }

    method SetTarget(id: string, target: Num)
      modifies this
      ensures goals == Updated(old(goals), id, TargetPatch(target)) && Valid()
      ensures persisted == Present(Raws(goals)) && effects == old(effects) + [Stored(goals), Published(goals)]
    {
      Update(id, TargetPatch(target));
    }

    method ReplaceAll(raws: seq<RawGoal>, freshIds: int -> string, now: string)
      modifies this
      ensures goals == Replaced(raws, freshIds, now) && Valid()
      ensures persisted == Present(Raws(goals)) && effects == old(effects) + [Stored(goals), Published(goals)]
    {
      Save(Replaced(raws, freshIds, now));
    }

    method ClearAll()
      modifies this
      ensures goals == [] && Valid()
      ensures persisted == Present([]) && effects == old(effects) + [Stored([]), Published([])]
    {
      Save([]);
      assert Raws(goals) == [];
    }
  }
}
