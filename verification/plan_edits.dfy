/** The plan form's own state changes: the values it starts from, the ids it
    fills in, and the structural edits its buttons perform on the list of
    days and on each day's list of exercises. */
module PlanEdits {
  import opened Results
  import opened GymPlans
  import Decimal

  /** Which blank id a fresh one is being minted for. Fresh ids come from the
      clock and a random source, so the model takes them as a parameter. */
  datatype IdRequest = DayIdFor(day: nat) | ExerciseIdFor(day: nat, exercise: nat)

  const DefaultSets: int := 3
  const DefaultReps: string := "8-12"
  const ExerciseRemovalRefused: string := "Each day must have at least one exercise."
  const DayRemovalRefused: string := "Plan must have at least one day."

  /** The blank exercise the form adds: no name, first variation option, 3 sets of "8-12". */
  function DefaultExercise(id: string): Exercise {
    Exercise(id, "", VariationOptions[0], DefaultSets, DefaultReps)
  }

  /** The name a newly added day gets when the plan already has `count` days. */
  function DayName(count: nat): string {
    "Day " + Decimal.Show(count + 1)
  }

  /** The shape every edit keeps: at least one day, and at least one exercise in each. */
  predicate WellShaped(days: seq<Day>) {
    && |days| >= 1
    && forall d :: 0 <= d < |days| ==> |days[d].exercises| >= 1
  }

  /** Day `d` of `f` replaced by `day`; everything else as it was. */
  function WithDay(f: PlanForm, d: nat, day: Day): (g: PlanForm)
    requires d < |f.days|
    ensures |g.days| == |f.days| && g.days[d] == day
    ensures forall k :: 0 <= k < |f.days| && k != d ==> g.days[k] == f.days[k]
    ensures g.name == f.name && g.description == f.description && g.isActive == f.isActive
  {
    f.(days := f.days[d := day])
  }

  /** `s` without the element at position `i` (unchanged when there is no such position),
      keeping the others in order: the form's index filter. */
  function WithoutIndex<T>(s: seq<T>, i: nat): (r: seq<T>)
    ensures i < |s| ==> |r| == |s| - 1
    ensures i < |s| ==> forall k :: 0 <= k < i ==> r[k] == s[k]
    ensures i < |s| ==> forall k :: i <= k < |r| ==> r[k] == s[k + 1]
    ensures i >= |s| ==> r == s
    decreases |s|
  {
    if |s| == 0 then []
    else
      var rest := WithoutIndex(s[..|s| - 1], i);
      if i == |s| - 1 then rest else rest + [s[|s| - 1]]
  }

  // ---------------------------------------------------------------------------
  // Starting values and id filling

  /** Blank ids replaced by minted ones; every other field of every day and exercise kept. */
  function FillIds(days: seq<Day>, mint: IdRequest -> string): (r: seq<Day>)
    ensures |r| == |days|
    ensures forall d :: 0 <= d < |days| ==>
      && r[d].name == days[d].name
      && r[d].id == (if days[d].id != "" then days[d].id else mint(DayIdFor(d)))
      && |r[d].exercises| == |days[d].exercises|
    ensures forall d, e :: 0 <= d < |days| && 0 <= e < |days[d].exercises| ==>
      var x, y := days[d].exercises[e], r[d].exercises[e];
      && y.id == (if x.id != "" then x.id else mint(ExerciseIdFor(d, e)))
      && y.name == x.name && y.variation == x.variation && y.sets == x.sets && y.reps == x.reps
  {
    seq(|days|, d requires 0 <= d < |days| =>
      var day := days[d];
      Day(
        if day.id != "" then day.id else mint(DayIdFor(d)),
        day.name,
        seq(|day.exercises|, e requires 0 <= e < |day.exercises| =>
          var x := day.exercises[e];
          x.(id := if x.id != "" then x.id else mint(ExerciseIdFor(d, e))))))
  }

  /** Filling ids changes neither the shape of the plan nor any validation verdict. */
  lemma FillIdsKeepsVerdicts(f: PlanForm, mint: IdRequest -> string)
    ensures WellShaped(FillIds(f.days, mint)) <==> WellShaped(f.days)
    ensures forall i :: Violates(f.(days := FillIds(f.days, mint)), i) <==> Violates(f, i)
    ensures ValidForm(f.(days := FillIds(f.days, mint))) <==> ValidForm(f)
  {
  }

  /** The values the form opens with: a copy of the plan being edited, with blank
      ids filled, or else a fresh plan with one day holding one blank exercise. */
  function InitialForm(initial: Option<GymPlan>, mint: IdRequest -> string): (f: PlanForm)
    ensures initial.Some? ==>
      && f.name == initial.value.name && f.description == initial.value.description
      && f.isActive == initial.value.isActive
      && f.days == FillIds(initial.value.days, mint)
    ensures initial.None? ==>
      && f.name == "" && f.description == Some("") && !f.isActive
      && f.days == [Day(mint(DayIdFor(0)), "Day 1", [DefaultExercise(mint(ExerciseIdFor(0, 0)))])]
  {
    match initial
    case Some(p) => PlanForm(p.name, p.description, p.isActive, FillIds(p.days, mint))
    case None =>
      PlanForm("", Some(""), false,
        [Day(mint(DayIdFor(0)), "Day 1", [DefaultExercise(mint(ExerciseIdFor(0, 0)))])])
  }

  /** A fresh form is well shaped but cannot be submitted until the plan and its
      first exercise are named; those are the only two things wrong with it. */
  lemma FreshFormNeedsNames(mint: IdRequest -> string)
    ensures WellShaped(InitialForm(None, mint).days)
    ensures forall i :: Violates(InitialForm(None, mint), i) <==>
      i == PlanNameRequired || i == ExerciseInvalid(0, 0, NameField)
  {
  }

  /** Opening a stored plan for editing keeps its shape and its validity. */
  lemma EditingFormKeepsVerdicts(p: GymPlan, mint: IdRequest -> string)
    ensures WellShaped(InitialForm(Some(p), mint).days) <==> WellShaped(p.days)
    ensures ValidForm(InitialForm(Some(p), mint)) <==> ValidForm(PlanForm(p.name, p.description, p.isActive, p.days))
  {
  }

  // ---------------------------------------------------------------------------
  // Structural edits

  /** "Add Exercise": a blank exercise appended to day `d`. */
  function AddDefaultExercise(f: PlanForm, d: nat, id: string): (g: PlanForm)
    requires d < |f.days|
    ensures |g.days| == |f.days|
    ensures g.days[d].exercises == f.days[d].exercises + [DefaultExercise(id)]
    ensures g.days[d].id == f.days[d].id && g.days[d].name == f.days[d].name
    ensures forall k :: 0 <= k < |f.days| && k != d ==> g.days[k] == f.days[k]
    ensures g.name == f.name && g.description == f.description && g.isActive == f.isActive
  {
    var day := f.days[d];
    WithDay(f, d, day.(exercises := day.exercises + [DefaultExercise(id)]))
  }

  /** Removing exercise `e` of day `d`: refused when the day has one exercise
      or fewer, otherwise that one position is filtered out. */
  function RemoveExercise(f: PlanForm, d: nat, e: nat): (r: Result<PlanForm, string>)
    requires d < |f.days|
    ensures r.Failure? <==> |f.days[d].exercises| <= 1
    ensures r.Failure? ==> r.error == ExerciseRemovalRefused
    ensures r.Success? ==>
      var g, xs := r.value, f.days[d].exercises;
      && |g.days| == |f.days|
      && g.days[d].exercises == WithoutIndex(xs, e)
      && |g.days[d].exercises| >= 1
      && g.days[d].id == f.days[d].id && g.days[d].name == f.days[d].name
      && (forall k :: 0 <= k < |f.days| && k != d ==> g.days[k] == f.days[k])
      && g.name == f.name && g.description == f.description && g.isActive == f.isActive
  {
    var day := f.days[d];
    if |day.exercises| > 1 then
      Success(WithDay(f, d, day.(exercises := WithoutIndex(day.exercises, e))))
    else
      Failure(ExerciseRemovalRefused)
  }

  /** "Add Day": a day named after the new day count, holding one blank exercise. */
  function AddDay(f: PlanForm, dayId: string, exerciseId: string): (g: PlanForm)
    ensures g.days == f.days + [Day(dayId, DayName(|f.days|), [DefaultExercise(exerciseId)])]
    ensures g.name == f.name && g.description == f.description && g.isActive == f.isActive
  {
    f.(days := f.days + [Day(dayId, DayName(|f.days|), [DefaultExercise(exerciseId)])])
  }

  /** Removing day `d`: refused when the plan has one day or fewer. */
  function RemoveDay(f: PlanForm, d: nat): (r: Result<PlanForm, string>)
    ensures r.Failure? <==> |f.days| <= 1
    ensures r.Failure? ==> r.error == DayRemovalRefused
    ensures r.Success? ==>
      && r.value.days == WithoutIndex(f.days, d)
      && |r.value.days| >= 1
      && r.value.name == f.name && r.value.description == f.description && r.value.isActive == f.isActive
  {
    if |f.days| > 1 then Success(f.(days := WithoutIndex(f.days, d))) else Failure(DayRemovalRefused)
  }

  // ---------------------------------------------------------------------------
  // What the edits promise

  /** "Add Day" names the new day after the day count, not after the names in use:
      once any day but the last has been removed from a plan whose last day has the
      default name, the added day repeats that name. */
  lemma AddDayAfterRemoveRepeatsName(f: PlanForm, d: nat, dayId: string, exerciseId: string)
    requires 2 <= |f.days| && d < |f.days| - 1
    requires f.days[|f.days| - 1].name == DayName(|f.days| - 1)
    ensures RemoveDay(f, d).Success?
    ensures var g := AddDay(RemoveDay(f, d).value, dayId, exerciseId);
      && |g.days| == |f.days|
      && g.days[|f.days| - 1].name == DayName(|f.days| - 1)
      && g.days[|f.days| - 2].name == DayName(|f.days| - 1)
  {
  }

  /** A form the schema accepts is well shaped. */
  lemma ValidFormIsWellShaped(f: PlanForm)
    requires ValidForm(f)
    ensures WellShaped(f.days)
  {
  }

  /** Every edit keeps a well-shaped plan well shaped. */
  lemma EditsKeepWellShaped(f: PlanForm, d: nat, e: nat, id: string, id2: string)
    requires WellShaped(f.days)
    ensures d < |f.days| ==> WellShaped(AddDefaultExercise(f, d, id).days)
    ensures d < |f.days| && RemoveExercise(f, d, e).Success? ==> WellShaped(RemoveExercise(f, d, e).value.days)
    ensures WellShaped(AddDay(f, id, id2).days)
    ensures RemoveDay(f, d).Success? ==> WellShaped(RemoveDay(f, d).value.days)
  {
  }

  /** Removing an exercise from a day with more than one deletes exactly that
      exercise: the ones before keep their positions, the ones after move up by one. */
  lemma RemoveExerciseDeletesOne(f: PlanForm, d: nat, e: nat)
    requires d < |f.days| && e < |f.days[d].exercises| && |f.days[d].exercises| > 1
    ensures RemoveExercise(f, d, e).Success?
    ensures var xs, ys := f.days[d].exercises, RemoveExercise(f, d, e).value.days[d].exercises;
      && |ys| == |xs| - 1
      && ys == xs[..e] + xs[e + 1..]
  {
  }

  /** The name of an added day ends in the decimal day number, one past the old count. */
  lemma AddDayNameCountsDays(f: PlanForm, dayId: string, exerciseId: string)
    ensures var name := AddDay(f, dayId, exerciseId).days[|f.days|].name;
      && |name| > 4 && name[..4] == "Day "
      && Decimal.AllDigits(name[4..])
      && Decimal.Value(name[4..]) == |f.days| + 1
  {
    var name := DayName(|f.days|);
    assert name[4..] == Decimal.Show(|f.days| + 1);
    Decimal.ValueOfShow(|f.days| + 1);
  }

  /** A freshly added exercise or day leaves the form unsubmittable until it is named. */
  lemma AddedExerciseNeedsName(f: PlanForm, d: nat, id: string, id2: string)
    ensures d < |f.days| ==>
      Violates(AddDefaultExercise(f, d, id), ExerciseInvalid(d, |f.days[d].exercises|, NameField))
    ensures Violates(AddDay(f, id, id2), ExerciseInvalid(|f.days|, 0, NameField))
    ensures !ValidForm(AddDay(f, id, id2))
  {
  }

  /** Removing the exercise just added restores the form, provided the day already
      had an exercise (a day with none could not lose its only one). */
  lemma RemoveUndoesAddExercise(f: PlanForm, d: nat, id: string)
    requires d < |f.days| && |f.days[d].exercises| >= 1
    ensures RemoveExercise(AddDefaultExercise(f, d, id), d, |f.days[d].exercises|) == Success(f)
  {
    var xs, day := f.days[d].exercises, f.days[d];
    var g := AddDefaultExercise(f, d, id);
    assert g == f.(days := f.days[d := day.(exercises := xs + [DefaultExercise(id)])]);
    assert WithoutIndex(xs + [DefaultExercise(id)], |xs|) == xs;
    assert g.days[d].(exercises := xs) == day;
    assert g.days[d := day] == f.days;
  }

  /** Removing the day just added restores the form, provided the plan already had a day. */
  lemma RemoveUndoesAddDay(f: PlanForm, dayId: string, exerciseId: string)
    requires |f.days| >= 1
    ensures RemoveDay(AddDay(f, dayId, exerciseId), |f.days|) == Success(f)
  {
  }
}
