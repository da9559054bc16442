/** Gym plans: the records a plan is made of, and the validation rules the
    plan form's schema enforces before a plan may be saved. */
module GymPlans {
  import opened Results

  /** The fixed set of exercise variations a plan exercise may take. */
  datatype Variation = Cable | CableUnilateral | Machine | MachineUnilateral | Dumbbell | Barbell

  /** The variation options in the order the form offers them. */
  const VariationOptions: seq<Variation> :=
    [Cable, CableUnilateral, Machine, MachineUnilateral, Dumbbell, Barbell]

  /** The stored text of a variation (also its label). */
  function VariationText(v: Variation): string {
    match v
    case Cable => "Cable"
    case CableUnilateral => "Cable Unilateral"
    case Machine => "Machine"
    case MachineUnilateral => "Machine Unilateral"
    case Dumbbell => "Dumbbell"
    case Barbell => "Barbell"
  }

  /** Every variation is offered exactly once, and the texts tell them apart. */
  lemma VariationOptionsExact(v: Variation, w: Variation)
    ensures v in VariationOptions
    ensures forall i, j :: 0 <= i < j < |VariationOptions| ==> VariationOptions[i] != VariationOptions[j]
    ensures VariationText(v) == VariationText(w) ==> v == w
  {
  }

  /** Points in time are opaque; only their identity matters to the model. */
  type Timestamp = int

  /** One exercise of a training day; `reps` is free text such as "8-12" or "AMRAP". */
  datatype Exercise = Exercise(id: string, name: string, variation: Variation, sets: int, reps: string)

  datatype Day = Day(id: string, name: string, exercises: seq<Exercise>)

  /** The values the plan form edits and submits. */
  datatype PlanForm = PlanForm(name: string, description: Option<string>, isActive: bool, days: seq<Day>)

  /** A plan as kept in the stored plan list. */
  datatype GymPlan = GymPlan(
    id: string,
    name: string,
    description: Option<string>,
    isActive: bool,
    days: seq<Day>,
    createdAt: Timestamp,
    updatedAt: Timestamp)

  // ---------------------------------------------------------------------------
  // Validation rules, stated directly

  predicate ValidExercise(x: Exercise) {
    |x.name| >= 1 && x.sets >= 1 && |x.reps| >= 1
  }

  predicate ValidDay(day: Day) {
    && |day.name| >= 1
    && |day.exercises| >= 1
    && forall e :: 0 <= e < |day.exercises| ==> ValidExercise(day.exercises[e])
  }

  /** A form the schema accepts. */
  predicate ValidForm(f: PlanForm) {
    && |f.name| >= 1
    && |f.days| >= 1
    && forall d :: 0 <= d < |f.days| ==> ValidDay(f.days[d])
  }

  // ---------------------------------------------------------------------------
  // Validation as the schema reports it: a list of issues, each tied to a field

  datatype ExerciseField = NameField | SetsField | RepsField

  datatype Issue =
    | PlanNameRequired
    | DaysRequired
    | DayNameRequired(day: nat)
    | ExercisesRequired(day: nat)
    | ExerciseInvalid(day: nat, exercise: nat, field: ExerciseField)
  {
    predicate DayLevel() {
      DayNameRequired? || ExercisesRequired? || ExerciseInvalid?
    }
  }

  /** The message the form shows for an issue. */
  function Message(i: Issue): string {
    match i
    case PlanNameRequired => "Plan name is required"
    case DaysRequired => "Add at least one day to the plan"
    case DayNameRequired(_) => "Day name is required (e.g., Day 1, Push Day)"
    case ExercisesRequired(_) => "Add at least one exercise to this day"
    case ExerciseInvalid(_, _, NameField) => "Exercise name is required"
    case ExerciseInvalid(_, _, SetsField) => "Sets must be at least 1"
    case ExerciseInvalid(_, _, RepsField) => "Reps are required (e.g., 8-12, AMRAP)"
  }

  /** Issues `i` and `j` report the same rule, wherever in the plan they occur. */
  predicate SameRule(i: Issue, j: Issue) {
    match i
    case PlanNameRequired => j.PlanNameRequired?
    case DaysRequired => j.DaysRequired?
    case DayNameRequired(_) => j.DayNameRequired?
    case ExercisesRequired(_) => j.ExercisesRequired?
    case ExerciseInvalid(_, _, field) => j.ExerciseInvalid? && j.field == field
  }

  /** The form shows the same message for two issues exactly when they break the
      same rule: the seven messages are pairwise distinct. */
  lemma MessagesTellRulesApart(i: Issue, j: Issue)
    ensures Message(i) == Message(j) <==> SameRule(i, j)
  {
  }

  predicate FieldViolated(x: Exercise, field: ExerciseField) {
    match field
    case NameField => |x.name| == 0
    case SetsField => x.sets < 1
    case RepsField => |x.reps| == 0
  }

  /** Issue `i` is a genuine violation of the rules by day `day`, at position `d`. */
  predicate DayViolates(day: Day, d: nat, i: Issue) {
    match i
    case DayNameRequired(d') => d' == d && |day.name| == 0
    case ExercisesRequired(d') => d' == d && |day.exercises| == 0
    case ExerciseInvalid(d', e, field) =>
      d' == d && e < |day.exercises| && FieldViolated(day.exercises[e], field)
    case _ => false
  }

  /** Issue `i` is a genuine violation of the rules by form `f`. */
  predicate Violates(f: PlanForm, i: Issue) {
    match i
    case PlanNameRequired => |f.name| == 0
    case DaysRequired => |f.days| == 0
    case _ => i.day < |f.days| && DayViolates(f.days[i.day], i.day, i)
  }

  function ExerciseIssues(d: nat, e: nat, x: Exercise): (r: seq<Issue>)
    ensures forall i :: i in r <==>
      i.ExerciseInvalid? && i.day == d && i.exercise == e && FieldViolated(x, i.field)
  {
    (if |x.name| == 0 then [ExerciseInvalid(d, e, NameField)] else [])
    + (if x.sets < 1 then [ExerciseInvalid(d, e, SetsField)] else [])
    + (if |x.reps| == 0 then [ExerciseInvalid(d, e, RepsField)] else [])
  }

  /** The issues of the exercises `xs` of day `d`, exercise by exercise. */
  function ExerciseListIssues(d: nat, xs: seq<Exercise>): (r: seq<Issue>)
    ensures forall i :: i in r <==>
      i.ExerciseInvalid? && i.day == d && i.exercise < |xs| && FieldViolated(xs[i.exercise], i.field)
    decreases |xs|
  {
    if |xs| == 0 then []
    else
      var init := xs[..|xs| - 1];
      var rest := ExerciseListIssues(d, init);
      assert forall i :: i in rest ==> xs[i.exercise] == init[i.exercise];
      rest + ExerciseIssues(d, |xs| - 1, xs[|xs| - 1])
  }

  function DayIssues(d: nat, day: Day): (r: seq<Issue>)
    ensures forall i :: i in r <==> DayViolates(day, d, i)
  {
    (if |day.name| == 0 then [DayNameRequired(d)] else [])
    + (if |day.exercises| == 0 then [ExercisesRequired(d)] else [])
    + ExerciseListIssues(d, day.exercises)
  }

  function DayListIssues(days: seq<Day>): (r: seq<Issue>)
    ensures forall i :: i in r <==> i.DayLevel() && i.day < |days| && DayViolates(days[i.day], i.day, i)
    decreases |days|
  {
    if |days| == 0 then []
    else
      var init := days[..|days| - 1];
      var rest := DayListIssues(init);
      assert forall i :: i in rest ==> days[i.day] == init[i.day];
      rest + DayIssues(|days| - 1, days[|days| - 1])
  }

  /** Every issue the schema reports for the form: exactly the genuine violations. */
  function Issues(f: PlanForm): (r: seq<Issue>)
    ensures forall i :: i in r <==> Violates(f, i)
  {
    (if |f.name| == 0 then [PlanNameRequired] else [])
    + (if |f.days| == 0 then [DaysRequired] else [])
    + DayListIssues(f.days)
  }

  /** The schema reports no issue exactly when the form satisfies every rule. */
  lemma {:induction false} NoIssuesIffValid(f: PlanForm)
    ensures Issues(f) == [] <==> ValidForm(f)
  {
    var r := Issues(f);
    if ValidForm(f) {
      forall i
        ensures !Violates(f, i)
      {
        ValidHasNoViolation(f, i);
      }
      HeadIsMember(r);
    } else if |f.name| == 0 {
      assert PlanNameRequired in r;
    } else if |f.days| == 0 {
      assert DaysRequired in r;
    } else {
      var d :| 0 <= d < |f.days| && !ValidDay(f.days[d]);
      var day := f.days[d];
      if |day.name| == 0 {
        assert DayNameRequired(d) in r;
      } else if |day.exercises| == 0 {
        assert ExercisesRequired(d) in r;
      } else {
        var e :| 0 <= e < |day.exercises| && !ValidExercise(day.exercises[e]);
        var x := day.exercises[e];
        if |x.name| == 0 {
          assert ExerciseInvalid(d, e, NameField) in r;
        } else if x.sets < 1 {
          assert ExerciseInvalid(d, e, SetsField) in r;
        } else {
          assert ExerciseInvalid(d, e, RepsField) in r;
        }
      }
    }
  }

  lemma ValidHasNoViolation(f: PlanForm, i: Issue)
    requires ValidForm(f)
    ensures !Violates(f, i)
  {
  }

  /** A non-empty sequence has its first element as a member. */
  lemma HeadIsMember<T>(s: seq<T>)
    ensures s == [] || s[0] in s
  {
  }
}
