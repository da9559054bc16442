/** Submitting the plan form: validation, then the update of the stored plan
    list. The saved plan takes the edited plan's id and creation time (or fresh
    ones), an active plan switches every stored plan off, and the plan then
    replaces the stored plan with the edited id or is appended. */
module PlanSave {
  import opened Results
  import opened GymPlans
  import opened PlanEdits

  /** The page the form navigates to after a successful save. */
  const PlansPath: string := "/gym-plans"

  /** The stored plan list after a save, and the page shown next. */
  datatype Saved = Saved(plans: seq<GymPlan>, target: string)

  /** At most one plan in the list is marked active. */
  predicate AtMostOneActive(plans: seq<GymPlan>) {
    forall i, j :: 0 <= i < |plans| && 0 <= j < |plans| && plans[i].isActive && plans[j].isActive ==> i == j
  }

  /** No two positions of the list hold plans with the same id. */
  predicate UniqueIds(plans: seq<GymPlan>) {
    forall i, j :: 0 <= i < |plans| && 0 <= j < |plans| && plans[i].id == plans[j].id ==> i == j
  }

  /** At most one position holds a plan with id `id`. */
  predicate IdAtMostOnce(plans: seq<GymPlan>, id: string) {
    forall i, j :: 0 <= i < |plans| && 0 <= j < |plans| && plans[i].id == id && plans[j].id == id ==> i == j
  }

  /** The plan written on submit: the form's values, blank ids filled, stamped with
      the edited plan's id and creation time when there is one (a blank stored id
      counts as none), else with `freshId` and `now`. */
  function PlanToSave(data: PlanForm, initial: Option<GymPlan>, freshId: string, now: Timestamp,
                      mint: IdRequest -> string): (p: GymPlan)
    ensures initial.Some? && initial.value.id != "" ==> p.id == initial.value.id
    ensures initial.None? || initial.value.id == "" ==> p.id == freshId
    ensures initial.Some? ==> p.createdAt == initial.value.createdAt
    ensures initial.None? ==> p.createdAt == now
    ensures p.updatedAt == now
    ensures p.name == data.name && p.description == data.description && p.isActive == data.isActive
    ensures p.days == FillIds(data.days, mint)
  {
    GymPlan(
      if initial.Some? && initial.value.id != "" then initial.value.id else freshId,
      data.name,
      data.description,
      data.isActive,
      FillIds(data.days, mint),
      if initial.Some? then initial.value.createdAt else now,
      now)
  }

  /** Every plan switched off. */
  function DeactivateAll(plans: seq<GymPlan>): (r: seq<GymPlan>)
    ensures |r| == |plans|
    ensures forall i :: 0 <= i < |r| ==> !r[i].isActive && r[i].(isActive := plans[i].isActive) == plans[i]
  {
    seq(|plans|, i requires 0 <= i < |plans| => plans[i].(isActive := false))
  }

  /** Every plan with id `id` replaced by `p`. */
  function ReplaceById(plans: seq<GymPlan>, id: string, p: GymPlan): (r: seq<GymPlan>)
    ensures |r| == |plans|
    ensures forall i :: 0 <= i < |r| ==> r[i] == (if plans[i].id == id then p else plans[i])
  {
    seq(|plans|, i requires 0 <= i < |plans| => if plans[i].id == id then p else plans[i])
  }

  /** The stored plan list after saving `data`; `initial` is the plan being
      edited, absent when a new plan is created. */
  function Save(stored: seq<GymPlan>, data: PlanForm, initial: Option<GymPlan>, freshId: string,
                now: Timestamp, mint: IdRequest -> string): (r: seq<GymPlan>)
    ensures var p := PlanToSave(data, initial, freshId, now, mint);
      && (initial.Some? ==> |r| == |stored|)
      && (initial.None? ==> |r| == |stored| + 1 && r[|stored|] == p)
      && forall i :: 0 <= i < |stored| ==>
           r[i] == (if initial.Some? && stored[i].id == initial.value.id then p
                    else if data.isActive then stored[i].(isActive := false)
                    else stored[i])
  {
    var p := PlanToSave(data, initial, freshId, now, mint);
    var base := if p.isActive then DeactivateAll(stored) else stored;
    if initial.Some? then ReplaceById(base, initial.value.id, p) else base + [p]
  }

  /** Submitting: a form with issues is rejected with every issue and nothing is
      saved; an acceptable form yields the updated plan list and navigates to
      the plan list page. */
  function Submit(stored: seq<GymPlan>, data: PlanForm, initial: Option<GymPlan>, freshId: string,
                  now: Timestamp, mint: IdRequest -> string): (r: Result<Saved, seq<Issue>>)
    ensures r.Failure? <==> !ValidForm(data)
    ensures r.Failure? ==> |r.error| >= 1 && forall i :: i in r.error <==> Violates(data, i)
    ensures r.Success? ==> r.value.plans == Save(stored, data, initial, freshId, now, mint)
    ensures r.Success? ==> r.value.target == PlansPath
  {
    NoIssuesIffValid(data);
    var issues := Issues(data);
    if |issues| == 0 then Success(Saved(Save(stored, data, initial, freshId, now, mint), PlansPath))
    else Failure(issues)
  }

  // ---------------------------------------------------------------------------
  // What saving promises

  /** Saving an active plan leaves no other plan active: every active entry of the
      new list is the saved plan, sitting where the edited plan was or at the end. */
  lemma SaveActiveSwitchesOthersOff(stored: seq<GymPlan>, data: PlanForm, initial: Option<GymPlan>,
                                    freshId: string, now: Timestamp, mint: IdRequest -> string)
    requires data.isActive
    ensures var r, p := Save(stored, data, initial, freshId, now, mint), PlanToSave(data, initial, freshId, now, mint);
      forall i :: 0 <= i < |r| ==>
        (r[i].isActive <==>
           (if i < |stored| then initial.Some? && stored[i].id == initial.value.id else true))
        && (r[i].isActive ==> r[i] == p)
  {
  }

  /** Saving an inactive plan touches no other plan, active flags included. */
  lemma SaveInactiveKeepsOthers(stored: seq<GymPlan>, data: PlanForm, initial: Option<GymPlan>,
                                freshId: string, now: Timestamp, mint: IdRequest -> string)
    requires !data.isActive
    ensures var r := Save(stored, data, initial, freshId, now, mint);
      forall i :: 0 <= i < |stored| && (initial.None? || stored[i].id != initial.value.id) ==>
        r[i] == stored[i]
  {
  }

  /** Editing replaces exactly the plans with the edited id: same length, and every
      other plan in its place, unchanged apart from being switched off when the
      saved plan is active. The saved plan keeps the edited plan's creation time,
      and its id when that id is not blank. */
  lemma SaveEditReplacesInPlace(stored: seq<GymPlan>, data: PlanForm, g: GymPlan,
                                freshId: string, now: Timestamp, mint: IdRequest -> string)
    ensures var r, p := Save(stored, data, Some(g), freshId, now, mint), PlanToSave(data, Some(g), freshId, now, mint);
      && |r| == |stored|
      && p.createdAt == g.createdAt
      && (g.id != "" ==> p.id == g.id)
      && (forall i :: 0 <= i < |stored| && stored[i].id == g.id ==> r[i] == p)
      && (forall i :: 0 <= i < |stored| && stored[i].id != g.id ==>
            r[i].(isActive := stored[i].isActive) == stored[i])
  {
  }

  /** Editing a plan that is no longer stored does not store it: the list written
      back is the stored one, with every plan switched off when the edited plan is
      active, so no plan is active afterwards. */
  lemma SaveEditOfMissingPlanIsLost(stored: seq<GymPlan>, data: PlanForm, g: GymPlan,
                                    freshId: string, now: Timestamp, mint: IdRequest -> string)
    requires forall i :: 0 <= i < |stored| ==> stored[i].id != g.id
    ensures var r := Save(stored, data, Some(g), freshId, now, mint);
      && r == (if data.isActive then DeactivateAll(stored) else stored)
      && (data.isActive ==> forall i :: 0 <= i < |r| ==> !r[i].isActive)
  {
  }

  /** Creating appends the new plan, stamped with the fresh id and the current
      time, after the earlier plans, which stay in place. */
  lemma SaveCreateAppends(stored: seq<GymPlan>, data: PlanForm, freshId: string, now: Timestamp,
                          mint: IdRequest -> string)
    ensures var r := Save(stored, data, None, freshId, now, mint);
      && |r| == |stored| + 1
      && r[|stored|].id == freshId && r[|stored|].createdAt == now && r[|stored|].updatedAt == now
      && (!data.isActive ==> r[..|stored|] == stored)
      && (data.isActive ==> r[..|stored|] == DeactivateAll(stored))
  {
  }

  /** Saving keeps "at most one active plan", provided the edited id is stored at
      most once. */
  lemma SaveKeepsAtMostOneActive(stored: seq<GymPlan>, data: PlanForm, initial: Option<GymPlan>,
                                   freshId: string, now: Timestamp, mint: IdRequest -> string)
    requires AtMostOneActive(stored)
    requires initial.Some? ==> IdAtMostOnce(stored, initial.value.id)
    ensures AtMostOneActive(Save(stored, data, initial, freshId, now, mint))
  {
  }

  /** Saving keeps ids unique, provided the fresh id is not already in use. */
  lemma SaveKeepsUniqueIds(stored: seq<GymPlan>, data: PlanForm, initial: Option<GymPlan>,
                           freshId: string, now: Timestamp, mint: IdRequest -> string)
    requires UniqueIds(stored)
    requires forall i :: 0 <= i < |stored| ==> stored[i].id != freshId
    ensures UniqueIds(Save(stored, data, initial, freshId, now, mint))
  {
  }

  /** What an accepted submission stores is a plan the schema accepts, with the
      shape every edit keeps. */
  lemma SubmittedPlanIsValid(stored: seq<GymPlan>, data: PlanForm, initial: Option<GymPlan>,
                             freshId: string, now: Timestamp, mint: IdRequest -> string)
    requires Submit(stored, data, initial, freshId, now, mint).Success?
    ensures var p := PlanToSave(data, initial, freshId, now, mint);
      && ValidForm(PlanForm(p.name, p.description, p.isActive, p.days))
      && WellShaped(p.days)
  {
  }
}
