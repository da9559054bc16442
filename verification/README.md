# LauVit gym plans and session — a Dafny model

LauVit is a client-side fitness tracker. Almost all of it is presentation. Two parts
hold rules that can be stated on their own, and this project models those two parts
as pure functions and proves what they promise.

1. **The gym-plan form** (`src/components/plans/GymPlanForm.tsx`).
   - A plan has days. Each day has exercises, and each exercise has a name, a
     variation, a number of sets and a free-text rep scheme.
   - The form's schema accepts a plan only when all of these hold: the plan is named;
     it has at least one day; every day is named and has at least one exercise; and
     every exercise is named, has one of the six variations, has at least one set and
     has a rep scheme.
   - The form's buttons add a blank exercise, remove an exercise, add a day named
     `Day n+1`, and remove a day. The two removals are refused when only one item
     is left.
   - On submit, the plan is stamped with an id and a creation time. If it is active,
     every stored plan is switched off. It then replaces the stored plan with the
     edited id, or is appended when the plan is new. The form then navigates to the
     plan list page.
2. **The mocked session** (`src/lib/authContext.tsx`).
   - The state is the signed-in user, a loading flag and the user kept in browser
     storage.
   - On mount the stored user is restored. Login, signup, Google sign-in and logout
     set fixed mock users, or nobody for logout, and keep storage in step.
   - A guard sends visitors who are not signed in and are not on an auth page to
     `/login`. It sends signed-in
     users who are on an auth page (a path starting `/login` or `/signup`) to
     `/dashboard`. It does nothing while loading.

Modules, one per concern:

- `results.dfy` — `Results`: `Option` and `Result`.
- `decimal.dfy` — `Decimal`: decimal rendering of day numbers, with its reading back.
- `gym_plans.dfy` — `GymPlans`: plan records and the schema rules. The rules are
  stated twice: once as predicates (`ValidForm`), and once as the issue list the form
  reports (`Issues`). The two are proved to agree.
- `plan_edits.dfy` — `PlanEdits`: the form's opening values, id filling and the four
  structural edits. These edits keep the invariant `WellShaped`: at least one day,
  and at least one exercise per day.
- `plan_save.dfy` — `PlanSave`: submission and the stored-list upsert, with its
  invariants "at most one active plan" and "ids unique".
- `auth.dfy` — `Auth`: the session transitions and the redirect guard.

Things the model shows about the code as written:

- When the edited plan's stored id is blank, the saved plan gets a fresh id. The list
  is still searched for the blank id.
- Editing a plan that is no longer in the stored list does not store the edited plan.
  If it was marked active, every stored plan is still switched off, so afterwards no
  plan is active (`PlanSave.SaveEditOfMissingPlanIsLost`).
- "Add Day" names the new day after the number of days, not after the names in use.
  After day 2 of 3 is removed, the added day is named `Day 3` a second time
  (`PlanEdits.AddDayAfterRemoveRepeatsName`).
- The edit page, `src/app/(app)/gym-plans/[id]/page.tsx:23`, never finds a plan, so
  the edit path of the form (`initial` present) is not reached in the application as
  written. The model covers it as the form defines it.
- The auth-page test is a bare prefix test, so `/loginhelp` counts as an auth page.

## Model

| member | source | states |
|---|---|---|
| `GymPlans.VariationOptionsExact` | src/lib/constants.ts:34-41 | the variation option list offers every variation exactly once, and the stored texts tell variations apart |
| `GymPlans.ExerciseIssues` | src/components/plans/GymPlanForm.tsx:20-28 | an exercise's reported issues are exactly its violated fields: empty name, fewer than one set, empty reps |
| `GymPlans.ExerciseListIssues` | src/components/plans/GymPlanForm.tsx:33 | the issues of a day's exercise list are exactly the field violations of its exercises, each tagged with its day and position |
| `GymPlans.DayIssues` | src/components/plans/GymPlanForm.tsx:30-34 | a day's reported issues are exactly: empty name, no exercises, and its exercises' field violations |
| `GymPlans.DayListIssues` | src/components/plans/GymPlanForm.tsx:40 | the issues of the day list are exactly the violations of its days, each tagged with its position |
| `GymPlans.Issues` | src/components/plans/GymPlanForm.tsx:36-41 | the schema reports an issue if and only if that issue is a genuine violation of the plan rules |
| `GymPlans.NoIssuesIffValid` | src/components/plans/GymPlanForm.tsx:20-41 | the schema reports no issue exactly when the plan is named, has a day, and every day and exercise satisfies its rules |
| `GymPlans.MessagesTellRulesApart` | src/components/plans/GymPlanForm.tsx:20-41 | the form shows the same message for two issues exactly when they break the same rule, so each of the seven messages names one rule |
| `Decimal.Show` | src/components/plans/GymPlanForm.tsx:198 | the rendered day number is a non-empty string of digits with no leading zero |
| `Decimal.ValueOfShow` | src/components/plans/GymPlanForm.tsx:198 | reading the rendered number back gives the number |
| `Decimal.ShowInjective` | src/components/plans/GymPlanForm.tsx:198 | different day counts render to different texts |
| `PlanEdits.WithoutIndex` | src/components/plans/GymPlanForm.tsx:153 | filtering out position i removes exactly that element and keeps the rest in order; an out-of-range position changes nothing |
| `PlanEdits.FillIds` | src/components/plans/GymPlanForm.tsx:102-109 | blank day and exercise ids are replaced by minted ones, and non-blank ids and every other field are kept |
| `PlanEdits.FillIdsKeepsVerdicts` | src/components/plans/GymPlanForm.tsx:58-65 | filling ids changes neither the plan's shape nor any validation verdict |
| `PlanEdits.InitialForm` | src/components/plans/GymPlanForm.tsx:55-82 | the form opens on the edited plan (name, description, active flag) with ids filled, or else on an unnamed inactive plan with an empty description and one day "Day 1" holding one blank exercise |
| `PlanEdits.FreshFormNeedsNames` | src/components/plans/GymPlanForm.tsx:67-82 | a fresh form is well shaped, and its only violations are the missing plan name and the missing first exercise name |
| `PlanEdits.EditingFormKeepsVerdicts` | src/components/plans/GymPlanForm.tsx:55-66 | opening a stored plan for editing keeps its shape and its validity |
| `PlanEdits.AddDefaultExercise` | src/components/plans/GymPlanForm.tsx:134-147 | adding appends one exercise with 3 sets, reps "8-12" and the first variation, and leaves the earlier exercises, other days and plan fields unchanged |
| `PlanEdits.RemoveExercise` | src/components/plans/GymPlanForm.tsx:149-158 | removal is refused, with its message, exactly when the day has at most one exercise; otherwise only that day's list changes, by filtering the position out, and at least one exercise remains |
| `PlanEdits.AddDay` | src/components/plans/GymPlanForm.tsx:198 | adding a day appends one day named after the new day count, holding one blank exercise, and keeps the earlier days |
| `PlanEdits.RemoveDay` | src/components/plans/GymPlanForm.tsx:210 | removing a day is refused, with its message, exactly when the plan has at most one day; otherwise that position is filtered out, at least one day remains, and the plan's name, description and active flag are kept |
| `PlanEdits.ValidFormIsWellShaped` | src/components/plans/GymPlanForm.tsx:33-40 | a plan the schema accepts has at least one day and at least one exercise per day |
| `PlanEdits.EditsKeepWellShaped` | src/components/plans/GymPlanForm.tsx:134-158 | each of the four edits keeps "at least one day, at least one exercise per day" |
| `PlanEdits.RemoveExerciseDeletesOne` | src/components/plans/GymPlanForm.tsx:152-154 | on a day with more than one exercise, removal yields the list with exactly the chosen element cut out, one shorter |
| `PlanEdits.AddDayNameCountsDays` | src/components/plans/GymPlanForm.tsx:198 | an added day is named "Day " followed by digits that denote the old day count plus one |
| `PlanEdits.AddedExerciseNeedsName` | src/components/plans/GymPlanForm.tsx:134-147 | an added exercise, or the exercise of an added day, is reported as unnamed, so a plan with a new day cannot be submitted unchanged |
| `PlanEdits.RemoveUndoesAddExercise` | src/components/plans/GymPlanForm.tsx:134-158 | removing the exercise just added to a non-empty day gives back the original form |
| `PlanEdits.AddDayAfterRemoveRepeatsName` | src/components/plans/GymPlanForm.tsx:198-210 | after any day but the last is removed from a plan whose last day has the default name, "Add Day" gives the new day that same name again |
| `PlanEdits.RemoveUndoesAddDay` | src/components/plans/GymPlanForm.tsx:198-210 | removing the day just added to a plan with a day gives back the original form |
| `PlanSave.PlanToSave` | src/components/plans/GymPlanForm.tsx:97-110 | the saved plan keeps the edited plan's id (unless blank) and creation time, otherwise takes the fresh id and now, is updated now, and carries the form's values with ids filled |
| `PlanSave.DeactivateAll` | src/components/plans/GymPlanForm.tsx:112-114 | every plan is switched off and otherwise unchanged |
| `PlanSave.ReplaceById` | src/components/plans/GymPlanForm.tsx:116-117 | exactly the plans with the given id are replaced and the length is kept |
| `PlanSave.Save` | src/components/plans/GymPlanForm.tsx:90-124 | editing keeps the length and creating adds the saved plan at the end; each stored position holds the saved plan if it had the edited id, else the stored plan, switched off when the saved plan is active |
| `PlanSave.Submit` | src/components/plans/GymPlanForm.tsx:90-132 | a submission fails exactly when the form breaks a rule, and then reports exactly its violations; otherwise it yields the saved list and navigates to the plan list page |
| `PlanSave.SaveActiveSwitchesOthersOff` | src/components/plans/GymPlanForm.tsx:112-120 | after saving an active plan, a position is active exactly when it holds the saved plan (edited position or the appended end) |
| `PlanSave.SaveInactiveKeepsOthers` | src/components/plans/GymPlanForm.tsx:112-117 | saving an inactive plan leaves every other stored plan, its active flag included, unchanged |
| `PlanSave.SaveEditReplacesInPlace` | src/components/plans/GymPlanForm.tsx:97-117 | editing keeps the length, puts the saved plan at every position with the edited id, keeps every other plan apart from its active flag, and keeps the edited plan's creation time and non-blank id |
| `PlanSave.SaveEditOfMissingPlanIsLost` | src/components/plans/GymPlanForm.tsx:112-124 | editing a plan whose id is not stored does not store it; the list is written back with every plan switched off when the edited plan is active, unchanged otherwise |
| `PlanSave.SaveCreateAppends` | src/components/plans/GymPlanForm.tsx:118-119 | creating appends one plan stamped with the fresh id and the current time, after the earlier plans, which stay in place |
| `PlanSave.SaveKeepsAtMostOneActive` | src/components/plans/GymPlanForm.tsx:112-120 | saving keeps "at most one active plan" when the edited id is stored at most once |
| `PlanSave.SaveKeepsUniqueIds` | src/components/plans/GymPlanForm.tsx:97-120 | saving keeps plan ids unique when the fresh id is not already in use |
| `PlanSave.SubmittedPlanIsValid` | src/components/plans/GymPlanForm.tsx:90-110 | an accepted submission stores a plan that satisfies every schema rule and is well shaped |
| `Auth.Restore` | src/lib/authContext.tsx:26-33 | the mount-time check signs in the stored user when there is one, else leaves the user as is, and ends loading |
| `Auth.EmailOr` | src/lib/authContext.tsx:51 | a non-empty given email is used, an absent or empty one falls back to the default |
| `Auth.ActionUser` | src/lib/authContext.tsx:47-87 | login, signup and Google sign-in produce their fixed mock users with the given or default email, and logout produces nobody |
| `Auth.Begin` | src/lib/authContext.tsx:48 | starting an action sets loading and changes nothing else |
| `Auth.Complete` | src/lib/authContext.tsx:51-54 | a finished action ends loading with the action's user signed in and identical to the stored user |
| `Auth.Landing` | src/lib/authContext.tsx:55-86 | logout navigates to the login page, every other action to the dashboard |
| `Auth.Perform` | src/lib/authContext.tsx:47-87 | after any action the session is settled, the signed-in user is exactly the action's mock user (nobody after a logout), and the target is the dashboard, or the login page after a logout |
| `Auth.Redirect` | src/lib/authContext.tsx:35-44 | no redirect while loading; to the login page exactly when nobody is signed in off the auth pages; to the dashboard exactly when someone is signed in on one |
| `Auth.AuthPageExamples` | src/lib/authContext.tsx:37 | the auth-page test is a literal prefix test: "/login/reset" and "/loginhelp" count, "/dashboard", "/" and "/log" do not |
| `Auth.DashboardIsNotAuthPage` | src/lib/authContext.tsx:37 | the dashboard lies outside the auth pages and the login page inside them |
| `Auth.RedirectSettles` | src/lib/authContext.tsx:38-42 | following a redirect never triggers a second one |
| `Auth.NoRedirectWhilePending` | src/lib/authContext.tsx:36 | while an action is pending the guard issues no redirect on any page |
| `Auth.ActionsLandWithoutRedirect` | src/lib/authContext.tsx:47-87 | every completed action navigates to a page on which the guard issues no redirect |
| `Auth.RestoreSettles` | src/lib/authContext.tsx:21-33 | after mount and restore, the signed-in user is the stored one (or nobody) and loading has ended |
| `Auth.RunSettles` | src/lib/authContext.tsx:47-87 | after any non-empty sequence of actions the session is settled and the user is the one the last action signs in |
| `Auth.RunKeepsSettled` | src/lib/authContext.tsx:47-87 | from a settled session every sequence of actions leaves it settled |

## Left out

- Rendering, JSX and styling of the form and of every page: presentation only.
- The form and schema libraries (`useForm`, `useFieldArray`, `zodResolver`): only the
  constraints they encode are modelled. The order in which issues are reported is not
  modelled; only which issues are reported is.
- Email format and password length checks of the login and signup forms: they rely on
  a library email validator and are not part of this model.
- Passwords passed to `login` and `signup`: the mock ignores them, and so does the model.
- Id generation from the clock and a random source: fresh ids are parameters. These are
  `freshId` for the plan and `mint` for blank day and exercise ids.
- Dates: `createdAt`/`updatedAt` are an opaque `Timestamp` (`int`) passed in as `now`.
- Browser storage and JSON encoding: the stored plan list is a parameter and the result
  of `Save`. The stored user is the `stored` field of the session. A stored value that
  fails to parse is not modelled.
- Timer delays and asynchrony: each action is modelled as `Begin` followed by
  `Complete`. Two overlapping actions are not modelled.
- Toasts and router navigation: a refusal is a `Failure` carrying the message. The
  navigations after a session action and after a plan save are returned target paths.
  The success toast and the page refresh after a save are not modelled.
- The variation rule of the exercise schema, and its message "Variation is required":
  `Variation` is a closed datatype of the six options, so the model cannot express a
  stored plan whose variation text is missing or is not one of the options. That issue
  therefore never arises in the model.
- The number of sets is modelled as an integer. The form's number coercion can produce
  fractional or non-numeric values, and those are not modelled.
- The AI instruction flow, `next.config.ts` and the navigation arrays: a third-party
  prompt wrapper and static configuration.
- The personal-record aggregation on the dashboard page, and the activate/delete
  actions on the plan list page: they are outside the two files this project models.
