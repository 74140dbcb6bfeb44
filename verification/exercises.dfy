/**
 * The batting exercise catalogue: goal detection from free text, goal
 * filtering, per-player prescription selection and safety warnings.
 */
module Exercises {
  import opened Wrappers
  import opened Text
  import opened Seqs
  import opened Profiles

  /** A dosage row of an exercise; the dosage fields are JSON values passed
      through unchanged. */
  datatype Prescription = Prescription(
    ageGroup: string,
    bmiGroups: seq<string>,
    sets: Value,
    reps: Value,
    restSeconds: Value,
    notes: Option<Value>)

  datatype Exercise = Exercise(
    name: string,
    exerciseType: string,
    equipment: seq<string>,
    benefits: seq<string>,
    howTo: seq<string>,
    safetyNotes: seq<string>,
    goals: seq<string>,
    rolePriority: seq<string>,
    prescriptions: seq<Prescription>)

  /** Dosage attached to a personalised entry, or the warning that none fits. */
  datatype Dosage = Prescribed(sets: Value, reps: Value, restSeconds: Value, notes: Value) | NoDosage

  datatype PersonalisedExercise = PersonalisedExercise(
    exerciseName: string,
    exerciseType: string,
    equipment: seq<string>,
    benefits: seq<string>,
    howToDo: seq<string>,
    safetyNotes: seq<string>,
    recommendedForRole: bool,
    dosage: Dosage)

  datatype ExerciseResult =
    | ExerciseError(message: string)
    | ExercisePlan(goalDetected: string, totalFound: nat, warning: string, exercises: seq<PersonalisedExercise>)

  /** Goal keywords in table order; the first one occurring wins. */
  const GOAL_MAP: seq<(string, string)> := [
    ("power", "POWER_HITTING"),
    ("strength", "POWER_HITTING"),
    ("power hitting", "POWER_HITTING"),
    ("batting power", "POWER_HITTING"),
    ("endurance", "ENDURANCE_FITNESS"),
    ("fitness", "ENDURANCE_FITNESS"),
    ("stamina", "ENDURANCE_FITNESS"),
    ("running", "ENDURANCE_FITNESS"),
    ("timing", "TIMING_CONTROL"),
    ("control", "TIMING_CONTROL"),
    ("footwork", "FOOTWORK_AGILITY"),
    ("agility", "FOOTWORK_AGILITY"),
    ("speed", "FOOTWORK_AGILITY")
  ]

  const DEFAULT_GOAL := "POWER_HITTING"
  const GOAL_NOT_RECOGNIZED := "Goal not recognized. Try power / timing / endurance / footwork"
  const NO_EXERCISES := "No exercises exist for this goal."
  const DOSAGE_WARNING := "Exercise exists but no matching dosage for your age/BMI profile."
  const UNDERWEIGHT_WARNING := "⚠️ You are underweight — avoid heavy overload training."
  const BEGINNER_WARNING := "⚠️ Start with controlled movement before heavy resistance."

  /** The four goals the table can produce. */
  const GOALS: set<string> := {"POWER_HITTING", "ENDURANCE_FITNESS", "TIMING_CONTROL", "FOOTWORK_AGILITY"}

  lemma GoalMapValues()
    ensures forall k :: 0 <= k < |GOAL_MAP| ==> GOAL_MAP[k].1 in GOALS
  {
  }

  /** _detect_goal: the goal of the first key (table order) occurring in the
      lowercased text, else the power-hitting default. */
  function DetectGoal(text: string): (g: string)
    ensures g in GOALS
  {
    GoalMapValues();
    var k := FirstKeyFrom(GOAL_MAP, Lower(text), 0);
    if k.Some? then GOAL_MAP[k.value].1 else DEFAULT_GOAL
  }

  /** The detected goal is the first matching key's goal; the default is
      taken only when no key occurs; the result is never empty. */
  lemma DetectGoalFirstMatch(text: string)
    ensures DetectGoal(text) != ""
    ensures (forall k :: 0 <= k < |GOAL_MAP| ==> !Contains(Lower(text), GOAL_MAP[k].0)) ==>
              DetectGoal(text) == DEFAULT_GOAL
    ensures forall k :: 0 <= k < |GOAL_MAP| && Contains(Lower(text), GOAL_MAP[k].0)
                        && (forall j :: 0 <= j < k ==> !Contains(Lower(text), GOAL_MAP[j].0)) ==>
              DetectGoal(text) == GOAL_MAP[k].1
  {
    var t := Lower(text);
    FirstKeyFromFirst(GOAL_MAP, t, 0);
    var i := FirstKeyFrom(GOAL_MAP, t, 0);
    forall k | 0 <= k < |GOAL_MAP| && Contains(t, GOAL_MAP[k].0)
                && (forall j :: 0 <= j < k ==> !Contains(t, GOAL_MAP[j].0))
      ensures DetectGoal(text) == GOAL_MAP[k].1
    {
      assert i.Some? && i.value == k;
    }
  }

  /** "power hitting" never decides the goal: "power" comes first in the
      table and occurs in it. */
  lemma PowerHittingShadowed(t: string)
    ensures FirstKeyFrom(GOAL_MAP, t, 0) != Some(2)
  {
    FirstKeyFromFirst(GOAL_MAP, t, 0);
    assert GOAL_MAP[0].0 == "power" && GOAL_MAP[2].0 == "power hitting";
    if Contains(t, "power hitting") {
      assert "power hitting"[0..5] == "power";
      ContainsPiece(t, "power hitting", 0, 5);
    }
  }

  /** Nor does "batting power", for the same reason. */
  lemma BattingPowerShadowed(t: string)
    ensures FirstKeyFrom(GOAL_MAP, t, 0) != Some(3)
  {
    FirstKeyFromFirst(GOAL_MAP, t, 0);
    assert GOAL_MAP[0].0 == "power" && GOAL_MAP[3].0 == "batting power";
    if Contains(t, "batting power") {
      assert "batting power"[8..13] == "power";
      ContainsPiece(t, "batting power", 8, 13);
    }
  }

  predicate ServesGoal(goal: string, ex: Exercise) {
    goal in ex.goals || "ALL" in ex.goals
  }

  function ForGoal(goal: string): Exercise -> bool {
    (ex: Exercise) => ServesGoal(goal, ex)
  }

  /** _filter_by_goal: the exercises listing the goal or "ALL", in catalogue order. */
  method FilterByGoal(exercises: seq<Exercise>, goal: string) returns (selected: seq<Exercise>)
    ensures selected == Filter(exercises, ForGoal(goal))
    ensures forall ex :: ex in selected <==> ex in exercises && ServesGoal(goal, ex)
  {
    selected := [];
    var i := 0;
    while i < |exercises|
      invariant 0 <= i <= |exercises|
      invariant selected == Filter(exercises[..i], ForGoal(goal))
    {
      FilterStep(exercises, i, ForGoal(goal));
      if goal in exercises[i].goals || "ALL" in exercises[i].goals {
        selected := selected + [exercises[i]];
      }
      i := i + 1;
    }
    assert exercises[..i] == exercises;
    FilterMembers(exercises, ForGoal(goal));
  }

  /** The prescription row applies to the player: same age group, and the
      row covers "All" or the player's BMI band. */
  predicate Fits(user: Profile, p: Prescription) {
    p.ageGroup == AgeGroupName(user.ageGroup)
    && ("All" in p.bmiGroups || BmiGroupName(user.bmiGroup) in p.bmiGroups)
  }

  function FitsUser(user: Profile): Prescription -> bool {
    (p: Prescription) => Fits(user, p)
  }

  /** _find_prescription: the first row that fits the player. */
  function FindPrescription(user: Profile, ex: Exercise): (r: Option<Prescription>)
    ensures r.None? <==> forall k :: 0 <= k < |ex.prescriptions| ==> !Fits(user, ex.prescriptions[k])
    ensures r.Some? ==>
              exists k :: 0 <= k < |ex.prescriptions| && ex.prescriptions[k] == r.value && Fits(user, r.value)
                          && forall j :: 0 <= j < k ==> !Fits(user, ex.prescriptions[j])
  {
    var k := FirstWhere(ex.prescriptions, FitsUser(user));
    if k.Some? then Some(ex.prescriptions[k.value]) else None
  }

  /** One entry of _personalise_all. */
  function Personalise(user: Profile, ex: Exercise): (e: PersonalisedExercise)
    ensures e.exerciseName == ex.name && e.exerciseType == ex.exerciseType
    ensures e.equipment == ex.equipment && e.benefits == ex.benefits
    ensures e.howToDo == ex.howTo && e.safetyNotes == ex.safetyNotes
    ensures e.recommendedForRole <==> user.playingRole in ex.rolePriority
    ensures e.dosage.Prescribed? <==> FindPrescription(user, ex).Some?
    ensures e.dosage.Prescribed? ==>
              var p := FindPrescription(user, ex).value;
              e.dosage == Prescribed(p.sets, p.reps, p.restSeconds, if p.notes.Some? then p.notes.value else Null)
  {
    var pres := FindPrescription(user, ex);
    var dosage :=
      if pres.Some? then
        Prescribed(pres.value.sets, pres.value.reps, pres.value.restSeconds,
                   if pres.value.notes.Some? then pres.value.notes.value else Null)
      else NoDosage;
    PersonalisedExercise(ex.name, ex.exerciseType, ex.equipment, ex.benefits, ex.howTo, ex.safetyNotes,
                         user.playingRole in ex.rolePriority, dosage)
  }

  function PersonaliseEach(user: Profile, exs: seq<Exercise>): (out: seq<PersonalisedExercise>)
    ensures |out| == |exs|
    ensures forall i :: 0 <= i < |exs| ==> out[i] == Personalise(user, exs[i])
  {
    seq(|exs|, i requires 0 <= i < |exs| => Personalise(user, exs[i]))
  }

  /** _personalise_all: one entry per exercise, in order. */
  method PersonaliseAll(user: Profile, exs: seq<Exercise>) returns (out: seq<PersonalisedExercise>)
    ensures out == PersonaliseEach(user, exs)
  {
    out := [];
    var i := 0;
    while i < |exs|
      invariant 0 <= i <= |exs|
      invariant |out| == i
      invariant forall j :: 0 <= j < i ==> out[j] == Personalise(user, exs[j])
    {
      var entry := Personalise(user, exs[i]);
      out := out + [entry];
      i := i + 1;
    }
  }

  /** _warning: only power hitting warns; being underweight outranks being a beginner. */
  function Warning(user: Profile, goal: string): (w: string)
    ensures w != "" ==> goal == DEFAULT_GOAL
    ensures goal == DEFAULT_GOAL && user.bmiGroup == Underweight ==> w == UNDERWEIGHT_WARNING
    ensures goal == DEFAULT_GOAL && user.bmiGroup != Underweight && user.skillLevel == "beginner" ==>
              w == BEGINNER_WARNING
    ensures w == "" <==> goal != DEFAULT_GOAL || (user.bmiGroup != Underweight && user.skillLevel != "beginner")
  {
    if goal == DEFAULT_GOAL then
      if user.bmiGroup == Underweight then UNDERWEIGHT_WARNING
      else if user.skillLevel == "beginner" then BEGINNER_WARNING
      else ""
    else ""
  }

  /** get_batting_exercises, on values. */
  function BattingExercises(exercises: seq<Exercise>, user: Profile, text: string): ExerciseResult {
    var goal := DetectGoal(text);
    if goal == "" then ExerciseError(GOAL_NOT_RECOGNIZED)
    else
      var matches := Filter(exercises, ForGoal(goal));
      if matches == [] then ExerciseError(NO_EXERCISES)
      else ExercisePlan(goal, |matches|, Warning(user, goal), PersonaliseEach(user, matches))
  }

  /** The result is the no-exercise error exactly when no exercise serves the
      detected goal; the "goal not recognized" error never occurs; a plan
      counts and personalises every match. */
  lemma BattingExercisesOutcome(exercises: seq<Exercise>, user: Profile, text: string)
    ensures var r := BattingExercises(exercises, user, text);
            && (r.ExerciseError? ==> r.message == NO_EXERCISES)
            && (r.ExerciseError? <==> forall ex :: ex in exercises ==> !ServesGoal(DetectGoal(text), ex))
            && (r.ExercisePlan? ==>
                  && r.goalDetected == DetectGoal(text)
                  && r.totalFound == |r.exercises| == |Filter(exercises, ForGoal(r.goalDetected))|
                  && r.totalFound > 0
                  && r.warning == Warning(user, r.goalDetected)
                  && r.exercises == PersonaliseEach(user, Filter(exercises, ForGoal(r.goalDetected))))
  {
    FilterMembers(exercises, ForGoal(DetectGoal(text)));
    var m := Filter(exercises, ForGoal(DetectGoal(text)));
    if m != [] {
      assert m[0] in m;
    }
  }

  /** get_batting_exercises */
  method GetBattingExercises(exercises: seq<Exercise>, user: Profile, text: string) returns (r: ExerciseResult)
    ensures r == BattingExercises(exercises, user, text)
  {
    var goal := DetectGoal(text);
    assert goal != "";
    var matches := FilterByGoal(exercises, goal);
    if |matches| == 0 {
      return ExerciseError(NO_EXERCISES);
    }
    var output := PersonaliseAll(user, matches);
    var warning := Warning(user, goal);
    r := ExercisePlan(goal, |matches|, warning, output);
  }
}
