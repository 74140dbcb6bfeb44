/**
 * The player profile: age banding, rule-table validation of the
 * registration form, and the profile constructor.
 *
 * Form values are JSON values; only the kinds the checks and the
 * constructor tell apart are kept (an integer, a boolean, a float, a string,
 * null, anything else).
 */
module Profiles {
  import opened Wrappers
  import opened Seqs

  datatype AgeGroup = U13 | U15 | U17 | U19 | Adult

  function AgeGroupName(g: AgeGroup): string {
    match g
    case U13 => "U13"
    case U15 => "U15"
    case U17 => "U17"
    case U19 => "U19"
    case Adult => "Adult"
  }

  /** Position of a group in the age order. */
  function Rank(g: AgeGroup): nat {
    match g
    case U13 => 0
    case U15 => 1
    case U17 => 2
    case U19 => 3
    case Adult => 4
  }

  /** _compute_age_group: bands of two years below 19, inclusive upper
      bounds. The age is any number the form carries, so the bands are
      stated over the reals. */
  function ComputeAgeGroup(age: real): (g: AgeGroup)
    ensures g == U13 <==> age <= 12.0
    ensures g == U15 <==> 12.0 < age <= 14.0
    ensures g == U17 <==> 14.0 < age <= 16.0
    ensures g == U19 <==> 16.0 < age <= 18.0
    ensures g == Adult <==> 18.0 < age
  {
    if age <= 12.0 then U13
    else if age <= 14.0 then U15
    else if age <= 16.0 then U17
    else if age <= 18.0 then U19
    else Adult
  }

  /** An older player is never placed in a younger group. */
  lemma AgeGroupMonotone(a: real, b: real)
    requires a <= b
    ensures Rank(ComputeAgeGroup(a)) <= Rank(ComputeAgeGroup(b))
  {
  }

  /** The BMI band, an input here (computing it needs floating point). */
  datatype BmiGroup = Underweight | AthleticIdeal | Overweight | Obese

  function BmiGroupName(b: BmiGroup): string {
    match b
    case Underweight => "Underweight"
    case AthleticIdeal => "Athletic Ideal"
    case Overweight => "Overweight"
    case Obese => "Obese"
  }

  /** A JSON value as far as the checks distinguish it. A float is kept as
      the real it denotes; `Other` stands for lists and objects, identified
      by a tag. */
  datatype Value = Int(i: int) | Bool(b: bool) | Float(x: real) | Str(s: string) | Null | Other(tag: string)

  /** `isinstance(v, int)`: Python booleans are integers. */
  predicate IsInt(v: Value) {
    v.Int? || v.Bool?
  }

  function IntOf(v: Value): int
    requires IsInt(v)
  {
    if v.Int? then v.i else if v.b then 1 else 0
  }

  /** A value Python's arithmetic and comparisons accept: an int, a bool or a float. */
  predicate IsNumber(v: Value) {
    IsInt(v) || v.Float?
  }

  function NumOf(v: Value): (x: real)
    requires IsNumber(v)
    ensures IsInt(v) ==> x == IntOf(v) as real
  {
    if v.Float? then v.x else IntOf(v) as real
  }

  /** Python `==` on the kept kinds: integers, booleans and floats compare as numbers. */
  predicate PyEq(a: Value, b: Value) {
    if IsNumber(a) && IsNumber(b) then NumOf(a) == NumOf(b)
    else if IsNumber(a) || IsNumber(b) then false
    else a == b
  }

  /** One entry of `required_fields`: its `type` and its bounds or values. */
  datatype Rule = IntRule(min: int, max: int) | ChoiceRule(values: seq<Value>) | OtherRule

  datatype Validation = Accepted | Rejected(message: string)

  const VALID_INPUT := "Valid Input"

  function MissingMessage(field: string): string {
    "Missing required field: " + field
  }

  const NOT_INTEGER := " must be an integer."
  const OUT_OF_RANGE := " outside valid range."
  const NOT_IN_CHOICES := " not in valid value list."

  /** The `(valid, message)` pair the source returns. */
  function Outcome(v: Validation): (bool, string) {
    match v
    case Accepted => (true, VALID_INPUT)
    case Rejected(m) => (false, m)
  }

  predicate InChoices(v: Value, values: seq<Value>) {
    exists k :: 0 <= k < |values| && PyEq(v, values[k])
  }

  /** The value checks of one field: the message suffix of its first failure. */
  function CheckField(rule: Rule, v: Value): (r: Option<string>)
    ensures r.None? <==>
              && (rule.IntRule? ==> IsInt(v) && rule.min <= IntOf(v) <= rule.max)
              && (rule.ChoiceRule? ==> InChoices(v, rule.values))
    ensures rule.IntRule? && !IsInt(v) ==> r == Some(NOT_INTEGER)
    ensures rule.IntRule? && IsInt(v) && !(rule.min <= IntOf(v) <= rule.max) ==> r == Some(OUT_OF_RANGE)
    ensures rule.ChoiceRule? && !InChoices(v, rule.values) ==> r == Some(NOT_IN_CHOICES)
  {
    match rule
    case IntRule(lo, hi) =>
      if !IsInt(v) then Some(NOT_INTEGER)
      else if IntOf(v) < lo || IntOf(v) > hi then Some(OUT_OF_RANGE)
      else None
    case ChoiceRule(values) =>
      if !InChoices(v, values) then Some(NOT_IN_CHOICES) else None
    case OtherRule => None
  }

  function IsMissing(data: map<string, Value>): ((string, Rule)) -> bool {
    (e: (string, Rule)) => e.0 !in data
  }

  /** A present field whose value fails its checks. */
  predicate FieldFails(data: map<string, Value>, e: (string, Rule)) {
    e.0 in data && CheckField(e.1, data[e.0]).Some?
  }

  function Fails(data: map<string, Value>): ((string, Rule)) -> bool {
    (e: (string, Rule)) => FieldFails(data, e)
  }

  /** validate_inputs, with `required_fields` given as an ordered table:
      every field's presence is checked before any field's value. */
  function ValidateInputs(rules: seq<(string, Rule)>, data: map<string, Value>): (r: Validation)
    ensures r.Accepted? <==>
              forall k :: 0 <= k < |rules| ==> rules[k].0 in data && !FieldFails(data, rules[k])
  {
    var missing := FirstWhere(rules, IsMissing(data));
    if missing.Some? then
      Rejected(MissingMessage(rules[missing.value].0))
    else
      var bad := FirstWhere(rules, Fails(data));
      if bad.Some? then
        var e := rules[bad.value];
        Rejected(e.0 + CheckField(e.1, data[e.0]).value)
      else
        Accepted
  }

  /** The rejection names the first missing field when a field is missing,
      and otherwise the first field whose value fails, with that check's
      message. */
  lemma ValidateInputsFirstFailure(rules: seq<(string, Rule)>, data: map<string, Value>)
    ensures forall k :: 0 <= k < |rules| && rules[k].0 !in data
                        && (forall j :: 0 <= j < k ==> rules[j].0 in data) ==>
              ValidateInputs(rules, data) == Rejected(MissingMessage(rules[k].0))
    ensures forall k :: 0 <= k < |rules| && (forall j :: 0 <= j < |rules| ==> rules[j].0 in data)
                        && FieldFails(data, rules[k])
                        && (forall j :: 0 <= j < k ==> !FieldFails(data, rules[j])) ==>
              ValidateInputs(rules, data) == Rejected(rules[k].0 + CheckField(rules[k].1, data[rules[k].0]).value)
  {
    var missing := FirstWhere(rules, IsMissing(data));
    if missing.Some? {
      assert rules[missing.value].0 !in data;
    } else {
      var bad := FirstWhere(rules, Fails(data));
      if bad.Some? {
        assert FieldFails(data, rules[bad.value]);
      }
    }
  }

  /** The stored player. Age, height, weight and weekly days are kept as
      given; age group and BMI band are derived. */
  datatype Profile = Profile(
    age: Value,
    heightCm: Value,
    weightKg: Value,
    skillLevel: string,
    playingRole: string,
    weeklyDays: Value,
    ageGroup: AgeGroup,
    bmiGroup: BmiGroup)

  const PARAMETERS: set<string> := {"age", "height_cm", "weight_kg", "skill_level", "playing_role", "weekly_days"}
  const REQUIRED_PARAMETERS: set<string> := {"age", "height_cm", "weight_kg", "skill_level", "playing_role"}

  /** `UserProfile(**data)` returns instead of raising. The keyword arguments
      must fit the signature; the age must be comparable with 12; the height
      must be divisible by 100 and the weight by a float; and the height must
      not be zero, since the caught ZeroDivisionError leaves the BMI at None,
      which the BMI band then compares with 18.5. Skill and role are taken to
      be strings, as the engines that read them need. */
  predicate Constructible(data: map<string, Value>) {
    && (forall k :: k in data ==> k in PARAMETERS)
    && (forall k :: k in REQUIRED_PARAMETERS ==> k in data)
    && IsNumber(data["age"])
    && IsNumber(data["height_cm"])
    && IsNumber(data["weight_kg"])
    && NumOf(data["height_cm"]) != 0.0
    && data["skill_level"].Str?
    && data["playing_role"].Str?
  }

  /** `UserProfile(**data)`, the constructor: the arguments are stored
      unchanged and the age group is derived from the age; None where the
      call raises. */
  function ProfileFromData(data: map<string, Value>, bmiGroup: BmiGroup): (r: Option<Profile>)
    ensures r.Some? <==> Constructible(data)
    ensures r.Some? ==>
              && r.value.age == data["age"]
              && r.value.heightCm == data["height_cm"]
              && r.value.weightKg == data["weight_kg"]
              && r.value.skillLevel == data["skill_level"].s
              && r.value.playingRole == data["playing_role"].s
              && r.value.weeklyDays == (if "weekly_days" in data then data["weekly_days"] else Null)
              && r.value.ageGroup == ComputeAgeGroup(NumOf(data["age"]))
              && (r.value.ageGroup == Adult <==> NumOf(data["age"]) > 18.0)
              && r.value.bmiGroup == bmiGroup
  {
    if !Constructible(data) then None
    else
      var age := data["age"];
      Some(Profile(age, data["height_cm"], data["weight_kg"], data["skill_level"].s, data["playing_role"].s,
                   if "weekly_days" in data then data["weekly_days"] else Null,
                   ComputeAgeGroup(NumOf(age)), bmiGroup))
  }
}
