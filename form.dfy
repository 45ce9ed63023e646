/**
 * The per-user conversation state of the bot (aiogram's FSMContext): the
 * current state and the data map the handlers fill with `update_data`. The
 * profile form runs weight -> height -> age -> gender -> activity -> city ->
 * calories; the food flow uses the single state FoodAmount. Both flows share
 * the one data map, as in the source.
 */
module Form {
  import opened Wrappers
  import opened Text
  import Goals
  import UserTable

  /** `None` (no state), the seven `Form` states and `FoodState.amount`. */
  datatype FsmState = Idle | Weight | Height | Age | Gender | Activity | City | Calories | FoodAmount

  /** What `update_data` stores: Python ints, floats, strings and None. */
  datatype Value = Int(i: int) | Real(r: real) | Str(s: string) | Null

  type Data = map<string, Value>

  datatype Session = Session(state: FsmState, data: Data)

  /** The reply a form handler sends, as an outcome rather than text. */
  datatype Reply =
    | Welcome                               // /start
    | Ask(next: FsmState)                   // value stored, the next question is asked
    | NotANumber                            // int() raised ValueError
    | OutOfRange                            // the range check failed
    | ShowGoals(calorieGoal: real, waterGoal: int)
    | BadCalorieGoal                        // neither "нет" nor digits
    | ProfileSaved(profile: UserTable.Profile)
    | Crashed                               // the handler raised: no temperature for the city

  datatype Step = Step(session: Session, reply: Reply)

  const Cleared: Session := Session(Idle, map[])

  /** Position of a profile step in the form; -1 outside the form. */
  function Rank(st: FsmState): int
  {
    match st
    case Weight => 0
    case Height => 1
    case Age => 2
    case Gender => 3
    case Activity => 4
    case City => 5
    case Calories => 6
    case _ => -1
  }

  /** The state a successful profile step moves to. */
  function NextState(st: FsmState): (next: FsmState)
    requires 0 <= Rank(st) < 6
    ensures Rank(next) == Rank(st) + 1
  {
    match st
    case Weight => Height
    case Height => Age
    case Age => Gender
    case Gender => Activity
    case Activity => City
    case City => Calories
  }

  predicate IntIn(d: Data, key: string, lo: int, hi: Option<int>)
  {
    key in d && d[key].Int? && lo <= d[key].i && (hi.None? || d[key].i <= hi.value)
  }

  predicate IsText(d: Data, key: string) { key in d && d[key].Str? }

  predicate IsNumber(d: Data, key: string) { key in d && (d[key].Int? || d[key].Real?) }

  /** The answers the form has collected, checked, by the time it reaches the step of rank `n`. */
  predicate Collected(d: Data, n: int)
  {
    && (n >= 1 ==> IntIn(d, "weight", 1, None))
    && (n >= 2 ==> IntIn(d, "height", 1, None))
    && (n >= 3 ==> IntIn(d, "age", 1, Some(120)))
    && (n >= 4 ==> IsText(d, "gender"))
    && (n >= 5 ==> IntIn(d, "activity", 1, Some(1440)))
    && (n >= 6 ==> IsText(d, "city") && IntIn(d, "water_goal", 0, None) && IsNumber(d, "calorie_goal"))
  }

  /** What every reachable session satisfies: the data its state reads is there. */
  predicate Inv(s: Session)
  {
    if s.state == FoodAmount then "calories_100g" in s.data && !s.data["calories_100g"].Str?
    else Collected(s.data, Rank(s.state))
  }

  /** `/start` and `/set_profile` both begin with `state.clear()`. */
  function Start(s: Session): (r: Step)
    ensures r.session == Cleared && Inv(r.session)
  {
    Step(Cleared, Welcome)
  }

  /** `/set_profile`: any conversation in progress is dropped and the form starts at the weight. */
  function SetProfile(s: Session): (r: Step)
    ensures r.session == Session(Weight, map[]) && Inv(r.session)
    ensures r.reply == Ask(Weight)
  {
    Step(Session(Weight, map[]), Ask(Weight))
  }

  predicate InBounds(v: int, lo: int, hi: Option<int>)
  {
    lo <= v && (hi.None? || v <= hi.value)
  }

  /**
   * The shape shared by the four numeric steps: parse, range-check, then store
   * the value under `key` and move to the next state; a rejection changes nothing.
   */
  function NumericStep(s: Session, text: string, key: string, lo: int, hi: Option<int>): (r: Step)
    requires 0 <= Rank(s.state) < 6
    ensures r.reply == NotANumber <==> ParseInt(text).None?
    ensures r.reply == OutOfRange <==> ParseInt(text).Some? && !InBounds(ParseInt(text).value, lo, hi)
    ensures r.reply.Ask? <==> ParseInt(text).Some? && InBounds(ParseInt(text).value, lo, hi)
    ensures !r.reply.Ask? ==> r.session == s
    ensures r.reply.Ask? ==>
      r.reply.next == NextState(s.state) &&
      r.session == Session(NextState(s.state), s.data[key := Int(ParseInt(text).value)])
  {
    match ParseInt(text)
    case None => Step(s, NotANumber)
    case Some(v) =>
      if InBounds(v, lo, hi) then
        var next := NextState(s.state);
        Step(Session(next, s.data[key := Int(v)]), Ask(next))
      else Step(s, OutOfRange)
  }

  /** Weight: an integer above 0. */
  function ProcessWeight(s: Session, text: string): (r: Step)
    requires s.state == Weight
    ensures Inv(r.session)
    ensures r.reply.Ask? <==> ParseInt(text).Some? && ParseInt(text).value > 0
    ensures !r.reply.Ask? ==> r.session == s
    ensures r.reply.Ask? ==> r.session == Session(Height, s.data["weight" := Int(ParseInt(text).value)])
  {
    NumericStep(s, text, "weight", 1, None)
  }

  /** Height: an integer above 0. */
  function ProcessHeight(s: Session, text: string): (r: Step)
    requires s.state == Height
    ensures Inv(s) ==> Inv(r.session)
    ensures r.reply.Ask? <==> ParseInt(text).Some? && ParseInt(text).value > 0
    ensures !r.reply.Ask? ==> r.session == s
    ensures r.reply.Ask? ==> r.session == Session(Age, s.data["height" := Int(ParseInt(text).value)])
  {
    NumericStep(s, text, "height", 1, None)
  }

  /** Age: an integer from 1 to 120. */
  function ProcessAge(s: Session, text: string): (r: Step)
    requires s.state == Age
    ensures Inv(s) ==> Inv(r.session)
    ensures r.reply.Ask? <==> ParseInt(text).Some? && 1 <= ParseInt(text).value <= 120
    ensures !r.reply.Ask? ==> r.session == s
    ensures r.reply.Ask? ==> r.session == Session(Gender, s.data["age" := Int(ParseInt(text).value)])
  {
    NumericStep(s, text, "age", 1, Some(120))
  }

  /** Gender: whatever the pressed button sends is stored, unchecked. */
  function ProcessGender(s: Session, callbackData: string): (r: Step)
    requires s.state == Gender
    ensures Inv(s) ==> Inv(r.session)
    ensures r.reply == Ask(Activity) && r.session.state == Activity
    ensures "gender" in r.session.data && r.session.data["gender"] == Str(callbackData)
    ensures forall k :: k != "gender" ==> (k in r.session.data <==> k in s.data)
    ensures forall k :: k in s.data && k != "gender" ==> r.session.data[k] == s.data[k]
  {
    Step(Session(Activity, s.data["gender" := Str(callbackData)]), Ask(Activity))
  }

  /** Activity: an integer from 1 to 1440 minutes. */
  function ProcessActivity(s: Session, text: string): (r: Step)
    requires s.state == Activity
    ensures Inv(s) ==> Inv(r.session)
    ensures r.reply.Ask? <==> ParseInt(text).Some? && 1 <= ParseInt(text).value <= 1440
    ensures !r.reply.Ask? ==> r.session == s
    ensures r.reply.Ask? ==> r.session == Session(City, s.data["activity" := Int(ParseInt(text).value)])
  {
    NumericStep(s, text, "activity", 1, Some(1440))
  }

  /**
   * City: the city is stored first; then both goals are computed from the
   * collected answers and the temperature looked up for the city. Without a
   * temperature the water formula raises, leaving the city stored and the
   * state unchanged.
   */
  function ProcessCity(s: Session, text: string, temperature: Option<real>): (r: Step)
    requires s.state == City && Inv(s)
    ensures Inv(r.session)
    ensures temperature.None? ==> r == Step(Session(City, s.data["city" := Str(text)]), Crashed)
    ensures temperature.Some? ==>
      var d := s.data;
      var calories := Goals.CalorieGoal(d["weight"].i, d["height"].i, d["age"].i, d["gender"].s, d["activity"].i);
      var water := Goals.WaterGoal(d["weight"].i, d["activity"].i, temperature.value);
      && r.reply == ShowGoals(calories, water)
      && r.session.state == Calories
      && r.session.data == d["city" := Str(text)]["water_goal" := Int(water)]["calorie_goal" := Real(calories)]
  {
    var d := s.data["city" := Str(text)];
    match temperature
    case None => Step(Session(City, d), Crashed)
    case Some(t) =>
      var calories := Goals.CalorieGoal(d["weight"].i, d["height"].i, d["age"].i, d["gender"].s, d["activity"].i);
      var water := Goals.WaterGoal(d["weight"].i, d["activity"].i, t);
      Goals.WaterGoalClosedForm(d["weight"].i, d["activity"].i, t);
      Step(Session(Calories, d["water_goal" := Int(water)]["calorie_goal" := Real(calories)]), ShowGoals(calories, water))
  }

  function AsReal(v: Value): real
    requires v.Int? || v.Real?
  {
    if v.Int? then v.i as real else v.r
  }

  /** The profile columns read from the collected answers (`data.get(...)` in `save_user`). */
  function ProfileOfData(d: Data): (p: UserTable.Profile)
    requires Collected(d, 6)
    ensures p.weight > 0 && p.height > 0 && 1 <= p.age <= 120 && 1 <= p.activity <= 1440
  {
    UserTable.Profile(
      d["weight"].i, d["height"].i, d["age"].i, d["gender"].s, d["activity"].i, d["city"].s,
      d["water_goal"].i, AsReal(d["calorie_goal"]))
  }

  /** The literal answer that keeps the computed calorie goal. */
  const No: string := "нет"

  /**
   * The decision of the final step: "нет" in any letter case keeps the
   * computed calorie goal, a string of digits replaces it, anything else is
   * rejected (None).
   */
  function CalorieAnswer(s: Session, text: string): (r: Option<UserTable.Profile>)
    requires s.state == Calories && Inv(s)
    ensures r.None? <==> Lower(text) != No && !IsDigits(text)
    ensures Lower(text) == No ==> r == Some(ProfileOfData(s.data))
    ensures Lower(text) != No && IsDigits(text) ==>
      r == Some(ProfileOfData(s.data).(calorieGoal := DigitsValue(text) as real))
  {
    var lowered := Lower(text);
    LowerKeepsDigits(text);
    if lowered == No then Some(ProfileOfData(s.data))
    else if IsDigits(lowered) then
      LowerDigits(text);
      var d := s.data["calorie_goal" := Int(DigitsValue(text))];
      Some(ProfileOfData(d))
    else None
  }

  /** The session after the final step: cleared on acceptance, unchanged on rejection. */
  function CalorieStep(s: Session, text: string): (r: Step)
    requires s.state == Calories && Inv(s)
    ensures Inv(r.session)
    ensures CalorieAnswer(s, text).None? ==> r == Step(s, BadCalorieGoal)
    ensures CalorieAnswer(s, text).Some? ==> r == Step(Cleared, ProfileSaved(CalorieAnswer(s, text).value))
  {
    match CalorieAnswer(s, text)
    case None => Step(s, BadCalorieGoal)
    case Some(p) => Step(Cleared, ProfileSaved(p))
  }
}
