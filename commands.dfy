/**
 * The command handlers and the two handlers that write to the table: each
 * reads the caller's row, computes, and writes the new total back through
 * one of the table-wide `log` updates. Every command first answers
 * NoProfile, changing nothing, when the caller has no row.
 */
module Commands {
  import opened Wrappers
  import opened Text
  import Goals
  import Form
  import opened UserTable

  /** The three-way report on what is left of a goal. */
  datatype Progress = Remaining(amount: real) | Exceeded(amount: real) | Achieved

  /** The signed remainder a report stands for. */
  function Signed(p: Progress): real
  {
    match p
    case Remaining(a) => a
    case Exceeded(a) => -a
    case Achieved => 0.0
  }

  /** Remaining when above zero, exceeded (by the overshoot) when below, achieved at exactly zero. */
  function Classify(remaining: real): (p: Progress)
    ensures p.Remaining? <==> remaining > 0.0
    ensures p.Exceeded? <==> remaining < 0.0
    ensures p.Achieved? <==> remaining == 0.0
    ensures !p.Achieved? ==> p.amount > 0.0
    ensures Signed(p) == remaining
  {
    if remaining > 0.0 then Remaining(remaining)
    else if remaining < 0.0 then Exceeded(-remaining)
    else Achieved
  }

  datatype Reply =
    | NoProfile                     // "set up your profile first"
    | Usage                         // arguments missing or not of the expected shape
    | NotANumber                    // a number did not parse
    | WaterLogged(amount: int, totalWater: int, progress: Progress)
    | AskCaloriesPer100g            // no nutrition data: the user is asked for kcal per 100 g
    | AskAmount                     // the amount eaten is asked for
    | FoodLogged(consumed: real, totalCalories: real)
    | WorkoutLogged(burned: real, extraWater: int)
    | ProgressReport(row: Row, water: Progress, calories: Progress)
    | Crashed                       // the handler raised before writing anything

  /** `int(command.args)`: a missing argument fails like a malformed one. */
  function ParseArg(args: Option<string>): (n: Option<int>)
    ensures n.Some? ==> args.Some? && ParseInt(args.value) == n
    ensures args.Some? ==> n == ParseInt(args.value)
  {
    match args
    case None => None
    case Some(a) => ParseInt(a)
  }

  /** The outcome of `/log_water <amount>`: amounts add up; negative amounts are accepted too. */
  method CmdLogWater(db: Database, user: int, args: Option<string>) returns (reply: Reply)
    modifies db
    ensures user !in old(db.rows) ==> reply == NoProfile && db.rows == old(db.rows)
    ensures user in old(db.rows) && ParseArg(args).None? ==> reply == Usage && db.rows == old(db.rows)
    ensures user in old(db.rows) && ParseArg(args).Some? ==>
      var amount := ParseArg(args).value;
      var total := amount + old(db.rows)[user].loggedWater;
      && reply == WaterLogged(amount, total, Classify((old(db.rows)[user].waterGoal - total) as real))
      && db.rows.Keys == old(db.rows).Keys
      && forall u :: u in db.rows ==> db.rows[u] == old(db.rows)[u].(loggedWater := total)
  {
    var row := db.GetUser(user);
    if row.None? {
      return NoProfile;
    }
    var amount := ParseArg(args);
    if amount.None? {
      return Usage;
    }
    var total := amount.value + row.value.loggedWater;
    var remaining := row.value.waterGoal - total;
    db.LogWater(total);
    reply := WaterLogged(amount.value, total, Classify(remaining as real));
  }

  /**
   * `/log_food <product>`: the product name and the looked-up calories per
   * 100 g (None when the lookup found nothing) go into the session, which
   * enters the food state.
   */
  method CmdLogFood(db: Database, user: int, s: Form.Session, args: Option<string>, food: Option<real>)
    returns (next: Form.Session, reply: Reply)
    ensures Form.Inv(s) ==> Form.Inv(next)
    ensures user !in db.rows ==> next == s && reply == NoProfile
    ensures user in db.rows && args.None? ==> next == s && reply == Usage
    ensures user in db.rows && args.Some? ==>
      && next.state == Form.FoodAmount
      && next.data == s.data["food_type" := Form.Str(args.value)]
                            ["calories_100g" := if food.None? then Form.Null else Form.Real(food.value)]
      && reply == (if food.None? then AskCaloriesPer100g else AskAmount)
  {
    var row := db.GetUser(user);
    if row.None? {
      return s, NoProfile;
    }
    if args.None? {
      return s, Usage;
    }
    var data := s.data["food_type" := Form.Str(args.value)];
    match food {
      case None =>
        next := Form.Session(Form.FoodAmount, data["calories_100g" := Form.Null]);
        reply := AskCaloriesPer100g;
      case Some(kcal) =>
        next := Form.Session(Form.FoodAmount, data["calories_100g" := Form.Real(kcal)]);
        reply := AskAmount;
    }
  }

  /**
   * The food-state handler. With the calories per 100 g unknown, an integer
   * answer becomes that value and the state stays. Otherwise an integer
   * amount adds `per100g * amount / 100` to the logged calories and ends the
   * flow. A non-integer answer changes nothing.
   */
  method LogFood(db: Database, user: int, s: Form.Session, text: string)
    returns (next: Form.Session, reply: Reply)
    requires s.state == Form.FoodAmount && Form.Inv(s)
    modifies db
    ensures Form.Inv(next)
    ensures ParseInt(text).None? ==> next == s && reply == NotANumber && db.rows == old(db.rows)
    ensures ParseInt(text).Some? && s.data["calories_100g"].Null? ==>
      && next == Form.Session(Form.FoodAmount, s.data["calories_100g" := Form.Int(ParseInt(text).value)])
      && reply == AskAmount && db.rows == old(db.rows)
    ensures ParseInt(text).Some? && !s.data["calories_100g"].Null? && user !in old(db.rows) ==>
      next == s && reply == Crashed && db.rows == old(db.rows)
    ensures ParseInt(text).Some? && !s.data["calories_100g"].Null? && user in old(db.rows) ==>
      var consumed := Form.AsReal(s.data["calories_100g"]) * ParseInt(text).value as real / 100.0;
      var total := consumed + old(db.rows)[user].loggedCalories;
      && next == Form.Cleared
      && reply == FoodLogged(consumed, total)
      && db.rows.Keys == old(db.rows).Keys
      && forall u :: u in db.rows ==> db.rows[u] == old(db.rows)[u].(loggedCalories := total)
  {
    var per100g := s.data["calories_100g"];
    var parsed := ParseInt(text);
    if parsed.None? {
      return s, NotANumber;
    }
    if per100g.Null? {
      return Form.Session(Form.FoodAmount, s.data["calories_100g" := Form.Int(parsed.value)]), AskAmount;
    }
    var consumed := Form.AsReal(per100g) * parsed.value as real / 100.0;
    var row := db.GetUser(user);
    if row.None? {
      return s, Crashed;
    }
    var total := consumed + row.value.loggedCalories;
    db.LogCalories(total);
    next, reply := Form.Cleared, FoodLogged(consumed, total);
  }

  /** How `/log_workout` reads its arguments. */
  datatype WorkoutArgs = BadShape | BadMinutes | Workout(kind: string, minutes: int)

  /**
   * `args.split(" ")` must give exactly two pieces (so the text holds exactly
   * one space), and the second must parse as an integer; any integer, negative
   * ones included.
   */
  function ParseWorkoutArgs(args: Option<string>): (r: WorkoutArgs)
    ensures r.BadShape? <==> args.None? || Count(args.value, ' ') != 1
    ensures r.BadMinutes? <==>
      args.Some? && Count(args.value, ' ') == 1 && ParseInt(Split(args.value, ' ')[1]).None?
    ensures r.Workout? ==>
      var parts := Split(args.value, ' ');
      && args.value == r.kind + " " + parts[1]
      && ' ' !in r.kind
      && ParseInt(parts[1]) == Some(r.minutes)
  {
    if args.None? then BadShape
    else
      var parts := Split(args.value, ' ');
      if |parts| != 2 then BadShape
      else
        match ParseInt(parts[1])
        case None => BadMinutes
        case Some(m) =>
          JoinSplit(args.value, ' ');
          assert Join(parts, ' ') == parts[0] + " " + parts[1];
          Workout(parts[0], m)
  }

  /** A workout type without spaces and a rendered integer are read back as they were written. */
  lemma ParseWorkoutArgsRoundTrip(kind: string, minutes: int)
    requires ' ' !in kind
    ensures ParseWorkoutArgs(Some(kind + " " + ShowInt(minutes))) == Workout(kind, minutes)
  {
    var digits := ShowInt(minutes);
    var parts := [kind, digits];
    assert ' ' !in digits by {
      if minutes < 0 {
        assert digits == "-" + ShowNat(-minutes);
        assert IsDigits(ShowNat(-minutes));
      } else {
        assert IsDigits(digits);
      }
    }
    SplitJoin(parts, ' ');
    assert Join(parts, ' ') == kind + " " + digits;
    ParseShowInt(minutes);
  }

  /**
   * `/log_workout <type> <minutes>`: the burned calories are added to the
   * stored total and the water goal is raised for good by the extra water;
   * both columns are written in every row.
   */
  method CmdLogWorkout(db: Database, user: int, args: Option<string>) returns (reply: Reply)
    modifies db
    ensures user !in old(db.rows) ==> reply == NoProfile && db.rows == old(db.rows)
    ensures user in old(db.rows) && ParseWorkoutArgs(args).BadShape? ==> reply == Usage && db.rows == old(db.rows)
    ensures user in old(db.rows) && ParseWorkoutArgs(args).BadMinutes? ==>
      reply == NotANumber && db.rows == old(db.rows)
    ensures user in old(db.rows) && ParseWorkoutArgs(args).Workout? ==>
      var w := ParseWorkoutArgs(args);
      var row := old(db.rows)[user];
      var burned := Goals.WorkoutCalories(w.kind, w.minutes, row.weight);
      var extra := Goals.ExtraWater(w.minutes);
      && reply == WorkoutLogged(burned, extra)
      && db.rows.Keys == old(db.rows).Keys
      && forall u :: u in db.rows ==>
        db.rows[u] == old(db.rows)[u].(burnedCalories := burned + row.burnedCalories,
                                       waterGoal := row.waterGoal + extra)
  {
    var row := db.GetUser(user);
    if row.None? {
      return NoProfile;
    }
    var w := ParseWorkoutArgs(args);
    if w.BadShape? {
      return Usage;
    }
    if w.BadMinutes? {
      return NotANumber;
    }
    var burned := Goals.WorkoutCalories(w.kind, w.minutes, row.value.weight);
    var burnedTotal := burned + row.value.burnedCalories;
    var extra := Goals.ExtraWater(w.minutes);
    var newWaterGoal := row.value.waterGoal + extra;
    db.LogWorkout(burnedTotal, newWaterGoal);
    reply := WorkoutLogged(burned, extra);
  }

  /**
   * `/check_progress`: water left is the goal less what was logged; calories
   * left are the goal less what was eaten plus what was burned. Both go
   * through the same three-way report. Changes nothing.
   */
  method CmdCheckProgress(db: Database, user: int) returns (reply: Reply)
    ensures user !in db.rows ==> reply == NoProfile
    ensures user in db.rows ==>
      var row := db.rows[user];
      reply == ProgressReport(row,
        Classify((row.waterGoal - row.loggedWater) as real),
        Classify(row.calorieGoal - row.loggedCalories + row.burnedCalories))
  {
    var row := db.GetUser(user);
    if row.None? {
      return NoProfile;
    }
    var waterLeft := row.value.waterGoal - row.value.loggedWater;
    var caloriesLeft := row.value.calorieGoal - row.value.loggedCalories + row.value.burnedCalories;
    reply := ProgressReport(row.value, Classify(waterLeft as real), Classify(caloriesLeft));
  }

  /** The final profile step: on acceptance the profile is saved, once, and the session cleared. */
  method SetCustomGoal(db: Database, user: int, s: Form.Session, text: string)
    returns (next: Form.Session, reply: Form.Reply)
    requires s.state == Form.Calories && Form.Inv(s)
    modifies db
    ensures Form.Step(next, reply) == Form.CalorieStep(s, text)
    ensures Form.CalorieAnswer(s, text).None? ==> db.rows == old(db.rows)
    ensures Form.CalorieAnswer(s, text).Some? ==>
      db.rows == old(db.rows)[user := NewRow(Form.CalorieAnswer(s, text).value)]
  {
    var step := Form.CalorieStep(s, text);
    if step.reply.ProfileSaved? {
      db.SaveUser(user, step.reply.profile);
    }
    next, reply := step.session, step.reply;
  }
}
