/**
 * Worked examples and whole conversations: the formulas on sample inputs, a complete
 * run of the profile form, and what the table-wide updates mean for two users.
 */
module Scenarios {
  import opened Wrappers
  import opened Text
  import Goals
  import Form
  import opened UserTable
  import opened Commands

  lemma WaterGoalExamples()
    ensures Goals.WaterGoal(70, 30, 26.0) == 3100
    ensures Goals.WaterGoal(70, 30, 20.0) == 2600
    ensures Goals.WaterGoal(70, 45, 30.0) == 3350
  {
    Goals.WaterGoalClosedForm(70, 30, 26.0);
    Goals.WaterGoalClosedForm(70, 30, 20.0);
    Goals.WaterGoalClosedForm(70, 45, 30.0);
  }

  lemma WorkoutCaloriesKnownType()
    ensures Goals.WorkoutCalories("БЕГ", 60, 70) == 560.0
  {
    assert Lower("БЕГ") == "бег";
    assert Goals.Met("БЕГ") == 8.0;
    Goals.RoundTenthExact(560.0);
  }

  lemma WorkoutCaloriesUnknownType()
    ensures Goals.WorkoutCalories("unknown", 60, 70) == 350.0
  {
    assert Lower("unknown") == "unknown";
    assert Goals.Met("unknown") == 5.0;
    Goals.RoundTenthExact(350.0);
  }

  lemma CalorieGoalExample()
    ensures Goals.CalorieGoal(70, 175, 30, Goals.Male, 45) == 2267.03125
  {
  }

  /** An age written in decimal is accepted exactly from 1 to 120: 0 and 121 are refused. */
  lemma AgeBoundaries(s: Form.Session, age: int)
    requires s.state == Form.Age
    ensures Form.ProcessAge(s, ShowInt(age)).reply.Ask? <==> 1 <= age <= 120
  {
    ParseShowInt(age);
  }

  /** A weight that is not a number leaves the session exactly as it was. */
  lemma WeightNotANumber(s: Form.Session)
    requires s.state == Form.Weight
    ensures Form.ProcessWeight(s, "abc") == Form.Step(s, Form.NotANumber)
  {
    assert !IsDigit('a');
  }

  /** The answers the form holds when it reaches the city step. */
  function Answers(weight: int, height: int, age: int, gender: string, activity: int): Form.Data
  {
    map["weight" := Form.Int(weight), "height" := Form.Int(height), "age" := Form.Int(age),
        "gender" := Form.Str(gender), "activity" := Form.Int(activity)]
  }

  /** Valid answers to the first five questions, written in decimal, take the form to the city step. */
  lemma {:induction false} FormReachesCity(
    s: Form.Session, weight: int, height: int, age: int, gender: string, activity: int)
    requires weight > 0 && height > 0 && 1 <= age <= 120 && 1 <= activity <= 1440
    ensures
      var s1 := Form.SetProfile(s).session;
      var s2 := Form.ProcessWeight(s1, ShowInt(weight)).session;
      var s3 := Form.ProcessHeight(s2, ShowInt(height)).session;
      var s4 := Form.ProcessAge(s3, ShowInt(age)).session;
      var s5 := Form.ProcessGender(s4, gender).session;
      Form.ProcessActivity(s5, ShowInt(activity)).session
        == Form.Session(Form.City, Answers(weight, height, age, gender, activity))
  {
    ParseShowInt(weight);
    ParseShowInt(height);
    ParseShowInt(age);
    ParseShowInt(activity);
    var s1 := Form.SetProfile(s).session;
    var s2 := Form.ProcessWeight(s1, ShowInt(weight)).session;
    assert s2 == Form.Session(Form.Height, map["weight" := Form.Int(weight)]);
    var s3 := Form.ProcessHeight(s2, ShowInt(height)).session;
    assert s3.state == Form.Age;
    var s4 := Form.ProcessAge(s3, ShowInt(age)).session;
    assert s4.state == Form.Gender;
    var s5 := Form.ProcessGender(s4, gender).session;
    var s6 := Form.ProcessActivity(s5, ShowInt(activity)).session;
    assert s6.data == Answers(weight, height, age, gender, activity);
  }

  /**
   * A whole profile conversation with valid answers and "нет" at the end
   * saves exactly the answers and the two computed goals, and clears the session.
   */
  lemma {:induction false} ProfileConversation(
    s: Form.Session, weight: int, height: int, age: int, gender: string, activity: int,
    city: string, temperature: real)
    requires weight > 0 && height > 0 && 1 <= age <= 120 && 1 <= activity <= 1440
    ensures
      var s7 := Form.ProcessCity(Form.Session(Form.City, Answers(weight, height, age, gender, activity)),
                                 city, Some(temperature)).session;
      && s7.state == Form.Calories
      && Form.CalorieStep(s7, Form.No) == Form.Step(Form.Cleared, Form.ProfileSaved(Profile(
           weight, height, age, gender, activity, city,
           Goals.WaterGoal(weight, activity, temperature),
           Goals.CalorieGoal(weight, height, age, gender, activity))))
  {
    var s6 := Form.Session(Form.City, Answers(weight, height, age, gender, activity));
    assert Form.Inv(s6);
    var s7 := Form.ProcessCity(s6, city, Some(temperature)).session;
    assert Lower(Form.No) == Form.No;
    assert Form.CalorieAnswer(s7, Form.No) == Some(Form.ProfileOfData(s7.data));
  }

  /**
   * The range checks do not keep the calorie goal positive: answers that
   * every step accepts save a profile whose calorie goal is below zero.
   */
  lemma NegativeCalorieGoal(s: Form.Session, temperature: real)
    ensures
      var s6 := Form.Session(Form.City, Answers(10, 50, 120, "Ж", 1));
      var s7 := Form.ProcessCity(s6, "Москва", Some(temperature)).session;
      && Form.ProcessActivity(Form.ProcessGender(Form.ProcessAge(Form.ProcessHeight(Form.ProcessWeight(
           Form.SetProfile(s).session, ShowInt(10)).session, ShowInt(50)).session, ShowInt(120)).session,
           "Ж").session, ShowInt(1)).session == s6
      && Form.CalorieStep(s7, Form.No).reply.ProfileSaved?
      && Form.CalorieStep(s7, Form.No).reply.profile.calorieGoal < 0.0
  {
    FormReachesCity(s, 10, 50, 120, "Ж", 1);
    ProfileConversation(s, 10, 50, 120, "Ж", 1, "Москва", temperature);
    assert Goals.CalorieGoal(10, 50, 120, "Ж", 1) == -418.2;
  }

  /** Two water logs by one user add up. */
  method TwoWaterLogs(db: Database, user: int, first: int, second: int)
    requires user in db.rows
    modifies db
    ensures user in db.rows
    ensures db.rows[user].loggedWater == old(db.rows[user].loggedWater) + first + second
  {
    ParseShowInt(first);
    ParseShowInt(second);
    var r1 := CmdLogWater(db, user, Some(ShowInt(first)));
    var r2 := CmdLogWater(db, user, Some(ShowInt(second)));
  }

  /**
   * The log updates have no WHERE clause: after one user logs water, every
   * other user's logged water is that user's new total.
   */
  method WaterLogReachesOtherUsers(db: Database, user: int, other: int, amount: int)
    requires user in db.rows && other in db.rows && user != other
    modifies db
    ensures other in db.rows
    ensures db.rows[other].loggedWater == old(db.rows[user].loggedWater) + amount
  {
    ParseShowInt(amount);
    var r := CmdLogWater(db, user, Some(ShowInt(amount)));
  }

  /** A workout raises every user's water goal by the same extra amount based on the caller's goal. */
  method WorkoutRaisesEveryGoal(db: Database, user: int, other: int, kind: string, minutes: int)
    requires user in db.rows && other in db.rows && ' ' !in kind
    modifies db
    ensures other in db.rows
    ensures db.rows[other].waterGoal == old(db.rows[user].waterGoal) + Goals.ExtraWater(minutes)
  {
    ParseWorkoutArgsRoundTrip(kind, minutes);
    var r := CmdLogWorkout(db, user, Some(kind + " " + ShowInt(minutes)));
  }

  /** The progress check reports the same remainder as the water log before it. */
  method ProgressAgreesWithWaterLog(db: Database, user: int, amount: int)
    returns (logged: Reply, report: Reply)
    requires user in db.rows
    modifies db
    ensures logged.WaterLogged? && report.ProgressReport?
    ensures report.water == logged.progress
  {
    ParseShowInt(amount);
    logged := CmdLogWater(db, user, Some(ShowInt(amount)));
    report := CmdCheckProgress(db, user);
  }

  /** Right after a profile is saved, the whole of both goals is still to go. */
  method ProfileResetsProgress(db: Database, user: int, p: Profile) returns (report: Reply)
    modifies db
    ensures report.ProgressReport?
    ensures Signed(report.water) == p.waterGoal as real
    ensures Signed(report.calories) == p.calorieGoal
  {
    db.SaveUser(user, p);
    report := CmdCheckProgress(db, user);
  }

  /** Worked example: goal 2000, eaten 1500, burned 200 leaves 700. */
  method CaloriesAddBack(db: Database, user: int) returns (report: Reply)
    requires user in db.rows
    requires db.rows[user].calorieGoal == 2000.0
    requires db.rows[user].loggedCalories == 1500.0 && db.rows[user].burnedCalories == 200.0
    ensures report.ProgressReport? && report.calories == Remaining(700.0)
  {
    report := CmdCheckProgress(db, user);
  }
}
