/**
 * The `users` table of the SQLite store, held in memory as a map from
 * `user_id` (the primary key) to the row. Every method other than GetUser
 * changes the table in place. The three `log` updates carry no WHERE clause,
 * so each of them overwrites its columns in EVERY row, not only the caller's.
 */
module UserTable {
  import opened Wrappers

  /** The columns `save_user` writes. */
  datatype Profile = Profile(
    weight: int, height: int, age: int, gender: string, activity: int, city: string,
    waterGoal: int, calorieGoal: real)

  /** A row of `users`: the profile columns and the three logged counters. */
  datatype Row = Row(
    weight: int, height: int, age: int, gender: string, activity: int, city: string,
    waterGoal: int, calorieGoal: real,
    loggedWater: int, loggedCalories: real, burnedCalories: real)

  /** The row `INSERT OR REPLACE` creates: the counters take their column default 0. */
  function NewRow(p: Profile): (row: Row)
    ensures row.loggedWater == 0 && row.loggedCalories == 0.0 && row.burnedCalories == 0.0
    ensures ProfileOf(row) == p
  {
    Row(p.weight, p.height, p.age, p.gender, p.activity, p.city, p.waterGoal, p.calorieGoal, 0, 0.0, 0.0)
  }

  function ProfileOf(row: Row): Profile
  {
    Profile(row.weight, row.height, row.age, row.gender, row.activity, row.city, row.waterGoal, row.calorieGoal)
  }

  class Database {
    var rows: map<int, Row>

    /** A freshly created, empty table. */
    constructor ()
      ensures rows == map[]
    {
      rows := map[];
    }

    /**
     * Upsert: the row for `userId` is replaced wholesale, so its counters
     * restart at 0; no other row changes.
     */
    method SaveUser(userId: int, p: Profile)
      modifies this
      ensures rows == old(rows)[userId := NewRow(p)]
      ensures ProfileOf(rows[userId]) == p
      ensures rows[userId].loggedWater == 0 && rows[userId].loggedCalories == 0.0
      ensures rows[userId].burnedCalories == 0.0
      ensures forall u :: u in old(rows) && u != userId ==> u in rows && rows[u] == old(rows)[u]
    {
      rows := rows[userId := NewRow(p)];
    }

    /** The row for `userId`, absent exactly when the table has none. */
    method GetUser(userId: int) returns (row: Option<Row>)
      ensures row.None? <==> userId !in rows
      ensures row.Some? ==> row.value == rows[userId]
    {
      if userId in rows {
        row := Some(rows[userId]);
      } else {
        row := None;
      }
    }

    /** `UPDATE users SET logged_water = ?`: every row, no other column. */
    method LogWater(loggedWater: int)
      modifies this
      ensures rows.Keys == old(rows).Keys
      ensures forall u :: u in rows ==> rows[u] == old(rows)[u].(loggedWater := loggedWater)
    {
      rows := map u | u in rows :: rows[u].(loggedWater := loggedWater);
    }

    /** `UPDATE users SET logged_calories = ?`: every row, no other column. */
    method LogCalories(loggedCalories: real)
      modifies this
      ensures rows.Keys == old(rows).Keys
      ensures forall u :: u in rows ==> rows[u] == old(rows)[u].(loggedCalories := loggedCalories)
    {
      rows := map u | u in rows :: rows[u].(loggedCalories := loggedCalories);
    }

    /** `UPDATE users SET burned_calories = ?, water_goal = ?`: every row, no other column. */
    method LogWorkout(burnedCalories: real, waterGoal: int)
      modifies this
      ensures rows.Keys == old(rows).Keys
      ensures forall u :: u in rows ==>
        rows[u] == old(rows)[u].(burnedCalories := burnedCalories, waterGoal := waterGoal)
    {
      rows := map u | u in rows :: rows[u].(burnedCalories := burnedCalories, waterGoal := waterGoal);
    }
  }
}
