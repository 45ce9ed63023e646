# Fitness tracking bot: a Dafny model

The bot collects a profile through a seven-step form (weight, height, age,
gender, activity, city, calorie goal). It computes a daily calorie goal and a
daily water goal, then lets the user log water, food and workouts and check
progress against those goals. The profile and the counters live in one SQLite
table, `users`.

This project models the handlers in `app/handlers.py` and the table in
`app/database.py`:

- `wrappers.dfy` (`Wrappers`): `Option`, standing for Python's `None`.
- `text.dfy` (`Text`): the Python string built-ins the handlers use:
  - `int(text)` becomes `ParseInt`;
  - `str.isdigit()` becomes `IsDigits`;
  - `str.lower()` becomes `Lower`;
  - `str.split(" ")` becomes `Split`.
  `ParseInt` and `Split` each have an inverse (`ShowInt`, `Join`) and round-trip
  lemmas; `Lower` has an idempotence lemma and one saying it leaves digit strings alone.
- `goals.dfy` (`Goals`): the calorie goal (Mifflin-St Jeor BMR times a stepped
  activity factor), the water goal, the MET-based workout calories and the
  extra water per workout. Python floats are exact `real`s. `int()` on a float
  is `Trunc`, which truncates toward zero.
- `user_table.dfy` (`UserTable`): class `Database`, whose field `rows` maps
  `user_id` to a `Row`.
  - `SaveUser` is `INSERT OR REPLACE`. It replaces the whole row, so the
    counters go back to their default of 0.
  - `LogWater`, `LogCalories` and `LogWorkout` are `UPDATE`s with no WHERE
    clause. Each one rewrites its columns in every row.
- `form.dfy` (`Form`): the per-user conversation state (aiogram's
  `FSMContext`) as a value `Session(state, data)`. `data` is a plain map, and
  each form step is a transition function on it.
  - `Inv` says which answers a session in a given state already holds.
  - Every step preserves `Inv`.
- `commands.dfy` (`Commands`): the command handlers as methods over a
  `Database` and a session. Each one reads the caller's row. `/log_water`,
  the food amount step and `/log_workout` add the new amount to the caller's
  stored value and write that total back; `/log_food` only changes the
  session and `/check_progress` changes nothing. The handlers that change the
  table state its whole new contents.
- `scenarios.dfy` (`Scenarios`): worked examples of the formulas, a full profile
  conversation, and what the table-wide updates mean when there are two users.

Behaviour as written, which the model keeps:

- A `/log_water`, `/log_food` or `/log_workout` by one user overwrites that
  column for all users. `Scenarios.WaterLogReachesOtherUsers` and
  `Scenarios.WorkoutRaisesEveryGoal` state the consequence.
- When the weather lookup returns nothing, the water formula raises
  (`None > 25`). The city is already stored, so the form stays in the city
  step (`Form.ProcessCity`, reply `Crashed`). No default temperature is
  assumed.
- `/log_workout` accepts a negative duration. The extra water is then
  truncated toward zero, to the mirror image of the positive value
  (`Goals.ExtraWaterOdd`).
- The form's range checks do not keep the calorie goal positive: a light, short,
  old, non-male profile passes every step and saves a negative goal
  (`Scenarios.NegativeCalorieGoal`), so `/check_progress` reports the goal as
  exceeded from the start.
- The table has one row per user and no dates. There is no per-day log and no
  weekly history in `app/database.py`, so neither is modelled.

## Model

| member | source | states |
|---|---|---|
| Text.ParseInt | app/handlers.py:92-96 | `int(text)` accepts a string of digits with an optional sign and gives its value; a negative result comes only from a leading `-` |
| Text.ParseShowInt | app/handlers.py:92-96 | every integer's decimal rendering parses back to that integer |
| Text.Lower | app/handlers.py:62 | `lower()` keeps the length and lowers each character; digits stay digits |
| Text.LowerIdempotent | app/handlers.py:62 | lowering twice is the same as lowering once |
| Text.LowerDigits | app/handlers.py:197-200 | if `text.lower().isdigit()` then `text` itself is all digits and lowering left it unchanged, so `int(message.text)` is that number |
| Text.Split | app/handlers.py:337 | `split(" ")` gives one piece more than there are spaces, and no piece contains a space |
| Text.JoinSplit | app/handlers.py:337 | joining the pieces with the separator gives back the original string |
| Text.SplitJoin | app/handlers.py:337 | splitting a join of separator-free pieces gives back the pieces |
| Goals.ActivityFactor | app/handlers.py:29-38 | the factor lies in 1.2..1.9; it is 1.2 exactly below 30 minutes and 1.9 exactly from 120 minutes |
| Goals.ActivityFactorMonotone | app/handlers.py:29-38 | the factor never decreases as activity grows |
| Goals.ActivityFactorSteps | app/handlers.py:29-38 | the factor rises at each threshold (29→30, 59→60, 89→90, 119→120) |
| Goals.CalorieGoal | app/handlers.py:23-41 | for a non-negative BMR the goal lies between 1.2 and 1.9 times the BMR |
| Goals.CalorieGoalMonotone | app/handlers.py:23-41 | with a positive BMR, more activity never lowers the goal |
| Goals.BmrGenderGap | app/handlers.py:24-27 | the male BMR (`'М'`) is 166 kcal above the BMR for any other gender value |
| Goals.Trunc | app/handlers.py:45 | `int()` on a float truncates toward zero: the largest integer not above a non-negative value, the smallest not below a negative one |
| Goals.HeatBonus | app/handlers.py:44 | the bonus is 0 or 500, and it is 500 exactly when the temperature is strictly above 25 |
| Goals.WaterGoalClosedForm | app/handlers.py:43-45 | for non-negative weight and activity the goal is `30w + ⌊50a/3⌋ + bonus` in integer arithmetic |
| Goals.WaterGoalHeatStep | app/handlers.py:43-45 | any temperature above 25 gives exactly 500 ml more than a temperature of 25 |
| Goals.Met | app/handlers.py:49-62 | the MET comes from the ten-entry table or is the default 5.0, so it lies between 3.0 and 8.0 |
| Goals.MetCaseInsensitive | app/handlers.py:62 | a workout type and its lower-case form get the same MET |
| Goals.RoundTenth | app/handlers.py:64 | rounding lands on a whole number of tenths within 0.05 of the input |
| Goals.RoundTenthExact | app/handlers.py:64 | a value that is already a whole number of tenths is left unchanged |
| Goals.WorkoutCalories | app/handlers.py:47-64 | the result is within 0.05 of `MET × weight × duration / 60` |
| Goals.ExtraWaterClosedForm | app/handlers.py:356 | the extra water is `⌊20d/3⌋` for `d ≥ 0` and `−⌊20·(−d)/3⌋` for negative `d` |
| Goals.ExtraWaterOdd | app/handlers.py:356 | a negative duration gives the negation of the extra water for the positive one |
| UserTable.NewRow | app/database.py:10-26 | a new row carries exactly the given profile and zero counters |
| UserTable.Database.constructor | app/database.py:8-27 | a newly created table holds no rows |
| UserTable.Database.SaveUser | app/database.py:29-48 | the caller's row becomes exactly the profile with zeroed counters; other rows are unchanged |
| UserTable.Database.GetUser | app/database.py:50-59 | the result is absent exactly when no row has that `user_id`; otherwise it is that row |
| UserTable.Database.LogWater | app/database.py:61-64 | every row's `logged_water` becomes the value; no other column or row key changes |
| UserTable.Database.LogCalories | app/database.py:66-72 | every row's `logged_calories` becomes the value; nothing else changes |
| UserTable.Database.LogWorkout | app/database.py:74-80 | every row's `burned_calories` and `water_goal` become the values; nothing else changes |
| Form.NextState | app/handlers.py:11-18 | each successful step moves exactly one place along the weight→…→calories order |
| Form.Start | app/handlers.py:66-69 | `/start` clears the state and the data |
| Form.SetProfile | app/handlers.py:84-88 | `/set_profile` drops any conversation in progress and enters the weight step with empty data |
| Form.NumericStep | app/handlers.py:90-169 | non-numbers are rejected as such, out-of-range numbers as out of range, and both leave the session unchanged; an accepted value is stored under its key and the state advances |
| Form.ProcessWeight | app/handlers.py:90-105 | accepted exactly when the text is an integer above 0; otherwise the session is unchanged; on acceptance the weight is stored and the state is height |
| Form.ProcessHeight | app/handlers.py:107-122 | accepted exactly for an integer above 0; a rejection changes nothing; acceptance stores the height and moves to age |
| Form.ProcessAge | app/handlers.py:124-146 | accepted exactly for an integer from 1 to 120; a rejection changes nothing; acceptance stores the age and moves to gender |
| Form.ProcessGender | app/handlers.py:148-153 | any callback value is stored unchecked and the state moves to activity |
| Form.ProcessActivity | app/handlers.py:155-169 | accepted exactly for an integer from 1 to 1440; a rejection changes nothing; acceptance stores it and moves to city |
| Form.ProcessCity | app/handlers.py:171-193 | the city is stored; with a temperature, both goals are computed from the collected answers, stored, and the state moves to calories; without one, the handler fails and stays in the city step |
| Form.ProfileOfData | app/handlers.py:205-206 | the saved profile holds the collected answers, which lie in their checked ranges |
| Form.CalorieAnswer | app/handlers.py:195-206 | `нет` in any letter case keeps the computed goal; a digit string replaces it with its value; anything else is rejected |
| Form.CalorieStep | app/handlers.py:195-226 | a rejection keeps the session in the calories step; an acceptance saves the profile and clears the session |
| Commands.Classify | app/handlers.py:250-255 | remaining when the remainder is above 0, exceeded when below, achieved at exactly 0; the amount shown is positive and the report gives back the signed remainder |
| Commands.CmdLogWater | app/handlers.py:228-261 | without a profile, or with a non-integer amount, nothing is written; otherwise the total is amount plus stored water, it is written to every row, and the reply classifies goal minus total |
| Commands.CmdLogFood | app/handlers.py:263-289 | without a profile or a product name nothing changes; otherwise the product and the calories per 100 g (None when unknown) are stored and the session enters the food state |
| Commands.LogFood | app/handlers.py:291-323 | with unknown calories per 100 g an integer answer sets them and the state stays; otherwise an integer amount gives the caller's new total (stored calories plus `per100g·amount/100`), which is written to every row, and the session is cleared; a non-integer changes nothing |
| Commands.ParseWorkoutArgs | app/handlers.py:334-350 | the arguments fail to split unless they hold exactly one space; the type is the text before the space, and the duration is the integer after it |
| Commands.ParseWorkoutArgsRoundTrip | app/handlers.py:334-350 | a space-free type and any integer duration, written `type minutes`, are read back as written |
| Commands.CmdLogWorkout | app/handlers.py:325-364 | without a profile or with bad arguments nothing is written; otherwise every row gets the caller's burned total plus the new burn, and the caller's water goal plus the extra water |
| Commands.CmdCheckProgress | app/handlers.py:366-400 | water left is goal minus logged; calories left are goal minus eaten plus burned; both use the same three-way report |
| Commands.SetCustomGoal | app/handlers.py:195-226 | the profile is saved exactly when the answer is accepted, as the caller's row with zeroed counters; on rejection the table is unchanged |
| Scenarios.WaterGoalExamples | app/handlers.py:43-45 | 70 kg, 30 min, 26° gives 3100; at 20° it gives 2600; 70 kg, 45 min, 30° gives 3350 |
| Scenarios.WorkoutCaloriesKnownType | app/handlers.py:47-64 | `БЕГ` (upper case) for 60 min at 70 kg burns 560.0 kcal, by the MET of `бег` |
| Scenarios.WorkoutCaloriesUnknownType | app/handlers.py:47-64 | a type not in the table, 60 min at 70 kg, burns 350.0 kcal at the default MET |
| Scenarios.CalorieGoalExample | app/handlers.py:23-41 | 70 kg, 175 cm, 30 years, male, 45 minutes gives 2267.03125 kcal |
| Scenarios.AgeBoundaries | app/handlers.py:132-134 | an age written in decimal is accepted exactly from 1 to 120 |
| Scenarios.WeightNotANumber | app/handlers.py:92-96 | the weight `abc` is rejected and the session is unchanged |
| Scenarios.FormReachesCity | app/handlers.py:84-169 | from any session, `/set_profile` and valid answers to the first five questions reach the city step holding exactly those answers |
| Scenarios.ProfileConversation | app/handlers.py:171-226 | from the city step with those answers, a temperature and then `нет` save exactly the answers with the computed goals, and clear the session |
| Scenarios.TwoWaterLogs | app/handlers.py:244-248 | two water logs by one user add up |
| Scenarios.WaterLogReachesOtherUsers | app/database.py:61-64 | after one user logs water, every other user's logged water equals that user's new total |
| Scenarios.WorkoutRaisesEveryGoal | app/handlers.py:352-359 | a workout sets every user's water goal to the caller's goal plus the extra water |
| Scenarios.ProgressAgreesWithWaterLog | app/handlers.py:374-382 | the progress check right after a water log gives the same report as the log |
| Scenarios.ProfileResetsProgress | app/database.py:29-48 | right after a profile is saved, the full water and calorie goals are still to go |
| Scenarios.NegativeCalorieGoal | app/handlers.py:90-226 | answers every step accepts (10 kg, 50 cm, 120 years, `Ж`, 1 minute) save a profile whose calorie goal is negative |
| Scenarios.CaloriesAddBack | app/handlers.py:375 | goal 2000, eaten 1500, burned 200 leaves 700 remaining |

## Left out

- Weather and food lookups (`app/utils.py`) are HTTP calls. Their results are inputs: an optional temperature, and optional calories per 100 g. When a food is found without a calorie field, the lookup supplies 0 itself.
- aiogram transport is left out: message sending, the inline keyboard, `/help` and the reply texts. Replies are outcome values. Also left out is which handler the dispatcher picks for a message, which depends on the registration order.
- Per-user session storage is not modelled. A handler takes the caller's session as a value and returns the new one.
- Messages without text are left out. There `message.text` is None and the handlers raise.
- `Text.ParseInt`: does not accept what Python's `int()` also takes: surrounding whitespace, underscores between digits, and non-ASCII decimal digits.
- `Text.IsDigits`: covers only ASCII digits. Python's `isdigit()` also accepts characters such as superscripts, for which `int()` then raises.
- `Text.Lower`: lowers only ASCII and Russian capital letters, not the rest of Unicode.
- Floats are exact reals. IEEE rounding is not modelled. Neither is the `:.0f` display of goals.
- `Goals.RoundTenth`: rounds to the nearest tenth on exact reals, with ties to even. It does not model how `round(x, 1)` acts on binary floats.
- `Goals.WorkoutCalories`: its contract says only that the result is within 0.05 of the exact product, because rounding is an abstract step here.
- `Commands.LogFood`: when the caller has no row, the handler raises before writing. This is modelled as `Crashed` with nothing changed. Rows are never deleted, so a user in the food state always has one.
- Integer width is not modelled. Integers are unbounded here, but in the source an integer of 2^63 or more in size makes the SQLite binding raise `OverflowError` with nothing written (`save_user`, `log_water`, `log_workout`), and Python's `int()` rejects strings of more than 4300 digits as not a number. The model parses and writes such values.
- The `created_at` column, the database path, connections, commits and storage failures are left out.
- The root-level `database.py` is an alternative store keyed by date. Its signatures do not match the handler calls, so it is not part of this model.
- Concurrency is left out: `await`, and interleaved requests from several users.
