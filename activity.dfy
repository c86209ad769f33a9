/** The per-user day tracker the water, food and exercise handlers mutate. */
module Activity {

  /** One planned exercise; `time` is the opaque "HH:MM" text it was added or stamped at. */
  datatype Exercise = Exercise(name: string, sets: nat, reps: nat, weight: nat, notes: string,
                               completed: bool, time: string)

  /** One food-log entry. */
  datatype Food = Food(name: string, calories: nat, protein: nat, carbs: nat, fat: nat, time: string)

  /** A user's tracker: the food log, the water total in millilitres and the exercise plan. */
  datatype Tracker = Tracker(foodLog: seq<Food>, water: int, exercises: seq<Exercise>)

  /** The tracker after logging food entry `f`. */
  function LogMeal(t: Tracker, f: Food): Tracker
  {
    t.(foodLog := t.foodLog + [f])
  }

  /** The tracker after drinking `amount` ml. */
  function Drink(t: Tracker, amount: nat): Tracker
  {
    t.(water := t.water + amount)
  }

  /** The tracker after marking exercise `i` done. */
  function MarkDone(t: Tracker, i: nat): Tracker
    requires i < |t.exercises|
  {
    t.(exercises := t.exercises[i := t.exercises[i].(completed := true)])
  }

  /** The workout every new tracker starts with (DEFAULT_EX). */
  const DefaultEx: seq<Exercise> := [
    Exercise("Warm-Up Jog", 1, 1, 0, "5 min easy jog", false, ""),
    Exercise("Bodyweight Squats", 3, 15, 0, "Focus on depth", false, ""),
    Exercise("Push-Ups", 3, 12, 0, "Keep core tight", false, ""),
    Exercise("Lateral Shuffles", 4, 10, 0, "Explosive lateral", false, ""),
    Exercise("Plank Hold", 3, 1, 0, "30 sec each set", false, ""),
    Exercise("Cool-Down Stretch", 1, 1, 0, "Full body 5 min", false, "")
  ]

  /** The water amounts the quick-add buttons offer. */
  const WaterButtons: seq<nat> := [150, 250, 500, 750]
}
