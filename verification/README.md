# Health-metrics core of a Next.js nutrition app, in Dafny

This project models the rule-carrying parts of a health and nutrition web app. It is written in Dafny and the properties are proved.

- **Engine.** The body-mass-index and daily-calorie engine: BMI, its four-band category, and the Mifflin-St Jeor calorie estimate scaled by an activity multiplier.
- **Health-metrics page.** Its quick calculator, its colours, advice and recommendations, the metrics it recomputes from the stored profile, and its loading / sign-in gate.
- **Profile form.** The field defaults, the list toggles and the submit handler.
- **Dashboard.** The calorie tracker and the progress bar.
- **Meals API.** Its GET and POST handlers.
- **Mongoose schemas.** The Meal and Recipe schemas, with their defaults, setters and validators.
- **Form state.** The meal-logging form and the mood tracker.

## How it is modelled

- **Numbers are `real`.** The model is exact where the app uses IEEE doubles.
  - `Math.round` is `floor(x + 1/2)`.
  - `toFixed(1)` read back by `parseFloat` is rounding to tenths, half away from zero.
  - JavaScript truthiness of an optional number, string or array is written out in `Js`.
- **Pure code is pure Dafny.** Functions that compute a value become functions with named results: BMI, calories, colours, lookups, the tracker's arithmetic, the validators and the route handlers.
- **State is a class.** Components whose state is changed step by step become classes:
  - `ManualBMICalculator` and `HealthMetricsPage`;
  - `ProfileFormState`;
  - `MealLoggerState`;
  - `MoodTrackerState`.
  Their methods state the whole new state.
- **Outside effects are parameters.** These are:
  - the database (whether connecting threw, and what the query or the write returned or threw);
  - the request body parse;
  - the clock (`now`, `timestamp`);
  - the file reader's result;
  - whether the profile update succeeded.
- **Behaviour worth knowing, proved in the model:**
  - `calculateBMI` picks the category from the raw BMI but returns the rounded value. Every colour is then chosen from the rounded value. A raw 24.96 is shown as 25.0, captioned "Normal weight" and coloured as overweight. `RoundedBandAtMostOneAbove` pins down exactly when this happens: within 0.05 under a threshold.
  - The meals POST tests required fields by truthiness. A 0-calorie meal that the schema would accept is refused with 400. A name made only of spaces passes that test and is refused by the schema after trimming, with 500.
  - A Recipe with no ingredients is reported as "At least one ingredient is required", never "Ingredients are required". The missing array defaults to the empty one, which `required` accepts.

For 70 kg, 175 cm, 25 years, male, moderate activity the code computes a BMR of 1673.75 and 2594 kcal (2337 with the female formula); see `UserProfile.DailyCaloriesExamples`.

## Model

| member | source | states |
|---|---|---|
| Js.Round | lib/firebase/userProfile.ts:75 | `Math.round` is the integer within (x - 1/2, x + 1/2] |
| Js.RoundMonotone | lib/firebase/userProfile.ts:75 | `Math.round` never reverses the order of its arguments |
| Js.RoundStrictStep | lib/firebase/userProfile.ts:75 | arguments at least 1 apart round to different integers, in the same order |
| Js.ToFixed1 | lib/firebase/userProfile.ts:48 | the result is a whole number of tenths within 0.05 of x, ties away from zero |
| Js.ToFixed1AgainstThreshold | lib/firebase/userProfile.ts:43-48 | for a threshold t that is a whole number of tenths, rounding never takes a value at or above t below it; a value under t is rounded up to t exactly when it is within 0.05 under t |
| Js.Trim | lib/mongodb/models/Meal.ts:28 | `trim` is the input with only white space removed from its two ends: a slice `s[i..j]` with white space before `i` and after `j`, starting and ending with a non-space; empty exactly for all-white-space input |
| Js.TrimIdempotent | lib/mongodb/models/Meal.ts:28 | trimming twice is trimming once |
| UserProfile.BandOf | lib/firebase/userProfile.ts:42-46 | each of the four bands holds exactly on its half-open interval `<18.5`, `[18.5,25)`, `[25,30)`, `>=30` |
| UserProfile.RawBMI | lib/firebase/userProfile.ts:39-40 | BMI times the square of the height in cm equals weight times 10000, i.e. weight over the square of the height in metres |
| UserProfile.CalculateBMI | lib/firebase/userProfile.ts:38-49 | the category is one of the four labels, each exactly on its band of the unrounded BMI; `bmi` is a whole number of tenths within 0.05 of the raw value; `dailyCalories` is 0 |
| UserProfile.BMR | lib/firebase/userProfile.ts:58-64 | the Mifflin-St Jeor equation 10w + 6.25h - 5a, plus 5 for exactly "male" and -161 for every other gender |
| UserProfile.ActivityMultiplier | lib/firebase/userProfile.ts:66-74 | the five levels map to 1.2/1.375/1.55/1.725/1.9; any other string gives 1.2 |
| UserProfile.CalculateDailyCalories | lib/firebase/userProfile.ts:51-76 | the result is the integer `Math.round` gives for BMR times the multiplier |
| UserProfile.NonMaleUsesFemaleFormula | lib/firebase/userProfile.ts:60-64 | every gender but "male" gets the female BMR, exactly 166 below the male one |
| UserProfile.MultiplierOrdering | lib/firebase/userProfile.ts:66-74 | multipliers rise strictly with the activity level; an unknown level counts as sedentary |
| UserProfile.DailyCaloriesExamples | lib/firebase/userProfile.ts:58-75 | BMR 1673.75 and 2594 kcal for 70 kg/175 cm/25 y/male/moderate; 2337 for female; 1809 for "other" with an unknown level |
| UserProfile.BMIExamples | lib/firebase/userProfile.ts:38-49 | at 170 cm, 50/70/85/100 kg give 17.3 Underweight, 24.2 Normal weight, 29.4 Overweight, 34.6 Obese |
| UserProfile.BandingUsesRawValue | lib/firebase/userProfile.ts:40-48 | a raw BMI of 24.96 is returned as 25.0 yet classified "Normal weight" |
| UserProfile.LowerBoundInclusive | lib/firebase/userProfile.ts:43-44 | a raw BMI of exactly 18.5 is "Normal weight"; just below it is "Underweight" |
| UserProfile.BMIIncreasesWithWeight | lib/firebase/userProfile.ts:39-40 | at a fixed height, raw BMI strictly increases with weight |
| UserProfile.DailyCaloriesMonotoneInWeight | lib/firebase/userProfile.ts:61-75 | other inputs fixed, calories never decrease with weight, and rise strictly for a gain of 0.1 kg or more |
| UserProfile.RoundedBandAtMostOneAbove | lib/firebase/userProfile.ts:42-48 | the band of the rounded BMI is the raw band or the next one up, the next one exactly when the raw value is within 0.05 under a threshold |
| UserProfile.ProfileMetrics | app/health-metrics/page.tsx:97-114 | metrics exist exactly when weight and height are truthy; BMI and category are `calculateBMI`'s; calories are non-zero only when age, gender and activity level are all truthy, and then equal `calculateDailyCalories` |
| HealthMetrics.CalculatorColour | app/health-metrics/page.tsx:24-29 | the calculator's colour is the palette entry of the band of its argument |
| HealthMetrics.CardColour | app/health-metrics/page.tsx:129-134 | the card's colour is the palette entry of the band of its argument |
| HealthMetrics.ColourDisagreesWithCategory | app/health-metrics/page.tsx:129-134 | for a raw BMI of 24.96 the category is "Normal weight" while both colours are the overweight yellow |
| HealthMetrics.ColourFollowsCategoryUnlessNearThreshold | app/health-metrics/page.tsx:204-212 | the card's colour is the category's own exactly when the raw BMI is not within 0.05 under a threshold, and otherwise the next band's |
| HealthMetrics.CalculatorAdviceLines | app/health-metrics/page.tsx:80-83 | the four guarded sentences yield exactly one, the one of the band of the displayed BMI |
| HealthMetrics.Recommendation | app/health-metrics/page.tsx:136-149 | each category maps to its message; any other string to "" |
| HealthMetrics.RecommendationAlwaysShown | app/health-metrics/page.tsx:136-149 | every category `calculateBMI` produces has a non-empty recommendation |
| HealthMetrics.ActivityDescription | app/health-metrics/page.tsx:151-160 | the five levels map to their descriptions; any other level is returned unchanged, so "" only for "" |
| HealthMetrics.ManualBMICalculator.constructor | app/health-metrics/page.tsx:13-15 | starts at 70 kg, 170 cm and no result |
| HealthMetrics.ManualBMICalculator.SetWeight | app/health-metrics/page.tsx:41 | sets the weight only |
| HealthMetrics.ManualBMICalculator.SetHeight | app/health-metrics/page.tsx:53 | sets the height only |
| HealthMetrics.ManualBMICalculator.Calculate | app/health-metrics/page.tsx:17-22 | replaces the result with `calculateBMI` only when weight and height are positive; otherwise the previous result stays |
| HealthMetrics.ManualBMICalculator.Advice | app/health-metrics/page.tsx:67-85 | no advice before the first result, then exactly the one sentence of the band of the displayed (rounded) BMI |
| HealthMetrics.HealthMetricsPage.constructor | app/health-metrics/page.tsx:95 | starts with no metrics |
| HealthMetrics.HealthMetricsPage.OnProfileChange | app/health-metrics/page.tsx:97-114 | metrics are replaced by the profile's exactly when weight and height are truthy; otherwise kept |
| HealthMetrics.HealthMetricsPage.Render | app/health-metrics/page.tsx:116-324 | placeholder exactly while loading; redirect to /auth exactly when loaded with no user; the profile prompt exactly when weight or height is missing; the calorie card exactly when calories are positive; the BMI card's value, category, colour and recommendation; the activity text is the description of the profile's level, or of "" when it has none |
| HealthMetrics.CalorieCardNeedsCompleteProfile | app/health-metrics/page.tsx:255 | positive calories imply truthy age, gender and activity level |
| ProfileForm.RemoveAll | components/profile/ProfileForm.tsx:79 | the item is gone, other values keep their membership, and nothing changes when the item is absent |
| ProfileForm.RemoveAllCounts | components/profile/ProfileForm.tsx:79 | every other value keeps its number of occurrences |
| ProfileForm.RemoveAllAppend | components/profile/ProfileForm.tsx:79 | filtering distributes over concatenation, so kept elements stay in order |
| ProfileForm.Toggle | components/profile/ProfileForm.tsx:77-83 | a present item is filtered out, an absent one appended; its membership flips and every other value's is kept |
| ProfileForm.ToggleTwiceRestores | components/profile/ProfileForm.tsx:77-83 | toggling an absent item twice restores the list exactly |
| ProfileForm.FieldsFrom | components/profile/ProfileForm.tsx:10-16 | each field takes the profile's truthy value, else 0 / "male" / 0 / 0 / "moderate" / [] / [] |
| ProfileForm.UpdateFrom | components/profile/ProfileForm.tsx:57-65 | re-seeding the form from the update gives back the lists, every non-zero number and every non-empty string unchanged; metrics exist for it whenever weight and height are non-zero |
| ProfileForm.CompleteProfileRoundTrip | components/profile/ProfileForm.tsx:22-29 | a saved form whose fields are all truthy seeds the form with exactly the same values |
| ProfileForm.ProfileFormState.constructor | components/profile/ProfileForm.tsx:10-19 | fields seeded from the profile; not loading, no success, no metrics |
| ProfileForm.ProfileFormState.OnProfileChange | components/profile/ProfileForm.tsx:21-47 | with a profile, fields reseeded and metrics replaced when weight and height are truthy; without one, nothing changes |
| ProfileForm.ProfileFormState.TogglePreference | components/profile/ProfileForm.tsx:184 | the preference list becomes its toggle; nothing else changes |
| ProfileForm.ProfileFormState.ToggleGoal | components/profile/ProfileForm.tsx:206 | the goal list becomes its toggle; nothing else changes |
| ProfileForm.ProfileFormState.HandleSubmit | components/profile/ProfileForm.tsx:49-75 | without a user nothing is sent; otherwise the form's values are sent, success ends as the update's outcome, loading ends false |
| CalorieTracker.Remaining | components/dashboard/CalorieTracker.tsx:28 | remaining plus consumed equals goal plus burned |
| CalorieTracker.Progress | components/dashboard/CalorieTracker.tsx:29 | progress times the goal equals consumed times 100 |
| CalorieTracker.StatusOf | components/dashboard/CalorieTracker.tsx:53-54 | Over Goal exactly above 100, On Track exactly in (80, 100], Under Goal exactly at or below 80 |
| CalorieTracker.StatusText | components/dashboard/CalorieTracker.tsx:54 | "Over Goal", "On Track" and "Under Goal", each for exactly its status |
| CalorieTracker.StatusVariant | components/dashboard/CalorieTracker.tsx:53 | crimson, lemonade and electric, each for exactly its status |
| CalorieTracker.StatusBoundaries | components/dashboard/CalorieTracker.tsx:53-54 | exactly 100 is On Track (lemonade), exactly 80 is Under Goal (electric), 100.5 is Over Goal (crimson) |
| CalorieTracker.StatusAgainstGoal | components/dashboard/CalorieTracker.tsx:29-54 | for a positive goal the badge is Over Goal exactly when intake exceeds the goal and Under Goal exactly when intake is at most four fifths of it |
| CalorieTracker.RingFill | components/dashboard/CalorieTracker.tsx:82 | the fill never exceeds 1; it is progress/100 up to 100 % and 1 beyond |
| CalorieTracker.RemainingTile | components/dashboard/CalorieTracker.tsx:113-123 | shows the magnitude of remaining, "Remaining" and an upward trend exactly when positive, "Over" otherwise |
| CalorieTracker.ZeroRemainingShowsOver | components/dashboard/CalorieTracker.tsx:113-123 | exactly nothing left is shown as 0 "Over" |
| CalorieTracker.WeeklySeries | components/dashboard/CalorieTracker.tsx:37-45 | seven days, Sunday last with today's intake, the six sample days at least 1800 |
| ProgressBar.Clamp | components/ui/ProgressBar.tsx:36 | the result lies in [0, 100]: below 0 gives 0, above 100 gives 100, values in between unchanged |
| ProgressBar.ClampIdempotent | components/ui/ProgressBar.tsx:36 | clamping twice is clamping once |
| ProgressBar.PercentLabel | components/ui/ProgressBar.tsx:46 | an integer in 0..100 within 1/2 of the clamped progress |
| ProgressBar.LabelText | components/ui/ProgressBar.tsx:43 | the label when truthy, otherwise "Progress"; never empty |
| Validators.TrimmedOpt | lib/mongodb/models/Meal.ts:28 | a present string becomes its `trim`, no longer, and empty exactly when it was all white space; a missing one stays missing |
| MealSchema.Build | lib/mongodb/models/Meal.ts:18-65 | mealName, imageUrl and notes trimmed; the date defaults to now; every other field as given |
| MealSchema.RebuildUnchanged | lib/mongodb/models/Meal.ts:25-65 | a built document rebuilt at any later time is unchanged |
| MealSchema.Failure | lib/mongodb/models/Meal.ts:20-60 | per path, the message of its first failing validator: required for userId, mealName, mealType and calories; the enum for mealType; min 0 for calories and the optional macros; 500 characters for notes |
| MealSchema.ValidIffNoFailure | lib/mongodb/models/Meal.ts:18-65 | a document meets every schema constraint exactly when no path fails |
| MealSchema.Errors | lib/mongodb/models/Meal.ts:18-65 | no errors exactly when the document is valid; an error is listed exactly for each failing path with its message |
| MealSchema.Create | lib/mongodb/models/Meal.ts:18-78 | the built document exactly when it is valid, otherwise the "Meal validation failed" message of its errors |
| MealSchema.BlankNameFailsAfterTrim | lib/mongodb/models/Meal.ts:25-29 | a name of spaces is truthy but fails `required` once trimmed |
| MealSchema.NotesLimitAppliesAfterTrim | lib/mongodb/models/Meal.ts:56-60 | 502 characters of notes with 500 between surrounding spaces pass the length limit |
| RecipeSchema.Build | lib/mongodb/models/Recipe.ts:25-115 | name, description and imageUrl trimmed; missing arrays empty; difficulty "medium" and isPublic true by default; everything else as given |
| RecipeSchema.RebuildUnchanged | lib/mongodb/models/Recipe.ts:31-110 | a built document rebuilt is unchanged |
| RecipeSchema.Failure | lib/mongodb/models/Recipe.ts:31-106 | per path, the message of its first failing validator: required name; required description up to 1000 characters; non-empty ingredients and instructions; prep and cook time at least 0; servings at least 1; calories at least 0; optional macros at least 0; difficulty in easy/medium/hard |
| RecipeSchema.ValidIffNoFailure | lib/mongodb/models/Recipe.ts:25-115 | a document meets every schema constraint exactly when no path fails |
| RecipeSchema.Errors | lib/mongodb/models/Recipe.ts:25-115 | no errors exactly when the document is valid; an error is listed exactly for each failing path with its message |
| RecipeSchema.Create | lib/mongodb/models/Recipe.ts:25-124 | the built document exactly when it is valid, otherwise the "Recipe validation failed" message of its errors |
| RecipeSchema.MissingIngredientsReportEmptyList | lib/mongodb/models/Recipe.ts:42-49 | a missing ingredient list is reported by the custom validator, never by `required` |
| RecipeSchema.EmptyDifficultyRejected | lib/mongodb/models/Recipe.ts:102-106 | an explicit empty difficulty is not defaulted and fails the enum |
| MealsRoute.Get | app/api/meals/route.ts:6-36 | 500 with the thrown message when connecting or the query throws; 400 "User ID is required" exactly for a falsy userId; otherwise 200 with the meals and `count` their number; success exactly for 200 |
| MealsRoute.RequiredPresent | app/api/meals/route.ts:46 | the required-fields test passes exactly when userId, mealName and mealType are present and non-empty and calories are present and non-zero |
| MealsRoute.CreateInput | app/api/meals/route.ts:53-64 | the body's fields with the date kept when given and set to now otherwise |
| MealsRoute.Post | app/api/meals/route.ts:39-78 | 500 with the thrown message for connect or parse errors; 400 "Missing required fields" exactly when a required field is falsy; the schema's validation message as 500; 201 with the built valid document and positive calories exactly when all checks pass and the write succeeds; a write that throws for a valid document gives 500 with its message |
| MealsRoute.CreatedMealDate | app/api/meals/route.ts:63 | a created meal carries the client's date, or the request time when none was sent |
| MealsRoute.ZeroCaloriesRefusedBeforeSchema | app/api/meals/route.ts:46 | a 0-calorie meal valid for the schema still gets 400 |
| MealsRoute.BlankNameFailsInSchema | app/api/meals/route.ts:46-64 | a name of spaces passes the route's test and gets the schema's validation error as 500 |
| MealsRoute.NegativeCaloriesFailInSchema | app/api/meals/route.ts:46-64 | negative calories pass the route's test and fail the schema's `min`, as 500 |
| MealLogger.SubmitEnabled | components/meals/MealLogger.tsx:251 | the button is enabled exactly when the title has a non-white-space character |
| MealLogger.SubmitEnabledExamples | components/meals/MealLogger.tsx:251 | empty and all-space titles disable the button; one visible character enables it |
| MealLogger.MealLoggerState.constructor | components/meals/MealLogger.tsx:16-20 | photo tab, breakfast, no image, empty title and notes |
| MealLogger.MealLoggerState.SelectMealType | components/meals/MealLogger.tsx:77 | the meal type becomes the button's id, one of the four; nothing else changes |
| MealLogger.MealLoggerState.SelectTab | components/meals/MealLogger.tsx:100-121 | only the tab changes |
| MealLogger.MealLoggerState.EditTitle | components/meals/MealLogger.tsx:228 | only the title changes |
| MealLogger.MealLoggerState.EditNotes | components/meals/MealLogger.tsx:240 | only the notes change |
| MealLogger.MealLoggerState.ImageLoaded | components/meals/MealLogger.tsx:33-35 | only the image changes, to the loaded data URL |
| MealLogger.MealLoggerState.RemoveImage | components/meals/MealLogger.tsx:145 | only the image changes, to none |
| MealLogger.MealLoggerState.HandleMealSubmit | components/meals/MealLogger.tsx:40-56 | the record carries type, title, notes, image, timestamp and tab; then title, notes and image are cleared and type and tab kept |
| MealLogger.MealLoggerState.PressLogMeal | components/meals/MealLogger.tsx:247-252 | a disabled button changes nothing; an enabled one submits; afterwards the button is disabled |
| MoodTracker.Find | components/dashboard/MoodTracker.tsx:60 | none exactly when no mood has the id; otherwise the first mood with it |
| MoodTracker.MoodIcon | components/dashboard/MoodTracker.tsx:59-62 | the matching mood's icon, Meh for an unknown id |
| MoodTracker.MoodColor | components/dashboard/MoodTracker.tsx:64-67 | the matching mood's colour, "neutral" for an unknown id |
| MoodTracker.IdsDistinct | components/dashboard/MoodTracker.tsx:23-30 | no two moods share an id |
| MoodTracker.LookupExamples | components/dashboard/MoodTracker.tsx:59-67 | sad is crimson, tired is the Moon icon, an unknown id is "neutral" with Meh, and the mood "neutral" is "electric" |
| MoodTracker.EnergyDots | components/dashboard/MoodTracker.tsx:119-127 | five dots, the dot of level k filled exactly when k is at most the energy level |
| MoodTracker.FilledDotsMatchLevel | components/dashboard/MoodTracker.tsx:124 | exactly `level` dots are filled for levels 1 to 5 |
| MoodTracker.MoodTrackerState.constructor | components/dashboard/MoodTracker.tsx:20-21 | no mood selected, energy 3 |
| MoodTracker.MoodTrackerState.SelectMood | components/dashboard/MoodTracker.tsx:87 | the selection becomes a mood id; energy kept; the selection stays empty or a mood id |
| MoodTracker.MoodTrackerState.SelectEnergy | components/dashboard/MoodTracker.tsx:122 | energy becomes the pressed level, kept within 1..5; the mood is kept |
| MoodTracker.MoodTrackerState.Dots | components/dashboard/MoodTracker.tsx:119-127 | the number of filled dots equals the energy level |

## Left out

- **Firestore.** Profile I/O (`createUserProfile`, `getUserProfile`, `updateUserProfile`), authentication and the auth listener are SDK calls. The update's outcome is a parameter of `HandleSubmit`, and the signed-in user and loading flag are parameters of `Render`.
- **MongoDB.** The connection, `Meal.find({userId}).sort({date: -1}).limit(100)` and the write are outside effects. They are parameters of `Get` and `Post`.
- MealsRoute.Get: does not constrain the query's result. That the meals belong to the user, come newest first and number at most 100 is the database's doing and is not modelled.
- **Clocks.** `new Date()`, `Date.now` and `toISOString` are the `now` and `timestamp` parameters.
- **Other outside calls.** The `FileReader` read is reduced to `ImageLoaded` with its result. The `setTimeout` that clears the success banner after 3 s is not modelled. `refreshProfile` counts as part of the update's outcome.
- **Floating point.** Numbers are exact rationals. IEEE-754 rounding, NaN and Infinity are not modelled, nor `toFixed` quirks at binary-inexact `.x5` ties.
- UserProfile.CalculateBMI: requires a non-zero height. JavaScript would divide by zero and return Infinity or NaN.
- CalorieTracker.Progress: requires a non-zero goal, for the same reason.
- UserProfile.ActivityMultiplier: does not model keys inherited from `Object.prototype`. The lookup is an object-literal index, so such a level (e.g. "toString") would yield a function instead of a number. The same holds for HealthMetrics.ActivityDescription.
- UserProfile.DailyCaloriesMonotoneInWeight: proves non-decreasing, and strictly increasing only for a gain of at least 0.1 kg. `Math.round` makes smaller gains able to leave the result unchanged.
- **`null` versus `undefined`.** `None` stands for both, and for any falsy `date` in a POST body. Mongoose applies defaults only to `undefined`.
- **Mongoose casting.** Body values arrive with their schema types: strings, numbers, a timestamp. Casting errors, such as a string for `calories`, are not modelled. Neither are a JSON body that is `null`, `_id` and the `createdAt`/`updatedAt` timestamps.
- MealSchema.Errors: lists failing paths in schema declaration order. Mongoose builds its message in the order its validators finish, which can differ. RecipeSchema.Errors likewise.
- **Indexes and model registration.** The schemas' index declarations and the model registration are library behaviour.
- ProfileForm.ProfileFormState.HandleSubmit: runs the handler to completion. The intermediate `loading = true` while the update is in flight is not observable in the model.
- **Rendering.** Animation, charts, the `Math.PI` ring offset (only the clamped fill fraction is kept), the macro pie chart, the sample mood entries and class-string assembly are left out.
- **Controls without state.** The manual tab's calorie and macro inputs, "Save Draft", the mood notes box and "Log Mood" have no state or handler in the source, so there is nothing to model.
