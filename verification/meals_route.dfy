/**
  The meals API (app/api/meals/route.ts). GET lists a user's meals. POST checks
  the required fields and creates a meal through the Meal model. The database
  calls are parameters: whether connecting threw, and what the query or the
  write returned or threw. Every thrown error becomes a 500 response that
  carries its message.
*/
module MealsRoute {
  import opened Js
  import opened Validators
  import opened MealSchema

  /** The JSON body of a response; `success` is false exactly for `Fail`. */
  datatype Body =
    | Fail(message: string)
    | MealList(data: seq<MealDoc>, count: int)
    | Created(meal: MealDoc, message: string)

  datatype Response = Response(status: int, body: Body)

  /** The `success` flag of a response body. */
  predicate Succeeded(r: Response)
  {
    !r.body.Fail?
  }

  /**
    GET: `connectError` is what connecting threw, if anything; `userId` is the
    query parameter; `found` is the outcome of the query for that user.
  */
  function Get(connectError: Option<string>, userId: Option<string>, found: Result<seq<MealDoc>>): (r: Response)
    ensures r.status in {200, 400, 500}
    ensures Succeeded(r) <==> r.status == 200
    ensures connectError.Some? ==> r == Response(500, Fail(connectError.value))
    ensures r.status == 400 <==> connectError.None? && !TruthyString(userId)
    ensures r.status == 400 ==> r.body == Fail("User ID is required")
    ensures r.status == 200 <==> connectError.None? && TruthyString(userId) && found.Ok?
    ensures r.status == 200 ==> r.body == MealList(found.value, |found.value|)
    ensures connectError.None? && TruthyString(userId) && found.Err? ==> r == Response(500, Fail(found.error))
  {
    if connectError.Some? then Response(500, Fail(connectError.value))
    else if !TruthyString(userId) then Response(400, Fail("User ID is required"))
    else if found.Err? then Response(500, Fail(found.error))
    else Response(200, MealList(found.value, |found.value|))
  }

  /**
    The truthiness test on the four required fields of a POST body: a missing
    or empty string and a missing or zero number all fail it.
  */
  function RequiredPresent(b: MealInput): (present: bool)
    ensures present <==>
      b.userId.Some? && b.userId.value != "" && b.mealName.Some? && b.mealName.value != ""
      && b.mealType.Some? && b.mealType.value != "" && b.calories.Some? && b.calories.value != 0.0
  {
    TruthyString(b.userId) && TruthyString(b.mealName) && TruthyString(b.mealType) && TruthyNumber(b.calories)
  }

  /** The values handed to `Meal.create`: the body's fields, with `date || new Date()`. */
  function CreateInput(b: MealInput, now: int): (m: MealInput)
    ensures m.date.Some?
    ensures b.date.Some? ==> m.date == b.date
    ensures b.date.None? ==> m.date == Some(now)
    ensures m.(date := b.date) == b
  {
    b.(date := if b.date.Some? then b.date else Some(now))
  }

  /**
    POST: `body` is the parsed JSON body or what parsing threw; `now` is the
    clock; `writeError` is what the database write threw, if anything.
  */
  function Post(connectError: Option<string>, body: Result<MealInput>, now: int, writeError: Option<string>): (r: Response)
    ensures r.status in {201, 400, 500}
    ensures Succeeded(r) <==> r.status == 201
    ensures connectError.Some? ==> r == Response(500, Fail(connectError.value))
    ensures connectError.None? && body.Err? ==> r == Response(500, Fail(body.error))
    ensures r.status == 400 <==> connectError.None? && body.Ok? && !RequiredPresent(body.value)
    ensures r.status == 400 ==> r.body == Fail("Missing required fields")
    ensures r.status == 201 <==>
      connectError.None? && body.Ok? && RequiredPresent(body.value)
      && Valid(Build(CreateInput(body.value, now), now)) && writeError.None?
    ensures r.status == 201 ==>
      r.body == Created(Build(CreateInput(body.value, now), now), "Meal created successfully")
      && r.body.meal.calories.value > 0.0
    ensures connectError.None? && body.Ok? && RequiredPresent(body.value) && !Valid(Build(CreateInput(body.value, now), now)) ==>
      r == Response(500, Fail(ValidationMessage("Meal", Items(Errors(Build(CreateInput(body.value, now), now))))))
    ensures (connectError.None? && body.Ok? && RequiredPresent(body.value)
             && Valid(Build(CreateInput(body.value, now), now)) && writeError.Some?) ==>
      r == Response(500, Fail(writeError.value))
  {
    if connectError.Some? then Response(500, Fail(connectError.value))
    else if body.Err? then Response(500, Fail(body.error))
    else
      var b := body.value;
      if !RequiredPresent(b) then Response(400, Fail("Missing required fields"))
      else
        match Create(CreateInput(b, now), now)
        case Err(message) => Response(500, Fail(message))
        case Ok(meal) =>
          if writeError.Some? then Response(500, Fail(writeError.value))
          else Response(201, Created(meal, "Meal created successfully"))
  }

  /** A created meal is stamped with the date the client sent, or with the time of the request when none was sent. */
  lemma CreatedMealDate(b: MealInput, now: int)
    requires Post(None, Ok(b), now, None).status == 201
    ensures b.date.Some? ==> Post(None, Ok(b), now, None).body.meal.date == b.date.value
    ensures b.date.None? ==> Post(None, Ok(b), now, None).body.meal.date == now
  {
  }

  /**
    A meal of 0 calories that the schema accepts is still refused by the
    route's truthiness test, with 400 rather than 201.
  */
  lemma ZeroCaloriesRefusedBeforeSchema(b: MealInput, now: int, writeError: Option<string>)
    requires b.calories == Some(0.0)
    requires Valid(Build(CreateInput(b, now), now))
    ensures Create(CreateInput(b, now), now).Ok?
    ensures Post(None, Ok(b), now, writeError) == Response(400, Fail("Missing required fields"))
  {
  }

  /**
    A name of spaces is truthy, so it passes the route's test and is refused
    only by the schema, once trimmed: a 500 rather than a 400.
  */
  lemma BlankNameFailsInSchema(b: MealInput, now: int, writeError: Option<string>)
    requires b.mealName == Some("   ")
    requires TruthyString(b.userId) && TruthyString(b.mealType) && TruthyNumber(b.calories)
    ensures RequiredPresent(b)
    ensures FieldError(MealName, "Meal name is required") in Errors(Build(CreateInput(b, now), now))
    ensures Post(None, Ok(b), now, writeError)
         == Response(500, Fail(ValidationMessage("Meal", Items(Errors(Build(CreateInput(b, now), now))))))
  {
    BlankNameFailsAfterTrim(CreateInput(b, now), now);
  }

  /** A negative calorie count is truthy, so it too reaches the schema, whose `min` validator refuses it. */
  lemma NegativeCaloriesFailInSchema(b: MealInput, now: int, writeError: Option<string>)
    requires RequiredPresent(b) && b.calories.value < 0.0
    ensures FieldError(Calories, "Calories cannot be negative") in Errors(Build(CreateInput(b, now), now))
    ensures Post(None, Ok(b), now, writeError).status == 500
  {
    var d := Build(CreateInput(b, now), now);
    assert d.calories == b.calories;
    assert Failure(d, Calories) == Some("Calories cannot be negative");
    assert !Valid(d);
  }
}
