/**
  The Meal model (lib/mongodb/models/Meal.ts): the fields handed to
  `Meal.create`, the document its setters and the date default build from
  them, and the schema's validators.
*/
module MealSchema {
  import opened Js
  import opened Validators

  /** The meal types the `enum` validator accepts. */
  const MealTypes: seq<string> := ["breakfast", "lunch", "dinner", "snack"]

  /** The values given for a new meal; any of them may be missing. `date` is a timestamp. */
  datatype MealInput = MealInput(
    userId: Option<string>, mealName: Option<string>, mealType: Option<string>,
    calories: Option<real>, protein: Option<real>, carbs: Option<real>, fats: Option<real>,
    imageUrl: Option<string>, notes: Option<string>, date: Option<int>)

  /** The document before validation: the `trim` setters applied and the date filled in. */
  datatype MealDoc = MealDoc(
    userId: Option<string>, mealName: Option<string>, mealType: Option<string>,
    calories: Option<real>, protein: Option<real>, carbs: Option<real>, fats: Option<real>,
    imageUrl: Option<string>, notes: Option<string>, date: int)

  /** The schema's paths, in declaration order. */
  datatype MealPath = UserId | MealName | MealType | Calories | Protein | Carbs | Fats | Notes

  function PathName(p: MealPath): string
  {
    match p
    case UserId => "userId"
    case MealName => "mealName"
    case MealType => "mealType"
    case Calories => "calories"
    case Protein => "protein"
    case Carbs => "carbs"
    case Fats => "fats"
    case Notes => "notes"
  }

  /**
    The document `new Meal(input)` builds: mealName, imageUrl and notes
    trimmed, `date` defaulting to `now`, everything else as given.
  */
  function Build(m: MealInput, now: int): (d: MealDoc)
    ensures m.date.Some? ==> d.date == m.date.value
    ensures m.date.None? ==> d.date == now
    ensures d.mealName == TrimmedOpt(m.mealName) && d.imageUrl == TrimmedOpt(m.imageUrl) && d.notes == TrimmedOpt(m.notes)
    ensures d.userId == m.userId && d.mealType == m.mealType
    ensures d.calories == m.calories && d.protein == m.protein && d.carbs == m.carbs && d.fats == m.fats
  {
    MealDoc(m.userId, TrimmedOpt(m.mealName), m.mealType, m.calories, m.protein, m.carbs, m.fats,
            TrimmedOpt(m.imageUrl), TrimmedOpt(m.notes), if m.date.Some? then m.date.value else now)
  }

  /** A document handed back to `Meal.create`, as when a stored meal is saved again. */
  function AsInput(d: MealDoc): MealInput
  {
    MealInput(d.userId, d.mealName, d.mealType, d.calories, d.protein, d.carbs, d.fats,
              d.imageUrl, d.notes, Some(d.date))
  }

  /** Building is idempotent: a built document rebuilt at any later time is unchanged. */
  lemma {:induction false} RebuildUnchanged(m: MealInput, now: int, later: int)
    ensures Build(AsInput(Build(m, now)), later) == Build(m, now)
  {
    if m.mealName.Some? { TrimIdempotent(m.mealName.value); }
    if m.imageUrl.Some? { TrimIdempotent(m.imageUrl.value); }
    if m.notes.Some? { TrimIdempotent(m.notes.value); }
  }

  /** The schema's constraints, stated directly. */
  predicate Valid(d: MealDoc)
  {
    d.userId.Some? && d.userId.value != ""
    && d.mealName.Some? && d.mealName.value != ""
    && d.mealType.Some? && d.mealType.value in MealTypes
    && d.calories.Some? && d.calories.value >= 0.0
    && (d.protein.Some? ==> d.protein.value >= 0.0)
    && (d.carbs.Some? ==> d.carbs.value >= 0.0)
    && (d.fats.Some? ==> d.fats.value >= 0.0)
    && (d.notes.Some? ==> |d.notes.value| <= 500)
  }

  /** Every path, in declaration order. */
  const Paths: seq<MealPath> := [UserId, MealName, MealType, Calories, Protein, Carbs, Fats, Notes]

  /** The message of the first failing validator on one path of a built document, if any. */
  function Failure(d: MealDoc, p: MealPath): (f: Option<string>)
    ensures p == UserId ==> (f == Some("User ID is required") <==> !TruthyString(d.userId)) && (f.None? <==> TruthyString(d.userId))
    ensures p == MealName ==> (f == Some("Meal name is required") <==> !TruthyString(d.mealName)) && (f.None? <==> TruthyString(d.mealName))
    ensures p == MealType ==>
              (f == Some("Meal type is required") <==> !TruthyString(d.mealType))
              && (TruthyString(d.mealType) && d.mealType.value !in MealTypes ==> f == Some(EnumMessage(d.mealType.value, "mealType")))
              && (f.None? <==> TruthyString(d.mealType) && d.mealType.value in MealTypes)
    ensures p == Calories ==>
              (f == Some("Calories are required") <==> d.calories.None?)
              && (f == Some("Calories cannot be negative") <==> d.calories.Some? && d.calories.value < 0.0)
              && (f.None? <==> d.calories.Some? && d.calories.value >= 0.0)
    ensures p == Protein ==> (f == Some("Protein cannot be negative") <==> d.protein.Some? && d.protein.value < 0.0) && (f.Some? ==> f == Some("Protein cannot be negative"))
    ensures p == Carbs ==> (f == Some("Carbs cannot be negative") <==> d.carbs.Some? && d.carbs.value < 0.0) && (f.Some? ==> f == Some("Carbs cannot be negative"))
    ensures p == Fats ==> (f == Some("Fats cannot be negative") <==> d.fats.Some? && d.fats.value < 0.0) && (f.Some? ==> f == Some("Fats cannot be negative"))
    ensures p == Notes ==> (f == Some("Notes cannot exceed 500 characters") <==> d.notes.Some? && |d.notes.value| > 500) && (f.Some? ==> f == Some("Notes cannot exceed 500 characters"))
  {
    match p
    case UserId => RequiredText(d.userId, "User ID is required")
    case MealName => RequiredText(d.mealName, "Meal name is required")
    case MealType => FirstOf(RequiredText(d.mealType, "Meal type is required"), OneOf(d.mealType, MealTypes, "mealType"))
    case Calories => RequiredAtLeast(d.calories, 0.0, "Calories are required", "Calories cannot be negative")
    case Protein => AtLeast(d.protein, 0.0, "Protein cannot be negative")
    case Carbs => AtLeast(d.carbs, 0.0, "Carbs cannot be negative")
    case Fats => AtLeast(d.fats, 0.0, "Fats cannot be negative")
    case Notes => MaxLength(d.notes, 500, "Notes cannot exceed 500 characters")
  }

  /** The failures of `paths`, in their order. */
  function Collect(d: MealDoc, paths: seq<MealPath>): (e: seq<FieldError<MealPath>>)
    ensures |e| <= |paths|
    ensures forall x :: x in e <==> x.path in paths && Failure(d, x.path) == Some(x.message)
  {
    if paths == [] then []
    else At(paths[0], Failure(d, paths[0])) + Collect(d, paths[1..])
  }

  /**
    The failing paths of a built document, in declaration order, each with
    the message of its first failing validator: none exactly when the
    document meets every constraint.
  */
  function Errors(d: MealDoc): (e: seq<FieldError<MealPath>>)
    ensures e == [] <==> Valid(d)
    ensures |e| <= 8
    ensures forall x :: x in e <==> Failure(d, x.path) == Some(x.message)
  {
    CollectAllPaths(d);
    Collect(d, Paths)
  }

  /** Collecting over all paths reports exactly the failing ones, and nothing exactly for a valid document. */
  lemma CollectAllPaths(d: MealDoc)
    ensures Collect(d, Paths) == [] <==> Valid(d)
    ensures forall x :: x in Collect(d, Paths) <==> Failure(d, x.path) == Some(x.message)
  {
    var e := Collect(d, Paths);
    forall p: MealPath ensures p in Paths {
      PathListed(p);
    }
    ValidIffNoFailure(d);
    forall p: MealPath ensures Failure(d, p).Some? ==> e != [] {
      if Failure(d, p).Some? {
        assert FieldError(p, Failure(d, p).value) in e;
      }
    }
    if e != [] {
      assert e[0] in e;
    }
  }

  lemma PathListed(p: MealPath)
    ensures p in Paths
  {
    match p {
      case UserId => assert Paths[0] == p;
      case MealName => assert Paths[1] == p;
      case MealType => assert Paths[2] == p;
      case Calories => assert Paths[3] == p;
      case Protein => assert Paths[4] == p;
      case Carbs => assert Paths[5] == p;
      case Fats => assert Paths[6] == p;
      case Notes => assert Paths[7] == p;
    }
  }

  /** A document is valid exactly when no path has a failing validator. */
  lemma ValidIffNoFailure(d: MealDoc)
    ensures Valid(d) <==> forall p :: Failure(d, p).None?
  {
    if !Valid(d) {
      assert Failure(d, UserId).Some? || Failure(d, MealName).Some? || Failure(d, MealType).Some?
        || Failure(d, Calories).Some? || Failure(d, Protein).Some? || Failure(d, Carbs).Some?
        || Failure(d, Fats).Some? || Failure(d, Notes).Some?;
    }
  }

  /** The "path: message" items of a `ValidationError`. */
  function Items(e: seq<FieldError<MealPath>>): (items: seq<string>)
    ensures |items| == |e|
  {
    seq(|e|, i requires 0 <= i < |e| => PathName(e[i].path) + ": " + e[i].message)
  }

  /**
    `Meal.create` short of the write: the built document when it is valid,
    otherwise the `ValidationError` message naming every failing path.
  */
  function Create(m: MealInput, now: int): (r: Result<MealDoc>)
    ensures r.Ok? <==> Valid(Build(m, now))
    ensures r.Ok? ==> r.value == Build(m, now)
    ensures r.Err? ==> r.error == ValidationMessage("Meal", Items(Errors(Build(m, now))))
  {
    var d := Build(m, now);
    var e := Errors(d);
    if e == [] then Ok(d) else Err(ValidationMessage("Meal", Items(e)))
  }

  /** A name of spaces passes the `required` test on the raw value yet fails it once trimmed. */
  lemma BlankNameFailsAfterTrim(m: MealInput, now: int)
    requires m.mealName == Some("   ")
    ensures TruthyString(m.mealName)
    ensures FieldError(MealName, "Meal name is required") in Errors(Build(m, now))
    ensures Create(m, now).Err?
  {
    assert Trim("   ") == "" by {
      assert forall k :: 0 <= k < |"   "| ==> IsWhitespace("   "[k]);
    }
  }

  /** Notes padded past 500 characters with surrounding spaces are accepted once trimmed. */
  lemma NotesLimitAppliesAfterTrim(m: MealInput, now: int, body: string)
    requires |body| == 500 && !IsWhitespace(body[0]) && !IsWhitespace(body[499])
    requires m.notes == Some(" " + body + " ")
    ensures |m.notes.value| == 502
    ensures FieldError(Notes, "Notes cannot exceed 500 characters") !in Errors(Build(m, now))
  {
    var s := " " + body + " ";
    assert s[1..501] == body;
    assert Trim(s) == body by {
      assert SkipLeading(s, 0) == 1 by {
        assert SkipLeading(s, 1) == 1;
      }
      assert SkipTrailing(s, |s|) == 501 by {
        assert SkipTrailing(s, 501) == 501;
      }
    }
  }
}
