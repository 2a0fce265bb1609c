/**
  The Recipe model (lib/mongodb/models/Recipe.ts): the fields given for a new
  recipe, the document its setters and defaults build from them, and the
  schema's validators.
*/
module RecipeSchema {
  import opened Js
  import opened Validators

  /** The difficulties the `enum` validator accepts. */
  const Difficulties: seq<string> := ["easy", "medium", "hard"]

  /** The values given for a new recipe; any of them may be missing. */
  datatype RecipeInput = RecipeInput(
    userId: Option<string>, name: Option<string>, description: Option<string>,
    ingredients: Option<seq<string>>, instructions: Option<seq<string>>,
    prepTime: Option<real>, cookTime: Option<real>, servings: Option<real>,
    calories: Option<real>, protein: Option<real>, carbs: Option<real>, fats: Option<real>,
    imageUrl: Option<string>, category: Option<seq<string>>, dietaryTags: Option<seq<string>>,
    difficulty: Option<string>, isPublic: Option<bool>)

  /** The document before validation: strings trimmed, every array, difficulty and isPublic present. */
  datatype RecipeDoc = RecipeDoc(
    userId: Option<string>, name: Option<string>, description: Option<string>,
    ingredients: seq<string>, instructions: seq<string>,
    prepTime: Option<real>, cookTime: Option<real>, servings: Option<real>,
    calories: Option<real>, protein: Option<real>, carbs: Option<real>, fats: Option<real>,
    imageUrl: Option<string>, category: seq<string>, dietaryTags: seq<string>,
    difficulty: string, isPublic: bool)

  /** The schema's validated paths, in declaration order. */
  datatype RecipePath =
    Name | Description | Ingredients | Instructions | PrepTime | CookTime | Servings
    | Calories | Protein | Carbs | Fats | Difficulty

  function PathName(p: RecipePath): string
  {
    match p
    case Name => "name"
    case Description => "description"
    case Ingredients => "ingredients"
    case Instructions => "instructions"
    case PrepTime => "prepTime"
    case CookTime => "cookTime"
    case Servings => "servings"
    case Calories => "calories"
    case Protein => "protein"
    case Carbs => "carbs"
    case Fats => "fats"
    case Difficulty => "difficulty"
  }

  /**
    The document `new Recipe(input)` builds: name, description and imageUrl
    trimmed; missing arrays empty; difficulty "medium" and isPublic true by
    default; everything else as given.
  */
  function Build(m: RecipeInput): (d: RecipeDoc)
    ensures d.name == TrimmedOpt(m.name) && d.description == TrimmedOpt(m.description) && d.imageUrl == TrimmedOpt(m.imageUrl)
    ensures m.ingredients.None? ==> d.ingredients == []
    ensures m.instructions.None? ==> d.instructions == []
    ensures m.category.None? ==> d.category == []
    ensures m.dietaryTags.None? ==> d.dietaryTags == []
    ensures m.difficulty.None? ==> d.difficulty == "medium"
    ensures m.isPublic.None? ==> d.isPublic
    ensures m.ingredients.Some? ==> d.ingredients == m.ingredients.value
    ensures m.instructions.Some? ==> d.instructions == m.instructions.value
    ensures m.category.Some? ==> d.category == m.category.value
    ensures m.dietaryTags.Some? ==> d.dietaryTags == m.dietaryTags.value
    ensures m.difficulty.Some? ==> d.difficulty == m.difficulty.value
    ensures m.isPublic.Some? ==> d.isPublic == m.isPublic.value
    ensures d.userId == m.userId && d.prepTime == m.prepTime && d.cookTime == m.cookTime && d.servings == m.servings
    ensures d.calories == m.calories && d.protein == m.protein && d.carbs == m.carbs && d.fats == m.fats
  {
    RecipeDoc(
      m.userId, TrimmedOpt(m.name), TrimmedOpt(m.description),
      ArrayOr(m.ingredients, []), ArrayOr(m.instructions, []),
      m.prepTime, m.cookTime, m.servings, m.calories, m.protein, m.carbs, m.fats,
      TrimmedOpt(m.imageUrl), ArrayOr(m.category, []), ArrayOr(m.dietaryTags, []),
      if m.difficulty.Some? then m.difficulty.value else "medium",
      if m.isPublic.Some? then m.isPublic.value else true)
  }

  /** A document handed back to the model, as when a stored recipe is saved again. */
  function AsInput(d: RecipeDoc): RecipeInput
  {
    RecipeInput(
      d.userId, d.name, d.description, Some(d.ingredients), Some(d.instructions),
      d.prepTime, d.cookTime, d.servings, d.calories, d.protein, d.carbs, d.fats,
      d.imageUrl, Some(d.category), Some(d.dietaryTags), Some(d.difficulty), Some(d.isPublic))
  }

  /** Building is idempotent: a built document rebuilt is unchanged. */
  lemma {:induction false} RebuildUnchanged(m: RecipeInput)
    ensures Build(AsInput(Build(m))) == Build(m)
  {
    if m.name.Some? { TrimIdempotent(m.name.value); }
    if m.description.Some? { TrimIdempotent(m.description.value); }
    if m.imageUrl.Some? { TrimIdempotent(m.imageUrl.value); }
  }

  /** The schema's constraints, stated directly. */
  predicate Valid(d: RecipeDoc)
  {
    d.name.Some? && d.name.value != ""
    && d.description.Some? && d.description.value != "" && |d.description.value| <= 1000
    && |d.ingredients| > 0 && |d.instructions| > 0
    && d.prepTime.Some? && d.prepTime.value >= 0.0
    && d.cookTime.Some? && d.cookTime.value >= 0.0
    && d.servings.Some? && d.servings.value >= 1.0
    && d.calories.Some? && d.calories.value >= 0.0
    && (d.protein.Some? ==> d.protein.value >= 0.0)
    && (d.carbs.Some? ==> d.carbs.value >= 0.0)
    && (d.fats.Some? ==> d.fats.value >= 0.0)
    && d.difficulty in Difficulties
  }

  /** Every validated path, in declaration order. */
  const Paths: seq<RecipePath> :=
    [Name, Description, Ingredients, Instructions, PrepTime, CookTime, Servings,
     Calories, Protein, Carbs, Fats, Difficulty]

  /** The message of the first failing validator on one path of a built document, if any. */
  function Failure(d: RecipeDoc, p: RecipePath): (f: Option<string>)
    ensures p == Name ==> (f.Some? <==> !TruthyString(d.name)) && (f.Some? ==> f == Some("Recipe name is required"))
    ensures p == Description ==>
              (f == Some("Description is required") <==> !TruthyString(d.description))
              && (f == Some("Description cannot exceed 1000 characters") <==> TruthyString(d.description) && |d.description.value| > 1000)
              && (f.None? <==> TruthyString(d.description) && |d.description.value| <= 1000)
    ensures p == Ingredients ==> (f.Some? <==> d.ingredients == []) && (f.Some? ==> f == Some("At least one ingredient is required"))
    ensures p == Instructions ==> (f.Some? <==> d.instructions == []) && (f.Some? ==> f == Some("At least one instruction is required"))
    ensures p == PrepTime ==>
              (f == Some("Prep time is required") <==> d.prepTime.None?)
              && (f == Some("Prep time cannot be negative") <==> d.prepTime.Some? && d.prepTime.value < 0.0)
              && (f.None? <==> d.prepTime.Some? && d.prepTime.value >= 0.0)
    ensures p == CookTime ==>
              (f == Some("Cook time is required") <==> d.cookTime.None?)
              && (f == Some("Cook time cannot be negative") <==> d.cookTime.Some? && d.cookTime.value < 0.0)
              && (f.None? <==> d.cookTime.Some? && d.cookTime.value >= 0.0)
    ensures p == Servings ==>
              (f == Some("Servings are required") <==> d.servings.None?)
              && (f == Some("Servings must be at least 1") <==> d.servings.Some? && d.servings.value < 1.0)
              && (f.None? <==> d.servings.Some? && d.servings.value >= 1.0)
    ensures p == Calories ==>
              (f == Some("Calories are required") <==> d.calories.None?)
              && (f == Some("Calories cannot be negative") <==> d.calories.Some? && d.calories.value < 0.0)
              && (f.None? <==> d.calories.Some? && d.calories.value >= 0.0)
    ensures p == Protein ==> (f.Some? <==> d.protein.Some? && d.protein.value < 0.0) && (f.Some? ==> f == Some("Protein cannot be negative"))
    ensures p == Carbs ==> (f.Some? <==> d.carbs.Some? && d.carbs.value < 0.0) && (f.Some? ==> f == Some("Carbs cannot be negative"))
    ensures p == Fats ==> (f.Some? <==> d.fats.Some? && d.fats.value < 0.0) && (f.Some? ==> f == Some("Fats cannot be negative"))
    ensures p == Difficulty ==> (f.Some? <==> d.difficulty !in Difficulties) && (f.Some? ==> f == Some(EnumMessage(d.difficulty, "difficulty")))
  {
    match p
    case Name => RequiredText(d.name, "Recipe name is required")
    case Description =>
      FirstOf(RequiredText(d.description, "Description is required"),
              MaxLength(d.description, 1000, "Description cannot exceed 1000 characters"))
    case Ingredients => NonEmptyList(d.ingredients, "At least one ingredient is required")
    case Instructions => NonEmptyList(d.instructions, "At least one instruction is required")
    case PrepTime => RequiredAtLeast(d.prepTime, 0.0, "Prep time is required", "Prep time cannot be negative")
    case CookTime => RequiredAtLeast(d.cookTime, 0.0, "Cook time is required", "Cook time cannot be negative")
    case Servings => RequiredAtLeast(d.servings, 1.0, "Servings are required", "Servings must be at least 1")
    case Calories => RequiredAtLeast(d.calories, 0.0, "Calories are required", "Calories cannot be negative")
    case Protein => AtLeast(d.protein, 0.0, "Protein cannot be negative")
    case Carbs => AtLeast(d.carbs, 0.0, "Carbs cannot be negative")
    case Fats => AtLeast(d.fats, 0.0, "Fats cannot be negative")
    case Difficulty => OneOf(Some(d.difficulty), Difficulties, "difficulty")
  }

  /** The failures of `paths`, in their order. */
  function Collect(d: RecipeDoc, paths: seq<RecipePath>): (e: seq<FieldError<RecipePath>>)
    ensures |e| <= |paths|
    ensures forall x :: x in e <==> x.path in paths && Failure(d, x.path) == Some(x.message)
  {
    if paths == [] then []
    else At(paths[0], Failure(d, paths[0])) + Collect(d, paths[1..])
  }

  /**
    The failing paths of a built document, in declaration order, each with
    the message of its first failing validator: none exactly when the
    document meets every constraint.
  */
  function Errors(d: RecipeDoc): (e: seq<FieldError<RecipePath>>)
    ensures e == [] <==> Valid(d)
    ensures |e| <= 12
    ensures forall x :: x in e <==> Failure(d, x.path) == Some(x.message)
  {
    CollectAllPaths(d);
    Collect(d, Paths)
  }

  /** Collecting over all paths reports exactly the failing ones, and nothing exactly for a valid document. */
  lemma CollectAllPaths(d: RecipeDoc)
    ensures Collect(d, Paths) == [] <==> Valid(d)
    ensures forall x :: x in Collect(d, Paths) <==> Failure(d, x.path) == Some(x.message)
  {
    var e := Collect(d, Paths);
    forall p: RecipePath ensures p in Paths {
      PathListed(p);
    }
    ValidIffNoFailure(d);
    forall p: RecipePath ensures Failure(d, p).Some? ==> e != [] {
      if Failure(d, p).Some? {
        assert FieldError(p, Failure(d, p).value) in e;
      }
    }
    if e != [] {
      assert e[0] in e;
    }
  }

  lemma PathListed(p: RecipePath)
    ensures p in Paths
  {
    match p {
      case Name => assert Paths[0] == p;
      case Description => assert Paths[1] == p;
      case Ingredients => assert Paths[2] == p;
      case Instructions => assert Paths[3] == p;
      case PrepTime => assert Paths[4] == p;
      case CookTime => assert Paths[5] == p;
      case Servings => assert Paths[6] == p;
      case Calories => assert Paths[7] == p;
      case Protein => assert Paths[8] == p;
      case Carbs => assert Paths[9] == p;
      case Fats => assert Paths[10] == p;
      case Difficulty => assert Paths[11] == p;
    }
  }

  /** A document is valid exactly when no path has a failing validator. */
  lemma ValidIffNoFailure(d: RecipeDoc)
    ensures Valid(d) <==> forall p :: Failure(d, p).None?
  {
    if !Valid(d) {
      assert Failure(d, Name).Some? || Failure(d, Description).Some? || Failure(d, Ingredients).Some?
        || Failure(d, Instructions).Some? || Failure(d, PrepTime).Some? || Failure(d, CookTime).Some?
        || Failure(d, Servings).Some? || Failure(d, Calories).Some? || Failure(d, Protein).Some?
        || Failure(d, Carbs).Some? || Failure(d, Fats).Some? || Failure(d, Difficulty).Some?;
    }
  }

  /** The "path: message" items of a `ValidationError`. */
  function Items(e: seq<FieldError<RecipePath>>): (items: seq<string>)
    ensures |items| == |e|
  {
    seq(|e|, i requires 0 <= i < |e| => PathName(e[i].path) + ": " + e[i].message)
  }

  /**
    Saving a new recipe, short of the write: the built document when it is
    valid, otherwise the `ValidationError` message naming every failing path.
  */
  function Create(m: RecipeInput): (r: Result<RecipeDoc>)
    ensures r.Ok? <==> Valid(Build(m))
    ensures r.Ok? ==> r.value == Build(m)
    ensures r.Err? ==> r.error == ValidationMessage("Recipe", Items(Errors(Build(m))))
  {
    var d := Build(m);
    var e := Errors(d);
    if e == [] then Ok(d) else Err(ValidationMessage("Recipe", Items(e)))
  }

  /**
    A missing ingredient list is not reported as missing: it defaults to the
    empty list, which `required` accepts, and the custom validator rejects it.
  */
  lemma MissingIngredientsReportEmptyList(m: RecipeInput)
    requires m.ingredients.None?
    ensures FieldError(Ingredients, "At least one ingredient is required") in Errors(Build(m))
    ensures FieldError(Ingredients, "Ingredients are required") !in Errors(Build(m))
    ensures Create(m).Err?
  {
    var d := Build(m);
    assert d.ingredients == [];
    assert Failure(d, Ingredients) == Some("At least one ingredient is required");
    assert "At least one ingredient is required" != "Ingredients are required";
  }

  /**
    An explicitly empty difficulty is not replaced by the default, because
    only a missing value is; the `enum` validator then rejects it.
  */
  lemma EmptyDifficultyRejected(m: RecipeInput)
    requires m.difficulty == Some("")
    ensures FieldError(Difficulty, EnumMessage("", "difficulty")) in Errors(Build(m))
    ensures Create(m).Err?
  {
    var d := Build(m);
    assert d.difficulty == "";
    assert Failure(d, Difficulty) == Some(EnumMessage("", "difficulty"));
  }
}
