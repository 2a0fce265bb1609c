/**
  The profile form (components/profile/ProfileForm.tsx): seven form fields
  seeded from the stored profile with fallbacks, the metrics shown above the
  form, the toggle buttons for dietary preferences and health goals, and the
  submit handler that writes the fields back.
*/
module ProfileForm {
  import opened Js
  import opened UserTypes
  import opened UserProfile

  /** `array.filter(i => i !== item)`: every occurrence of `item` dropped, the rest in order. */
  function RemoveAll(s: seq<string>, item: string): (r: seq<string>)
    ensures item !in r
    ensures item !in s ==> r == s
    ensures forall x :: x != item ==> (x in r <==> x in s)
  {
    if s == [] then []
    else
      if s[0] == item then RemoveAll(s[1..], item)
      else [s[0]] + RemoveAll(s[1..], item)
  }

  /** Filtering keeps every other value as many times as before. */
  lemma {:induction false} RemoveAllCounts(s: seq<string>, item: string)
    ensures multiset(RemoveAll(s, item)) == multiset(s)[item := 0]
  {
    if s != [] {
      assert s == [s[0]] + s[1..];
      RemoveAllCounts(s[1..], item);
    }
  }

  /** Filtering distributes over concatenation, so the kept elements stay in their order. */
  lemma {:induction false} RemoveAllAppend(a: seq<string>, b: seq<string>, item: string)
    ensures RemoveAll(a + b, item) == RemoveAll(a, item) + RemoveAll(b, item)
  {
    if a == [] {
      assert a + b == b;
    } else {
      var ab := a + b;
      assert ab[0] == a[0] && ab[1..] == a[1..] + b;
      RemoveAllAppend(a[1..], b, item);
      if a[0] == item {
        assert RemoveAll(ab, item) == RemoveAll(a[1..] + b, item);
        assert RemoveAll(a, item) == RemoveAll(a[1..], item);
      } else {
        assert RemoveAll(ab, item) == [a[0]] + RemoveAll(a[1..] + b, item);
        assert RemoveAll(a, item) == [a[0]] + RemoveAll(a[1..], item);
      }
    }
  }

  /**
    `toggleArrayItem`: a present item is removed everywhere, an absent one is
    appended at the end.
  */
  function Toggle(s: seq<string>, item: string): (r: seq<string>)
    ensures item in s ==> r == RemoveAll(s, item)
    ensures item !in s ==> r == s + [item]
    ensures item in r <==> item !in s
    ensures forall x :: x != item ==> (x in r <==> x in s)
  {
    if item in s then RemoveAll(s, item) else s + [item]
  }

  /** Toggling an absent item twice gives back the original list exactly. */
  lemma {:induction false} ToggleTwiceRestores(s: seq<string>, item: string)
    requires item !in s
    ensures Toggle(Toggle(s, item), item) == s
  {
    RemoveAllAppend(s, [item], item);
    assert RemoveAll([item], item) == [];
  }

  /** The values the form's seven fields hold. */
  datatype Fields = Fields(
    age: real, gender: string, weight: real, height: real, activityLevel: string,
    dietaryPreferences: seq<string>, healthGoals: seq<string>)

  /**
    Field values seeded from a profile: falsy numbers become 0, a falsy gender
    'male', a falsy activity level 'moderate', missing lists empty.
  */
  function FieldsFrom(profile: Option<Profile>): (f: Fields)
    ensures profile.None? ==> f == Fields(0.0, "male", 0.0, 0.0, "moderate", [], [])
    ensures profile.Some? ==>
      var p := profile.value;
      (TruthyNumber(p.age) ==> f.age == p.age.value) && (!TruthyNumber(p.age) ==> f.age == 0.0)
      && (TruthyString(p.gender) ==> f.gender == p.gender.value) && (!TruthyString(p.gender) ==> f.gender == "male")
      && (TruthyNumber(p.weight) ==> f.weight == p.weight.value) && (!TruthyNumber(p.weight) ==> f.weight == 0.0)
      && (TruthyNumber(p.height) ==> f.height == p.height.value) && (!TruthyNumber(p.height) ==> f.height == 0.0)
      && (TruthyString(p.activityLevel) ==> f.activityLevel == p.activityLevel.value)
      && (!TruthyString(p.activityLevel) ==> f.activityLevel == "moderate")
      && (p.dietaryPreferences.Some? ==> f.dietaryPreferences == p.dietaryPreferences.value)
      && (p.dietaryPreferences.None? ==> f.dietaryPreferences == [])
      && (p.healthGoals.Some? ==> f.healthGoals == p.healthGoals.value)
      && (p.healthGoals.None? ==> f.healthGoals == [])
  {
    match profile
    case None => Fields(0.0, "male", 0.0, 0.0, "moderate", [], [])
    case Some(p) =>
      Fields(NumberOr(p.age, 0.0), StringOr(p.gender, "male"), NumberOr(p.weight, 0.0),
             NumberOr(p.height, 0.0), StringOr(p.activityLevel, "moderate"),
             ArrayOr(p.dietaryPreferences, []), ArrayOr(p.healthGoals, []))
  }

  /** The update the submit handler sends: the form's values, each field present. */
  function UpdateFrom(f: Fields): (p: Profile)
    ensures FieldsFrom(Some(p)).dietaryPreferences == f.dietaryPreferences
    ensures FieldsFrom(Some(p)).healthGoals == f.healthGoals
    ensures f.age != 0.0 ==> FieldsFrom(Some(p)).age == f.age
    ensures f.weight != 0.0 ==> FieldsFrom(Some(p)).weight == f.weight
    ensures f.height != 0.0 ==> FieldsFrom(Some(p)).height == f.height
    ensures f.gender != "" ==> FieldsFrom(Some(p)).gender == f.gender
    ensures f.activityLevel != "" ==> FieldsFrom(Some(p)).activityLevel == f.activityLevel
    ensures f.weight != 0.0 && f.height != 0.0 ==> ProfileMetrics(p).Some?
  {
    Profile(Some(f.age), Some(f.gender), Some(f.weight), Some(f.height),
            Some(f.dietaryPreferences), Some(f.healthGoals), Some(f.activityLevel))
  }

  /** A profile whose fields are all truthy is seeded into the form unchanged, and read back as itself. */
  lemma {:induction false} CompleteProfileRoundTrip(f: Fields)
    requires f.age != 0.0 && f.gender != "" && f.weight != 0.0 && f.height != 0.0 && f.activityLevel != ""
    ensures FieldsFrom(Some(UpdateFrom(f))) == f
  {
  }

  /** The form component's state. */
  class ProfileFormState {
    var age: real
    var gender: string
    var weight: real
    var height: real
    var activityLevel: string
    var dietaryPreferences: seq<string>
    var healthGoals: seq<string>
    var loading: bool
    var success: bool
    var bmiData: Option<BMIData>

    function CurrentFields(): Fields
      reads this
    {
      Fields(age, gender, weight, height, activityLevel, dietaryPreferences, healthGoals)
    }

    /** The `useState` initialisers, seeded from the profile at mount time. */
    constructor (profile: Option<Profile>)
      ensures CurrentFields() == FieldsFrom(profile)
      ensures !loading && !success && bmiData == None
    {
      var f := FieldsFrom(profile);
      age, gender, weight, height := f.age, f.gender, f.weight, f.height;
      activityLevel, dietaryPreferences, healthGoals := f.activityLevel, f.dietaryPreferences, f.healthGoals;
      loading, success, bmiData := false, false, None;
    }

    /**
      The effect run when the profile changes: with a profile, the seven
      fields are reseeded and the metrics replaced when weight and height are
      truthy; with none, nothing changes.
    */
    method OnProfileChange(profile: Option<Profile>)
      modifies this
      ensures loading == old(loading) && success == old(success)
      ensures profile.None? ==> CurrentFields() == old(CurrentFields()) && bmiData == old(bmiData)
      ensures profile.Some? ==> CurrentFields() == FieldsFrom(profile)
      ensures profile.Some? && ProfileMetrics(profile.value).Some? ==> bmiData == ProfileMetrics(profile.value)
      ensures profile.Some? && ProfileMetrics(profile.value).None? ==> bmiData == old(bmiData)
    {
      if profile.Some? {
        var f := FieldsFrom(profile);
        age, gender, weight, height := f.age, f.gender, f.weight, f.height;
        activityLevel, dietaryPreferences, healthGoals := f.activityLevel, f.dietaryPreferences, f.healthGoals;
        var p := profile.value;
        if TruthyNumber(p.weight) && TruthyNumber(p.height) {
          bmiData := ProfileMetrics(p);
        }
      }
    }

    /** A dietary-preference button. */
    method TogglePreference(item: string)
      modifies this
      ensures dietaryPreferences == Toggle(old(dietaryPreferences), item)
      ensures CurrentFields() == old(CurrentFields()).(dietaryPreferences := dietaryPreferences)
      ensures loading == old(loading) && success == old(success) && bmiData == old(bmiData)
    {
      dietaryPreferences := Toggle(dietaryPreferences, item);
    }

    /** A health-goal button. */
    method ToggleGoal(item: string)
      modifies this
      ensures healthGoals == Toggle(old(healthGoals), item)
      ensures CurrentFields() == old(CurrentFields()).(healthGoals := healthGoals)
      ensures loading == old(loading) && success == old(success) && bmiData == old(bmiData)
    {
      healthGoals := Toggle(healthGoals, item);
    }

    /**
      `handleSubmit`, run to completion: without a user nothing happens and
      nothing is sent; otherwise the form's values are sent, `success` ends as
      the outcome of the update and profile refresh, and `loading` ends false.
    */
    method HandleSubmit(signedIn: bool, updateSucceeds: bool) returns (sent: Option<Profile>)
      modifies this
      ensures CurrentFields() == old(CurrentFields()) && bmiData == old(bmiData)
      ensures !signedIn ==> sent == None && loading == old(loading) && success == old(success)
      ensures signedIn ==> sent == Some(UpdateFrom(CurrentFields())) && !loading && success == updateSucceeds
    {
      if !signedIn {
        return None;
      }
      loading := true;
      success := false;
      sent := Some(UpdateFrom(CurrentFields()));
      if updateSucceeds {
        success := true;
      }
      loading := false;
    }
  }
}
