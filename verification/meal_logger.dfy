/**
  The meal logging form (components/meals/MealLogger.tsx): five pieces of
  state changed by the form's controls. Submitting hands a record of them to
  the caller and clears the title, the notes and the image.
*/
module MealLogger {
  import opened Js

  /** The logging method tabs. */
  datatype Tab = Photo | Manual

  /** The ids of the four meal-type buttons, in display order. */
  const MealTypeIds: seq<string> := ["breakfast", "lunch", "dinner", "snack"]

  /** The record passed to `onMealLogged`; `via` is its `method` field, the tab it was logged from. */
  datatype LoggedMeal = LoggedMeal(
    mealType: string, title: string, notes: string, image: Option<string>, timestamp: string, via: Tab)

  /** The Log Meal button is enabled exactly when the title has a character other than white space. */
  function SubmitEnabled(title: string): (enabled: bool)
    ensures enabled <==> exists k :: 0 <= k < |title| && !IsWhitespace(title[k])
    ensures enabled ==> title != ""
  {
    Trim(title) != ""
  }

  /** Padding never enables the button; one visible character does. */
  lemma SubmitEnabledExamples()
    ensures !SubmitEnabled("")
    ensures !SubmitEnabled(" \t\n")
    ensures SubmitEnabled("  Oats ")
  {
    assert !IsWhitespace("  Oats "[2]);
  }

  class MealLoggerState {
    var activeTab: Tab
    var mealType: string
    var selectedImage: Option<string>
    var mealTitle: string
    var mealNotes: string

    /** The meal type is always one of the four button ids. */
    predicate Valid()
      reads this
    {
      mealType in MealTypeIds
    }

    /** The initial state: the photo tab, breakfast, no image, empty title and notes. */
    constructor ()
      ensures Valid()
      ensures activeTab == Photo && mealType == "breakfast" && selectedImage == None
      ensures mealTitle == "" && mealNotes == ""
    {
      activeTab, mealType, selectedImage, mealTitle, mealNotes := Photo, "breakfast", None, "", "";
    }

    /** The `i`-th meal-type button. */
    method SelectMealType(i: nat)
      requires i < |MealTypeIds| && Valid()
      modifies this
      ensures Valid()
      ensures mealType == MealTypeIds[i]
      ensures activeTab == old(activeTab) && selectedImage == old(selectedImage)
      ensures mealTitle == old(mealTitle) && mealNotes == old(mealNotes)
    {
      mealType := MealTypeIds[i];
    }

    /** A tab button: only the tab changes, whatever was typed or uploaded is kept. */
    method SelectTab(tab: Tab)
      requires Valid()
      modifies this
      ensures Valid()
      ensures activeTab == tab
      ensures mealType == old(mealType) && selectedImage == old(selectedImage)
      ensures mealTitle == old(mealTitle) && mealNotes == old(mealNotes)
    {
      activeTab := tab;
    }

    /** Typing in either title input. */
    method EditTitle(title: string)
      requires Valid()
      modifies this
      ensures Valid()
      ensures mealTitle == title
      ensures activeTab == old(activeTab) && mealType == old(mealType)
      ensures selectedImage == old(selectedImage) && mealNotes == old(mealNotes)
    {
      mealTitle := title;
    }

    /** Typing in the notes. */
    method EditNotes(notes: string)
      requires Valid()
      modifies this
      ensures Valid()
      ensures mealNotes == notes
      ensures activeTab == old(activeTab) && mealType == old(mealType)
      ensures selectedImage == old(selectedImage) && mealTitle == old(mealTitle)
    {
      mealNotes := notes;
    }

    /** The file reader's result arriving as a data URL. */
    method ImageLoaded(dataUrl: string)
      requires Valid()
      modifies this
      ensures Valid()
      ensures selectedImage == Some(dataUrl)
      ensures activeTab == old(activeTab) && mealType == old(mealType)
      ensures mealTitle == old(mealTitle) && mealNotes == old(mealNotes)
    {
      selectedImage := Some(dataUrl);
    }

    /** "Remove Image": the image goes, nothing else changes. */
    method RemoveImage()
      requires Valid()
      modifies this
      ensures Valid()
      ensures selectedImage == None
      ensures activeTab == old(activeTab) && mealType == old(mealType)
      ensures mealTitle == old(mealTitle) && mealNotes == old(mealNotes)
    {
      selectedImage := None;
    }

    /**
      `handleMealSubmit`: the record carries the current state and the given
      timestamp; then title, notes and image are cleared while meal type and
      tab stay as they were.
    */
    method HandleMealSubmit(timestamp: string) returns (meal: LoggedMeal)
      requires Valid()
      modifies this
      ensures Valid()
      ensures meal == LoggedMeal(old(mealType), old(mealTitle), old(mealNotes), old(selectedImage), timestamp, old(activeTab))
      ensures mealTitle == "" && mealNotes == "" && selectedImage == None
      ensures mealType == old(mealType) && activeTab == old(activeTab)
    {
      meal := LoggedMeal(mealType, mealTitle, mealNotes, selectedImage, timestamp, activeTab);
      mealTitle, mealNotes, selectedImage := "", "", None;
    }

    /**
      A press of the Log Meal button: a disabled button does nothing, an
      enabled one submits. Straight after a submit the button is disabled again.
    */
    method PressLogMeal(timestamp: string) returns (meal: Option<LoggedMeal>)
      requires Valid()
      modifies this
      ensures Valid()
      ensures !SubmitEnabled(old(mealTitle)) ==> meal == None && unchanged(this)
      ensures SubmitEnabled(old(mealTitle)) ==>
        meal == Some(LoggedMeal(old(mealType), old(mealTitle), old(mealNotes), old(selectedImage), timestamp, old(activeTab)))
        && mealTitle == "" && mealNotes == "" && selectedImage == None
        && mealType == old(mealType) && activeTab == old(activeTab)
      ensures !SubmitEnabled(mealTitle)
    {
      if SubmitEnabled(mealTitle) {
        var logged := HandleMealSubmit(timestamp);
        meal := Some(logged);
      } else {
        meal := None;
      }
    }
  }
}
