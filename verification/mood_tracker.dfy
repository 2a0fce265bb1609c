/**
  The mood tracker (components/dashboard/MoodTracker.tsx): the six moods with
  their icons and colours, the `find` lookups with their fallbacks, and the
  selected mood and energy level that the buttons set.
*/
module MoodTracker {
  import opened Js

  datatype Icon = Smile | Meh | Frown | Zap | Moon | Coffee

  datatype Mood = Mood(id: string, caption: string, icon: Icon, color: string)

  /** The mood buttons, in display order. */
  const Moods: seq<Mood> := [
    Mood("happy", "Happy", Smile, "lemonade"),
    Mood("neutral", "Neutral", Meh, "electric"),
    Mood("sad", "Sad", Frown, "crimson"),
    Mood("energetic", "Energetic", Zap, "lemonade"),
    Mood("tired", "Tired", Moon, "nights"),
    Mood("stressed", "Stressed", Coffee, "crimson")]

  /** `moods.find(m => m.id === id)`: the first mood with that id, if any. */
  function Find(moods: seq<Mood>, id: string): (r: Option<Mood>)
    ensures r.None? <==> forall i :: 0 <= i < |moods| ==> moods[i].id != id
    ensures r.Some? ==>
              exists i :: (0 <= i < |moods| && moods[i] == r.value
                           && r.value.id == id && forall j :: 0 <= j < i ==> moods[j].id != id)
  {
    if moods == [] then None
    else if moods[0].id == id then Some(moods[0])
    else
      var rest := Find(moods[1..], id);
      assert rest.Some? ==>
               exists i :: (1 <= i < |moods| && moods[i] == rest.value
                            && forall j :: 1 <= j < i ==> moods[j].id != id);
      rest
  }

  /** `getMoodIcon`: the icon of the mood with that id, the Meh icon for an unknown id. */
  function MoodIcon(id: string): (icon: Icon)
    ensures forall i :: 0 <= i < |Moods| && Moods[i].id == id ==> icon == Moods[i].icon
    ensures (forall i :: 0 <= i < |Moods| ==> Moods[i].id != id) ==> icon == Meh
  {
    IdsDistinct();
    match Find(Moods, id)
    case Some(m) => m.icon
    case None => Meh
  }

  /** `getMoodColor`: the colour of the mood with that id, "neutral" for an unknown id. */
  function MoodColor(id: string): (color: string)
    ensures forall i :: 0 <= i < |Moods| && Moods[i].id == id ==> color == Moods[i].color
    ensures (forall i :: 0 <= i < |Moods| ==> Moods[i].id != id) ==> color == "neutral"
  {
    IdsDistinct();
    match Find(Moods, id)
    case Some(m) => m.color
    case None => "neutral"
  }

  /** No two moods share an id, so the first match is the only one. */
  lemma IdsDistinct()
    ensures forall i, j :: 0 <= i < j < |Moods| ==> Moods[i].id != Moods[j].id
  {
  }

  /**
    The "neutral" colour of an unknown mood is not the colour of the mood
    called "neutral", which is "electric".
  */
  lemma LookupExamples()
    ensures MoodColor("sad") == "crimson" && MoodIcon("tired") == Moon
    ensures MoodColor("calm") == "neutral" && MoodIcon("calm") == Meh
    ensures MoodColor("neutral") == "electric"
  {
    assert Moods[2].id == "sad" && Moods[4].id == "tired" && Moods[1].id == "neutral";
    assert forall i :: 0 <= i < |Moods| ==> |Moods[i].id| != |"calm"|;
  }

  /** The five energy dots: the dot of level `k + 1` is filled exactly when `k + 1 <= level`. */
  function EnergyDots(level: int): (dots: seq<bool>)
    ensures |dots| == 5
    ensures forall k :: 0 <= k < 5 ==> (dots[k] <==> k + 1 <= level)
  {
    seq(5, k => k + 1 <= level)
  }

  /** The number of filled dots. */
  function Filled(dots: seq<bool>): nat
  {
    if dots == [] then 0 else (if dots[0] then 1 else 0) + Filled(dots[1..])
  }

  /** Exactly `level` dots are filled for every level from 1 to 5. */
  lemma {:induction false} FilledDotsMatchLevel(level: int)
    requires 1 <= level <= 5
    ensures Filled(EnergyDots(level)) == level
  {
    FilledPrefix(EnergyDots(level), level, 5);
  }

  /** Dots filled exactly below position `level` count `level`, however many follow. */
  lemma {:induction false} FilledPrefix(dots: seq<bool>, level: int, n: nat)
    requires |dots| == n && 0 <= level <= n
    requires forall k :: 0 <= k < n ==> (dots[k] <==> k + 1 <= level)
    ensures Filled(dots) == level
    decreases n
  {
    if n > 0 {
      if level == 0 {
        FilledPrefix(dots[1..], 0, n - 1);
      } else {
        FilledPrefix(dots[1..], level - 1, n - 1);
      }
    }
  }

  /** Whether `id` names one of the six moods. */
  predicate IsMoodId(id: string)
  {
    exists i :: 0 <= i < |Moods| && Moods[i].id == id
  }

  class MoodTrackerState {
    var selectedMood: string
    var energyLevel: int

    /** The selection is empty or a mood id, and the energy level lies in 1..5. */
    predicate Valid()
      reads this
    {
      (selectedMood == "" || IsMoodId(selectedMood)) && 1 <= energyLevel <= 5
    }

    constructor ()
      ensures Valid()
      ensures selectedMood == "" && energyLevel == 3
    {
      selectedMood, energyLevel := "", 3;
    }

    /** The `i`-th mood button. */
    method SelectMood(i: nat)
      requires i < |Moods| && Valid()
      modifies this
      ensures Valid()
      ensures selectedMood == Moods[i].id && energyLevel == old(energyLevel)
    {
      selectedMood := Moods[i].id;
    }

    /** The energy button of `level`, one of 1 to 5. */
    method SelectEnergy(level: int)
      requires 1 <= level <= 5 && Valid()
      modifies this
      ensures Valid()
      ensures energyLevel == level && selectedMood == old(selectedMood)
    {
      energyLevel := level;
    }

    /** The rendered dots: as many filled as the energy level. */
    function Dots(): (dots: seq<bool>)
      requires Valid()
      reads this
      ensures |dots| == 5 && Filled(dots) == energyLevel
    {
      FilledDotsMatchLevel(energyLevel);
      EnergyDots(energyLevel)
    }
  }
}
