/** The bio-profile form: six choices held in one record that every control
    replaces with a copy differing in a single field, and a three-stop slider
    for light sensitivity. */
module Preferences {
  import opened Types

  /** The profile the form opens with. */
  const DefaultPreferences := UserPreferences(
    Age30To50, Balanced, CaffeineAsNeeded, NoAlcohol, NaturalOnly, NormalSensitivity)

  /** The defaults as the form writes them on the wire. */
  lemma DefaultsOnTheWire()
    ensures AgeGroupName(DefaultPreferences.ageGroup) == "30-50"
    ensures ChronotypeName(DefaultPreferences.chronotype) == "balanced"
    ensures CaffeineName(DefaultPreferences.caffeine) == "necessary"
    ensures AlcoholName(DefaultPreferences.alcohol) == "none"
    ensures MelatoninName(DefaultPreferences.melatonin) == "natural"
    ensures LightSensitivityName(DefaultPreferences.lightSensitivity) == "normal"
  {
  }

  /** The age buttons, left to right. */
  const AgeChoices: seq<string> := ["0-18", "18-30", "30-50", "50-70", "70+"]

  /** The chronotype cards' ids, left to right. */
  const ChronotypeChoices: seq<string> := ["early_bird", "balanced", "night_owl"]

  /** The buttons offer every age group exactly once and nothing else. */
  lemma AgeChoicesAreTheGroups()
    ensures |AgeChoices| == 5
    ensures forall i, j :: 0 <= i < j < |AgeChoices| ==> AgeChoices[i] != AgeChoices[j]
    ensures forall i :: 0 <= i < |AgeChoices| ==> ParseAgeGroup(AgeChoices[i]).Some?
    ensures forall a: AgeGroup :: AgeGroupName(a) in AgeChoices
  {
    forall a: AgeGroup ensures AgeGroupName(a) in AgeChoices {
      match a
      case Age0To18 => assert AgeChoices[0] == AgeGroupName(a);
      case Age18To30 => assert AgeChoices[1] == AgeGroupName(a);
      case Age30To50 => assert AgeChoices[2] == AgeGroupName(a);
      case Age50To70 => assert AgeChoices[3] == AgeGroupName(a);
      case Age70Plus => assert AgeChoices[4] == AgeGroupName(a);
    }
  }

  /** The cards offer every chronotype exactly once and nothing else. */
  lemma ChronotypeChoicesAreTheTypes()
    ensures |ChronotypeChoices| == 3
    ensures forall i, j :: 0 <= i < j < |ChronotypeChoices| ==> ChronotypeChoices[i] != ChronotypeChoices[j]
    ensures forall i :: 0 <= i < |ChronotypeChoices| ==> ParseChronotype(ChronotypeChoices[i]).Some?
    ensures forall c: Chronotype :: ChronotypeName(c) in ChronotypeChoices
  {
    forall c: Chronotype ensures ChronotypeName(c) in ChronotypeChoices {
      match c
      case EarlyBird => assert ChronotypeChoices[0] == ChronotypeName(c);
      case Balanced => assert ChronotypeChoices[1] == ChronotypeName(c);
      case NightOwl => assert ChronotypeChoices[2] == ChronotypeName(c);
    }
  }

  /** The slider's position for a sensitivity: low at the left end, high at the right,
      anything else in the middle. */
  function SliderPosition(l: LightSensitivity): (v: int)
    ensures 0 <= v <= 2
    ensures v == 0 <==> l == LowSensitivity
    ensures v == 2 <==> l == HighSensitivity
  {
    if l == LowSensitivity then 0 else if l == HighSensitivity then 2 else 1
  }

  /** The sensitivity a slider position stands for: `['low', 'normal', 'high'][v]`.
      The range input only produces the positions 0, 1 and 2. */
  function SliderLevel(v: int): (l: LightSensitivity)
    requires 0 <= v <= 2
    ensures l == LowSensitivity <==> v == 0
    ensures l == HighSensitivity <==> v == 2
  {
    [LowSensitivity, NormalSensitivity, HighSensitivity][v]
  }

  lemma SliderLevelOfPosition(l: LightSensitivity)
    ensures SliderLevel(SliderPosition(l)) == l
  {
  }

  lemma SliderPositionOfLevel(v: int)
    requires 0 <= v <= 2
    ensures SliderPosition(SliderLevel(v)) == v
  {
  }

  class PreferencesForm {
    var prefs: UserPreferences

    constructor ()
      ensures prefs == DefaultPreferences
    {
      prefs := DefaultPreferences;
    }

    method SelectAgeGroup(a: AgeGroup)
      modifies this
      ensures prefs == old(prefs).(ageGroup := a)
    {
      prefs := prefs.(ageGroup := a);
    }

    method SelectChronotype(c: Chronotype)
      modifies this
      ensures prefs == old(prefs).(chronotype := c)
    {
      prefs := prefs.(chronotype := c);
    }

    method SelectCaffeine(c: Caffeine)
      modifies this
      ensures prefs == old(prefs).(caffeine := c)
    {
      prefs := prefs.(caffeine := c);
    }

    method SelectAlcohol(a: Alcohol)
      modifies this
      ensures prefs == old(prefs).(alcohol := a)
    {
      prefs := prefs.(alcohol := a);
    }

    method SelectMelatonin(m: Melatonin)
      modifies this
      ensures prefs == old(prefs).(melatonin := m)
    {
      prefs := prefs.(melatonin := m);
    }

    /** The slider moved to position `v`. */
    method SlideLightSensitivity(v: int)
      requires 0 <= v <= 2
      modifies this
      ensures prefs == old(prefs).(lightSensitivity := SliderLevel(v))
      ensures SliderPosition(prefs.lightSensitivity) == v
    {
      SliderPositionOfLevel(v);
      prefs := prefs.(lightSensitivity := SliderLevel(v));
    }

    /** handleSubmit hands the current profile over as it is. */
    method Submit() returns (submitted: UserPreferences)
      ensures submitted == prefs
    {
      submitted := prefs;
    }
  }
}
