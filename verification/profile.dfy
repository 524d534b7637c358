/**
 * What the profile screens keep in the device's key/value store: the five keys,
 * the dropdown choices for height, the `feet'inches"` height text and the fixed
 * answers of the three choice questions, plus the rule that a name counts only
 * when its trimmed text is non-empty.
 */
module Profile {
  import opened Wrappers
  import opened Strings

  /** The key/value store (`AsyncStorage`): keys and values are strings. */
  type Store = map<string, string>

  const NameKey: string := "Name"
  const HeightKey: string := "Height"
  const GenderKey: string := "Gender"
  const HandednessKey: string := "Handedness"
  const LevelKey: string := "Level"

  /** The five keys are different, so writing one leaves the others as they were. */
  lemma KeysDistinct()
    ensures NameKey != HeightKey && NameKey != GenderKey && NameKey != HandednessKey && NameKey != LevelKey
    ensures HeightKey != GenderKey && HeightKey != HandednessKey && HeightKey != LevelKey
    ensures GenderKey != HandednessKey && GenderKey != LevelKey && HandednessKey != LevelKey
  {
    assert NameKey[0] == 'N' && HeightKey[0] == 'H' && GenderKey[0] == 'G' && HandednessKey[0] == 'H' && LevelKey[0] == 'L';
    assert |HeightKey| != |HandednessKey|;
  }

  /** `name.trim().length > 0` */
  function IsNameFilled(name: string): (filled: bool)
    ensures filled <==> !IsBlank(name)
  {
    TrimEmptyIffBlank(name);
    |Trim(name)| > 0
  }

  /** The feet dropdown's values. */
  const FeetOptions: seq<string> := ["1", "2", "3", "4", "5", "6", "7"]

  /** The inches dropdown's values. */
  const InchesOptions: seq<string> := ["0", "1", "2", "3", "4", "5", "6", "7", "8", "9", "10", "11", "12"]

  /** The feet are the numbers 1 to 7 and the inches 0 to 12, each written in decimal. */
  lemma HeightOptionsAreNumbers()
    ensures |FeetOptions| == 7 && forall i :: 0 <= i < 7 ==> FeetOptions[i] == NatToDecimal(i + 1)
    ensures |InchesOptions| == 13 && forall i :: 0 <= i < 13 ==> InchesOptions[i] == NatToDecimal(i)
  {
    assert NatToDecimal(10) == "10" && NatToDecimal(11) == "11" && NatToDecimal(12) == "12";
  }

  /** No dropdown value contains the quote characters of the height text. */
  lemma HeightOptionsUnquoted(v: string)
    requires v in FeetOptions || v in InchesOptions
    ensures '\'' !in v && '"' !in v
  {
    HeightOptionsAreNumbers();
    var n: nat;
    if v in FeetOptions {
      var i :| 0 <= i < |FeetOptions| && FeetOptions[i] == v;
      n := i + 1;
    } else {
      var i :| 0 <= i < |InchesOptions| && InchesOptions[i] == v;
      n := i;
    }
    assert v == NatToDecimal(n);
  }

  /** `${feet}'${inches}"` */
  function HeightText(feet: string, inches: string): string
  {
    feet + "'" + inches + "\""
  }

  /** Splits a height text at its first `'`; the rest must end in `"`. */
  function ParseHeight(s: string): (r: Option<(string, string)>)
    ensures r.Some? ==> '\'' !in r.value.0
  {
    match IndexOf(s, '\'')
    case None => None
    case Some(k) =>
      if k + 2 <= |s| && s[|s| - 1] == '"' then Some((s[..k], s[k + 1..|s| - 1])) else None
  }

  /** A height text reads back as its feet and inches, provided the feet contain no `'`. */
  lemma HeightRoundTrip(feet: string, inches: string)
    requires '\'' !in feet
    ensures ParseHeight(HeightText(feet, inches)) == Some((feet, inches))
  {
    var s := HeightText(feet, inches);
    assert s[|feet|] == '\'';
    assert s[..|feet|] == feet;
    assert s[|feet| + 1..|s| - 1] == inches;
  }

  /** Every height the dropdowns allow is stored as text that reads back as the chosen pair. */
  lemma ChosenHeightRoundTrip(feet: string, inches: string)
    requires feet in FeetOptions && inches in InchesOptions
    ensures ParseHeight(HeightText(feet, inches)) == Some((feet, inches))
  {
    HeightOptionsUnquoted(feet);
    HeightRoundTrip(feet, inches);
  }

  datatype Gender = Male | Female
  datatype Handedness = LeftHanded | RightHanded
  datatype Level = Beginner | Intermediate | Advanced

  function GenderText(g: Gender): string
  {
    match g
    case Male => "Male"
    case Female => "Female"
  }

  function ParseGender(s: string): Option<Gender>
  {
    if s == "Male" then Some(Male) else if s == "Female" then Some(Female) else None
  }

  function HandednessText(h: Handedness): string
  {
    match h
    case LeftHanded => "Left"
    case RightHanded => "Right"
  }

  function ParseHandedness(s: string): Option<Handedness>
  {
    if s == "Left" then Some(LeftHanded) else if s == "Right" then Some(RightHanded) else None
  }

  function LevelText(l: Level): string
  {
    match l
    case Beginner => "Beginner"
    case Intermediate => "Intermediate"
    case Advanced => "Advanced"
  }

  function ParseLevel(s: string): Option<Level>
  {
    if s == "Beginner" then Some(Beginner)
    else if s == "Intermediate" then Some(Intermediate)
    else if s == "Advanced" then Some(Advanced)
    else None
  }

  /**
   * Each stored answer reads back as the choice that wrote it, and the only texts
   * that read back are the button values: {Male, Female}, {Left, Right} and
   * {Beginner, Intermediate, Advanced}.
   */
  lemma ChoiceTextsRoundTrip(g: Gender, h: Handedness, l: Level, s: string)
    ensures ParseGender(GenderText(g)) == Some(g)
    ensures ParseHandedness(HandednessText(h)) == Some(h)
    ensures ParseLevel(LevelText(l)) == Some(l)
    ensures ParseGender(s).Some? <==> s == "Male" || s == "Female"
    ensures ParseHandedness(s).Some? <==> s == "Left" || s == "Right"
    ensures ParseLevel(s).Some? <==> s == "Beginner" || s == "Intermediate" || s == "Advanced"
  {
  }

  /** A height text made from one feet value and one inches value. */
  predicate IsHeightChoice(s: string)
  {
    match ParseHeight(s)
    case None => false
    case Some((feet, inches)) => feet in FeetOptions && inches in InchesOptions
  }

  /**
   * Every profile value the store holds is one the profile screens could have
   * written: a non-blank name, a chosen height and one of the fixed answers.
   */
  predicate WellFormedProfile(store: Store)
  {
    (NameKey in store ==> !IsBlank(store[NameKey])) &&
    (HeightKey in store ==> IsHeightChoice(store[HeightKey])) &&
    (GenderKey in store ==> ParseGender(store[GenderKey]).Some?) &&
    (HandednessKey in store ==> ParseHandedness(store[HandednessKey]).Some?) &&
    (LevelKey in store ==> ParseLevel(store[LevelKey]).Some?)
  }

  /** Every one of the five keys holds a well-formed value. */
  predicate CompleteProfile(store: Store)
  {
    NameKey in store && HeightKey in store && GenderKey in store &&
    HandednessKey in store && LevelKey in store && WellFormedProfile(store)
  }
}
