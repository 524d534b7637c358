/**
 * The first-run profile wizard: five full-screen steps (name, height, gender,
 * handedness, level), each hiding itself and showing the next, writing its
 * answer to the store as it goes.
 */
module ProfileSetup {
  import opened Strings
  import opened Profile

  /**
   * The wizard's state: the five `modalVisibleN` flags, the typed name, the two
   * dropdown values and the store it writes to.
   */
  class ProfileWizard {
    var modalVisible1: bool
    var modalVisible2: bool
    var modalVisible3: bool
    var modalVisible4: bool
    var modalVisible5: bool
    var name: string
    var feet: string
    var inches: string
    var store: Store

    /** Number of steps showing. */
    function VisibleCount(): nat
      reads this
    {
      (if modalVisible1 then 1 else 0) + (if modalVisible2 then 1 else 0) + (if modalVisible3 then 1 else 0) +
      (if modalVisible4 then 1 else 0) + (if modalVisible5 then 1 else 0)
    }

    /** Steps 1 to `k` are all behind the user (and, as `Valid` says, were all completed). */
    predicate Passed(k: nat)
      reads this
    {
      (k >= 1 ==> !modalVisible1) && (k >= 2 ==> !modalVisible2) && (k >= 3 ==> !modalVisible3) &&
      (k >= 4 ==> !modalVisible4) && (k >= 5 ==> !modalVisible5)
    }

    /**
     * At most one step shows at a time, the dropdowns hold a listed value or
     * nothing, a typed name is the stored one, and every step the user has left behind wrote a well-formed answer.
     */
    ghost predicate Valid()
      reads this
    {
      VisibleCount() <= 1 &&
      (feet == "" || feet in FeetOptions) && (inches == "" || inches in InchesOptions) &&
      (|name| > 0 ==> NameKey in store && store[NameKey] == name) &&
      (Passed(1) ==> NameKey in store && store[NameKey] == name && !IsBlank(name)) &&
      (Passed(2) ==> HeightKey in store && IsHeightChoice(store[HeightKey])) &&
      (Passed(3) ==> GenderKey in store && ParseGender(store[GenderKey]).Some?) &&
      (Passed(4) ==> HandednessKey in store && ParseHandedness(store[HandednessKey]).Some?) &&
      (Passed(5) ==> LevelKey in store && ParseLevel(store[LevelKey]).Some?)
    }

    /** Only the name step shows at first; nothing is typed or chosen yet. */
    constructor (store: Store)
      ensures Valid()
      ensures modalVisible1 && !modalVisible2 && !modalVisible3 && !modalVisible4 && !modalVisible5
      ensures name == "" && feet == "" && inches == "" && this.store == store
    {
      modalVisible1, modalVisible2, modalVisible3, modalVisible4, modalVisible5 := true, false, false, false, false;
      name, feet, inches := "", "", "";
      this.store := store;
    }

    /** The name field's `onChangeText`: every edit is stored at once, before Next. */
    method ChangeName(text: string)
      requires Valid() && modalVisible1
      modifies this
      ensures Valid()
      ensures name == text && store == old(store)[NameKey := text]
      ensures modalVisible1 && modalVisible2 == old(modalVisible2) && modalVisible3 == old(modalVisible3)
      ensures modalVisible4 == old(modalVisible4) && modalVisible5 == old(modalVisible5)
      ensures feet == old(feet) && inches == old(inches)
    {
      KeysDistinct();
      store := store[NameKey := text];
      name := text;
    }

    /** Next on the name step: disabled, so it does nothing, while the trimmed name is empty. */
    method NextFromName()
      requires Valid() && modalVisible1
      modifies this
      ensures IsNameFilled(name) ==> !modalVisible1 && modalVisible2
      ensures !IsNameFilled(name) ==> modalVisible1 && modalVisible2 == old(modalVisible2)
      ensures modalVisible3 == old(modalVisible3) && modalVisible4 == old(modalVisible4) && modalVisible5 == old(modalVisible5)
      ensures name == old(name) && feet == old(feet) && inches == old(inches) && store == old(store)
      ensures Valid()
    {
      if IsNameFilled(name) {
        modalVisible1 := false;
        modalVisible2 := true;
      }
    }

    /** The feet dropdown. */
    method SelectFeet(value: string)
      requires Valid() && modalVisible2 && value in FeetOptions
      modifies this
      ensures Valid()
      ensures feet == value
      ensures modalVisible1 == old(modalVisible1) && modalVisible2 && modalVisible3 == old(modalVisible3)
      ensures modalVisible4 == old(modalVisible4) && modalVisible5 == old(modalVisible5)
      ensures name == old(name) && inches == old(inches) && store == old(store)
    {
      feet := value;
    }

    /** The inches dropdown. */
    method SelectInches(value: string)
      requires Valid() && modalVisible2 && value in InchesOptions
      modifies this
      ensures Valid()
      ensures inches == value
      ensures modalVisible1 == old(modalVisible1) && modalVisible2 && modalVisible3 == old(modalVisible3)
      ensures modalVisible4 == old(modalVisible4) && modalVisible5 == old(modalVisible5)
      ensures name == old(name) && feet == old(feet) && store == old(store)
    {
      inches := value;
    }

    /** Next on the height step: disabled while either value is unchosen; otherwise stores `feet'inches"`. */
    method NextFromHeight()
      requires Valid() && modalVisible2
      modifies this
      ensures Valid()
      ensures feet != "" && inches != "" ==>
        store == old(store)[HeightKey := HeightText(feet, inches)] && !modalVisible2 && modalVisible3
      ensures feet == "" || inches == "" ==>
        store == old(store) && modalVisible2 && modalVisible3 == old(modalVisible3)
      ensures modalVisible1 == old(modalVisible1) && modalVisible4 == old(modalVisible4) && modalVisible5 == old(modalVisible5)
      ensures name == old(name) && feet == old(feet) && inches == old(inches)
    {
      KeysDistinct();
      if feet != "" && inches != "" {
        ChosenHeightRoundTrip(feet, inches);
        store := store[HeightKey := HeightText(feet, inches)];
        modalVisible2 := false;
        modalVisible3 := true;
      }
    }

    /** Male or Female: stored, then on to handedness. */
    method ChooseGender(g: Gender)
      requires Valid() && modalVisible3
      modifies this
      ensures Valid()
      ensures store == old(store)[GenderKey := GenderText(g)]
      ensures !modalVisible3 && modalVisible4
      ensures modalVisible1 == old(modalVisible1) && modalVisible2 == old(modalVisible2) && modalVisible5 == old(modalVisible5)
      ensures name == old(name) && feet == old(feet) && inches == old(inches)
    {
      KeysDistinct();
      ChoiceTextsRoundTrip(g, LeftHanded, Beginner, "");
      store := store[GenderKey := GenderText(g)];
      modalVisible3 := false;
      modalVisible4 := true;
    }

    /** Left or Right: stored, then on to the level. */
    method ChooseHandedness(h: Handedness)
      requires Valid() && modalVisible4
      modifies this
      ensures Valid()
      ensures store == old(store)[HandednessKey := HandednessText(h)]
      ensures !modalVisible4 && modalVisible5
      ensures modalVisible1 == old(modalVisible1) && modalVisible2 == old(modalVisible2) && modalVisible3 == old(modalVisible3)
      ensures name == old(name) && feet == old(feet) && inches == old(inches)
    {
      KeysDistinct();
      ChoiceTextsRoundTrip(Male, h, Beginner, "");
      store := store[HandednessKey := HandednessText(h)];
      modalVisible4 := false;
      modalVisible5 := true;
    }

    /**
     * Beginner, Intermediate or Advanced: stored, and the wizard closes with no step
     * showing and a complete, well-formed profile in the store.
     */
    method ChooseLevel(l: Level)
      requires Valid() && modalVisible5
      modifies this
      ensures Valid()
      ensures store == old(store)[LevelKey := LevelText(l)]
      ensures VisibleCount() == 0 && CompleteProfile(store)
      ensures name == old(name) && feet == old(feet) && inches == old(inches)
    {
      KeysDistinct();
      ChoiceTextsRoundTrip(Male, LeftHanded, l, "");
      store := store[LevelKey := LevelText(l)];
      modalVisible5 := false;
    }
  }
}
