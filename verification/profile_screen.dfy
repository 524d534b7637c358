/**
 * The profile screen: an Edit button opens a menu of five fields, each menu
 * button opens that field's dialog, and each dialog writes its answer to the
 * store under the field's key before closing. The picture above it is chosen
 * from a fixed set of icons.
 */
module ProfileScreen {
  import opened Strings
  import opened Profile

  /** `getData`: the stored value, or `""` when the key is absent or the read fails. */
  function GetData(store: Store, key: string, readFails: bool): (value: string)
    ensures !readFails && key in store ==> value == store[key]
    ensures readFails || key !in store ==> value == ""
  {
    if !readFails && key in store then store[key] else ""
  }

  /** The field dialogs the edit menu leads to. */
  datatype Dialog = NameDialog | GenderDialog | HeightDialog | HandednessDialog | LevelDialog

  /**
   * The screen's six visibility flags, the `let` locals of the name and height
   * dialogs, and the store. The locals are declared afresh, empty, on every
   * render, and any change of a flag renders the screen again.
   */
  class ProfileEditor {
    var editModalVisible: bool
    var nameModalVisible: bool
    var genderModalVisible: bool
    var heightModalVisible: bool
    var handednessModalVisible: bool
    var levelModalVisible: bool
    var newName: string
    var feet: string
    var inches: string
    var store: Store

    function IsVisible(d: Dialog): bool
      reads this
    {
      match d
      case NameDialog => nameModalVisible
      case GenderDialog => genderModalVisible
      case HeightDialog => heightModalVisible
      case HandednessDialog => handednessModalVisible
      case LevelDialog => levelModalVisible
    }

    /** Number of dialogs showing, the edit menu included. */
    function VisibleCount(): nat
      reads this
    {
      (if editModalVisible then 1 else 0) + (if nameModalVisible then 1 else 0) +
      (if genderModalVisible then 1 else 0) + (if heightModalVisible then 1 else 0) +
      (if handednessModalVisible then 1 else 0) + (if levelModalVisible then 1 else 0)
    }

    /**
     * At most one dialog shows; a typed name exists only while the name dialog
     * shows, and chosen feet and inches only while the height dialog shows, and
     * those are listed values.
     */
    ghost predicate Valid()
      reads this
    {
      VisibleCount() <= 1 &&
      (!nameModalVisible ==> newName == "") &&
      (!heightModalVisible ==> feet == "" && inches == "") &&
      (feet == "" || feet in FeetOptions) && (inches == "" || inches in InchesOptions)
    }

    /** The state after the dialogs render again: the flags as given, the locals empty. */
    ghost predicate Rendered(edit: bool, name: bool, gender: bool, height: bool, handedness: bool, level: bool)
      reads this
    {
      editModalVisible == edit && nameModalVisible == name && genderModalVisible == gender &&
      heightModalVisible == height && handednessModalVisible == handedness && levelModalVisible == level &&
      newName == "" && feet == "" && inches == ""
    }

    /** Every dialog starts hidden. */
    constructor (store: Store)
      ensures Valid()
      ensures Rendered(false, false, false, false, false, false) && this.store == store
    {
      editModalVisible, nameModalVisible, genderModalVisible := false, false, false;
      heightModalVisible, handednessModalVisible, levelModalVisible := false, false, false;
      newName, feet, inches := "", "", "";
      this.store := store;
    }

    /** The Edit button (reachable only while no dialog covers the screen) shows the menu. */
    method PressEdit()
      requires Valid() && VisibleCount() == 0
      modifies this
      ensures Valid()
      ensures Rendered(true, false, false, false, false, false) && store == old(store)
    {
      editModalVisible := true;
      newName, feet, inches := "", "", "";
    }

    /** A menu button: the menu hides and exactly the chosen field's dialog shows. */
    method OpenDialog(d: Dialog)
      requires Valid() && editModalVisible
      modifies this
      ensures Valid()
      ensures Rendered(false, d == NameDialog, d == GenderDialog, d == HeightDialog, d == HandednessDialog, d == LevelDialog)
      ensures IsVisible(d) && VisibleCount() == 1
      ensures store == old(store)
    {
      editModalVisible := false;
      match d
      case NameDialog => nameModalVisible := true;
      case GenderDialog => genderModalVisible := true;
      case HeightDialog => heightModalVisible := true;
      case HandednessDialog => handednessModalVisible := true;
      case LevelDialog => levelModalVisible := true;
      newName, feet, inches := "", "", "";
    }

    /** The name field's `onChangeText`: only the local changes; nothing renders or is stored. */
    method TypeName(text: string)
      requires Valid() && nameModalVisible
      modifies this
      ensures Valid()
      ensures newName == text && nameModalVisible && store == old(store)
      ensures editModalVisible == old(editModalVisible) && genderModalVisible == old(genderModalVisible)
      ensures heightModalVisible == old(heightModalVisible) && handednessModalVisible == old(handednessModalVisible)
      ensures levelModalVisible == old(levelModalVisible) && feet == old(feet) && inches == old(inches)
    {
      newName := text;
    }

    /** Cancel: the name dialog closes and nothing is stored. */
    method CancelName()
      requires Valid() && nameModalVisible
      modifies this
      ensures Valid()
      ensures Rendered(false, false, false, false, false, false) && store == old(store)
    {
      nameModalVisible := false;
      newName, feet, inches := "", "", "";
    }

    /** Confirm: the typed name is stored only when its trim is non-empty; the dialog closes either way. */
    method ConfirmName()
      requires Valid() && nameModalVisible
      modifies this
      ensures Rendered(false, false, false, false, false, false)
      ensures store == if IsNameFilled(old(newName)) then old(store)[NameKey := old(newName)] else old(store)
      ensures WellFormedProfile(old(store)) ==> WellFormedProfile(store)
      ensures Valid()
    {
      KeysDistinct();
      nameModalVisible := false;
      if IsNameFilled(newName) {
        store := store[NameKey := newName];
      }
      newName, feet, inches := "", "", "";
    }

    /** The feet dropdown: only the local changes. */
    method SelectFeet(value: string)
      requires Valid() && heightModalVisible && value in FeetOptions
      modifies this
      ensures Valid()
      ensures feet == value && heightModalVisible && inches == old(inches) && newName == old(newName) && store == old(store)
      ensures editModalVisible == old(editModalVisible) && nameModalVisible == old(nameModalVisible)
      ensures genderModalVisible == old(genderModalVisible) && handednessModalVisible == old(handednessModalVisible)
      ensures levelModalVisible == old(levelModalVisible)
    {
      feet := value;
    }

    /** The inches dropdown: only the local changes. */
    method SelectInches(value: string)
      requires Valid() && heightModalVisible && value in InchesOptions
      modifies this
      ensures Valid()
      ensures inches == value && heightModalVisible && feet == old(feet) && newName == old(newName) && store == old(store)
      ensures editModalVisible == old(editModalVisible) && nameModalVisible == old(nameModalVisible)
      ensures genderModalVisible == old(genderModalVisible) && handednessModalVisible == old(handednessModalVisible)
      ensures levelModalVisible == old(levelModalVisible)
    {
      inches := value;
    }

    /** Next on the height dialog: stores `feet'inches"` only when both are chosen; the dialog closes either way. */
    method SaveHeight()
      requires Valid() && heightModalVisible
      modifies this
      ensures Rendered(false, false, false, false, false, false)
      ensures store == if old(feet) != "" && old(inches) != "" then old(store)[HeightKey := HeightText(old(feet), old(inches))] else old(store)
      ensures WellFormedProfile(old(store)) ==> WellFormedProfile(store)
      ensures Valid()
    {
      KeysDistinct();
      if feet != "" && inches != "" {
        ChosenHeightRoundTrip(feet, inches);
        store := store[HeightKey := HeightText(feet, inches)];
      }
      heightModalVisible := false;
      newName, feet, inches := "", "", "";
    }

    /** Male or Female: stored, and the dialog closes. */
    method ChooseGender(g: Gender)
      requires Valid() && genderModalVisible
      modifies this
      ensures Rendered(false, false, false, false, false, false)
      ensures store == old(store)[GenderKey := GenderText(g)]
      ensures WellFormedProfile(old(store)) ==> WellFormedProfile(store)
      ensures Valid()
    {
      KeysDistinct();
      ChoiceTextsRoundTrip(g, LeftHanded, Beginner, "");
      store := store[GenderKey := GenderText(g)];
      genderModalVisible := false;
      newName, feet, inches := "", "", "";
    }

    /** Left or Right: stored, and the dialog closes. */
    method ChooseHandedness(h: Handedness)
      requires Valid() && handednessModalVisible
      modifies this
      ensures Rendered(false, false, false, false, false, false)
      ensures store == old(store)[HandednessKey := HandednessText(h)]
      ensures WellFormedProfile(old(store)) ==> WellFormedProfile(store)
      ensures Valid()
    {
      KeysDistinct();
      ChoiceTextsRoundTrip(Male, h, Beginner, "");
      store := store[HandednessKey := HandednessText(h)];
      handednessModalVisible := false;
      newName, feet, inches := "", "", "";
    }

    /** Beginner, Intermediate or Advanced: stored, and the dialog closes. */
    method ChooseLevel(l: Level)
      requires Valid() && levelModalVisible
      modifies this
      ensures Rendered(false, false, false, false, false, false)
      ensures store == old(store)[LevelKey := LevelText(l)]
      ensures WellFormedProfile(old(store)) ==> WellFormedProfile(store)
      ensures Valid()
    {
      KeysDistinct();
      ChoiceTextsRoundTrip(Male, LeftHanded, l, "");
      store := store[LevelKey := LevelText(l)];
      levelModalVisible := false;
      newName, feet, inches := "", "", "";
    }
  }

  /** The picture choices, `profileOptions`. */
  datatype ProfileIcon = Ball | Boy1 | Boy2 | Boy3 | Girl1 | Girl2 | Racket

  const ProfileOptions: seq<ProfileIcon> := [Ball, Boy1, Boy2, Boy3, Girl1, Girl2, Racket]

  /** The picker lists every icon exactly once. */
  lemma ProfileOptionsComplete(icon: ProfileIcon)
    ensures icon in ProfileOptions
    ensures forall i, j :: 0 <= i < j < |ProfileOptions| ==> ProfileOptions[i] != ProfileOptions[j]
  {
    var k := match icon
      case Ball => 0 case Boy1 => 1 case Boy2 => 2 case Boy3 => 3
      case Girl1 => 4 case Girl2 => 5 case Racket => 6;
    assert ProfileOptions[k] == icon;
  }

  /** `ProfilePic`: the shown picture and whether the picker is open. */
  class ProfilePic {
    var profileImage: ProfileIcon
    var modalVisible: bool

    /** The first option is shown and the picker is closed. */
    constructor ()
      ensures profileImage == ProfileOptions[0] && !modalVisible
    {
      profileImage := Ball;
      modalVisible := false;
    }

    /** The pencil button opens the picker. */
    method OpenPicker()
      modifies this
      ensures modalVisible && profileImage == old(profileImage)
    {
      modalVisible := true;
    }

    /** `handleSelect`: the chosen icon is shown and the picker closes. */
    method HandleSelect(image: ProfileIcon)
      requires modalVisible && image in ProfileOptions
      modifies this
      ensures profileImage == image && !modalVisible
    {
      profileImage := image;
      modalVisible := false;
    }
  }
}
