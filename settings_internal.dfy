/**
 * The shared helpers of the setting-value classes: the categories and the
 * group name each is stored under, reading and writing one setting inside
 * its category's group, and the test that a stored variant is usable.
 */
module SettingsInternal {
  import opened SettingsStore

  /** `SettingCategory`, in declaration order. */
  datatype SettingCategory =
    | Audio | Utility | KeyboardShortcut | Playspace | Application
    | Video | Chaperone | ChaperoneProfiles | Rotation | SteamVR

  /** The enum's underlying value. */
  function CategoryCode(c: SettingCategory): (n: int)
    ensures 0 <= n < 10
  {
    match c
    case Audio => 0
    case Utility => 1
    case KeyboardShortcut => 2
    case Playspace => 3
    case Application => 4
    case Video => 5
    case Chaperone => 6
    case ChaperoneProfiles => 7
    case Rotation => 8
    case SteamVR => 9
  }

  /**
   * `getQtCategoryName` as the switch over the enum's underlying value: the
   * ten enumerators have their names, any other value (reachable only by a
   * cast) falls through to "no-value".
   */
  function QtCategoryNameOfCode(code: int): string {
    if code == 0 then "audioSettings"
    else if code == 1 then "utilitiesSettings"
    else if code == 2 then "keyboardShortcuts"
    else if code == 3 then "playspaceSettings"
    else if code == 4 then "applicationSettings"
    else if code == 5 then "videoSettings"
    else if code == 6 then "chaperoneSettings"
    else if code == 7 then "chaperoneProfiles"
    else if code == 8 then "rotationSettings"
    else if code == 9 then "steamVRSettings"
    else "no-value"
  }

  function QtCategoryName(c: SettingCategory): (r: string)
    ensures r != "no-value"
  {
    QtCategoryNameOfCode(CategoryCode(c))
  }

  /** "no-value" comes back exactly for the values outside the enum. */
  lemma NoValueOnlyOutOfRange(code: int)
    ensures QtCategoryNameOfCode(code) == "no-value" <==> !(0 <= code < 10)
  {
  }

  /** Different categories are stored under different group names. */
  lemma QtCategoryNamesDistinct(a: SettingCategory, b: SettingCategory)
    ensures QtCategoryName(a) == QtCategoryName(b) <==> a == b
    ensures QtCategoryName(a) != "no-value"
  {
    var na, nb := QtCategoryName(a), QtCategoryName(b);
    if a != b {
      assert CategoryCode(a) != CategoryCode(b);
      // the names differ in length or in an early character
      assert |na| != |nb| || na[0] != nb[0] || na[1] != nb[1] || na[8] != nb[8] || na[9] != nb[9];
    }
  }

  /** Where a setting lives: the category's group inside the current group. */
  function QtSettingPath(stack: seq<Frame>, category: SettingCategory, name: string): seq<string> {
    Prefix(stack) + [QtCategoryName(category), name]
  }

  /** Settings with different categories or names never share a key. */
  lemma QtSettingPathsDistinct(stack: seq<Frame>, c1: SettingCategory, n1: string, c2: SettingCategory, n2: string)
    ensures QtSettingPath(stack, c1, n1) == QtSettingPath(stack, c2, n2) <==> c1 == c2 && n1 == n2
  {
    var p1, p2 := QtSettingPath(stack, c1, n1), QtSettingPath(stack, c2, n2);
    var k := |Prefix(stack)|;
    if p1 == p2 {
      assert p1[k] == QtCategoryName(c1) && p2[k] == QtCategoryName(c2);
      QtCategoryNamesDistinct(c1, c2);
      assert p1[k + 1] == n1 && p2[k + 1] == n2;
    }
  }

  /** `getQtSetting`: the value under the category's group, with the group nesting restored. */
  method GetQtSetting(store: Store, category: SettingCategory, qtSettingName: string) returns (val: QVariant)
    modifies store
    ensures val == Lookup(old(store.entries), QtSettingPath(old(store.stack), category, qtSettingName))
    ensures store.stack == old(store.stack) && store.entries == old(store.entries)
  {
    store.BeginGroup(QtCategoryName(category));
    PrefixPush(old(store.stack), GroupFrame(QtCategoryName(category)));
    assert store.PathOf(qtSettingName) == QtSettingPath(old(store.stack), category, qtSettingName);
    val := store.Value(qtSettingName);
    store.EndGroup();
    assert (old(store.stack) + [GroupFrame(QtCategoryName(category))])[..|old(store.stack)|] == old(store.stack);
  }

  /** `saveQtSetting`: that one key now holds value; the nesting is as before. */
  method SaveQtSetting(store: Store, category: SettingCategory, qtSettingName: string, value: Variant)
    modifies store
    ensures store.entries == old(store.entries)[QtSettingPath(old(store.stack), category, qtSettingName) := value]
    ensures store.stack == old(store.stack)
  {
    store.BeginGroup(QtCategoryName(category));
    PrefixPush(old(store.stack), GroupFrame(QtCategoryName(category)));
    assert store.PathOf(qtSettingName) == QtSettingPath(old(store.stack), category, qtSettingName);
    store.SetValue(qtSettingName, value);
    store.EndGroup();
    assert (old(store.stack) + [GroupFrame(QtCategoryName(category))])[..|old(store.stack)|] == old(store.stack);
  }

  /**
   * Reading a setting after saving one: the saved value when category and
   * name agree, and what was there before otherwise.
   */
  lemma GetAfterSave(e: map<seq<string>, Variant>, stack: seq<Frame>,
                     c1: SettingCategory, n1: string, v: Variant, c2: SettingCategory, n2: string)
    ensures Lookup(e[QtSettingPath(stack, c1, n1) := v], QtSettingPath(stack, c2, n2)) ==
      if c1 == c2 && n1 == n2 then Holding(v) else Lookup(e, QtSettingPath(stack, c2, n2))
  {
    QtSettingPathsDistinct(stack, c1, n1, c2, n2);
  }

  /**
   * Qt's `canConvert` among bool, int, double and QString: every one of
   * these converts to every other (QString is what `std::string` is tested
   * against), so the test only rules out other stored types, which this
   * model's values cannot have.
   */
  predicate CanConvert(v: Variant, t: ValueType) {
    TypeOf(v) in {BoolType, IntType, DoubleType, StringType} &&
    t in {BoolType, IntType, DoubleType, StringType}
  }

  /** `isValidQVariant<Value>`: valid, not null, and convertible to the value type. */
  predicate IsValidQVariant(q: QVariant, t: ValueType) {
    q != Invalid && q != Null && CanConvert(q.value, t)
  }

  /** A variant is usable exactly when it holds a value. */
  lemma IsValidQVariantIff(q: QVariant, t: ValueType)
    ensures IsValidQVariant(q, t) <==> q.Holding?
  {
  }
}
