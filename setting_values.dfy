/**
 * The setting-value classes: each holds one setting's current value, which
 * starts as the stored value when the store has a usable one and as the
 * default otherwise. `SpecificSettingValue` (the template, for bool, double,
 * string and int) also writes the default back when nothing usable is
 * stored; `DoubleSettingValue` and `BoolSettingValue` never write on
 * construction. `saveValue` writes the current value under the setting's
 * category and name.
 */
module SettingValues {
  import opened SettingsStore
  import opened SettingsInternal

  // ---------------------------------------------------------------------
  // Stored-or-default, as functions of the store
  // ---------------------------------------------------------------------

  /** The value a setting starts with: the stored one if usable, else d. */
  function InitialValue(q: QVariant, d: Variant): (v: Variant)
    ensures TypeOf(v) == TypeOf(d)
  {
    if IsValidQVariant(q, TypeOf(d)) then Convert(TypeOf(d), q) else d
  }

  /** The store after the template constructor: unchanged, or the default written back. */
  function ConstructedEntries(e: map<seq<string>, Variant>, path: seq<string>, d: Variant): map<seq<string>, Variant> {
    if IsValidQVariant(Lookup(e, path), TypeOf(d)) then e else e[path := d]
  }

  /** A stored value of the setting's type is the value a new setting object starts with. */
  lemma InitialValueOfSaved(e: map<seq<string>, Variant>, path: seq<string>, v: Variant, d: Variant)
    requires TypeOf(v) == TypeOf(d)
    ensures InitialValue(Lookup(e[path := v], path), d) == v
  {
  }

  /** With nothing usable stored, the setting starts at its default. */
  lemma InitialValueOfMissing(e: map<seq<string>, Variant>, path: seq<string>, d: Variant)
    requires path !in e
    ensures InitialValue(Lookup(e, path), d) == d
  {
  }

  /**
   * After the template constructor the setting's key holds a usable value,
   * the one the object started with, and every other key is as before; a
   * second object constructed on that store starts with the same value and
   * writes nothing.
   */
  lemma ConstructedEntriesSettle(e: map<seq<string>, Variant>, path: seq<string>, d: Variant)
    ensures var e' := ConstructedEntries(e, path, d);
      IsValidQVariant(Lookup(e', path), TypeOf(d)) &&
      InitialValue(Lookup(e', path), d) == InitialValue(Lookup(e, path), d) &&
      ConstructedEntries(e', path, d) == e' &&
      forall k :: k != path ==> Lookup(e', k) == Lookup(e, k)
  {
    var e' := ConstructedEntries(e, path, d);
    if !IsValidQVariant(Lookup(e, path), TypeOf(d)) {
      assert Lookup(e', path) == Holding(d);
    }
  }

  // ---------------------------------------------------------------------
  // SpecificSettingValue<Value, Setting>
  // ---------------------------------------------------------------------

  /**
   * The template class. The value type is fixed at construction (the
   * template parameter), and the value always has it. The setting's enum
   * value is an opaque number here.
   */
  class SpecificSettingValue {
    const setting: nat
    const category: SettingCategory
    const settingName: string
    const valueType: ValueType
    var value: Variant

    ghost predicate Valid()
      reads this
    {
      TypeOf(value) == valueType
    }

    /**
     * Reads the stored value; when the store has nothing usable, the
     * object keeps the default and saves it.
     */
    constructor(store: Store, setting: nat, category: SettingCategory, settingName: string, defaultValue: Variant)
      modifies store
      ensures Valid()
      ensures this.setting == setting && this.category == category && this.settingName == settingName
      ensures valueType == TypeOf(defaultValue)
      ensures value == InitialValue(Lookup(old(store.entries), QtSettingPath(old(store.stack), category, settingName)), defaultValue)
      ensures store.entries == ConstructedEntries(old(store.entries), QtSettingPath(old(store.stack), category, settingName), defaultValue)
      ensures store.stack == old(store.stack)
    {
      this.setting := setting;
      this.category := category;
      this.settingName := settingName;
      valueType := TypeOf(defaultValue);
      value := defaultValue;
      new;
      var val := GetQtSetting(store, category, settingName);
      if IsValidQVariant(val, valueType) {
        value := Convert(valueType, val);
      } else {
        SaveQtSetting(store, category, settingName, value);
      }
    }

    /** `setValue`: the store is not touched. */
    method SetValue(v: Variant)
      requires Valid() && TypeOf(v) == valueType
      modifies this
      ensures Valid() && value == v
    {
      value := v;
    }

    /** `value()`. */
    function Value(): Variant
      reads this
    {
      value
    }

    /** `saveValue`: the current value under the setting's category and name. */
    method SaveValue(store: Store)
      modifies store
      ensures store.entries == old(store.entries)[QtSettingPath(old(store.stack), category, settingName) := value]
      ensures store.stack == old(store.stack)
    {
      SaveQtSetting(store, category, settingName, value);
    }
  }

  // ---------------------------------------------------------------------
  // DoubleSettingValue and BoolSettingValue
  // ---------------------------------------------------------------------

  /** The double setting: reads the stored value, never writes on construction. */
  class DoubleSettingValue {
    const setting: nat
    const category: SettingCategory
    const settingName: string
    var value: real

    constructor(store: Store, setting: nat, category: SettingCategory, settingName: string, defaultValue: real)
      modifies store
      ensures this.setting == setting && this.category == category && this.settingName == settingName
      ensures VDouble(value) == InitialValue(Lookup(old(store.entries), QtSettingPath(old(store.stack), category, settingName)), VDouble(defaultValue))
      ensures store.entries == old(store.entries) && store.stack == old(store.stack)
    {
      this.setting := setting;
      this.category := category;
      this.settingName := settingName;
      value := defaultValue;
      new;
      var val := GetQtSetting(store, category, settingName);
      if IsValidQVariant(val, DoubleType) {
        value := AsDouble(Convert(DoubleType, val));
      }
    }

    method SetValue(v: real)
      modifies this
      ensures value == v
    {
      value := v;
    }

    function Value(): real
      reads this
    {
      value
    }

    method SaveValue(store: Store)
      modifies store
      ensures store.entries == old(store.entries)[QtSettingPath(old(store.stack), category, settingName) := VDouble(value)]
      ensures store.stack == old(store.stack)
    {
      SaveQtSetting(store, category, settingName, VDouble(value));
    }
  }

  /** The bool setting: reads the stored value, never writes on construction. */
  class BoolSettingValue {
    const setting: nat
    const category: SettingCategory
    const settingName: string
    var value: bool

    constructor(store: Store, setting: nat, category: SettingCategory, settingName: string, defaultValue: bool)
      modifies store
      ensures this.setting == setting && this.category == category && this.settingName == settingName
      ensures VBool(value) == InitialValue(Lookup(old(store.entries), QtSettingPath(old(store.stack), category, settingName)), VBool(defaultValue))
      ensures store.entries == old(store.entries) && store.stack == old(store.stack)
    {
      this.setting := setting;
      this.category := category;
      this.settingName := settingName;
      value := defaultValue;
      new;
      var val := GetQtSetting(store, category, settingName);
      if IsValidQVariant(val, BoolType) {
        value := AsBool(Convert(BoolType, val));
      }
    }

    method SetValue(v: bool)
      modifies this
      ensures value == v
    {
      value := v;
    }

    function Value(): bool
      reads this
    {
      value
    }

    method SaveValue(store: Store)
      modifies store
      ensures store.entries == old(store.entries)[QtSettingPath(old(store.stack), category, settingName) := VBool(value)]
      ensures store.stack == old(store.stack)
    {
      SaveQtSetting(store, category, settingName, VBool(value));
    }
  }

  /**
   * Saving a setting and constructing a new object for it gives back the
   * saved value, for the template class and the double and bool classes
   * alike (each starts from `InitialValue` of what is stored).
   */
  lemma SaveThenReload(e: map<seq<string>, Variant>, stack: seq<Frame>, category: SettingCategory,
                       name: string, v: Variant, d: Variant)
    requires TypeOf(v) == TypeOf(d)
    ensures InitialValue(Lookup(e[QtSettingPath(stack, category, name) := v], QtSettingPath(stack, category, name)), d) == v
  {
    InitialValueOfSaved(e, QtSettingPath(stack, category, name), v, d);
  }

  /** Saving one setting does not change the value another setting object would start with. */
  lemma SaveLeavesOtherSettings(e: map<seq<string>, Variant>, stack: seq<Frame>,
                                c1: SettingCategory, n1: string, v: Variant,
                                c2: SettingCategory, n2: string, d: Variant)
    requires c1 != c2 || n1 != n2
    ensures InitialValue(Lookup(e[QtSettingPath(stack, c1, n1) := v], QtSettingPath(stack, c2, n2)), d) ==
            InitialValue(Lookup(e, QtSettingPath(stack, c2, n2)), d)
  {
    GetAfterSave(e, stack, c1, n1, v, c2, n2);
  }
}
