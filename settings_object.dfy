/**
 * The settings-object layer: a `SettingsObjectData` holds one FIFO queue per
 * value type, and a whole object is stored as four Qt arrays, "bools",
 * "ints", "doubles" and "strings", inside a group named after the object.
 * Numbered slots append "-<n>" to that group name.
 *
 * The source's list helpers are templates over bool, int, double and
 * std::string; here they take the `ValueType` and carry tagged values, and
 * `ValueType` having exactly those four cases is what the source's
 * static_asserts demand (float and every other type are refused).
 */
module SettingsObject {
  import opened SettingsStore

  // ---------------------------------------------------------------------
  // Queue contents
  // ---------------------------------------------------------------------

  /** The pending values of each type, front first. */
  datatype Contents = Contents(bools: seq<Variant>, ints: seq<Variant>, doubles: seq<Variant>, strings: seq<Variant>)

  const EmptyContents := Contents([], [], [], [])

  function Select(c: Contents, t: ValueType): seq<Variant> {
    match t
    case BoolType => c.bools
    case IntType => c.ints
    case DoubleType => c.doubles
    case StringType => c.strings
  }

  /** a and b hold the same queues, except perhaps the one of type t. */
  predicate QueuesAgreeExcept(a: Contents, b: Contents, t: ValueType) {
    (t != BoolType ==> a.bools == b.bools) && (t != IntType ==> a.ints == b.ints) &&
    (t != DoubleType ==> a.doubles == b.doubles) && (t != StringType ==> a.strings == b.strings)
  }

  /** Each queue holds only values of its own type. */
  predicate WellTyped(c: Contents) {
    AllOfType(c.bools, BoolType) && AllOfType(c.ints, IntType) &&
    AllOfType(c.doubles, DoubleType) && AllOfType(c.strings, StringType)
  }

  /** The part of s from position k on (empty when k is past the end). */
  function Rest(s: seq<Variant>, k: nat): seq<Variant> {
    if k <= |s| then s[k..] else []
  }

  /** Element i of s, or d when s is shorter. */
  function At(s: seq<Variant>, i: nat, d: Variant): Variant {
    if i < |s| then s[i] else d
  }

  // ---------------------------------------------------------------------
  // SettingsObjectData
  // ---------------------------------------------------------------------

  /**
   * Four FIFO queues, one per value type. `addValue` and
   * `getNextValueOrDefault` are templates over the value type; each has a
   * method per instance (AddBool, NextBool, ...) and a method over tagged
   * values (AddValue, NextValueOrDefault) that dispatches on the tag, which
   * is what the list helpers below, generic in the type, call.
   */
  class SettingsObjectData {
    var bools: seq<Variant>
    var ints: seq<Variant>
    var doubles: seq<Variant>
    var strings: seq<Variant>

    /** What is still to be read, per type. */
    function Pending(): Contents
      reads this
    {
      Contents(bools, ints, doubles, strings)
    }

    function PendingOf(t: ValueType): seq<Variant>
      reads this
    {
      Select(Pending(), t)
    }

    /** Each queue holds only values of its own type. */
    ghost predicate Valid()
      reads this
    {
      WellTyped(Pending())
    }

    constructor()
      ensures Valid() && Pending() == EmptyContents
    {
      bools, ints, doubles, strings := [], [], [], [];
    }

    /** `hasValuesOfType<Value>()`: some value of type t is still pending. */
    function HasValuesOfType(t: ValueType): (r: bool)
      reads this
      ensures r <==> PendingOf(t) != []
    {
      match t
      case BoolType => |bools| > 0
      case IntType => |ints| > 0
      case DoubleType => |doubles| > 0
      case StringType => |strings| > 0
    }

    /** `addValue(bool)`. */
    method AddBool(b: bool)
      modifies this
      ensures bools == old(bools) + [VBool(b)]
      ensures ints == old(ints) && doubles == old(doubles) && strings == old(strings)
    {
      bools := bools + [VBool(b)];
    }

    /** `addValue(int)`. */
    method AddInt(i: int)
      modifies this
      ensures ints == old(ints) + [VInt(i)]
      ensures bools == old(bools) && doubles == old(doubles) && strings == old(strings)
    {
      ints := ints + [VInt(i)];
    }

    /** `addValue(double)`. */
    method AddDouble(d: real)
      modifies this
      ensures doubles == old(doubles) + [VDouble(d)]
      ensures bools == old(bools) && ints == old(ints) && strings == old(strings)
    {
      doubles := doubles + [VDouble(d)];
    }

    /** `addValue(std::string)`. */
    method AddString(s: string)
      modifies this
      ensures strings == old(strings) + [VString(s)]
      ensures bools == old(bools) && ints == old(ints) && doubles == old(doubles)
    {
      strings := strings + [VString(s)];
    }

    /** `addValue(v)` for a value of any of the four types: v joins the back of its own queue. */
    method AddValue(v: Variant)
      requires Valid()
      modifies this
      ensures Valid()
      ensures PendingOf(TypeOf(v)) == old(PendingOf(TypeOf(v))) + [v]
      ensures QueuesAgreeExcept(Pending(), old(Pending()), TypeOf(v))
    {
      match v
      case VBool(b) => AddBool(b);
      case VInt(i) => AddInt(i);
      case VDouble(d) => AddDouble(d);
      case VString(s) => AddString(s);
    }

    /** `getNextValueOrDefault(bool)`: the front bool, removed, or d when none is left. */
    method NextBool(d: bool) returns (b: bool)
      modifies this
      ensures b == AsBool(At(old(bools), 0, VBool(d)))
      ensures bools == Rest(old(bools), 1)
      ensures ints == old(ints) && doubles == old(doubles) && strings == old(strings)
    {
      b := d;
      if bools != [] {
        b := AsBool(bools[0]);
        bools := bools[1..];
      }
    }

    /** `getNextValueOrDefault(int)`. */
    method NextInt(d: int) returns (i: int)
      modifies this
      ensures i == AsInt(At(old(ints), 0, VInt(d)))
      ensures ints == Rest(old(ints), 1)
      ensures bools == old(bools) && doubles == old(doubles) && strings == old(strings)
    {
      i := d;
      if ints != [] {
        i := AsInt(ints[0]);
        ints := ints[1..];
      }
    }

    /** `getNextValueOrDefault(double)`. */
    method NextDouble(d: real) returns (x: real)
      modifies this
      ensures x == AsDouble(At(old(doubles), 0, VDouble(d)))
      ensures doubles == Rest(old(doubles), 1)
      ensures bools == old(bools) && ints == old(ints) && strings == old(strings)
    {
      x := d;
      if doubles != [] {
        x := AsDouble(doubles[0]);
        doubles := doubles[1..];
      }
    }

    /** `getNextValueOrDefault(std::string)`. */
    method NextString(d: string) returns (s: string)
      modifies this
      ensures s == AsString(At(old(strings), 0, VString(d)))
      ensures strings == Rest(old(strings), 1)
      ensures bools == old(bools) && ints == old(ints) && doubles == old(doubles)
    {
      s := d;
      if strings != [] {
        s := AsString(strings[0]);
        strings := strings[1..];
      }
    }

    /**
     * `getNextValueOrDefault(d)` for a default of any of the four types: the
     * front of the queue of d's type, which is removed, or d itself when that
     * queue is empty.
     */
    method NextValueOrDefault(d: Variant) returns (v: Variant)
      requires Valid()
      modifies this
      ensures Valid()
      ensures TypeOf(v) == TypeOf(d)
      ensures old(PendingOf(TypeOf(d))) == [] ==> v == d && PendingOf(TypeOf(d)) == []
      ensures old(PendingOf(TypeOf(d))) != [] ==> old(PendingOf(TypeOf(d))) == [v] + PendingOf(TypeOf(d))
      ensures QueuesAgreeExcept(Pending(), old(Pending()), TypeOf(d))
    {
      match d
      case VBool(x) =>
        var b := NextBool(x);
        v := VBool(b);
      case VInt(x) =>
        var i := NextInt(x);
        v := VInt(i);
      case VDouble(x) =>
        var y := NextDouble(x);
        v := VDouble(y);
      case VString(x) =>
        var s := NextString(x);
        v := VString(s);
    }
  }

  // ---------------------------------------------------------------------
  // Draining an object into a list and filling one from a list
  // ---------------------------------------------------------------------

  /** `createListFromObject<Value>`: takes every pending value of type t, in order. */
  method CreateListFromObject(obj: SettingsObjectData, t: ValueType) returns (list: seq<Variant>)
    requires obj.Valid()
    modifies obj
    ensures obj.Valid()
    ensures list == old(obj.PendingOf(t))
    ensures obj.PendingOf(t) == []
    ensures QueuesAgreeExcept(obj.Pending(), old(obj.Pending()), t)
  {
    ghost var p0 := obj.PendingOf(t);
    var d := DefaultOf(t);
    list := [];
    while obj.HasValuesOfType(t)
      invariant obj.Valid()
      invariant QueuesAgreeExcept(obj.Pending(), old(obj.Pending()), t)
      invariant list + obj.PendingOf(t) == p0
      decreases |obj.PendingOf(t)|
    {
      ghost var before := obj.PendingOf(t);
      var v := obj.NextValueOrDefault(d);
      assert list + [v] + obj.PendingOf(t) == list + before;
      list := list + [v];
    }
  }

  /**
   * `addListToObject`: appends the list's values in order to the queue of
   * their type; the second result is the list afterwards, which is empty.
   */
  method AddListToObject(list: seq<Variant>, obj: SettingsObjectData, t: ValueType) returns (remaining: seq<Variant>)
    requires obj.Valid() && AllOfType(list, t)
    modifies obj
    ensures obj.Valid()
    ensures remaining == []
    ensures obj.PendingOf(t) == old(obj.PendingOf(t)) + list
    ensures QueuesAgreeExcept(obj.Pending(), old(obj.Pending()), t)
  {
    remaining := list;
    assert list[..0] == [];
    while remaining != []
      invariant obj.Valid()
      invariant 0 <= |remaining| <= |list| && remaining == list[|list| - |remaining|..]
      invariant obj.PendingOf(t) == old(obj.PendingOf(t)) + list[..|list| - |remaining|]
      invariant QueuesAgreeExcept(obj.Pending(), old(obj.Pending()), t)
    {
      ghost var done := |list| - |remaining|;
      assert remaining[0] == list[done];
      obj.AddValue(remaining[0]);
      assert list[..done + 1] == list[..done] + [list[done]];
      remaining := remaining[1..];
    }
    assert list[..|list|] == list;
  }

  // ---------------------------------------------------------------------
  // One list as a Qt array
  // ---------------------------------------------------------------------

  /** Where element j (counting from 1) of the array at base is stored. */
  function ElemKey(base: seq<string>, j: nat, key: string): seq<string> {
    base + [NatToDecimal(j), key]
  }

  function SizeKey(base: seq<string>): seq<string> {
    base + ["size"]
  }

  /** e with the values stored as elements 1..|vs| of the array at base. */
  function WriteElems(e: map<seq<string>, Variant>, base: seq<string>, key: string, vs: seq<Variant>): map<seq<string>, Variant> {
    if vs == [] then e
    else WriteElems(e, base, key, vs[..|vs| - 1])[ElemKey(base, |vs|, key) := vs[|vs| - 1]]
  }

  /** The store after an array of vs is written at base: old size dropped, elements, new size. */
  function WriteArray(e: map<seq<string>, Variant>, base: seq<string>, key: string, vs: seq<Variant>): map<seq<string>, Variant> {
    WriteElems(RemoveTree(e, SizeKey(base)), base, key, vs)[SizeKey(base) := VInt(|vs|)]
  }

  /** Elements 1..n of the array at base, each converted to type t. */
  function ReadElems(e: map<seq<string>, Variant>, base: seq<string>, key: string, t: ValueType, n: nat): (r: seq<Variant>)
    ensures |r| == n
    ensures AllOfType(r, t)
  {
    if n == 0 then []
    else ReadElems(e, base, key, t, n - 1) + [Convert(t, Lookup(e, ElemKey(base, n, key)))]
  }

  /** The stored size of the array at base; a missing or negative size reads no elements. */
  function StoredSize(e: map<seq<string>, Variant>, base: seq<string>): nat {
    var n := AsInt(Convert(IntType, Lookup(e, SizeKey(base))));
    if n < 0 then 0 else n
  }

  /** The list read back from the array at base. */
  function ReadArray(e: map<seq<string>, Variant>, base: seq<string>, key: string, t: ValueType): (r: seq<Variant>)
    ensures AllOfType(r, t)
  {
    ReadElems(e, base, key, t, StoredSize(e, base))
  }

  /** The array name each value type is stored under. */
  function TypeName(t: ValueType): (name: string)
    ensures name in {"bools", "ints", "doubles", "strings"}
  {
    match t
    case BoolType => "bools"
    case IntType => "ints"
    case DoubleType => "doubles"
    case StringType => "strings"
  }

  /**
   * `saveListToDisk`: inside group structName, writes value i as element
   * i + 1 of the array typeName under the key typeName, then the size.
   */
  method SaveListToDisk(store: Store, values: seq<Variant>, structName: string, typeName: string)
    modifies store
    ensures store.stack == old(store.stack)
    ensures store.entries == WriteArray(old(store.entries), Prefix(old(store.stack)) + [structName, typeName], typeName, values)
  {
    ghost var s0 := store.stack;
    ghost var gs := s0 + [GroupFrame(structName)];
    ghost var gp := Prefix(gs);
    ghost var base := gp + [typeName];
    GroupPrefix(s0, structName);
    ghost var e1 := RemoveTree(store.entries, SizeKey(base));
    assert gp + [typeName, "size"] == SizeKey(base);
    store.BeginGroup(structName);
    store.BeginWriteArray(typeName);
    WriteArrayElements(store, values, gs, typeName);
    assert (gs + [Frame(typeName, |values|, |values|)])[..|gs|] == gs;
    assert base == Prefix(s0) + [structName, typeName];
    store.EndArray();
    assert gs[..|gs| - 1] == s0;
    store.EndGroup();
  }

  /** The loop of `saveListToDisk`: element i + 1 of the open array gets values[i]. */
  method WriteArrayElements(store: Store, values: seq<Variant>, ghost gs: seq<Frame>, typeName: string)
    requires store.stack == gs + [Frame(typeName, 0, 0)]
    modifies store
    ensures store.stack == gs + [Frame(typeName, |values|, |values|)]
    ensures store.entries == WriteElems(old(store.entries), Prefix(gs) + [typeName], typeName, values)
  {
    ghost var e1 := store.entries;
    ghost var base := Prefix(gs) + [typeName];
    var rest := values;
    var i := 0;
    while rest != []
      invariant 0 <= i <= |values| && rest == values[i..]
      invariant store.stack == gs + [Frame(typeName, i, i)]
      invariant store.entries == WriteElems(e1, base, typeName, values[..i])
    {
      store.SetArrayIndex(i);
      ArrayElementPath(gs, typeName, i + 1, i + 1);
      store.SetValue(typeName, rest[0]);
      assert values[..i + 1][..i] == values[..i];
      rest := rest[1..];
      i := i + 1;
    }
    assert values[..i] == values;
  }

  /** The path of a group opened on top of s0. */
  lemma GroupPrefix(s0: seq<Frame>, name: string)
    ensures Prefix(s0 + [GroupFrame(name)]) == Prefix(s0) + [name]
  {
    PrefixPush(s0, GroupFrame(name));
  }

  /** Inside an array whose index is set, a key's path is the element key of that index. */
  lemma ArrayElementPath(gs: seq<Frame>, name: string, num: int, maxNum: int)
    requires num > 0
    ensures Prefix(gs + [Frame(name, num, maxNum)]) + [name] == ElemKey(Prefix(gs) + [name], num, name)
  {
    PrefixPush(gs, Frame(name, num, maxNum));
  }

  /**
   * `loadListFromDisk<Value>`: inside group structName, reads the array
   * typeName's size and then elements 1..size, each converted to type t.
   */
  method LoadListFromDisk(store: Store, t: ValueType, structName: string, typeName: string) returns (list: seq<Variant>)
    modifies store
    ensures store.stack == old(store.stack) && store.entries == old(store.entries)
    ensures list == ReadArray(old(store.entries), Prefix(old(store.stack)) + [structName, typeName], typeName, t)
  {
    ghost var s0 := store.stack;
    ghost var e0 := store.entries;
    ghost var gs := s0 + [GroupFrame(structName)];
    ghost var gp := Prefix(gs);
    ghost var base := gp + [typeName];
    GroupPrefix(s0, structName);
    store.BeginGroup(structName);
    assert gp + [typeName, "size"] == SizeKey(base);
    var size := store.BeginReadArray(typeName);
    assert size == AsInt(Convert(IntType, Lookup(e0, SizeKey(base))));
    assert size < 0 ==> StoredSize(e0, base) == 0;
    assert size >= 0 ==> StoredSize(e0, base) == size;
    list := [];
    var index := 0;
    while index < size
      invariant 0 <= index && (size >= 0 ==> index <= size) && (size < 0 ==> index == 0)
      invariant store.stack == gs + [Frame(typeName, index, -1)]
      invariant store.entries == e0
      invariant list == ReadElems(e0, base, typeName, t, index)
    {
      store.SetArrayIndex(index);
      ArrayElementPath(gs, typeName, index + 1, -1);
      var val := store.Value(typeName);
      list := list + [Convert(t, val)];
      index := index + 1;
    }
    assert (gs + [Frame(typeName, index, -1)])[..|gs|] == gs;
    assert gs[..|gs| - 1] == s0;
    assert base == Prefix(s0) + [structName, typeName];
    assert index == StoredSize(e0, base);
    store.EndArray();
    store.EndGroup();
  }

  // ---------------------------------------------------------------------
  // Array round trip and independence
  // ---------------------------------------------------------------------

  /** Writing elements touches only element keys 1..|vs|, and element j holds vs[j - 1]. */
  lemma {:induction false} WriteElemsLookup(e: map<seq<string>, Variant>, base: seq<string>, key: string, vs: seq<Variant>, k: seq<string>)
    ensures (exists j :: 1 <= j <= |vs| && k == ElemKey(base, j, key)) || Lookup(WriteElems(e, base, key, vs), k) == Lookup(e, k)
    ensures forall j :: 1 <= j <= |vs| && k == ElemKey(base, j, key) ==> Lookup(WriteElems(e, base, key, vs), k) == Holding(vs[j - 1])
  {
    if vs != [] {
      var init := vs[..|vs| - 1];
      WriteElemsLookup(e, base, key, init, k);
      forall j | 1 <= j <= |vs| && k == ElemKey(base, j, key)
        ensures Lookup(WriteElems(e, base, key, vs), k) == Holding(vs[j - 1])
      {
        if j != |vs| {
          assert k[|base|] == NatToDecimal(j);
          assert ElemKey(base, |vs|, key)[|base|] == NatToDecimal(|vs|);
          NatToDecimalInjective(j, |vs|);
          assert init[j - 1] == vs[j - 1];
        }
      }
    }
  }

  /** Saving a list of type-t values as an array and loading it back gives the list. */
  lemma ReadWriteArray(e: map<seq<string>, Variant>, base: seq<string>, key: string, t: ValueType, vs: seq<Variant>)
    requires AllOfType(vs, t)
    ensures ReadArray(WriteArray(e, base, key, vs), base, key, t) == vs
  {
    var w := WriteArray(e, base, key, vs);
    var inner := WriteElems(RemoveTree(e, SizeKey(base)), base, key, vs);
    assert StoredSize(w, base) == |vs|;
    ReadPrefix(e, base, key, t, vs, |vs|);
    assert vs[..|vs|] == vs;
  }

  lemma {:induction false} ReadPrefix(e: map<seq<string>, Variant>, base: seq<string>, key: string, t: ValueType, vs: seq<Variant>, n: nat)
    requires AllOfType(vs, t) && n <= |vs|
    ensures ReadElems(WriteArray(e, base, key, vs), base, key, t, n) == vs[..n]
  {
    if n > 0 {
      ReadPrefix(e, base, key, t, vs, n - 1);
      var k := ElemKey(base, n, key);
      WriteElemsLookup(RemoveTree(e, SizeKey(base)), base, key, vs, k);
      assert k != SizeKey(base);
      assert vs[..n] == vs[..n - 1] + [vs[n - 1]];
    }
  }

  /** Writing the array at base leaves every key outside base as it was. */
  lemma WriteArrayOutside(e: map<seq<string>, Variant>, base: seq<string>, key: string, vs: seq<Variant>, k: seq<string>)
    requires !IsPrefixOf(base, k)
    ensures Lookup(WriteArray(e, base, key, vs), k) == Lookup(e, k)
  {
    WriteElemsLookup(RemoveTree(e, SizeKey(base)), base, key, vs, k);
  }

  /** An array at another base of the same length reads the same after the write. */
  lemma {:induction false} ReadElemsElsewhere(e: map<seq<string>, Variant>, base: seq<string>, key: string, vs: seq<Variant>,
                                              other: seq<string>, key2: string, t: ValueType, n: nat)
    requires |other| == |base| && other != base
    ensures ReadElems(WriteArray(e, base, key, vs), other, key2, t, n) == ReadElems(e, other, key2, t, n)
  {
    if n > 0 {
      ReadElemsElsewhere(e, base, key, vs, other, key2, t, n - 1);
      assert ElemKey(other, n, key2)[..|base|] == other;
      WriteArrayOutside(e, base, key, vs, ElemKey(other, n, key2));
    }
  }

  lemma ReadArrayElsewhere(e: map<seq<string>, Variant>, base: seq<string>, key: string, vs: seq<Variant>,
                           other: seq<string>, key2: string, t: ValueType)
    requires |other| == |base| && other != base
    ensures ReadArray(WriteArray(e, base, key, vs), other, key2, t) == ReadArray(e, other, key2, t)
  {
    assert SizeKey(other)[..|base|] == other;
    WriteArrayOutside(e, base, key, vs, SizeKey(other));
    ReadElemsElsewhere(e, base, key, vs, other, key2, t, StoredSize(e, other));
  }

  // ---------------------------------------------------------------------
  // Whole objects
  // ---------------------------------------------------------------------

  function ArrayBase(p: seq<string>, t: ValueType): seq<string> {
    p + [TypeName(t)]
  }

  lemma ArrayBases(q: seq<string>, objName: string)
    ensures ArrayBase(q + [objName], BoolType) == q + [objName, "bools"]
    ensures ArrayBase(q + [objName], IntType) == q + [objName, "ints"]
    ensures ArrayBase(q + [objName], DoubleType) == q + [objName, "doubles"]
    ensures ArrayBase(q + [objName], StringType) == q + [objName, "strings"]
  {
  }

  /** The store after `saveSettingsObject` of contents c in the group at path p. */
  function WriteObject(e: map<seq<string>, Variant>, p: seq<string>, c: Contents): map<seq<string>, Variant> {
    var e1 := WriteArray(e, ArrayBase(p, BoolType), "bools", c.bools);
    var e2 := WriteArray(e1, ArrayBase(p, IntType), "ints", c.ints);
    var e3 := WriteArray(e2, ArrayBase(p, DoubleType), "doubles", c.doubles);
    WriteArray(e3, ArrayBase(p, StringType), "strings", c.strings)
  }

  /** The contents `loadSettingsObject` reads from the group at path p. */
  function ReadObject(e: map<seq<string>, Variant>, p: seq<string>): (c: Contents)
    ensures WellTyped(c)
  {
    Contents(ReadArray(e, ArrayBase(p, BoolType), "bools", BoolType),
             ReadArray(e, ArrayBase(p, IntType), "ints", IntType),
             ReadArray(e, ArrayBase(p, DoubleType), "doubles", DoubleType),
             ReadArray(e, ArrayBase(p, StringType), "strings", StringType))
  }

  /** Loading an object from the group it was saved to gives back every queue. */
  lemma ReadWriteObject(e: map<seq<string>, Variant>, p: seq<string>, c: Contents)
    requires WellTyped(c)
    ensures ReadObject(WriteObject(e, p, c), p) == c
  {
    var bb, ib, db, sb := ArrayBase(p, BoolType), ArrayBase(p, IntType), ArrayBase(p, DoubleType), ArrayBase(p, StringType);
    assert bb[|p|] == "bools" && ib[|p|] == "ints" && db[|p|] == "doubles" && sb[|p|] == "strings";
    var e1 := WriteArray(e, bb, "bools", c.bools);
    var e2 := WriteArray(e1, ib, "ints", c.ints);
    var e3 := WriteArray(e2, db, "doubles", c.doubles);
    var e4 := WriteArray(e3, sb, "strings", c.strings);
    // bools: written first, then three other arrays
    ReadWriteArray(e, bb, "bools", BoolType, c.bools);
    ReadArrayElsewhere(e1, ib, "ints", c.ints, bb, "bools", BoolType);
    ReadArrayElsewhere(e2, db, "doubles", c.doubles, bb, "bools", BoolType);
    ReadArrayElsewhere(e3, sb, "strings", c.strings, bb, "bools", BoolType);
    // ints
    ReadWriteArray(e1, ib, "ints", IntType, c.ints);
    ReadArrayElsewhere(e2, db, "doubles", c.doubles, ib, "ints", IntType);
    ReadArrayElsewhere(e3, sb, "strings", c.strings, ib, "ints", IntType);
    // doubles
    ReadWriteArray(e2, db, "doubles", DoubleType, c.doubles);
    ReadArrayElsewhere(e3, sb, "strings", c.strings, db, "doubles", DoubleType);
    // strings
    ReadWriteArray(e3, sb, "strings", StringType, c.strings);
  }

  /** `saveSettingsObject`: drains each queue in the order bools, ints, doubles, strings into its array. */
  method SaveSettingsObject(store: Store, sod: SettingsObjectData, objName: string)
    requires sod.Valid()
    modifies store, sod
    ensures sod.Valid() && sod.Pending() == EmptyContents
    ensures store.stack == old(store.stack)
    ensures store.entries == WriteObject(old(store.entries), Prefix(old(store.stack)) + [objName], old(sod.Pending()))
  {
    ghost var c0 := sod.Pending();
    ghost var p := Prefix(store.stack) + [objName];
    ghost var e0 := store.entries;
    ArrayBases(Prefix(store.stack), objName);
    var boolValues := CreateListFromObject(sod, BoolType);
    assert boolValues == c0.bools;
    SaveListToDisk(store, boolValues, objName, "bools");
    ghost var e1 := store.entries;
    assert e1 == WriteArray(e0, ArrayBase(p, BoolType), "bools", c0.bools);
    var intValues := CreateListFromObject(sod, IntType);
    assert intValues == c0.ints;
    SaveListToDisk(store, intValues, objName, "ints");
    ghost var e2 := store.entries;
    assert e2 == WriteArray(e1, ArrayBase(p, IntType), "ints", c0.ints);
    var doubleValues := CreateListFromObject(sod, DoubleType);
    assert doubleValues == c0.doubles;
    SaveListToDisk(store, doubleValues, objName, "doubles");
    ghost var e3 := store.entries;
    assert e3 == WriteArray(e2, ArrayBase(p, DoubleType), "doubles", c0.doubles);
    var stringValues := CreateListFromObject(sod, StringType);
    assert stringValues == c0.strings;
    SaveListToDisk(store, stringValues, objName, "strings");
    assert store.entries == WriteArray(e3, ArrayBase(p, StringType), "strings", c0.strings);
  }

  /** `loadSettingsObject`: a new object whose queues are the four arrays of group objName. */
  method LoadSettingsObject(store: Store, objName: string) returns (sod: SettingsObjectData)
    modifies store
    ensures fresh(sod) && sod.Valid()
    ensures store.stack == old(store.stack) && store.entries == old(store.entries)
    ensures sod.Pending() == ReadObject(old(store.entries), Prefix(old(store.stack)) + [objName])
  {
    ghost var p := Prefix(store.stack) + [objName];
    ghost var c := ReadObject(store.entries, p);
    ArrayBases(Prefix(store.stack), objName);
    sod := new SettingsObjectData();
    var boolValues := LoadListFromDisk(store, BoolType, objName, "bools");
    assert boolValues == c.bools;
    var _ := AddListToObject(boolValues, sod, BoolType);
    var intValues := LoadListFromDisk(store, IntType, objName, "ints");
    assert intValues == c.ints;
    var _ := AddListToObject(intValues, sod, IntType);
    var doubleValues := LoadListFromDisk(store, DoubleType, objName, "doubles");
    assert doubleValues == c.doubles;
    var _ := AddListToObject(doubleValues, sod, DoubleType);
    var stringValues := LoadListFromDisk(store, StringType, objName, "strings");
    assert stringValues == c.strings;
    var _ := AddListToObject(stringValues, sod, StringType);
  }

  // ---------------------------------------------------------------------
  // Numbered slots
  // ---------------------------------------------------------------------

  /** `appendSlotNumberToSettingsName`: name, a dash, and the slot in decimal. */
  function AppendSlotNumberToSettingsName(name: string, slot: int): (r: string)
    ensures |r| > |name| + 1 && r[..|name|] == name && r[|name|] == '-'
    ensures r[|name| + 1..] == IntToDecimal(slot)
  {
    name + "-" + IntToDecimal(slot)
  }

  /** Different slots of one object are stored under different group names. */
  lemma SlotNamesDistinct(name: string, a: int, b: int)
    ensures AppendSlotNumberToSettingsName(name, a) == AppendSlotNumberToSettingsName(name, b) ==> a == b
  {
    IntToDecimalInjective(a, b);
  }

  /** n distinct slot names in a set of groups means the set has at least n members. */
  lemma {:induction false} SlotsBound(name: string, groups: set<string>, n: nat)
    requires forall k :: 1 <= k <= n ==> AppendSlotNumberToSettingsName(name, k) in groups
    ensures n <= |groups|
  {
    if n > 0 {
      var rest := groups - {AppendSlotNumberToSettingsName(name, n)};
      forall k | 1 <= k <= n - 1
        ensures AppendSlotNumberToSettingsName(name, k) in rest
      {
        SlotNamesDistinct(name, k, n);
      }
      SlotsBound(name, rest, n - 1);
    }
  }

  /**
   * `getAmountOfSavedObjects`: counts the slots 1, 2, ... present among the
   * store's top-level groups, stopping at the first one missing.
   */
  method GetAmountOfSavedObjects(store: Store, name: string) returns (n: int)
    ensures n >= 0
    ensures forall k :: 1 <= k <= n ==> AppendSlotNumberToSettingsName(name, k) in store.ChildGroups()
    ensures AppendSlotNumberToSettingsName(name, n + 1) !in store.ChildGroups()
  {
    var groups := store.ChildGroups();
    var i := 1;
    while true
      invariant 1 <= i
      invariant forall k :: 1 <= k < i ==> AppendSlotNumberToSettingsName(name, k) in groups
      decreases |groups| - (i - 1)
    {
      if AppendSlotNumberToSettingsName(name, i) !in groups {
        return i - 1;
      }
      SlotsBound(name, groups, i);
      i := i + 1;
    }
  }
}
