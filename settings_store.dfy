/**
 * The settings store the serialisers write to: Qt's `QSettings`, modelled as
 * a map from key paths to typed values plus the stack of open groups and
 * arrays that turns a short key into a full path. Array elements live under
 * `<array>/<index + 1>/<key>` and the element count under `<array>/size`,
 * which is how Qt lays arrays out. Decimal numerals (Qt's array indices and
 * `std::to_string`) are defined here as well, with their parser.
 */
module SettingsStore {

  // ---------------------------------------------------------------------
  // Values
  // ---------------------------------------------------------------------

  /** The four value types the settings layer accepts (bool, int, double, std::string). */
  datatype ValueType = BoolType | IntType | DoubleType | StringType

  /** A stored value, tagged with its type. */
  datatype Variant = VBool(b: bool) | VInt(i: int) | VDouble(d: real) | VString(s: string)

  /** A `QVariant` as read back: absent (invalid), null, or holding a value. */
  datatype QVariant = Invalid | Null | Holding(value: Variant)

  function TypeOf(v: Variant): ValueType {
    match v
    case VBool(_) => BoolType
    case VInt(_) => IntType
    case VDouble(_) => DoubleType
    case VString(_) => StringType
  }

  /** `Value{}`: false, 0, 0.0 and the empty string. */
  function DefaultOf(t: ValueType): (v: Variant)
    ensures TypeOf(v) == t
  {
    match t
    case BoolType => VBool(false)
    case IntType => VInt(0)
    case DoubleType => VDouble(0.0)
    case StringType => VString("")
  }

  /**
   * `toBool()`, `toInt()`, `toDouble()`, `toString()`: a value of the asked
   * type comes back as it is; anything else gives the type's zero value.
   */
  function Convert(t: ValueType, q: QVariant): (v: Variant)
    ensures TypeOf(v) == t
    ensures q.Holding? && TypeOf(q.value) == t ==> v == q.value
    ensures !(q.Holding? && TypeOf(q.value) == t) ==> v == DefaultOf(t)
  {
    if q.Holding? && TypeOf(q.value) == t then q.value else DefaultOf(t)
  }

  function AsBool(v: Variant): bool {
    if v.VBool? then v.b else false
  }

  function AsInt(v: Variant): int {
    if v.VInt? then v.i else 0
  }

  function AsDouble(v: Variant): real {
    if v.VDouble? then v.d else 0.0
  }

  function AsString(v: Variant): string {
    if v.VString? then v.s else ""
  }

  /** Every value in the list has type t. */
  predicate AllOfType(vs: seq<Variant>, t: ValueType) {
    forall i :: 0 <= i < |vs| ==> TypeOf(vs[i]) == t
  }

  // ---------------------------------------------------------------------
  // Decimal numerals
  // ---------------------------------------------------------------------

  predicate IsDigit(c: char) {
    '0' <= c <= '9'
  }

  function Digit(d: nat): (c: char)
    requires d < 10
    ensures IsDigit(c)
  {
    (d + 48) as char
  }

  function DigitValue(c: char): (d: nat)
    requires IsDigit(c)
    ensures d < 10
  {
    c as int - 48
  }

  /** The shortest decimal numeral of n, most significant digit first. */
  function NatToDecimal(n: nat): (s: string)
    ensures |s| >= 1
    ensures forall i :: 0 <= i < |s| ==> IsDigit(s[i])
  {
    if n < 10 then [Digit(n)] else NatToDecimal(n / 10) + [Digit(n % 10)]
  }

  /** `std::to_string(int)`: a minus sign before the numeral of the magnitude. */
  function IntToDecimal(i: int): (s: string)
    ensures i < 0 ==> |s| >= 2 && s[0] == '-' && s[1..] == NatToDecimal(-i)
    ensures i >= 0 ==> s == NatToDecimal(i)
  {
    if i < 0 then "-" + NatToDecimal(-i) else NatToDecimal(i)
  }

  /** The value of a string of digits. */
  function ParseDigits(s: string): nat
    requires forall i :: 0 <= i < |s| ==> IsDigit(s[i])
  {
    if s == [] then 0 else ParseDigits(s[..|s| - 1]) * 10 + DigitValue(s[|s| - 1])
  }

  /** Parsing a numeral gives back the number. */
  lemma {:induction false} ParseNatToDecimal(n: nat)
    ensures ParseDigits(NatToDecimal(n)) == n
  {
    var s := NatToDecimal(n);
    if n >= 10 {
      ParseNatToDecimal(n / 10);
      assert s[..|s| - 1] == NatToDecimal(n / 10);
    }
  }

  /** Distinct numbers have distinct numerals. */
  lemma NatToDecimalInjective(a: nat, b: nat)
    ensures NatToDecimal(a) == NatToDecimal(b) ==> a == b
  {
    ParseNatToDecimal(a);
    ParseNatToDecimal(b);
  }

  /** Distinct ints have distinct `std::to_string` forms. */
  lemma IntToDecimalInjective(a: int, b: int)
    ensures IntToDecimal(a) == IntToDecimal(b) ==> a == b
  {
    if IntToDecimal(a) == IntToDecimal(b) {
      if a < 0 && b < 0 {
        NatToDecimalInjective(-a, -b);
      } else if a >= 0 && b >= 0 {
        NatToDecimalInjective(a, b);
      }
    }
  }

  // ---------------------------------------------------------------------
  // Key paths
  // ---------------------------------------------------------------------

  /**
   * One entry of the group stack. A plain group has num == -1. An array has
   * num == 0 until an index is chosen and index + 1 afterwards; maxNum is the
   * largest num seen when the array is being written, and -1 when it is read.
   */
  datatype Frame = Frame(name: string, num: int, maxNum: int)

  function GroupFrame(name: string): Frame {
    Frame(name, -1, -1)
  }

  /** The path components one frame contributes. */
  function FramePath(f: Frame): seq<string> {
    [f.name] + (if f.num > 0 then [NatToDecimal(f.num)] else [])
  }

  /** The path of the current group: the frames' components, outermost first. */
  function Prefix(stack: seq<Frame>): seq<string> {
    if stack == [] then [] else Prefix(stack[..|stack| - 1]) + FramePath(stack[|stack| - 1])
  }

  lemma PrefixPush(stack: seq<Frame>, f: Frame)
    ensures Prefix(stack + [f]) == Prefix(stack) + FramePath(f)
  {
    assert (stack + [f])[..|stack|] == stack;
  }

  predicate IsPrefixOf(p: seq<string>, k: seq<string>) {
    |p| <= |k| && k[..|p|] == p
  }

  /** The lookup `value()` performs: a stored value, or an invalid variant. */
  function Lookup(e: map<seq<string>, Variant>, k: seq<string>): QVariant {
    if k in e then Holding(e[k]) else Invalid
  }

  /** `remove(key)`: the key and every key below it disappear. */
  function RemoveTree(e: map<seq<string>, Variant>, p: seq<string>): (r: map<seq<string>, Variant>)
    ensures forall k :: k in r <==> k in e && !IsPrefixOf(p, k)
    ensures forall k :: k in r ==> r[k] == e[k]
  {
    map k | k in e && !IsPrefixOf(p, k) :: e[k]
  }

  /** The names of the groups directly below path p that hold at least one key. */
  function ChildGroupsAt(e: map<seq<string>, Variant>, p: seq<string>): set<string> {
    set k | k in e && |k| > |p| + 1 && k[..|p|] == p :: k[|p|]
  }

  // ---------------------------------------------------------------------
  // The store
  // ---------------------------------------------------------------------

  class Store {
    var entries: map<seq<string>, Variant>
    var stack: seq<Frame>

    /** A store holding the given entries, with no group open. */
    constructor(initial: map<seq<string>, Variant>)
      ensures entries == initial && stack == []
    {
      entries := initial;
      stack := [];
    }

    /** The full path of a key inside the current group. */
    function PathOf(key: string): seq<string>
      reads this
    {
      Prefix(stack) + [key]
    }

    /** `value(key)`. */
    function Value(key: string): (q: QVariant)
      reads this
      ensures q != Null
      ensures q.Holding? <==> PathOf(key) in entries
    {
      Lookup(entries, PathOf(key))
    }

    /** `childGroups()`. */
    function ChildGroups(): set<string>
      reads this
    {
      ChildGroupsAt(entries, Prefix(stack))
    }

    /** `beginGroup(name)`. */
    method BeginGroup(name: string)
      modifies this
      ensures stack == old(stack) + [GroupFrame(name)]
      ensures entries == old(entries)
    {
      stack := stack + [GroupFrame(name)];
    }

    /** `endGroup()`: closes the innermost frame; with none open it does nothing. */
    method EndGroup()
      modifies this
      ensures stack == if old(stack) == [] then [] else old(stack)[..|old(stack)| - 1]
      ensures entries == old(entries)
    {
      if stack != [] {
        stack := stack[..|stack| - 1];
      }
    }

    /** `setValue(key, value)`. */
    method SetValue(key: string, v: Variant)
      modifies this
      ensures entries == old(entries)[old(PathOf(key)) := v]
      ensures stack == old(stack)
    {
      entries := entries[PathOf(key) := v];
    }

    /** `beginWriteArray(name)` with no size: opens the array and drops its old size. */
    method BeginWriteArray(name: string)
      modifies this
      ensures stack == old(stack) + [Frame(name, 0, 0)]
      ensures entries == RemoveTree(old(entries), Prefix(old(stack)) + [name, "size"])
    {
      PrefixPush(stack, Frame(name, 0, 0));
      entries := RemoveTree(entries, Prefix(stack) + [name, "size"]);
      stack := stack + [Frame(name, 0, 0)];
    }

    /** `beginReadArray(name)`: opens the array and returns its stored size. */
    method BeginReadArray(name: string) returns (size: int)
      modifies this
      ensures size == AsInt(Convert(IntType, Lookup(old(entries), Prefix(old(stack)) + [name, "size"])))
      ensures stack == old(stack) + [Frame(name, 0, -1)]
      ensures entries == old(entries)
    {
      size := AsInt(Convert(IntType, Lookup(entries, Prefix(stack) + [name, "size"])));
      stack := stack + [Frame(name, 0, -1)];
    }

    /** `setArrayIndex(i)`: negative indices count as 0; outside an array it does nothing. */
    method SetArrayIndex(i: int)
      modifies this
      ensures old(stack) != [] && old(stack)[|old(stack)| - 1].num != -1 ==>
        var top := old(stack)[|old(stack)| - 1];
        var num := (if i < 0 then 0 else i) + 1;
        stack == old(stack)[..|old(stack)| - 1]
          + [Frame(top.name, num, if top.maxNum != -1 && num > top.maxNum then num else top.maxNum)]
      ensures !(old(stack) != [] && old(stack)[|old(stack)| - 1].num != -1) ==> stack == old(stack)
      ensures entries == old(entries)
    {
      if stack != [] && stack[|stack| - 1].num != -1 {
        var top := stack[|stack| - 1];
        var num := (if i < 0 then 0 else i) + 1;
        var maxNum := if top.maxNum != -1 && num > top.maxNum then num else top.maxNum;
        stack := stack[..|stack| - 1] + [Frame(top.name, num, maxNum)];
      }
    }

    /** `endArray()`: closes the array; a written array records its size. */
    method EndArray()
      modifies this
      ensures old(stack) == [] ==> stack == [] && entries == old(entries)
      ensures old(stack) != [] ==>
        var top := old(stack)[|old(stack)| - 1];
        var rest := old(stack)[..|old(stack)| - 1];
        stack == rest &&
        entries == if top.maxNum != -1 then old(entries)[Prefix(rest) + [top.name, "size"] := VInt(top.maxNum)]
                   else old(entries)
    {
      if stack != [] {
        var top := stack[|stack| - 1];
        stack := stack[..|stack| - 1];
        if top.maxNum != -1 {
          entries := entries[Prefix(stack) + [top.name, "size"] := VInt(top.maxNum)];
        }
      }
    }
  }
}
