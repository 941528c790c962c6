/** The tagged key/value store that channel settings are serialised into
    (SimpleSerializer / SimpleDeserializer), reduced to what a settings class
    can observe: a version number and a map from tag to typed value. A typed
    read yields the stored value when the tag holds a value of that type, and
    the caller's default when the tag is absent or holds another type. Also the
    C++ numeric conversions the settings code relies on. */
module SettingsStore {

  newtype int32 = x: int | -0x8000_0000 <= x < 0x8000_0000
  newtype uint32 = x: int | 0 <= x < 0x1_0000_0000
  newtype byte = x: int | 0 <= x < 0x100

  datatype Option<T> = None | Some(value: T)

  /** One stored element, tagged with the type it was written with. */
  datatype Value =
    | S32(i: int32)
    | U32(u: uint32)
    | Bool(b: bool)
    | Double(d: real)
    | Str(s: string)
    | Blob(bytes: seq<byte>)

  /** A deserialised byte array: either not a valid serialisation at all,
      or a version number with the tagged elements. */
  datatype Archive =
    | Invalid
    | Archive(version: int, entries: map<int, Value>)

  type Entries = map<int, Value>

  function Lookup(e: Entries, tag: int): Option<Value> {
    if tag in e then Some(e[tag]) else None
  }

  function ReadS32(e: Entries, tag: int, def: int32): int32 {
    if tag in e && e[tag].S32? then e[tag].i else def
  }

  function ReadU32(e: Entries, tag: int, def: uint32): uint32 {
    if tag in e && e[tag].U32? then e[tag].u else def
  }

  function ReadBool(e: Entries, tag: int, def: bool): bool {
    if tag in e && e[tag].Bool? then e[tag].b else def
  }

  function ReadDouble(e: Entries, tag: int, def: real): real {
    if tag in e && e[tag].Double? then e[tag].d else def
  }

  function ReadString(e: Entries, tag: int, def: string): string {
    if tag in e && e[tag].Str? then e[tag].s else def
  }

  /** readBlob has no default argument: a missing blob reads as empty. */
  function ReadBlob(e: Entries, tag: int): seq<byte> {
    if tag in e && e[tag].Blob? then e[tag].bytes else []
  }

  // ---------------------------------------------------------------------
  // C++ conversions
  // ---------------------------------------------------------------------

  const MinInt32: int := -0x8000_0000
  const MaxInt32: int := 0x7FFF_FFFF

  /** Truncation toward zero, as a floating-to-integer conversion does. */
  function Truncate(x: real): (t: int)
    ensures -1.0 < x - t as real < 1.0
    ensures x >= 0.0 ==> 0 <= t
    ensures x <= 0.0 ==> t <= 0
    ensures 0.0 <= x ==> t as real <= x
    ensures x <= 0.0 ==> x <= t as real
  {
    if x >= 0.0 then x.Floor else -((-x).Floor)
  }

  /** The conversion of a double to a 32-bit int (an argument of type int
      receiving a double): truncation toward zero. Out of range the
      conversion is undefined in C++; it is taken to give the x86 "integer
      indefinite" value INT32_MIN. */
  function DoubleToInt32(x: real): int32 {
    var t := Truncate(x);
    if MinInt32 <= t <= MaxInt32 then t as int32 else MinInt32 as int32
  }

  /** x is a whole number that a 32-bit int can hold. */
  predicate OnInt32Grid(x: real) {
    x == x.Floor as real && MinInt32 <= x.Floor <= MaxInt32
  }

  /** Converting a double to int32 and back gives the same value exactly
      when the double is a whole number in int32 range. */
  lemma DoubleToInt32Exact(x: real)
    ensures DoubleToInt32(x) as real == x <==> OnInt32Grid(x)
  {
    var t := Truncate(x);
    if OnInt32Grid(x) {
      assert t == x.Floor;
    }
    if DoubleToInt32(x) as real == x {
      var k := DoubleToInt32(x) as int;
      assert x == k as real;
      assert x.Floor == k;
    }
  }
}
