/**
  The open attribute map a position carries: string keys mapped to typed
  values. Timestamps are `java.util.Date` values, modelled as milliseconds
  since the epoch.
*/
module Telemetry {

  type Time = int

  /** The kinds of value a position attribute can hold; `Null` is a key mapped to a Java null. */
  datatype Value = Null | Bool(b: bool) | Num(n: int) | Text(s: string) | Date(t: Time)

  type Attributes = map<string, Value>

  /**
    `Boolean.TRUE.equals(attributes.get(key))`: the flag is set only when the
    key is present and holds the Boolean `true`. An absent key, a null, a
    Boolean `false`, a number or a text all read as `false`.
  */
  function Flag(attrs: Attributes, key: string): (isSet: bool)
    ensures isSet <==> key in attrs && attrs[key].Bool? && attrs[key].b
    ensures key !in attrs ==> !isSet
    ensures key in attrs && !attrs[key].Bool? ==> !isSet
  {
    key in attrs && attrs[key] == Bool(true)
  }

  /** A value other than Boolean `true` reads exactly like an absent key: both are `false`. */
  lemma NonTrueReadsAsAbsent(attrs: Attributes, key: string, v: Value)
    requires v != Bool(true)
    ensures !Flag(attrs[key := v], key)
    ensures Flag(attrs[key := v], key) == Flag(attrs - {key}, key)
  {
  }

  /** Storing under one key never changes how another key's flag reads. */
  lemma FlagFrame(attrs: Attributes, key: string, other: string, v: Value)
    requires other != key
    ensures Flag(attrs[other := v], key) == Flag(attrs, key)
  {
  }
}
