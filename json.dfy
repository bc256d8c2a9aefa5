/**
 The part of an ArduinoJson `JsonDocument` that the settings store touches:
 a document is a map from section name to an object, and each object maps a
 key to a scalar value. `Get` is the chained subscript `doc[section][key]`,
 `Put` the assignment `doc[section][key] = v`, and the `...Or` functions are
 ArduinoJson's `doc[section][key] | fallback`, which yields the stored value
 when it has the type of the fallback and the fallback otherwise.
 */
module Json {

  datatype Option<T> = None | Some(value: T)

  /** The C++ `int` of the target: 32 bits, two's complement. */
  type Int32 = x: int | -0x8000_0000 <= x < 0x8000_0000

  predicate IsInt32(x: int) {
    -0x8000_0000 <= x < 0x8000_0000
  }

  /** A JSON value of one of the kinds the settings store reads or writes. */
  datatype JsonVal = Int(i: int) | Bool(b: bool) | Str(s: string) | Char(c: char)

  type Section = map<string, JsonVal>

  type Doc = map<string, Section>

  /** `doc[section][key]`: nothing when the section or the key is absent. */
  function Get(doc: Doc, section: string, key: string): Option<JsonVal> {
    if section in doc && key in doc[section] then Some(doc[section][key]) else None
  }

  /** `doc[section][key] = v`, creating the section when it is absent. */
  function Put(doc: Doc, section: string, key: string, v: JsonVal): (r: Doc)
    ensures Get(r, section, key) == Some(v)
    ensures r.Keys == doc.Keys + {section}
  {
    var current := if section in doc then doc[section] else map[];
    doc[section := current[key := v]]
  }

  /** `Put` changes no other (section, key). */
  lemma PutKeeps(doc: Doc, section: string, key: string, v: JsonVal, s: string, k: string)
    requires s != section || k != key
    ensures Get(Put(doc, section, key, v), s, k) == Get(doc, s, k)
  {
  }

  /** `doc[section][key] | fallback` with an `int` fallback. */
  function IntOr(doc: Doc, section: string, key: string, fallback: Int32): (r: Int32)
    ensures r == fallback || Get(doc, section, key) == Some(Int(r))
    ensures var v := Get(doc, section, key); v.Some? && v.value.Int? && IsInt32(v.value.i) ==> r == v.value.i
  {
    match Get(doc, section, key)
    case Some(Int(i)) => if IsInt32(i) then i else fallback
    case _ => fallback
  }

  /** `doc[section][key] | fallback` with a `bool` fallback. */
  function BoolOr(doc: Doc, section: string, key: string, fallback: bool): (r: bool)
    ensures r == fallback || Get(doc, section, key) == Some(Bool(r))
    ensures var v := Get(doc, section, key); v.Some? && v.value.Bool? ==> r == v.value.b
  {
    match Get(doc, section, key)
    case Some(Bool(b)) => b
    case _ => fallback
  }

  /** `doc[section][key] | fallback` with a string (`const char *`) fallback. */
  function StrOr(doc: Doc, section: string, key: string, fallback: string): (r: string)
    ensures r == fallback || Get(doc, section, key) == Some(Str(r))
    ensures var v := Get(doc, section, key); v.Some? && v.value.Str? ==> r == v.value.s
  {
    match Get(doc, section, key)
    case Some(Str(s)) => s
    case _ => fallback
  }

  /** `doc[section][key] | fallback` with a `char` fallback. */
  function CharOr(doc: Doc, section: string, key: string, fallback: char): (r: char)
    ensures r == fallback || Get(doc, section, key) == Some(Char(r))
    ensures var v := Get(doc, section, key); v.Some? && v.value.Char? ==> r == v.value.c
  {
    match Get(doc, section, key)
    case Some(Char(c)) => c
    case _ => fallback
  }
}
