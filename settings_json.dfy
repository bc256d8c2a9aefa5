/**
 What the settings store reads from and writes to a JSON document, on values:
 one snapshot datatype per section, the value each section's `readJson`
 produces from a document, and the document each section's `writeJson`
 produces. The classes in module Settings are proved against these functions.
 */
module SettingsJson {
  import opened Json
  import opened CStrings

  datatype GeneralValues = GeneralValues(sleepTimeout: Int32, sleepDuration: Int32)

  datatype WiFiValues = WiFiValues(ssid: string, password: string)

  datatype OBD2Values = OBD2Values(
    name: string,
    mac: string,
    checkPIDSupport: bool,
    debug: bool,
    specifyNumResponses: bool,
    protocol: char)

  datatype SettingsValues = SettingsValues(general: GeneralValues, wifi: WiFiValues, obd2: OBD2Values)

  /** The byte sizes of the four character buffers (declared in settings.h). */
  datatype BufferSizes = BufferSizes(ssid: nat, password: nat, name: nat, mac: nat) {
    predicate Valid() {
      ssid >= 1 && password >= 1 && name >= 1 && mac >= 1
    }
  }

  /** The keys each section's `writeJson` sets. */
  const GENERAL_KEYS: set<string> := {"sleepTimeout", "sleepDuration"}
  const WIFI_KEYS: set<string> := {"ssid", "password"}
  const OBD2_KEYS: set<string> := {"name", "mac", "checkPIDSupport", "debug", "specifyNumResponses", "protocol"}

  const DEFAULT_SLEEP_TIMEOUT: Int32 := 5 * 60
  const DEFAULT_SLEEP_DURATION: Int32 := 60 * 60
  const DEFAULT_CHECK_PID_SUPPORT := false
  const DEFAULT_DEBUG := false
  const DEFAULT_SPECIFY_NUM_RESPONSES := true
  const DEFAULT_PROTOCOL := '0'

  // ---- readJson, section by section ----

  /** Each field comes from its own key when that holds an `int`, and is its default otherwise. */
  function GeneralFromDoc(doc: Doc): (r: GeneralValues)
    ensures r.sleepTimeout == DEFAULT_SLEEP_TIMEOUT || Get(doc, "general", "sleepTimeout") == Some(Int(r.sleepTimeout))
    ensures r.sleepDuration == DEFAULT_SLEEP_DURATION || Get(doc, "general", "sleepDuration") == Some(Int(r.sleepDuration))
  {
    GeneralValues(
      IntOr(doc, "general", "sleepTimeout", DEFAULT_SLEEP_TIMEOUT),
      IntOr(doc, "general", "sleepDuration", DEFAULT_SLEEP_DURATION))
  }

  /** Each string is a prefix of the document's string (empty when there is none) that fits its buffer. */
  function WiFiFromDoc(doc: Doc, ssidSize: nat, passwordSize: nat): (r: WiFiValues)
    requires ssidSize >= 1 && passwordSize >= 1
    ensures FitsBuffer(r.ssid, ssidSize) && r.ssid <= StrOr(doc, "wifi", "ssid", "")
    ensures FitsBuffer(r.password, passwordSize) && r.password <= StrOr(doc, "wifi", "password", "")
  {
    WiFiValues(
      Truncate(StrOr(doc, "wifi", "ssid", ""), ssidSize),
      Truncate(StrOr(doc, "wifi", "password", ""), passwordSize))
  }

  /**
   Each string is a prefix of the document's string that fits its buffer, and
   each flag and the protocol come from their keys or are the defaults.
   */
  function OBD2FromDoc(doc: Doc, nameSize: nat, macSize: nat): (r: OBD2Values)
    requires nameSize >= 1 && macSize >= 1
    ensures FitsBuffer(r.name, nameSize) && r.name <= StrOr(doc, "obd2", "name", "")
    ensures FitsBuffer(r.mac, macSize) && r.mac <= StrOr(doc, "obd2", "mac", "")
    ensures r.checkPIDSupport == DEFAULT_CHECK_PID_SUPPORT || Get(doc, "obd2", "checkPIDSupport") == Some(Bool(r.checkPIDSupport))
    ensures r.debug == DEFAULT_DEBUG || Get(doc, "obd2", "debug") == Some(Bool(r.debug))
    ensures r.specifyNumResponses == DEFAULT_SPECIFY_NUM_RESPONSES
      || Get(doc, "obd2", "specifyNumResponses") == Some(Bool(r.specifyNumResponses))
    ensures r.protocol == DEFAULT_PROTOCOL || Get(doc, "obd2", "protocol") == Some(Char(r.protocol))
  {
    OBD2Values(
      Truncate(StrOr(doc, "obd2", "name", ""), nameSize),
      Truncate(StrOr(doc, "obd2", "mac", ""), macSize),
      BoolOr(doc, "obd2", "checkPIDSupport", DEFAULT_CHECK_PID_SUPPORT),
      BoolOr(doc, "obd2", "debug", DEFAULT_DEBUG),
      BoolOr(doc, "obd2", "specifyNumResponses", DEFAULT_SPECIFY_NUM_RESPONSES),
      CharOr(doc, "obd2", "protocol", DEFAULT_PROTOCOL))
  }

  /**
   `SettingsClass::readJson`: every section is read, none is kept from before,
   and whatever is read fits the buffers it is read into.
   */
  function FromDoc(doc: Doc, sizes: BufferSizes): (r: SettingsValues)
    requires sizes.Valid()
    ensures Fits(r, sizes)
  {
    SettingsValues(
      GeneralFromDoc(doc),
      WiFiFromDoc(doc, sizes.ssid, sizes.password),
      OBD2FromDoc(doc, sizes.name, sizes.mac))
  }

  // ---- writeJson, section by section ----

  function GeneralToDoc(doc: Doc, v: GeneralValues): (r: Doc)
    ensures Get(r, "general", "sleepTimeout") == Some(Int(v.sleepTimeout))
    ensures Get(r, "general", "sleepDuration") == Some(Int(v.sleepDuration))
    ensures r.Keys == doc.Keys + {"general"}
  {
    var d := Put(doc, "general", "sleepTimeout", Int(v.sleepTimeout));
    PutKeeps(d, "general", "sleepDuration", Int(v.sleepDuration), "general", "sleepTimeout");
    Put(d, "general", "sleepDuration", Int(v.sleepDuration))
  }

  function WiFiToDoc(doc: Doc, v: WiFiValues): (r: Doc)
    ensures Get(r, "wifi", "ssid") == Some(Str(v.ssid))
    ensures Get(r, "wifi", "password") == Some(Str(v.password))
    ensures r.Keys == doc.Keys + {"wifi"}
  {
    var d := Put(doc, "wifi", "ssid", Str(v.ssid));
    PutKeeps(d, "wifi", "password", Str(v.password), "wifi", "ssid");
    Put(d, "wifi", "password", Str(v.password))
  }

  function OBD2ToDoc(doc: Doc, v: OBD2Values): (r: Doc)
    ensures Get(r, "obd2", "name") == Some(Str(v.name))
    ensures Get(r, "obd2", "mac") == Some(Str(v.mac))
    ensures Get(r, "obd2", "checkPIDSupport") == Some(Bool(v.checkPIDSupport))
    ensures Get(r, "obd2", "debug") == Some(Bool(v.debug))
    ensures Get(r, "obd2", "specifyNumResponses") == Some(Bool(v.specifyNumResponses))
    ensures Get(r, "obd2", "protocol") == Some(Char(v.protocol))
    ensures r.Keys == doc.Keys + {"obd2"}
  {
    var d := OBD2StringsToDoc(doc, v);
    OBD2FlagsToDocKeeps(d, v, "obd2", "name");
    OBD2FlagsToDocKeeps(d, v, "obd2", "mac");
    OBD2FlagsToDoc(d, v)
  }

  /** The two strings of "obd2", which are written first. */
  function OBD2StringsToDoc(doc: Doc, v: OBD2Values): (r: Doc)
    ensures Get(r, "obd2", "name") == Some(Str(v.name))
    ensures Get(r, "obd2", "mac") == Some(Str(v.mac))
    ensures r.Keys == doc.Keys + {"obd2"}
  {
    var d := Put(doc, "obd2", "name", Str(v.name));
    PutKeeps(d, "obd2", "mac", Str(v.mac), "obd2", "name");
    Put(d, "obd2", "mac", Str(v.mac))
  }

  /** The three flags and the protocol of "obd2", which are written after the strings. */
  function OBD2FlagsToDoc(doc: Doc, v: OBD2Values): (r: Doc)
    ensures Get(r, "obd2", "checkPIDSupport") == Some(Bool(v.checkPIDSupport))
    ensures Get(r, "obd2", "debug") == Some(Bool(v.debug))
    ensures Get(r, "obd2", "specifyNumResponses") == Some(Bool(v.specifyNumResponses))
    ensures Get(r, "obd2", "protocol") == Some(Char(v.protocol))
    ensures r.Keys == doc.Keys + {"obd2"}
  {
    var d1 := Put(doc, "obd2", "checkPIDSupport", Bool(v.checkPIDSupport));
    var d2 := Put(d1, "obd2", "debug", Bool(v.debug));
    var d3 := Put(d2, "obd2", "specifyNumResponses", Bool(v.specifyNumResponses));
    PutKeeps(d1, "obd2", "debug", Bool(v.debug), "obd2", "checkPIDSupport");
    PutKeeps(d2, "obd2", "specifyNumResponses", Bool(v.specifyNumResponses), "obd2", "checkPIDSupport");
    PutKeeps(d3, "obd2", "protocol", Char(v.protocol), "obd2", "checkPIDSupport");
    PutKeeps(d2, "obd2", "specifyNumResponses", Bool(v.specifyNumResponses), "obd2", "debug");
    PutKeeps(d3, "obd2", "protocol", Char(v.protocol), "obd2", "debug");
    PutKeeps(d3, "obd2", "protocol", Char(v.protocol), "obd2", "specifyNumResponses");
    Put(d3, "obd2", "protocol", Char(v.protocol))
  }

  /** `SettingsClass::writeJson`: every section is written, in the order general, wifi, obd2. */
  function ToDoc(doc: Doc, v: SettingsValues): (r: Doc)
    ensures r.Keys == doc.Keys + {"general", "wifi", "obd2"}
  {
    OBD2ToDoc(WiFiToDoc(GeneralToDoc(doc, v.general), v.wifi), v.obd2)
  }

  /** The (section, key) pairs the settings store owns. */
  predicate IsSettingsKey(section: string, key: string) {
    || (section == "general" && key in GENERAL_KEYS)
    || (section == "wifi" && key in WIFI_KEYS)
    || (section == "obd2" && key in OBD2_KEYS)
  }

  /** A string can be held by a buffer of `size` bytes: it has no NUL and leaves room for the terminator. */
  predicate FitsBuffer(s: string, size: nat) {
    NUL !in s && |s| < size
  }

  /** Every string of `v` can be held by the buffer sizes in `sizes`. */
  predicate Fits(v: SettingsValues, sizes: BufferSizes) {
    && FitsBuffer(v.wifi.ssid, sizes.ssid)
    && FitsBuffer(v.wifi.password, sizes.password)
    && FitsBuffer(v.obd2.name, sizes.name)
    && FitsBuffer(v.obd2.mac, sizes.mac)
  }

  // ---- properties ----

  /** Reading a document without any of the keys yields the hard-coded defaults. */
  lemma EmptyDocDefaults(sizes: BufferSizes)
    requires sizes.Valid()
    ensures var v := FromDoc(map[], sizes);
      && v.general.sleepTimeout == 300 && v.general.sleepDuration == 3600
      && v.wifi.ssid == [] && v.wifi.password == []
      && v.obd2.name == [] && v.obd2.mac == []
      && !v.obd2.checkPIDSupport && !v.obd2.debug && v.obd2.specifyNumResponses
      && v.obd2.protocol == '0'
  {
  }

  /**
   A section missing from the document is reset to its defaults, whatever the
   store held before: a document holding only "general" still clears WiFi and
   OBD2.
   */
  lemma MissingSectionsDefault(doc: Doc, sizes: BufferSizes)
    requires sizes.Valid()
    ensures "general" !in doc ==> FromDoc(doc, sizes).general == GeneralValues(300, 3600)
    ensures "wifi" !in doc ==> FromDoc(doc, sizes).wifi == WiFiValues([], [])
    ensures "obd2" !in doc ==> FromDoc(doc, sizes).obd2 == OBD2Values([], [], false, false, true, '0')
  {
  }

  /**
   A key that is missing, or holds a value of the wrong kind (or an integer
   outside the `int` range), reads as its default. This covers sections that
   are present but empty, such as `{"general": {}}`.
   */
  lemma IllTypedKeysDefault(doc: Doc, sizes: BufferSizes)
    requires sizes.Valid()
    ensures (match Get(doc, "general", "sleepTimeout") case Some(Int(i)) => !IsInt32(i) case _ => true)
      ==> FromDoc(doc, sizes).general.sleepTimeout == 300
    ensures (match Get(doc, "general", "sleepDuration") case Some(Int(i)) => !IsInt32(i) case _ => true)
      ==> FromDoc(doc, sizes).general.sleepDuration == 3600
    ensures (match Get(doc, "wifi", "ssid") case Some(Str(_)) => false case _ => true)
      ==> FromDoc(doc, sizes).wifi.ssid == []
    ensures (match Get(doc, "wifi", "password") case Some(Str(_)) => false case _ => true)
      ==> FromDoc(doc, sizes).wifi.password == []
    ensures (match Get(doc, "obd2", "name") case Some(Str(_)) => false case _ => true)
      ==> FromDoc(doc, sizes).obd2.name == []
    ensures (match Get(doc, "obd2", "mac") case Some(Str(_)) => false case _ => true)
      ==> FromDoc(doc, sizes).obd2.mac == []
    ensures (match Get(doc, "obd2", "checkPIDSupport") case Some(Bool(_)) => false case _ => true)
      ==> !FromDoc(doc, sizes).obd2.checkPIDSupport
    ensures (match Get(doc, "obd2", "debug") case Some(Bool(_)) => false case _ => true)
      ==> !FromDoc(doc, sizes).obd2.debug
    ensures (match Get(doc, "obd2", "specifyNumResponses") case Some(Bool(_)) => false case _ => true)
      ==> FromDoc(doc, sizes).obd2.specifyNumResponses
    ensures (match Get(doc, "obd2", "protocol") case Some(Char(_)) => false case _ => true)
      ==> FromDoc(doc, sizes).obd2.protocol == '0'
  {
  }

  /** `writeJson` stores every field of every section under its own key. */
  lemma {:induction false} ToDocWritesEveryField(doc: Doc, v: SettingsValues)
    ensures var d := ToDoc(doc, v);
      && Get(d, "general", "sleepTimeout") == Some(Int(v.general.sleepTimeout))
      && Get(d, "general", "sleepDuration") == Some(Int(v.general.sleepDuration))
      && Get(d, "wifi", "ssid") == Some(Str(v.wifi.ssid))
      && Get(d, "wifi", "password") == Some(Str(v.wifi.password))
      && Get(d, "obd2", "name") == Some(Str(v.obd2.name))
      && Get(d, "obd2", "mac") == Some(Str(v.obd2.mac))
      && Get(d, "obd2", "checkPIDSupport") == Some(Bool(v.obd2.checkPIDSupport))
      && Get(d, "obd2", "debug") == Some(Bool(v.obd2.debug))
      && Get(d, "obd2", "specifyNumResponses") == Some(Bool(v.obd2.specifyNumResponses))
      && Get(d, "obd2", "protocol") == Some(Char(v.obd2.protocol))
  {
    var g := GeneralToDoc(doc, v.general);
    var w := WiFiToDoc(g, v.wifi);
    WiFiToDocKeeps(g, v.wifi, "general", "sleepTimeout");
    WiFiToDocKeeps(g, v.wifi, "general", "sleepDuration");
    OBD2ToDocKeeps(w, v.obd2, "general", "sleepTimeout");
    OBD2ToDocKeeps(w, v.obd2, "general", "sleepDuration");
    OBD2ToDocKeeps(w, v.obd2, "wifi", "ssid");
    OBD2ToDocKeeps(w, v.obd2, "wifi", "password");
  }

  /** `writeJson` leaves every key the settings store does not own as it was. */
  lemma ToDocKeepsOtherKeys(doc: Doc, v: SettingsValues)
    ensures forall s, k :: !IsSettingsKey(s, k) ==> Get(ToDoc(doc, v), s, k) == Get(doc, s, k)
  {
    forall s, k | !IsSettingsKey(s, k)
      ensures Get(ToDoc(doc, v), s, k) == Get(doc, s, k)
    {
      ToDocKeepsKey(doc, v, s, k);
    }
  }

  /** The one-key form of ToDocKeepsOtherKeys. */
  lemma ToDocKeepsKey(doc: Doc, v: SettingsValues, s: string, k: string)
    requires !IsSettingsKey(s, k)
    ensures Get(ToDoc(doc, v), s, k) == Get(doc, s, k)
  {
    var g := GeneralToDoc(doc, v.general);
    var w := WiFiToDoc(g, v.wifi);
    GeneralToDocKeeps(doc, v.general, s, k);
    WiFiToDocKeeps(g, v.wifi, s, k);
    OBD2ToDocKeeps(w, v.obd2, s, k);
  }

  /** The general section's write touches only its own two keys. */
  lemma GeneralToDocKeeps(doc: Doc, v: GeneralValues, s: string, k: string)
    requires s != "general" || k !in GENERAL_KEYS
    ensures Get(GeneralToDoc(doc, v), s, k) == Get(doc, s, k)
  {
    var d := Put(doc, "general", "sleepTimeout", Int(v.sleepTimeout));
    PutKeeps(doc, "general", "sleepTimeout", Int(v.sleepTimeout), s, k);
    PutKeeps(d, "general", "sleepDuration", Int(v.sleepDuration), s, k);
  }

  /** The wifi section's write touches only its own two keys. */
  lemma WiFiToDocKeeps(doc: Doc, v: WiFiValues, s: string, k: string)
    requires s != "wifi" || k !in WIFI_KEYS
    ensures Get(WiFiToDoc(doc, v), s, k) == Get(doc, s, k)
  {
    var d := Put(doc, "wifi", "ssid", Str(v.ssid));
    PutKeeps(doc, "wifi", "ssid", Str(v.ssid), s, k);
    PutKeeps(d, "wifi", "password", Str(v.password), s, k);
  }

  /** The obd2 section's write touches only its own six keys. */
  lemma OBD2ToDocKeeps(doc: Doc, v: OBD2Values, s: string, k: string)
    requires s != "obd2" || k !in OBD2_KEYS
    ensures Get(OBD2ToDoc(doc, v), s, k) == Get(doc, s, k)
  {
    var d1 := Put(doc, "obd2", "name", Str(v.name));
    PutKeeps(doc, "obd2", "name", Str(v.name), s, k);
    PutKeeps(d1, "obd2", "mac", Str(v.mac), s, k);
    OBD2FlagsToDocKeeps(OBD2StringsToDoc(doc, v), v, s, k);
  }

  /** Writing the obd2 flags and protocol touches no other key. */
  lemma OBD2FlagsToDocKeeps(doc: Doc, v: OBD2Values, s: string, k: string)
    requires s != "obd2" || k !in {"checkPIDSupport", "debug", "specifyNumResponses", "protocol"}
    ensures Get(OBD2FlagsToDoc(doc, v), s, k) == Get(doc, s, k)
  {
    var d1 := Put(doc, "obd2", "checkPIDSupport", Bool(v.checkPIDSupport));
    var d2 := Put(d1, "obd2", "debug", Bool(v.debug));
    var d3 := Put(d2, "obd2", "specifyNumResponses", Bool(v.specifyNumResponses));
    PutKeeps(doc, "obd2", "checkPIDSupport", Bool(v.checkPIDSupport), s, k);
    PutKeeps(d1, "obd2", "debug", Bool(v.debug), s, k);
    PutKeeps(d2, "obd2", "specifyNumResponses", Bool(v.specifyNumResponses), s, k);
    PutKeeps(d3, "obd2", "protocol", Char(v.protocol), s, k);
  }

  /** Reading a "general" section that holds `g` yields `g`. */
  lemma GeneralReadBack(d: Doc, g: GeneralValues)
    requires Get(d, "general", "sleepTimeout") == Some(Int(g.sleepTimeout))
    requires Get(d, "general", "sleepDuration") == Some(Int(g.sleepDuration))
    ensures GeneralFromDoc(d) == g
  {
  }

  /** Reading a "wifi" section that holds strings fitting the buffers yields them unchanged. */
  lemma WiFiReadBack(d: Doc, w: WiFiValues, ssidSize: nat, passwordSize: nat)
    requires FitsBuffer(w.ssid, ssidSize) && FitsBuffer(w.password, passwordSize)
    requires Get(d, "wifi", "ssid") == Some(Str(w.ssid))
    requires Get(d, "wifi", "password") == Some(Str(w.password))
    ensures WiFiFromDoc(d, ssidSize, passwordSize) == w
  {
    TruncateKeepsFitting(w.ssid, ssidSize);
    TruncateKeepsFitting(w.password, passwordSize);
  }

  /** Reading an "obd2" section that holds `o`, with strings fitting the buffers, yields `o`. */
  lemma OBD2ReadBack(d: Doc, o: OBD2Values, nameSize: nat, macSize: nat)
    requires FitsBuffer(o.name, nameSize) && FitsBuffer(o.mac, macSize)
    requires Get(d, "obd2", "name") == Some(Str(o.name))
    requires Get(d, "obd2", "mac") == Some(Str(o.mac))
    requires Get(d, "obd2", "checkPIDSupport") == Some(Bool(o.checkPIDSupport))
    requires Get(d, "obd2", "debug") == Some(Bool(o.debug))
    requires Get(d, "obd2", "specifyNumResponses") == Some(Bool(o.specifyNumResponses))
    requires Get(d, "obd2", "protocol") == Some(Char(o.protocol))
    ensures OBD2FromDoc(d, nameSize, macSize) == o
  {
    TruncateKeepsFitting(o.name, nameSize);
    TruncateKeepsFitting(o.mac, macSize);
  }

  /**
   Writing a store whose strings fit their buffers and reading the document
   back into buffers of the same sizes reproduces every field.
   */
  lemma {:induction false} RoundTrip(doc: Doc, v: SettingsValues, sizes: BufferSizes)
    requires sizes.Valid() && Fits(v, sizes)
    ensures FromDoc(ToDoc(doc, v), sizes) == v
  {
    var d := ToDoc(doc, v);
    ToDocWritesEveryField(doc, v);
    GeneralReadBack(d, v.general);
    WiFiReadBack(d, v.wifi, sizes.ssid, sizes.password);
    OBD2ReadBack(d, v.obd2, sizes.name, sizes.mac);
  }
}
