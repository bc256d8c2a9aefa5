/**
 The persisted settings store: one object per section, each holding its
 fields in place, and `SettingsClass`, which owns the three sections and
 reads them from, or writes them to, a JSON document and the settings file.
 Character buffers are fixed-size `char` arrays holding C strings.
 */
module Settings {
  import opened Json
  import opened CStrings
  import opened SettingsJson

  /** The "general" section: when the device goes to sleep, and for how long. */
  class GeneralSettings {
    var sleepTimeout: Int32
    var sleepDuration: Int32

    function Values(): GeneralValues
      reads this
    {
      GeneralValues(sleepTimeout, sleepDuration)
    }

    /** A zero-initialised section, as a global object starts out. */
    constructor ()
      ensures Values() == GeneralValues(0, 0)
    {
      sleepTimeout, sleepDuration := 0, 0;
    }

    method ReadJson(doc: Doc)
      modifies this
      ensures Values() == GeneralFromDoc(doc)
    {
      sleepTimeout := IntOr(doc, "general", "sleepTimeout", DEFAULT_SLEEP_TIMEOUT);
      sleepDuration := IntOr(doc, "general", "sleepDuration", DEFAULT_SLEEP_DURATION);
    }

    method WriteJson(doc: Doc) returns (d: Doc)
      ensures d == GeneralToDoc(doc, Values())
    {
      d := Put(doc, "general", "sleepTimeout", Int(sleepTimeout));
      d := Put(d, "general", "sleepDuration", Int(sleepDuration));
    }

    function GetSleepTimeout(): Int32
      reads this
    {
      sleepTimeout
    }

    method SetSleepTimeout(timeout: Int32)
      modifies this
      ensures GetSleepTimeout() == timeout
      ensures GetSleepDuration() == old(GetSleepDuration())
    {
      sleepTimeout := timeout;
    }

    function GetSleepDuration(): Int32
      reads this
    {
      sleepDuration
    }

    method SetSleepDuration(time: Int32)
      modifies this
      ensures GetSleepDuration() == time
      ensures GetSleepTimeout() == old(GetSleepTimeout())
    {
      sleepDuration := time;
    }
  }

  /** The "wifi" section: the access point's SSID and password. */
  class WiFiSettings {
    const ssid: array<char>
    const password: array<char>

    ghost predicate Valid()
      reads ssid, password
    {
      ssid != password && Terminated(ssid[..]) && Terminated(password[..])
    }

    function SSID(): string
      reads ssid
    {
      CString(ssid[..])
    }

    function Values(): WiFiValues
      reads ssid, password
    {
      WiFiValues(SSID(), GetAPPassword())
    }

    /** Two zero-filled buffers of the given sizes. */
    constructor (ssidSize: nat, passwordSize: nat)
      requires ssidSize >= 1 && passwordSize >= 1
      ensures Valid() && fresh(ssid) && fresh(password)
      ensures ssid.Length == ssidSize && password.Length == passwordSize
      ensures Values() == WiFiValues([], [])
    {
      ssid := new char[ssidSize](_ => NUL);
      password := new char[passwordSize](_ => NUL);
      new;
      assert ssid[..][0] == NUL && password[..][0] == NUL;
    }

    method ReadJson(doc: Doc)
      requires Valid()
      modifies ssid, password
      ensures Valid()
      ensures Values() == WiFiFromDoc(doc, ssid.Length, password.Length)
    {
      Strlcpy(ssid, StrOr(doc, "wifi", "ssid", ""));
      Strlcpy(password, StrOr(doc, "wifi", "password", ""));
    }

    method WriteJson(doc: Doc) returns (d: Doc)
      ensures d == WiFiToDoc(doc, Values())
    {
      d := Put(doc, "wifi", "ssid", Str(SSID()));
      d := Put(d, "wifi", "password", Str(GetAPPassword()));
    }

    /** The stored SSID, or `alternate` when none is stored. */
    function GetAPSSID(alternate: string): (r: string)
      reads ssid
      requires Terminated(ssid[..])
      ensures ssid[0] == NUL ==> r == alternate
      ensures ssid[0] != NUL ==> r == SSID() && r != [] && |r| < ssid.Length
    {
      TerminatedFits(ssid[..]);
      if |SSID()| == 0 then alternate else SSID()
    }

    method SetAPSSID(s: string)
      requires Valid()
      modifies ssid
      ensures Valid()
      ensures SSID() == Truncate(s, ssid.Length)
      ensures GetAPPassword() == old(GetAPPassword())
    {
      Strlcpy(ssid, s);
    }

    function GetAPPassword(): string
      reads password
    {
      CString(password[..])
    }

    method SetAPPassword(s: string)
      requires Valid()
      modifies password
      ensures Valid()
      ensures GetAPPassword() == Truncate(s, password.Length)
      ensures SSID() == old(SSID())
    {
      Strlcpy(password, s);
    }
  }

  /** The "obd2" section: which adapter to connect to, and how to talk to it. */
  class OBD2Settings {
    const name: array<char>
    const mac: array<char>
    var checkPIDSupport: bool
    var debug: bool
    var specifyNumResponses: bool
    var protocol: char

    ghost predicate Valid()
      reads name, mac
    {
      name != mac && Terminated(name[..]) && Terminated(mac[..])
    }

    function Name(): string
      reads name
    {
      CString(name[..])
    }

    function Values(): OBD2Values
      reads this, name, mac
    {
      OBD2Values(Name(), GetMAC(), checkPIDSupport, debug, specifyNumResponses, protocol)
    }

    /** Two zero-filled buffers of the given sizes; every flag false and the protocol NUL. */
    constructor (nameSize: nat, macSize: nat)
      requires nameSize >= 1 && macSize >= 1
      ensures Valid() && fresh(name) && fresh(mac)
      ensures name.Length == nameSize && mac.Length == macSize
      ensures Values() == OBD2Values([], [], false, false, false, NUL)
    {
      name := new char[nameSize](_ => NUL);
      mac := new char[macSize](_ => NUL);
      new;
      assert name[..][0] == NUL && mac[..][0] == NUL;
      checkPIDSupport, debug, specifyNumResponses := false, false, false;
      protocol := NUL;
    }

    method ReadJson(doc: Doc)
      requires Valid()
      modifies this, name, mac
      ensures Valid()
      ensures Values() == OBD2FromDoc(doc, name.Length, mac.Length)
    {
      Strlcpy(name, StrOr(doc, "obd2", "name", ""));
      Strlcpy(mac, StrOr(doc, "obd2", "mac", ""));
      checkPIDSupport := BoolOr(doc, "obd2", "checkPIDSupport", DEFAULT_CHECK_PID_SUPPORT);
      debug := BoolOr(doc, "obd2", "debug", DEFAULT_DEBUG);
      specifyNumResponses := BoolOr(doc, "obd2", "specifyNumResponses", DEFAULT_SPECIFY_NUM_RESPONSES);
      protocol := CharOr(doc, "obd2", "protocol", DEFAULT_PROTOCOL);
    }

    method WriteJson(doc: Doc) returns (d: Doc)
      ensures d == OBD2ToDoc(doc, Values())
    {
      var v := Values();
      d := Put(doc, "obd2", "name", Str(v.name));
      d := Put(d, "obd2", "mac", Str(v.mac));
      d := Put(d, "obd2", "checkPIDSupport", Bool(v.checkPIDSupport));
      d := Put(d, "obd2", "debug", Bool(v.debug));
      d := Put(d, "obd2", "specifyNumResponses", Bool(v.specifyNumResponses));
      d := Put(d, "obd2", "protocol", Char(v.protocol));
    }

    /** The stored adapter name, or `alternate` when none is stored. */
    function GetName(alternate: string): (r: string)
      reads name
      requires Terminated(name[..])
      ensures name[0] == NUL ==> r == alternate
      ensures name[0] != NUL ==> r == Name() && r != [] && |r| < name.Length
    {
      TerminatedFits(name[..]);
      if |Name()| == 0 then alternate else Name()
    }

    method SetName(s: string)
      requires Valid()
      modifies name
      ensures Valid()
      ensures Name() == Truncate(s, name.Length)
      ensures GetMAC() == old(GetMAC())
    {
      Strlcpy(name, s);
    }

    function GetMAC(): string
      reads mac
    {
      CString(mac[..])
    }

    method SetMAC(s: string)
      requires Valid()
      modifies mac
      ensures Valid()
      ensures GetMAC() == Truncate(s, mac.Length)
      ensures Name() == old(Name())
    {
      Strlcpy(mac, s);
    }

    function GetCheckPIDSupport(): bool
      reads this
    {
      checkPIDSupport
    }

    method SetCheckPIDSupport(b: bool)
      modifies this
      ensures GetCheckPIDSupport() == b
      ensures debug == old(debug) && specifyNumResponses == old(specifyNumResponses) && protocol == old(protocol)
    {
      checkPIDSupport := b;
    }

    function GetDebug(): bool
      reads this
    {
      debug
    }

    method SetDebug(b: bool)
      modifies this
      ensures GetDebug() == b
      ensures checkPIDSupport == old(checkPIDSupport) && specifyNumResponses == old(specifyNumResponses) && protocol == old(protocol)
    {
      debug := b;
    }

    function GetSpecifyNumResponses(): bool
      reads this
    {
      specifyNumResponses
    }

    method SetSpecifyNumResponses(b: bool)
      modifies this
      ensures GetSpecifyNumResponses() == b
      ensures checkPIDSupport == old(checkPIDSupport) && debug == old(debug) && protocol == old(protocol)
    {
      specifyNumResponses := b;
    }

    function GetProtocol(): char
      reads this
    {
      protocol
    }

    method SetProtocol(c: char)
      modifies this
      ensures GetProtocol() == c
      ensures checkPIDSupport == old(checkPIDSupport) && debug == old(debug) && specifyNumResponses == old(specifyNumResponses)
    {
      protocol := c;
    }
  }

  /** What opening the settings file for reading gives. */
  datatype SettingsFile =
    | Unopenable                     // the file could not be opened
    | Directory                      // the path names a directory
    | Regular(parsed: Option<Doc>)   // a file; its contents deserialised, or None on a parse error

  class SettingsClass {
    const General: GeneralSettings
    const WiFi: WiFiSettings
    const OBD2: OBD2Settings

    /** Every object the store's state lives in. */
    ghost function Repr(): set<object> {
      {General, WiFi, OBD2, WiFi.ssid, WiFi.password, OBD2.name, OBD2.mac}
    }

    ghost predicate Valid()
      reads Repr()
    {
      && WiFi.Valid()
      && OBD2.Valid()
      && {WiFi.ssid, WiFi.password} !! {OBD2.name, OBD2.mac}
    }

    function Sizes(): BufferSizes {
      BufferSizes(WiFi.ssid.Length, WiFi.password.Length, OBD2.name.Length, OBD2.mac.Length)
    }

    function Values(): SettingsValues
      reads Repr()
    {
      SettingsValues(General.Values(), WiFi.Values(), OBD2.Values())
    }

    /** A zero-initialised store whose buffers have the given sizes. */
    constructor (sizes: BufferSizes)
      requires sizes.Valid()
      ensures Valid() && fresh(Repr()) && Sizes() == sizes
      ensures Values() == SettingsValues(GeneralValues(0, 0), WiFiValues([], []), OBD2Values([], [], false, false, false, NUL))
    {
      General := new GeneralSettings();
      WiFi := new WiFiSettings(sizes.ssid, sizes.password);
      OBD2 := new OBD2Settings(sizes.name, sizes.mac);
    }

    /** Overwrites every field of every section from `doc`. */
    method ReadJson(doc: Doc)
      requires Valid()
      modifies Repr()
      ensures Valid()
      ensures Values() == FromDoc(doc, Sizes())
    {
      General.ReadJson(doc);
      WiFi.ReadJson(doc);
      OBD2.ReadJson(doc);
    }

    /** Writes every field of every section into `doc`. */
    method WriteJson(doc: Doc) returns (d: Doc)
      requires Valid()
      ensures d == ToDoc(doc, Values())
    {
      d := General.WriteJson(doc);
      d := WiFi.WriteJson(d);
      d := OBD2.WriteJson(d);
    }

    /**
     Loads the settings file. Succeeds only when the file opens, is not a
     directory and deserialises; otherwise the store is left as it was.
     */
    method ReadSettings(file: SettingsFile) returns (success: bool)
      requires Valid()
      modifies Repr()
      ensures Valid()
      ensures success <==> file.Regular? && file.parsed.Some?
      ensures success ==> Values() == FromDoc(file.parsed.value, Sizes())
      ensures !success ==> unchanged(Repr())
    {
      success := false;
      if file.Regular? {
        if file.parsed.Some? {
          ReadJson(file.parsed.value);
          success := true;
        }
      }
    }

    /**
     Saves the settings file. `fileOpened` is whether the file could be opened for
     writing and `bytesWritten` what the serialiser reports; `written` is the
     document handed to the serialiser. The store itself is never changed.
     */
    method WriteSettings(fileOpened: bool, bytesWritten: nat) returns (success: bool, written: Option<Doc>)
      requires Valid()
      ensures success <==> fileOpened && bytesWritten > 0
      ensures !fileOpened ==> written == None
      ensures fileOpened ==> written == Some(ToDoc(map[], Values()))
    {
      if !fileOpened {
        return false, None;
      }
      var doc := WriteJson(map[]);
      written := Some(doc);
      success := bytesWritten > 0;
    }

    /** The document the store serialises to: a fresh document holding every field. */
    method BuildJson() returns (payload: Doc)
      requires Valid()
      ensures payload == ToDoc(map[], Values())
    {
      payload := WriteJson(map[]);
    }

    /**
     Loads settings from a JSON text; `parsed` is its deserialisation, or None
     when the text does not parse, in which case the store is left as it was.
     */
    method ParseJson(parsed: Option<Doc>) returns (success: bool)
      requires Valid()
      modifies Repr()
      ensures Valid()
      ensures success <==> parsed.Some?
      ensures success ==> Values() == FromDoc(parsed.value, Sizes())
      ensures !success ==> unchanged(Repr())
    {
      success := false;
      if parsed.Some? {
        ReadJson(parsed.value);
        success := true;
      }
    }

    /** The strings a valid store holds always fit its buffers. */
    lemma StoredValuesFit()
      requires Valid()
      ensures Fits(Values(), Sizes())
    {
      TerminatedFits(WiFi.ssid[..]);
      TerminatedFits(WiFi.password[..]);
      TerminatedFits(OBD2.name[..]);
      TerminatedFits(OBD2.mac[..]);
    }
  }

  /**
   `writeJson` on one store followed by `readJson` of the same document on a
   store with buffers of the same sizes reproduces every field of the first.
   */
  method CopyThroughDocument(source: SettingsClass, target: SettingsClass, doc: Doc)
    requires source.Valid() && target.Valid() && source.Sizes() == target.Sizes()
    modifies target.Repr()
    ensures target.Valid()
    ensures target.Values() == old(source.Values())
  {
    var d := source.WriteJson(doc);
    source.StoredValuesFit();
    RoundTrip(doc, source.Values(), source.Sizes());
    target.ReadJson(d);
  }

  /** Reloading the store from its own `buildJson` payload changes no field. */
  method ReloadOwnPayload(s: SettingsClass) returns (success: bool)
    requires s.Valid()
    modifies s.Repr()
    ensures s.Valid() && success
    ensures s.Values() == old(s.Values())
  {
    var payload := s.BuildJson();
    s.StoredValuesFit();
    RoundTrip(map[], s.Values(), s.Sizes());
    success := s.ParseJson(Some(payload));
  }
}
