# Settings store of the OBD-II dashboard firmware

This project models, in Dafny, the persisted settings store of the obledash
firmware (`src/settings.cpp`). The store has three sections:

- **general**: `sleepTimeout` and `sleepDuration`, both C++ `int`.
- **wifi**: `ssid` and `password`, fixed-size `char` buffers.
- **obd2**: `name` and `mac` (`char` buffers), the flags `checkPIDSupport`,
  `debug` and `specifyNumResponses`, and the `char` `protocol`.

`SettingsClass` reads every section from a JSON document (`readJson`), writes
every section to one (`writeJson`), and loads or saves the settings file
(`readSettings`, `writeSettings`, `parseJson`, `buildJson`). Each section has
getters and setters. String setters copy with `strlcpy`, so they truncate to
the buffer size. Two getters return a caller-supplied alternate when the
stored string is empty.

Files:

- `json.dfy` (module `Json`): a JSON document as a map from section to key to
  value (`Int`, `Bool`, `Str` or `Char`). It gives the chained subscript `Get`,
  the assignment `Put`, and ArduinoJson's `value | fallback` lookups.
- `cstrings.dfy` (module `CStrings`): the C string held in a `char` buffer, and
  `strlcpy` as a loop over an `array<char>`, proved against `Truncate`.
- `settings_json.dfy` (module `SettingsJson`): snapshot values of each
  section. It defines what each `readJson` produces from a document and what
  each `writeJson` produces. It proves the defaults, the whole-store overwrite
  and the write/read round trip.
- `settings.dfy` (module `Settings`): the classes `GeneralSettings`,
  `WiFiSettings`, `OBD2Settings` and `SettingsClass`. They update their fields
  and buffers in place and are proved against the functions above.

Modelling decisions:

- Buffer sizes are declared in `settings.h`, which is not part of this model.
  Each size is a constructor parameter of at least 1.
- `int` is 32 bits (`Int32`). A JSON integer outside that range is read as a
  value of the wrong type, so the default is used.
- A constructed store is zero-initialised: zero integers, empty strings, false
  flags and a NUL protocol. This is how the global `Settings` object starts if
  `settings.h` gives no member initialisers.
- File access is a parameter. Reading gets a `SettingsFile`: `Unopenable`,
  `Directory`, or `Regular` with its deserialised contents (`None` on a parse
  error). Writing gets whether the file opened and the byte count the
  serialiser reported. Deserialising a JSON text is likewise given as an
  `Option<Doc>`.
- `buildJson` and `writeSettings` hand a document to the serialiser. The model
  returns that document, not its text.

## Model

| member | source | states |
|---|---|---|
| `Json.Get` | src/settings.cpp:92-93 | `doc[section][key]`: the stored value, or nothing when the section or the key is absent |
| `Json.Put` | src/settings.cpp:96-99 | `doc[section][key] = v` makes that key read back as `v` and adds the section if it was absent |
| `Json.PutKeeps` | src/settings.cpp:96-99 | `doc[section][key] = v` leaves every other (section, key) reading as before |
| `Json.IntOr` | src/settings.cpp:92-93 | `x \| fallback` for an `int` gives the stored integer when it has `int` type and range, else the fallback |
| `Json.BoolOr` | src/settings.cpp:149-151 | `x \| fallback` for a `bool` gives the stored boolean when there is one, else the fallback |
| `Json.StrOr` | src/settings.cpp:118-119 | `x \| ""` gives the stored string when there is one, else the fallback |
| `Json.CharOr` | src/settings.cpp:152 | `x \| '0'` gives the stored char when there is one, else the fallback |
| `CStrings.CString` | src/settings.cpp:127-131 | the text of a `char` buffer is a NUL-free prefix of it that ends at the first NUL |
| `CStrings.Truncate` | src/settings.cpp:134-136 | `strlcpy` into `size` bytes keeps the first `min(strlen(src), size - 1)` characters of the source C string |
| `CStrings.Strlcpy` | src/settings.cpp:135 | the copy loop leaves a terminated buffer whose text is `Truncate(src, size)`; bytes after the terminator are untouched |
| `CStrings.TruncateKeepsFitting` | src/settings.cpp:118-124 | a NUL-free string shorter than the buffer is copied unchanged |
| `CStrings.TruncateIdempotent` | src/settings.cpp:134-136 | copying a copied string again into a buffer of the same size changes nothing |
| `SettingsJson.GeneralToDoc` | src/settings.cpp:96-99 | writes both general fields under "general" |
| `SettingsJson.WiFiToDoc` | src/settings.cpp:122-125 | writes `ssid` and `password` under "wifi" |
| `SettingsJson.OBD2ToDoc` | src/settings.cpp:155-162 | writes all six obd2 fields under "obd2" |
| `SettingsJson.OBD2StringsToDoc` | src/settings.cpp:156-157 | writes `name` and `mac` under "obd2" |
| `SettingsJson.OBD2FlagsToDoc` | src/settings.cpp:158-161 | writes the three flags and the protocol under "obd2" |
| `SettingsJson.EmptyDocDefaults` | src/settings.cpp:91-153 | a document without keys reads as 300, 3600, four empty strings, false, false, true and '0' |
| `SettingsJson.MissingSectionsDefault` | src/settings.cpp:24-28 | any section absent from the document is reset to its defaults; nothing is kept from before |
| `SettingsJson.IllTypedKeysDefault` | src/settings.cpp:91-153 | for each of the ten keys, a missing key or one holding a value of the wrong type (or an out-of-range integer) reads as its default, also inside a present but empty section |
| `SettingsJson.GeneralFromDoc` | src/settings.cpp:91-94 | each general field is the `int` stored under its key, or its default |
| `SettingsJson.WiFiFromDoc` | src/settings.cpp:117-120 | each wifi string is a prefix of the stored string (empty when there is none) and fits its buffer with room for the terminator |
| `SettingsJson.OBD2FromDoc` | src/settings.cpp:146-153 | each obd2 string is a prefix of the stored string that fits its buffer; each flag and the protocol is the stored value or its default |
| `SettingsJson.FromDoc` | src/settings.cpp:24-28 | `readJson` reads all three sections from the document alone, and every string read fits its buffer with room for the terminator |
| `SettingsJson.ToDoc` | src/settings.cpp:30-34 | `writeJson` leaves the document with the sections it had plus "general", "wifi" and "obd2" |
| `SettingsJson.ToDocWritesEveryField` | src/settings.cpp:30-34 | after `writeJson` every one of the ten keys holds its field's value |
| `SettingsJson.GeneralToDocKeeps` | src/settings.cpp:96-99 | the general `writeJson` changes no key outside its two |
| `SettingsJson.WiFiToDocKeeps` | src/settings.cpp:122-125 | the wifi `writeJson` changes no key outside its two |
| `SettingsJson.OBD2ToDocKeeps` | src/settings.cpp:155-162 | the obd2 `writeJson` changes no key outside its six |
| `SettingsJson.OBD2FlagsToDocKeeps` | src/settings.cpp:158-161 | writing the obd2 flags and protocol changes no other key |
| `SettingsJson.ToDocKeepsOtherKeys` | src/settings.cpp:30-34 | `writeJson` changes no key that the store does not own |
| `SettingsJson.GeneralReadBack` | src/settings.cpp:91-99 | reading a general section that holds two `int` values yields them |
| `SettingsJson.WiFiReadBack` | src/settings.cpp:117-125 | reading a wifi section whose strings fit the buffers yields them unchanged |
| `SettingsJson.OBD2ReadBack` | src/settings.cpp:146-162 | reading an obd2 section whose strings fit the buffers yields every field unchanged |
| `SettingsJson.RoundTrip` | src/settings.cpp:24-34 | `readJson` of what `writeJson` wrote reproduces every field, for any starting document |
| `Settings.GeneralSettings.constructor` | src/settings.cpp:22 | a new general section holds zeros |
| `Settings.GeneralSettings.ReadJson` | src/settings.cpp:91-94 | both fields are overwritten from the document, with defaults 300 and 3600 |
| `Settings.GeneralSettings.WriteJson` | src/settings.cpp:96-99 | returns the document with both fields written and the section unchanged |
| `Settings.GeneralSettings.GetSleepTimeout` | src/settings.cpp:101-103 | returns the stored timeout; `SetSleepTimeout` and `ReadJson` state what it then returns |
| `Settings.GeneralSettings.SetSleepTimeout` | src/settings.cpp:101-107 | the getter then returns the new timeout; the duration is unchanged |
| `Settings.GeneralSettings.GetSleepDuration` | src/settings.cpp:109-111 | returns the stored duration; `SetSleepDuration` and `ReadJson` state what it then returns |
| `Settings.GeneralSettings.SetSleepDuration` | src/settings.cpp:109-115 | the getter then returns the new duration; the timeout is unchanged |
| `Settings.WiFiSettings.constructor` | src/settings.cpp:22 | a new wifi section has two terminated buffers of the given sizes holding empty strings |
| `Settings.WiFiSettings.ReadJson` | src/settings.cpp:117-120 | both strings are overwritten with the document's strings, truncated to their buffers; missing ones become empty |
| `Settings.WiFiSettings.WriteJson` | src/settings.cpp:122-125 | returns the document with both strings written |
| `Settings.WiFiSettings.GetAPSSID` | src/settings.cpp:127-132 | returns the alternate exactly when the buffer starts with NUL, else the stored non-empty SSID |
| `Settings.WiFiSettings.SetAPSSID` | src/settings.cpp:134-136 | the stored SSID becomes the input truncated to `size - 1`; the password is unchanged |
| `Settings.WiFiSettings.GetAPPassword` | src/settings.cpp:138-140 | returns the C string in the password buffer, up to the first NUL |
| `Settings.WiFiSettings.SetAPPassword` | src/settings.cpp:138-144 | the password getter then returns the input truncated to `size - 1`; the SSID is unchanged |
| `Settings.OBD2Settings.constructor` | src/settings.cpp:22 | a new obd2 section has empty terminated buffers, false flags and a NUL protocol |
| `Settings.OBD2Settings.ReadJson` | src/settings.cpp:146-153 | all six fields are overwritten from the document, strings truncated, with defaults "", "", false, false, true, '0' |
| `Settings.OBD2Settings.WriteJson` | src/settings.cpp:155-162 | returns the document with all six fields written |
| `Settings.OBD2Settings.GetName` | src/settings.cpp:164-169 | returns the alternate exactly when the buffer starts with NUL, else the stored non-empty name |
| `Settings.OBD2Settings.SetName` | src/settings.cpp:171-173 | the stored name becomes the input truncated to `size - 1`; the MAC is unchanged |
| `Settings.OBD2Settings.GetMAC` | src/settings.cpp:175-177 | returns the C string in the MAC buffer, up to the first NUL |
| `Settings.OBD2Settings.SetMAC` | src/settings.cpp:175-181 | the MAC getter then returns the input truncated to `size - 1`; the name is unchanged |
| `Settings.OBD2Settings.GetCheckPIDSupport` | src/settings.cpp:183-185 | returns the stored flag |
| `Settings.OBD2Settings.SetCheckPIDSupport` | src/settings.cpp:183-189 | the getter then returns the new flag; the other scalars are unchanged |
| `Settings.OBD2Settings.GetDebug` | src/settings.cpp:191-193 | returns the stored flag |
| `Settings.OBD2Settings.SetDebug` | src/settings.cpp:191-197 | the getter then returns the new flag; the other scalars are unchanged |
| `Settings.OBD2Settings.GetSpecifyNumResponses` | src/settings.cpp:199-201 | returns the stored flag |
| `Settings.OBD2Settings.SetSpecifyNumResponses` | src/settings.cpp:199-205 | the getter then returns the new flag; the other scalars are unchanged |
| `Settings.OBD2Settings.GetProtocol` | src/settings.cpp:207-209 | returns the stored protocol char |
| `Settings.OBD2Settings.SetProtocol` | src/settings.cpp:207-213 | the getter then returns the new protocol char; the flags are unchanged |
| `Settings.SettingsClass.constructor` | src/settings.cpp:22 | a new store is zero-initialised, with buffers of the given sizes |
| `Settings.SettingsClass.ReadJson` | src/settings.cpp:24-28 | every field of every section is overwritten from the document |
| `Settings.SettingsClass.WriteJson` | src/settings.cpp:30-34 | returns the document with every field of every section written; the store is unchanged |
| `Settings.SettingsClass.ReadSettings` | src/settings.cpp:36-50 | succeeds exactly when the file opens, is not a directory and parses; then every field is read from it, otherwise nothing changes |
| `Settings.SettingsClass.WriteSettings` | src/settings.cpp:52-68 | fails without serialising when the file does not open; otherwise hands a fresh document with every field to the serialiser and succeeds when it reports bytes written; the store never changes |
| `Settings.SettingsClass.BuildJson` | src/settings.cpp:70-78 | the payload is a fresh document holding every field |
| `Settings.SettingsClass.ParseJson` | src/settings.cpp:80-89 | succeeds exactly when the text parses; then every field is read from it, otherwise nothing changes |
| `Settings.SettingsClass.StoredValuesFit` | src/settings.cpp:118-119 | every string a valid store holds is NUL-free and fits its buffer |
| `Settings.CopyThroughDocument` | src/settings.cpp:24-34 | `writeJson` on one store then `readJson` on another with the same buffer sizes reproduces every field |
| `Settings.ReloadOwnPayload` | src/settings.cpp:70-89 | `parseJson` of the store's own `buildJson` payload succeeds and changes no field |

## Left out

- The JSON text format and ArduinoJson's `deserializeJson` and `serializeJson`: documents are maps, and parsing is an `Option<Doc>` input. `ReloadOwnPayload` hands `ParseJson` the document `BuildJson` produced, so it takes as given that deserialising a serialised document gives the same document back.
- A `char` of the model stands for one C `char` (a byte). JSON strings are their UTF-8 bytes, so truncation can split a multi-byte character, as `strlcpy` does. Model `char` values above 0xFF have no counterpart.
- How ArduinoJson stores a `char`: the protocol is written and read as a `Char` value under one encoding, and nothing more is claimed.
- A section that holds a non-object value (for example `"wifi": 5`) is not representable; sections are always objects.
- JSON values other than integers, booleans, strings and chars (floats, `null`, arrays and nested objects) are not representable. The source reads a key holding one of them as its default, like any other value of the wrong type.
- File handles, the file path and `close`: a file is the `SettingsFile` value or the open flag and byte count.
- The `Serial.println` message in `writeSettings`.
- The return value of `strlcpy`, which the store ignores.
- `settings.h` is not part of this model: buffer sizes are parameters, and the zero initial state is assumed.
- `src/main.cpp` (board setup, Bluetooth and ELM327 I/O, display drawing), `src/SDFSAdapter.h` (a forwarding wrapper over the SD card library) and `include/lv_conf.h` (display library configuration) have no settings logic.
