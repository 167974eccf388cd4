# dbpack configuration: protocol-type decoder and storage selector

This project models the two pieces of behaviour in dbpack's configuration
package (`pkg/config/config.go`) and proves their properties in Dafny:

- **The protocol-type decoder.** `ProtocolType` is an `int32` enum. Its
  declared constants are `Http = 0` and `Mysql = 1`. `UnmarshalText` writes
  through a `*ProtocolType` target. It fails on a nil target. Otherwise it
  lowercases the text and hands it to `unmarshalText`, which assigns `Mysql`
  for `"mysql"` and `Http` for `"http"`. Any other text makes it fail with an
  error that quotes the original text, and the target keeps its value.
- **The storage selector.** `Storage` maps each driver name to that driver's
  `Parameters` map, and at most one driver may be present. `Type` collects
  the names in a loop. It panics on more than one name, returns the sole name
  for one, and returns `""` for none. `Parameters` looks up the entry under
  `Type()`. `setParameter` writes one key into that entry's map in place.

The model lives in one module, `Config`, in `config.dfy`:

- Go's `error` results become the `Outcome`/`Result` datatypes.
- A panic becomes a `StorageError` value:
  - `MultipleStorageDrivers` is the fault of `Type` when it sees several drivers;
  - `NilParameterMap` is the fault of writing into a nil map.
- Text is `seq<byte>`. `bytes.ToLower` is ASCII lowercasing (`ToLower`).
  `EqualFold` is an independent definition of case-insensitive equality,
  and the decoding lemmas are stated with it.
- A `*ProtocolType` target is a nullable `ProtocolTypeSlot` object.
- A Go map is a reference, so a `Parameters` map is a `ParameterMap` object.
  A nil map is `null`. `Storage` is a Dafny `map<string, ParameterMap?>`.
- `Type` is a method with the source's loop. It is proved equal to the pure
  function `DriverType`, which depends only on the set of driver names.
- `setParameter` is a method that updates the object in place. It is proved
  against `SetParameterIn`, a function on the storage's contents (`View`).

Two behaviours of the code are worth stating:

- On an empty storage, `Parameters` returns a nil map, not an empty one.
  Go's map index returns the zero value for the absent key `""`.
  The model returns `null` (`Lookup`).
- On a storage with one driver whose map is nil, `Type` succeeds and
  `Parameters` returns nil. Only `setParameter` faults, on the write into
  the nil map.

## Model

| member | source | states |
|---|---|---|
| `Config.ProtocolTypeSlot.constructor` | pkg/config/config.go:122-125 | a new `ProtocolType` variable holds the zero value, and that is `Http` (ordinal 0; `Mysql` is 1) |
| `Config.ToLower` | pkg/config/config.go:131 | lowercasing keeps the length, leaves no upper-case letter, and changes a byte only by turning an upper-case letter into its lower-case one |
| `Config.ToLowerEqualIffEqualFold` | pkg/config/config.go:131 | two texts have the same lowercase form if and only if they are equal up to ASCII case |
| `Config.Recognize` | pkg/config/config.go:137-147 | the switch yields `p` exactly when `p` is a declared constant and the lowered text is its literal; every other text yields nothing |
| `Config.ProtocolTypeSlot.UnmarshalLowered` | pkg/config/config.go:137-147 | succeeds exactly on `"mysql"` and `"http"` and assigns the matching constant; otherwise reports false and leaves the value |
| `Config.Decode` | pkg/config/config.go:127-135 | a success is a declared constant whose literal is the lowercased text; it fails exactly when the lowercased text is neither "mysql" nor "http", and the failure is `UnrecognizedProtocolType` carrying the original text |
| `Config.UnmarshalText` | pkg/config/config.go:127-135 | nil target: fails with `NilTarget` and assigns nothing; otherwise assigns the decoded type and returns no error, or fails with an error carrying the original text and keeps the old value |
| `Config.DecodeIsCaseInsensitive` | pkg/config/config.go:131-146 | a text decodes to `Mysql` iff it equals "mysql" up to case, to `Http` iff it equals "http" up to case, and is refused with an error carrying itself iff it equals neither |
| `Config.DecodeRespectsEqualFold` | pkg/config/config.go:131 | two texts equal up to case either both fail or both decode to the same constant |
| `Config.DecodeLiteral` | pkg/config/config.go:137-146 | each declared constant decodes from its own literal (round trip) |
| `Config.DecodeHttpSpellings` | pkg/config/config.go:131-134 | "HTTP", "Http" and "http" all decode to `Http` |
| `Config.DecodeMysqlSpelling` | pkg/config/config.go:131-134 | "MySQL" decodes to `Mysql` |
| `Config.DecodeTcpRefused` | pkg/config/config.go:131-133 | "tcp" is refused with an error carrying "tcp" |
| `Config.DriverType` | pkg/config/config.go:150-164 | succeeds iff there is at most one driver: "" for none, the sole name for one, the ambiguous-driver fault naming all drivers for more |
| `Config.Type` | pkg/config/config.go:150-164 | the loop over the keys returns "" for an empty storage, the sole key for one key, the fault for several, and agrees with `DriverType` |
| `Config.Parameters` | pkg/config/config.go:166-169 | faults iff there are several drivers; nil for an empty storage; the sole driver's map (possibly nil) for one driver; reads nothing and changes nothing |
| `Config.SetParameterIn` | pkg/config/config.go:171-174 | the write succeeds iff there is exactly one driver and its map is present; several drivers fault with the ambiguous-driver error, none or a nil map with a nil-map error |
| `Config.SetParameterEffects` | pkg/config/config.go:171-174 | after a successful write, the driver names are unchanged, the driver's map sends `key` to `value`, its keys gain only `key`, and every other entry is unchanged |
| `Config.SetParameterKeepsDriverType` | pkg/config/config.go:171-174 | a successful write keeps the driver type, and the driver it wrote to is present |
| `Config.SetParameterOverwrites` | pkg/config/config.go:171-174 | writing the same key twice equals writing only the second value |
| `Config.SetParameter` | pkg/config/config.go:171-174 | the in-place write changes the storage's contents exactly as `SetParameterIn` says, or faults and changes nothing; after success `Parameters()` holds `key` mapped to `value` |
| `Config.StorageExamples` | pkg/config/config.go:150-169 | `{fs}` selects fs and its map, `{fs, s3}` faults, and an empty storage gives a nil map |

## Left out

- `parse` and `Load` (config.go:176-195) are not modelled: they read a file, resolve an absolute path, decode YAML with a library that is not part of this model, and end the process through the logger on failure.
- The schema structs (`Configuration`, `Listener`, `Executor`, `Filter`, `DistributedTransaction` and the keepalive parameter structs) are plain data with no behaviour, so they are not declared.
- The `default:` struct tags on `SocketAddress` are not modelled. No code in the file applies them, so no default value can be claimed.
- `time.Duration` fields and `ExecuteMode` are not modelled. `ExecuteMode` is declared outside this file.
- The exact error and panic texts are not modelled. That covers Go's `%q` quoting and the order of the joined driver names, which Go leaves unspecified. The errors carry the original text or the set of driver names instead.
- `Config.ToLower`: models `bytes.ToLower` as ASCII lowercasing only. No non-ASCII rune lowercases into a letter of "mysql" or "http", so decoding gives the same result either way.
- `Value` does not model floating-point numbers or other dynamic types a YAML document could produce. `setParameter` stores the value without looking at it.
- The model does not capture two `Parameters` entries that share one Go map. No parse produces that, and `setParameter` only ever writes into a storage with a single driver.
- Concurrency is not modelled. The source does not synchronise `setParameter`.
