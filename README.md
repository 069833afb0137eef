# Logger with reconnecting network output — a Dafny model

This project models the logger of `src/logger.go` (package `logger`, built on
logrus). A `LoggerType` has a module name, a severity threshold and a map of
attached fields. It writes records to standard output or to a TCP connection
to a log collector. Before every record that passes the level gate, a
connected logger probes its connection. If the probe fails, or the logger was
already disconnected, it closes the old connection and dials the collector
once. A logger built without an address does neither.

The model is split by concern:

- `results.dfy` (`Results`): `Option` and `Result`, standing in for nil
  pointers and `(value, error)` returns.
- `levels.dfy` (`Levels`): the level table of the doc comment at
  `src/logger.go:103`, logrus' numbering (panic = 0 … debug = 5), the gate
  `IsLevelEnabled(threshold, l)` (threshold rank ≥ level rank), and
  `ParseLevel`, which compares names case-insensitively.
- `formatter.dfy` (`Formatting`): `makeFormatter` as a pure function of the
  flag bits `Ltimestamp = 1` and `LJSON = 2`.
- `fieldmaps.dfy` (`FieldMaps`): `WithField`/`WithFields` as map updates
  where the last write wins.
- `logger.dfy` (`Logger`): the `Conn` class (an open/closed connection),
  `Dial`, the `LoggerType` class with `New`, `InitLogger`, `SetLogLevel`,
  `GetLogLevel`, `GetName`, `Addfield`, `Addfields`, `checkConnection`,
  `reconnect`, `checkAndReconnect` and the twelve emit methods.

The network is abstracted:

- Whether the probe read succeeds is the input `probeOk`.
- Whether a dial reaches the collector is the input `dialOk` (`reachable` in
  `New`). A successful dial yields a fresh `Conn` object.
- The output target is `Stdout` or `Remote(conn)`.

What the outside world observes is kept in ghost fields:

- `netLog`: the probes, closes and dials, in order.
- `written`: every record with the target it was handed to.
- `ended`: whether a Fatal record exited the process or a Panic record
  panicked.

The logger has two invariants:

- `Coherent()` holds on entry to and exit from `checkConnection` and
  `reconnect`. A connection exists exactly when an
  address was given, and it always has that address. A connected logger
  writes to its open connection. A disconnected logger holds no open
  connection. The output never names a connection other than the current one.
- `Valid()` holds between calls. It adds one rule: while disconnected, the
  output is standard output. `checkConnection` leaves only `Coherent()`:
  after a failed probe the output still names the connection it just closed.
  `reconnect` restores `Valid()` in every case, so once `checkAndReconnect`
  returns, no record goes to a closed connection.

Two two-state predicates give the steady-state contracts:

- `Reconnected` describes the whole effect of `checkAndReconnect`.
- `Emitted` applies it to one log call: below the threshold nothing changes
  (no probe, no dial, no write). Otherwise `Reconnected` holds and exactly one
  record is appended, aimed at the output `checkAndReconnect` left.

`GetName` returns the name, a constant that `New` sets from its argument.

Points where the code behaves in a way a reader may not expect:

- After a failed probe, `checkConnection` closes the connection but does not
  clear the handle. `conn` keeps pointing at the closed connection until a
  later dial succeeds, and it stays there if the dial fails.
- On the probe-failure path the connection is closed twice: once in
  `checkConnection` and again in `reconnect`. `netLog` records both.
- `InitLogger` with an unknown severity returns both the logger (at level
  debug) and the error.
- The attached fields are a Go map, so they have no order.
- With logrus numbering, a record at level L is written when rank(threshold)
  ≥ rank(L). Here a smaller rank means more severe.

## Model

| member | source | states |
|---|---|---|
| `Levels.Lower` | src/logger.go:107 | the lower-cased name has the same length, no upper-case ASCII letter, and each character is the lower-case form of the original one |
| `Levels.LowerIdempotent` | src/logger.go:107 | lower-casing twice is the same as lower-casing once |
| `Levels.ParseLevel` | src/logger.go:103-108 | a name parses exactly when its lower-cased form is one of debug, info, warn, warning, error, fatal, panic; the parsed level is the one so named (warn and warning both give warn); an unknown name gives an error that carries the name |
| `Levels.ParseLevelName` | src/logger.go:103 | the canonical name of every level parses back to that level |
| `Levels.ParseLevelIgnoresCase` | src/logger.go:107 | a name and its lower-cased form parse alike |
| `Levels.EnabledIsDownwardClosed` | src/logger.go:168-250 | a threshold that lets a level through lets every more severe level through |
| `Formatting.MakeFormatter` | src/logger.go:65-93 | JSON exactly when bit LJSON (2) is set, text otherwise; timestamps disabled exactly when bit Ltimestamp (1) is clear; both use the layout 15:04:05.000000 and rename time, level and message to xtime, level, message; the text formatter keeps colours, quotes empty fields, prints the full timestamp and does not truncate levels |
| `Formatting.FlagsOf` | src/logger.go:15-18 | the flags recovered from a formatter use only the bits Ltimestamp and LJSON |
| `Formatting.MakeFormatterReadsTwoBits` | src/logger.go:65-69 | the formatter depends on the two flag bits alone, and FlagsOf recovers exactly those two bits |
| `Formatting.MakeFormatterFromFlagsOf` | src/logger.go:65-93 | rebuilding a formatter from its recovered flags gives the same formatter |
| `FieldMaps.WithField` | src/logger.go:134-136 | after adding a field the key holds the new value, the other keys keep theirs, and the key set grows by that key only |
| `FieldMaps.WithFields` | src/logger.go:138-140 | keys of the added map take its values, other keys keep theirs, and the key set is the union |
| `FieldMaps.WithFieldIsWithFields` | src/logger.go:134-140 | adding one field equals adding a one-entry map |
| `FieldMaps.LastWriteWins` | src/logger.go:134-136 | after a run of Addfield calls a key holds the value of its latest addition |
| `FieldMaps.UntouchedKeyKept` | src/logger.go:134-136 | a key that no addition in the run names keeps its presence and its value |
| `Logger.Conn.Read` | src/logger.go:123-126 | the zero-length probe succeeds exactly when the connection is open and the peer side reports no error |
| `Logger.Conn.Close` | src/logger.go:127 | the connection is closed afterwards |
| `Logger.Dial` | src/logger.go:152 | a reachable collector gives a fresh open connection to that address, an unreachable one gives none |
| `Logger.DialsAppend` | src/logger.go:152 | the dial count of a concatenated event log is the sum of the counts of its parts |
| `Logger.LoggerType.constructor` | src/logger.go:37-50 | the first half of New, before any dial: standard output, disconnected, no connection, level debug, formatter from the flags, the single field module = name; with a non-empty address this state is not yet Valid, New establishes it |
| `Logger.LoggerType.GetName` | src/logger.go:98-100 | returns the logger's module name; it is a constant, and New and InitLogger ensure it equals the name they were given |
| `Logger.LoggerType.GetLogLevel` | src/logger.go:115-117 | the returned name parses back to the current threshold |
| `Logger.LoggerType.SetLogLevel` | src/logger.go:105-113 | a recognised name sets the threshold and returns no error; an unrecognised one returns the level error and leaves the threshold unchanged; nothing else changes |
| `Logger.LoggerType.Addfield` | src/logger.go:134-136 | the fields become the old fields with this key set to this value; nothing else changes |
| `Logger.LoggerType.Addfields` | src/logger.go:138-140 | the fields become the old fields overridden by the given map; nothing else changes |
| `Logger.LoggerType.CheckConnection` | src/logger.go:119-132 | with no connection or when disconnected: returns false, no probe, nothing changes; otherwise one probe: on success returns true and changes nothing, on failure closes the connection, sets disconnected and returns false; the output is never touched |
| `Logger.LoggerType.Reconnect` | src/logger.go:142-160 | with no connection: false and no change; when connected: true with no close and no dial; otherwise closes the old connection and dials once: on success the fresh connection becomes the output and the logger is connected (true), on failure the output is standard output and the logger stays disconnected (false); afterwards Valid holds in every case |
| `Logger.LoggerType.CheckAndReconnect` | src/logger.go:162-166 | Reconnected: a no-op without a connection (local-only mode); only a probe when connected and the probe succeeds; otherwise probe (if connected), closes and exactly one dial; afterwards either connected with the output on the current open connection or disconnected with output on standard output; at most one dial per call |
| `Logger.LoggerType.Emit` | src/logger.go:168-250 | Emitted: below the threshold no probe, no dial, no write and no state change; at or above it checkAndReconnect runs and exactly one record is written, to an open connection or to standard output; Fatal marks the process exited and Panic marks it panicked |
| `Logger.LoggerType.Debug` | src/logger.go:168-173 | Emitted at debug level |
| `Logger.LoggerType.Info` | src/logger.go:175-180 | Emitted at info level |
| `Logger.LoggerType.Warning` | src/logger.go:182-187 | Emitted at warn level |
| `Logger.LoggerType.Error` | src/logger.go:189-194 | Emitted at error level |
| `Logger.LoggerType.Fatal` | src/logger.go:196-201 | Emitted at fatal level, then exit |
| `Logger.LoggerType.Panic` | src/logger.go:203-208 | Emitted at panic level, then panic |
| `Logger.LoggerType.Debugf` | src/logger.go:210-215 | Emitted at debug level with a format and arguments |
| `Logger.LoggerType.Infof` | src/logger.go:217-222 | Emitted at info level with a format and arguments |
| `Logger.LoggerType.Warningf` | src/logger.go:224-229 | Emitted at warn level with a format and arguments |
| `Logger.LoggerType.Errorf` | src/logger.go:231-236 | Emitted at error level with a format and arguments |
| `Logger.LoggerType.Fatalf` | src/logger.go:238-243 | Emitted at fatal level with a format and arguments, then exit |
| `Logger.LoggerType.Panicf` | src/logger.go:245-250 | Emitted at panic level with a format and arguments, then panic |
| `Logger.New` | src/logger.go:35-62 | empty address: a logger with no connection, disconnected, on standard output, level debug, and no dial; non-empty address and a successful dial: connected, with the fresh connection as output; failed dial: no logger and the dial error; the connection is absent exactly when the address is empty |
| `Logger.InitLogger` | src/logger.go:259-270 | a failed dial gives no logger and the error; otherwise the logger New builds, with the threshold parsed from the severity, where an empty severity means debug; an unknown severity leaves level debug and returns the level error along with the logger |
| `Logger.LocalOnlyStaysLocal` | src/logger.go:162-166 | a logger without an address never probes, dials or changes status, and every record it writes goes to standard output |
| `Logger.PeerLossFallsBackLocally` | src/logger.go:119-160 | a connected logger whose probe and redial both fail closes its connection, becomes disconnected and writes that call's record to standard output |
| `Logger.ReconnectResumesRemote` | src/logger.go:142-157 | a disconnected logger whose redial succeeds becomes connected and writes that call's record to the new connection |
| `Logger.PanicAlwaysWrites` | src/logger.go:203-208 | at any threshold, Panic and then Panicf (src/logger.go:245-250) each write exactly one record at panic level, and the logger ends panicked |
| `Logger.ErrorThresholdGates` | example/main.go:38-41 | after SetLogLevel("error") an Info call writes nothing and an Error call writes exactly one record |

## Left out

- Real TCP I/O (`net.Dial`, `Read`, `Close`). Probe and dial outcomes are inputs, and a connection is an object with an open flag.
- Logger.Conn.Read: in the program as written the probe at src/logger.go:126 reads into a nil buffer, and Go's runtime returns `(0, nil)` for an empty read on an open connection before any system call. So, sequentially, the probe never fails on an open connection, and a lost peer is never detected on this path. The model keeps the probe outcome as an input: it covers the detection path the code is written for (`PeerLossFallsBackLocally`), which the Go runtime never triggers. The runtime is not part of this model.
- Write errors on the active destination are not modelled. `written` records where a record was handed, not whether it arrived.
- Concurrency is not modelled: the mutex, the atomic loads and stores of `status`, and the unlocked pre-check at src/logger.go:120. The model is sequential.
- Fatal and Panic only set the ghost `ended` flag. Process exit and stack unwinding are not modelled, and the model does not stop calls after `ended` changes.
- Rendering of records is not modelled: the text and JSON encodings, colours, timestamps, and the formatting in the `…f` methods. A message keeps its raw arguments.
- The plain emit methods pass their argument slice to logrus as one value (`v`, not `v...`), so logrus renders it in bracketed slice form. The model keeps the arguments and does not render them.
- Levels.ParseLevel: covers only the seven names of the doc comment at src/logger.go:103. The "trace" level of newer logrus versions is left out. The error text is reduced to the offending name.
- Levels.Lower: lowers ASCII letters only, where Go's `strings.ToLower` folds Unicode. For example Go lowers "İNFO" to "info", so logrus accepts it as a level name; the model does not.
- FieldMaps.WithFields: logrus' refusal of function-typed values is not modelled. Field values are limited to strings, integers and booleans.
- `log.Println(err)` in `InitLogger` (src/logger.go:267) is console output and is not modelled.
- The `flags` argument, a Go `int`, is taken as a 64-bit word.
- example/main.go is not part of this model except for the level example above. Its `InitLogger` call passes three arguments where the function takes four.
