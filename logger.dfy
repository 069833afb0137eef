/** The logger of src/logger.go: a named, level-filtered logger with attached
    fields whose output goes to standard output or to a TCP connection, with a
    probe-and-reconnect step before every record it writes.

    The network is not modelled: whether a probe read succeeds and whether a
    dial reaches the collector are inputs of the methods that do them, and a
    connection is an object that is open until it is closed. What the
    environment sees of the logger is kept in ghost traces: the transport
    events (`netLog`), the records written with their destination (`written`),
    and whether a Fatal or Panic record ended the caller (`ended`). */
module Logger {
  import opened Results
  import opened Levels
  import opened Formatting
  import opened FieldMaps

  /** The logger's connection status (an `int32` in the source). */
  datatype Status = Connected | Disconnected

  /** A dialled TCP connection (`net.Conn`). */
  class Conn {
    const address: string
    var open: bool

    constructor (address: string)
      ensures this.address == address && open
    {
      this.address := address;
      open := true;
    }

    /** The zero-length probe read: it fails on a closed connection and
        otherwise reports what the peer's side gives (`peerAlive`). */
    method Read(peerAlive: bool) returns (ok: bool)
      ensures ok <==> open && peerAlive
    {
      ok := open && peerAlive;
    }

    /** Closing is idempotent in effect: the connection is closed afterwards. */
    method Close()
      modifies this
      ensures !open
    {
      open := false;
    }
  }

  /** `net.Dial("tcp", address)`: a fresh open connection when the collector is
      reachable, none otherwise. */
  method Dial(address: string, reachable: bool) returns (c: Conn?)
    ensures reachable ==> c != null && fresh(c) && c.open && c.address == address
    ensures !reachable ==> c == null
  {
    if reachable {
      c := new Conn(address);
    } else {
      c := null;
    }
  }

  /** Where records go: the logger's `Out` writer. */
  datatype Output = Stdout | Remote(conn: Conn)

  /** What the transport sees the logger do. */
  datatype NetEvent = Probed(conn: Conn) | Closed(conn: Conn) | Dialed(address: string, ok: bool)

  /** The number of dial attempts in a run of transport events. */
  function Dials(events: seq<NetEvent>): nat
  {
    if events == [] then 0
    else Dials(events[..|events| - 1]) + (if events[|events| - 1].Dialed? then 1 else 0)
  }

  lemma {:induction false} DialsAppend(a: seq<NetEvent>, b: seq<NetEvent>)
    ensures Dials(a + b) == Dials(a) + Dials(b)
    decreases |b|
  {
    if b == [] {
      assert a + b == a;
    } else {
      assert (a + b)[..|a + b| - 1] == a + b[..|b| - 1];
      assert (a + b)[|a + b| - 1] == b[|b| - 1];
      DialsAppend(a, b[..|b| - 1]);
    }
  }

  /** The arguments of a log call: plain values, or a format and its arguments. */
  datatype Message = Plain(args: seq<Value>) | Formatted(format: string, args: seq<Value>)

  /** A record as it is handed to the output: where it went, at which level,
      with which fields. */
  datatype Record = Record(target: Output, level: Level, fields: Fields, message: Message)

  /** Fatal records exit the process after they are written; Panic records raise
      a Go panic. */
  datatype Termination = Running | Exited | Panicked

  /** The two errors the logger returns. */
  datatype LogError = DialError(address: string) | LevelError(name: string)

  class LoggerType {
    const name: string
    const address: string
    const formatter: Formatter
    var status: Status
    var conn: Conn?
    var out: Output
    var level: Level
    var fields: Fields

    ghost var netLog: seq<NetEvent>
    ghost var written: seq<Record>
    ghost var ended: Termination

    /** The state inside `checkAndReconnect`: a connection exists exactly when
        an address was given, a connected logger writes to its open
        connection, a disconnected one holds no open connection, and the
        output never names a connection other than the current one. */
    ghost predicate Coherent()
      reads this`conn, this`status, this`out, conn
    {
      && (conn == null <==> address == "")
      && (conn != null ==> conn.address == address)
      && (conn == null ==> status == Disconnected)
      && (status == Connected ==> conn != null && conn.open && out == Remote(conn))
      && (status == Disconnected && conn != null ==> !conn.open)
      && (out.Remote? ==> out.conn == conn)
    }

    /** The invariant between calls: in addition, a disconnected logger writes
        to standard output, so no record goes to a closed connection. */
    ghost predicate Valid()
      reads this`conn, this`status, this`out, conn
    {
      Coherent() && (out.Remote? ==> status == Connected)
    }

    /** The logger as `New` builds it before any dial (src/logger.go:37-50):
        the first half of `New`. With a non-empty address this state is not
        yet `Valid()`, since it has no connection; `New` dials and installs it. */
    constructor (name: string, address: string, flags: Flags)
      ensures this.name == name && this.address == address
      ensures formatter == MakeFormatter(flags)
      ensures conn == null && status == Disconnected && out == Stdout
      ensures level == DebugLevel && fields == WithField(map[], "module", StringValue(name))
      ensures netLog == [] && written == [] && ended == Running
    {
      this.name := name;
      this.address := address;
      formatter := MakeFormatter(flags);
      status := Disconnected;
      conn := null;
      out := Stdout;
      level := DebugLevel;
      fields := WithField(map[], "module", StringValue(name));
      netLog := [];
      written := [];
      ended := Running;
    }

    /** The state `New` leaves, whatever the threshold: local-only with an
        empty address, connected to a just-dialled connection otherwise. */
    ghost predicate Started(name: string, address: string, flags: Flags)
      reads this, conn
    {
      && Valid()
      && this.name == name && this.address == address
      && formatter == MakeFormatter(flags)
      && fields == map["module" := StringValue(name)]
      && written == [] && ended == Running
      && (address == "" ==> conn == null && status == Disconnected && out == Stdout && netLog == [])
      && (address != "" ==>
            conn != null && conn.open && status == Connected && out == Remote(conn)
            && netLog == [Dialed(address, true)])
    }

    /** `GetName`: the module name, fixed when the logger is built. */
    function GetName(): (r: string)
      ensures r == name
    {
      name
    }

    /** `GetLogLevel`: the name of the threshold, which parses back to it. */
    function GetLogLevel(): (r: string)
      reads this`level
      ensures ParseLevel(r) == Ok(level)
    {
      ParseLevelName(level);
      LevelName(level)
    }

    /** `SetLogLevel`: a known name sets the threshold, an unknown one is
        reported and leaves it as it was. */
    method SetLogLevel(levelName: string) returns (err: Option<LogError>)
      modifies this`level
      ensures ParseLevel(levelName).Ok? ==> err == None && level == ParseLevel(levelName).value
      ensures ParseLevel(levelName).Err? ==> err == Some(LevelError(levelName)) && level == old(level)
    {
      var parsed := ParseLevel(levelName);
      if parsed.Err? {
        return Some(LevelError(levelName));
      }
      level := parsed.value;
      return None;
    }

    /** `Addfield`: the key now holds the value; other fields are kept. */
    method Addfield(key: string, value: Value)
      modifies this`fields
      ensures fields == WithField(old(fields), key, value)
    {
      fields := WithField(fields, key, value);
    }

    /** `Addfields`: the given fields override, the others are kept. */
    method Addfields(fs: Fields)
      modifies this`fields
      ensures fields == WithFields(old(fields), fs)
    {
      fields := WithFields(fields, fs);
    }

    /** `checkConnection`: without a connection, or when already disconnected,
        it reports unhealthy and touches nothing. Otherwise it probes; a failed
        probe closes the connection and marks the logger disconnected, and the
        output is left as it was. */
    method CheckConnection(probeOk: bool) returns (healthy: bool)
      requires Coherent()
      modifies this`status, this`netLog, conn
      ensures Coherent()
      ensures old(conn == null || status == Disconnected) ==>
        && !healthy && status == old(status) && netLog == old(netLog)
        && (conn != null ==> conn.open == old(conn.open))
      ensures old(conn != null && status == Connected) ==>
        && healthy == probeOk
        && conn.open == probeOk
        && status == (if probeOk then Connected else Disconnected)
        && netLog == old(netLog) + [Probed(conn)] + (if probeOk then [] else [Closed(conn)])
    {
      if conn == null || status == Disconnected {
        return false;
      }
      var ok := conn.Read(probeOk);
      netLog := netLog + [Probed(conn)];
      if !ok {
        conn.Close();
        netLog := netLog + [Closed(conn)];
        status := Disconnected;
        return false;
      }
      return true;
    }

    /** `reconnect`: without a connection it fails and touches nothing; when
        connected it succeeds without closing or dialling. Otherwise it closes
        the old connection and dials once: on success the new connection is
        the output and the logger is connected, on failure the output falls
        back to standard output and the logger stays disconnected. */
    method Reconnect(dialOk: bool) returns (ok: bool)
      requires Coherent()
      modifies this`conn, this`out, this`status, this`netLog, conn
      ensures Valid()
      ensures old(conn) == null ==>
        !ok && conn == null && status == old(status) && out == old(out) && netLog == old(netLog)
      ensures old(conn) != null && old(status) == Connected ==>
        && ok && conn == old(conn) && conn.open && status == Connected
        && out == old(out) && netLog == old(netLog)
      ensures old(conn) != null && old(status) == Disconnected ==>
        && ok == dialOk
        && !old(conn).open
        && netLog == old(netLog) + [Closed(old(conn)), Dialed(address, dialOk)]
        && (dialOk ==> fresh(conn) && conn.open && conn.address == address
                       && out == Remote(conn) && status == Connected)
        && (!dialOk ==> conn == old(conn) && out == Stdout && status == Disconnected)
    {
      if conn == null {
        return false;
      }
      if status == Connected {
        return true;
      }
      conn.Close();
      netLog := netLog + [Closed(conn)];
      var c := Dial(address, dialOk);
      netLog := netLog + [Dialed(address, dialOk)];
      if c != null {
        conn := c;
        out := Remote(c);
        status := Connected;
        return true;
      }
      out := Stdout;
      return false;
    }

    /** What `checkAndReconnect` does, given the connection `c` it started with:
        nothing without a connection; only a probe when connected and the probe
        succeeds; otherwise the probe (if connected), the closes and exactly one
        dial, after which the logger is connected to the new connection or
        disconnected and writing to standard output. */
    twostate predicate Reconnected(c: Conn?, probeOk: bool, dialOk: bool)
      reads this, c, conn
    {
      && c == old(conn)
      && if c == null then
           conn == null && status == old(status) && out == old(out) && netLog == old(netLog)
         else if old(status) == Connected && probeOk then
           && conn == c && c.open && status == Connected && out == old(out)
           && netLog == old(netLog) + [Probed(c)]
         else
           && !c.open
           && netLog == old(netLog)
                        + (if old(status) == Connected then [Probed(c), Closed(c)] else [])
                        + [Closed(c), Dialed(address, dialOk)]
           && (dialOk ==> fresh(conn) && conn.open && conn.address == address
                          && out == Remote(conn) && status == Connected)
           && (!dialOk ==> conn == c && out == Stdout && status == Disconnected)
    }

    /** `checkAndReconnect`. Afterwards the logger is valid again: connected
        and writing to its open connection, or disconnected and writing to
        standard output. */
    method CheckAndReconnect(probeOk: bool, dialOk: bool)
      requires Valid()
      modifies this`conn, this`out, this`status, this`netLog, conn
      ensures Valid()
      ensures Reconnected(old(conn), probeOk, dialOk)
      ensures Dials(netLog) <= Dials(old(netLog)) + 1
    {
      if conn != null {
        var healthy := CheckConnection(probeOk);
        if !healthy {
          var _ := Reconnect(dialOk);
        }
      }
      ghost var added := netLog[|old(netLog)|..];
      assert netLog == old(netLog) + added;
      DialsAppend(old(netLog), added);
      ghost var c := old(conn);
      if c == null {
        assert added == [];
      } else if old(status) == Connected && probeOk {
        assert added == [Probed(c)];
      } else {
        ghost var before := if old(status) == Connected then [Probed(c), Closed(c)] else [];
        assert added == before + [Closed(c), Dialed(address, dialOk)];
        DialsAppend(before, [Closed(c), Dialed(address, dialOk)]);
        assert Dials(before) == 0 by {
          if before != [] {
            assert [Probed(c)][..0] == [];
            assert Dials([Probed(c)]) == 0;
            assert before[..1] == [Probed(c)];
          }
        }
      }
    }

    /** One log call at level `lvl`: below the threshold nothing happens at all;
        otherwise `checkAndReconnect` runs and exactly one record is written to
        the output it leaves, which is never a closed connection. */
    twostate predicate Emitted(c: Conn?, lvl: Level, msg: Message, probeOk: bool, dialOk: bool)
      reads this, c, conn
    {
      && c == old(conn)
      && if IsLevelEnabled(level, lvl) then
           && Reconnected(c, probeOk, dialOk)
           && written == old(written) + [Record(out, lvl, fields, msg)]
           && (out.Remote? ==> conn != null && out.conn == conn && conn.open)
           && ended == (if lvl == FatalLevel then Exited
                        else if lvl == PanicLevel then Panicked
                        else old(ended))
         else
           && conn == c && status == old(status) && out == old(out)
           && netLog == old(netLog) && written == old(written) && ended == old(ended)
           && (c != null ==> c.open == old(c.open))
    }

    /** The body shared by the level methods below. */
    method Emit(lvl: Level, msg: Message, probeOk: bool, dialOk: bool)
      requires Valid()
      modifies this`conn, this`out, this`status, this`netLog, this`written, this`ended, conn
      ensures Valid()
      ensures Emitted(old(conn), lvl, msg, probeOk, dialOk)
      ensures Dials(netLog) <= Dials(old(netLog)) + 1
    {
      if IsLevelEnabled(level, lvl) {
        CheckAndReconnect(probeOk, dialOk);
        written := written + [Record(out, lvl, fields, msg)];
        if lvl == FatalLevel {
          ended := Exited;
        } else if lvl == PanicLevel {
          ended := Panicked;
        }
      }
    }

    method Debug(v: seq<Value>, probeOk: bool, dialOk: bool)
      requires Valid()
      modifies this`conn, this`out, this`status, this`netLog, this`written, this`ended, conn
      ensures Valid() && Emitted(old(conn), DebugLevel, Plain(v), probeOk, dialOk)
    {
      Emit(DebugLevel, Plain(v), probeOk, dialOk);
    }

    method Info(v: seq<Value>, probeOk: bool, dialOk: bool)
      requires Valid()
      modifies this`conn, this`out, this`status, this`netLog, this`written, this`ended, conn
      ensures Valid() && Emitted(old(conn), InfoLevel, Plain(v), probeOk, dialOk)
    {
      Emit(InfoLevel, Plain(v), probeOk, dialOk);
    }

    method Warning(v: seq<Value>, probeOk: bool, dialOk: bool)
      requires Valid()
      modifies this`conn, this`out, this`status, this`netLog, this`written, this`ended, conn
      ensures Valid() && Emitted(old(conn), WarnLevel, Plain(v), probeOk, dialOk)
    {
      Emit(WarnLevel, Plain(v), probeOk, dialOk);
    }

    method Error(v: seq<Value>, probeOk: bool, dialOk: bool)
      requires Valid()
      modifies this`conn, this`out, this`status, this`netLog, this`written, this`ended, conn
      ensures Valid() && Emitted(old(conn), ErrorLevel, Plain(v), probeOk, dialOk)
    {
      Emit(ErrorLevel, Plain(v), probeOk, dialOk);
    }

    method Fatal(v: seq<Value>, probeOk: bool, dialOk: bool)
      requires Valid()
      modifies this`conn, this`out, this`status, this`netLog, this`written, this`ended, conn
      ensures Valid() && Emitted(old(conn), FatalLevel, Plain(v), probeOk, dialOk)
    {
      Emit(FatalLevel, Plain(v), probeOk, dialOk);
    }

    method Panic(v: seq<Value>, probeOk: bool, dialOk: bool)
      requires Valid()
      modifies this`conn, this`out, this`status, this`netLog, this`written, this`ended, conn
      ensures Valid() && Emitted(old(conn), PanicLevel, Plain(v), probeOk, dialOk)
    {
      Emit(PanicLevel, Plain(v), probeOk, dialOk);
    }

    method Debugf(format: string, args: seq<Value>, probeOk: bool, dialOk: bool)
      requires Valid()
      modifies this`conn, this`out, this`status, this`netLog, this`written, this`ended, conn
      ensures Valid() && Emitted(old(conn), DebugLevel, Formatted(format, args), probeOk, dialOk)
    {
      Emit(DebugLevel, Formatted(format, args), probeOk, dialOk);
    }

    method Infof(format: string, args: seq<Value>, probeOk: bool, dialOk: bool)
      requires Valid()
      modifies this`conn, this`out, this`status, this`netLog, this`written, this`ended, conn
      ensures Valid() && Emitted(old(conn), InfoLevel, Formatted(format, args), probeOk, dialOk)
    {
      Emit(InfoLevel, Formatted(format, args), probeOk, dialOk);
    }

    method Warningf(format: string, args: seq<Value>, probeOk: bool, dialOk: bool)
      requires Valid()
      modifies this`conn, this`out, this`status, this`netLog, this`written, this`ended, conn
      ensures Valid() && Emitted(old(conn), WarnLevel, Formatted(format, args), probeOk, dialOk)
    {
      Emit(WarnLevel, Formatted(format, args), probeOk, dialOk);
    }

    method Errorf(format: string, args: seq<Value>, probeOk: bool, dialOk: bool)
      requires Valid()
      modifies this`conn, this`out, this`status, this`netLog, this`written, this`ended, conn
      ensures Valid() && Emitted(old(conn), ErrorLevel, Formatted(format, args), probeOk, dialOk)
    {
      Emit(ErrorLevel, Formatted(format, args), probeOk, dialOk);
    }

    method Fatalf(format: string, args: seq<Value>, probeOk: bool, dialOk: bool)
      requires Valid()
      modifies this`conn, this`out, this`status, this`netLog, this`written, this`ended, conn
      ensures Valid() && Emitted(old(conn), FatalLevel, Formatted(format, args), probeOk, dialOk)
    {
      Emit(FatalLevel, Formatted(format, args), probeOk, dialOk);
    }

    method Panicf(format: string, args: seq<Value>, probeOk: bool, dialOk: bool)
      requires Valid()
      modifies this`conn, this`out, this`status, this`netLog, this`written, this`ended, conn
      ensures Valid() && Emitted(old(conn), PanicLevel, Formatted(format, args), probeOk, dialOk)
    {
      Emit(PanicLevel, Formatted(format, args), probeOk, dialOk);
    }
  }

  /** `New`: with an empty address the logger is local-only and nothing is
      dialled; otherwise the address is dialled once, and a failed dial yields
      no logger and the error. */
  method New(name: string, address: string, flags: Flags, reachable: bool)
    returns (lg: LoggerType?, err: Option<LogError>)
    ensures address != "" && !reachable ==> lg == null && err == Some(DialError(address))
    ensures address == "" || reachable ==>
      && lg != null && err == None && fresh(lg)
      && lg.Started(name, address, flags) && lg.level == DebugLevel && lg.GetName() == name
      && (lg.conn != null ==> fresh(lg.conn))
  {
    var lt := new LoggerType(name, address, flags);
    if |address| != 0 {
      var c := Dial(address, reachable);
      if c == null {
        return null, Some(DialError(address));
      }
      lt.conn := c;
      lt.out := Remote(c);
      lt.status := Connected;
      lt.netLog := [Dialed(address, true)];
    }
    return lt, None;
  }

  /** `InitLogger`: `New`, then the threshold from `severity`, where an empty
      severity means debug. An unknown severity still yields the logger, at
      level debug, together with the error. */
  method InitLogger(name: string, severity: string, address: string, flags: Flags, reachable: bool)
    returns (lg: LoggerType?, err: Option<LogError>)
    ensures address != "" && !reachable ==> lg == null && err == Some(DialError(address))
    ensures address == "" || reachable ==>
      var wanted := if severity == "" then "debug" else severity;
      && lg != null && fresh(lg) && lg.Started(name, address, flags) && lg.GetName() == name
      && (lg.conn != null ==> fresh(lg.conn))
      && (ParseLevel(wanted).Ok? ==> lg.level == ParseLevel(wanted).value && err == None)
      && (ParseLevel(wanted).Err? ==> lg.level == DebugLevel && err == Some(LevelError(wanted)))
  {
    lg, err := New(name, address, flags, reachable);
    if err.Some? {
      return null, err;
    }
    var wanted := if |severity| == 0 then "debug" else severity;
    err := lg.SetLogLevel(wanted);
  }

  // Clients: what a caller can conclude from the contracts above alone.

  /** A local-only logger never probes or dials, never changes its status, and
      writes what it writes to standard output. */
  method LocalOnlyStaysLocal(lg: LoggerType, lvl: Level, msg: Message, probeOk: bool, dialOk: bool)
    requires lg.Valid() && lg.address == ""
    modifies lg`conn, lg`out, lg`status, lg`netLog, lg`written, lg`ended
    ensures lg.Valid()
    ensures lg.conn == null && lg.status == Disconnected && lg.out == Stdout
    ensures lg.netLog == old(lg.netLog)
    ensures |lg.written| == |old(lg.written)| + (if IsLevelEnabled(lg.level, lvl) then 1 else 0)
    ensures forall i :: |old(lg.written)| <= i < |lg.written| ==> lg.written[i].target == Stdout
  {
    lg.Emit(lvl, msg, probeOk, dialOk);
  }

  /** The peer went away and cannot be reached again: the next enabled call
      detects it, closes the connection, dials once in vain and writes its
      record to standard output instead of losing it. */
  method PeerLossFallsBackLocally(lg: LoggerType, v: seq<Value>)
    requires lg.Valid() && lg.status == Connected && IsLevelEnabled(lg.level, ErrorLevel)
    modifies lg`conn, lg`out, lg`status, lg`netLog, lg`written, lg`ended, lg.conn
    ensures lg.Valid()
    ensures lg.status == Disconnected && lg.out == Stdout && !lg.conn.open
    ensures lg.conn == old(lg.conn)
    ensures lg.written == old(lg.written) + [Record(Stdout, ErrorLevel, lg.fields, Plain(v))]
    ensures lg.netLog == old(lg.netLog)
      + [Probed(lg.conn), Closed(lg.conn), Closed(lg.conn), Dialed(lg.address, false)]
  {
    lg.Error(v, false, false);
  }

  /** After a disconnect, once the collector is reachable again, the next
      enabled call reconnects and its record goes to the new connection. */
  method ReconnectResumesRemote(lg: LoggerType, v: seq<Value>, probeOk: bool)
    requires lg.Valid() && lg.conn != null && lg.status == Disconnected
    requires IsLevelEnabled(lg.level, InfoLevel)
    modifies lg`conn, lg`out, lg`status, lg`netLog, lg`written, lg`ended, lg.conn
    ensures lg.Valid()
    ensures lg.status == Connected && fresh(lg.conn) && lg.conn.open && lg.out == Remote(lg.conn)
    ensures lg.written == old(lg.written) + [Record(Remote(lg.conn), InfoLevel, lg.fields, Plain(v))]
    ensures lg.netLog == old(lg.netLog) + [Closed(old(lg.conn)), Dialed(lg.address, true)]
  {
    lg.Info(v, probeOk, true);
  }

  /** The closing lines of the example program: once the threshold is error, an
      Info call writes nothing and an Error call writes one record. */
  method ErrorThresholdGates(lg: LoggerType, v: seq<Value>, w: seq<Value>, probeOk: bool, dialOk: bool)
    requires lg.Valid()
    modifies lg`level, lg`conn, lg`out, lg`status, lg`netLog, lg`written, lg`ended, lg.conn
    ensures lg.Valid() && lg.level == ErrorLevel && lg.GetLogLevel() == "error"
    ensures |lg.written| == |old(lg.written)| + 1
    ensures lg.written[|lg.written| - 1].level == ErrorLevel
    ensures lg.written[|lg.written| - 1].message == Plain(w)
  {
    var err := lg.SetLogLevel("error");
    assert LevelName(ErrorLevel) == "error";
    ParseLevelName(ErrorLevel);
    lg.Info(v, probeOk, dialOk);
    lg.Error(w, probeOk, dialOk);
  }

  /** Panic is the most severe level, so every threshold lets it through:
      Panic and Panicf each write exactly one record and end in a panic. */
  method PanicAlwaysWrites(lg: LoggerType, v: seq<Value>, format: string, args: seq<Value>,
                           probeOk: bool, dialOk: bool)
    requires lg.Valid()
    modifies lg`conn, lg`out, lg`status, lg`netLog, lg`written, lg`ended, lg.conn
    ensures lg.Valid() && lg.ended == Panicked
    ensures |lg.written| == |old(lg.written)| + 2
    ensures lg.written[..|old(lg.written)|] == old(lg.written)
    ensures lg.written[|lg.written| - 2].level == PanicLevel
    ensures lg.written[|lg.written| - 2].message == Plain(v)
    ensures lg.written[|lg.written| - 1].level == PanicLevel
    ensures lg.written[|lg.written| - 1].message == Formatted(format, args)
  {
    lg.Panic(v, probeOk, dialOk);
    lg.Panicf(format, args, probeOk, dialOk);
  }
}
