/** The choice of record formatter from the logger's flag bitmask. Go's `int`
    flags are taken as 64-bit words. */
module Formatting {

  type Flags = bv64

  /** Include a timestamp in every record. */
  const Ltimestamp: Flags := 1
  /** Render records as JSON instead of key=value text. */
  const LJSON: Flags := 2

  /** The record keys a formatter may rename. */
  datatype FieldKey = FieldKeyTime | FieldKeyLevel | FieldKeyMsg

  /** The JSON formatter, or the text formatter with its display options. */
  datatype Formatter =
    | TextFormatter(disableColors: bool, quoteEmptyFields: bool, disableTimestamp: bool,
                    fullTimestamp: bool, timestampFormat: string,
                    disableLevelTruncation: bool, fieldMap: map<FieldKey, string>)
    | JSONFormatter(disableTimestamp: bool, timestampFormat: string, fieldMap: map<FieldKey, string>)

  /** Go layout for the time of day with microseconds. */
  const TimestampLayout: string := "15:04:05.000000"

  /** Both formatters rename the time, level and message keys the same way. */
  const RecordKeys: map<FieldKey, string> :=
    map[FieldKeyTime := "xtime", FieldKeyLevel := "level", FieldKeyMsg := "message"]

  predicate HasFlag(flags: Flags, flag: Flags)
  {
    flags & flag != 0
  }

  /** `makeFormatter`: JSON exactly when LJSON is set, timestamps exactly when
      Ltimestamp is set, and in either case the same layout and key names. */
  function MakeFormatter(flags: Flags): (r: Formatter)
    ensures r.JSONFormatter? <==> HasFlag(flags, LJSON)
    ensures r.disableTimestamp <==> !HasFlag(flags, Ltimestamp)
    ensures r.timestampFormat == TimestampLayout && r.fieldMap == RecordKeys
    ensures r.fieldMap[FieldKeyTime] == "xtime" && r.fieldMap[FieldKeyLevel] == "level"
         && r.fieldMap[FieldKeyMsg] == "message"
    ensures r.TextFormatter? ==>
      !r.disableColors && r.quoteEmptyFields && r.fullTimestamp && r.disableLevelTruncation
  {
    var disableTimestamp := flags & Ltimestamp == 0;
    if flags & LJSON == 0 then
      TextFormatter(false, true, disableTimestamp, true, TimestampLayout, true, RecordKeys)
    else
      JSONFormatter(disableTimestamp, TimestampLayout, RecordKeys)
  }

  /** The flag bits a formatter was made from: the inverse of MakeFormatter on
      the two bits it reads. */
  function FlagsOf(f: Formatter): (r: Flags)
    ensures r & !(Ltimestamp | LJSON) == 0
  {
    (if f.JSONFormatter? then LJSON else 0) | (if f.disableTimestamp then 0 else Ltimestamp)
  }

  /** Only the two defined bits matter: MakeFormatter forgets every other bit
      and keeps these two exactly. */
  lemma MakeFormatterReadsTwoBits(flags: Flags)
    ensures FlagsOf(MakeFormatter(flags)) == flags & (Ltimestamp | LJSON)
    ensures MakeFormatter(flags) == MakeFormatter(flags & (Ltimestamp | LJSON))
  {
  }

  /** A formatter that MakeFormatter can produce is rebuilt from its flags. */
  lemma MakeFormatterFromFlagsOf(flags: Flags)
    ensures MakeFormatter(FlagsOf(MakeFormatter(flags))) == MakeFormatter(flags)
  {
  }
}
