/** The severity levels the logger filters on. The numbering follows logrus:
    a lower rank is more severe, and a threshold lets through every level whose
    rank is at most its own. */
module Levels {
  import opened Results

  datatype Level = PanicLevel | FatalLevel | ErrorLevel | WarnLevel | InfoLevel | DebugLevel

  /** logrus' numeric value of a level: panic = 0 … debug = 5. */
  function Rank(l: Level): nat
  {
    match l
    case PanicLevel => 0
    case FatalLevel => 1
    case ErrorLevel => 2
    case WarnLevel => 3
    case InfoLevel => 4
    case DebugLevel => 5
  }

  /** `Logger.IsLevelEnabled(l)` for a logger whose threshold is `threshold`. */
  predicate IsLevelEnabled(threshold: Level, l: Level)
  {
    Rank(threshold) >= Rank(l)
  }

  /** The canonical name of a level, as `Level.String()` prints it. */
  function LevelName(l: Level): string
  {
    match l
    case PanicLevel => "panic"
    case FatalLevel => "fatal"
    case ErrorLevel => "error"
    case WarnLevel => "warning"
    case InfoLevel => "info"
    case DebugLevel => "debug"
  }

  /** Every name a level can be set by (lower case): the canonical names and "warn". */
  predicate IsLevelName(s: string)
  {
    s == "warn" || exists l: Level :: LevelName(l) == s
  }

  function LowerChar(c: char): char
  {
    if 'A' <= c <= 'Z' then (c as int - 'A' as int + 'a' as int) as char else c
  }

  predicate IsLowerCase(s: string)
  {
    forall i :: 0 <= i < |s| ==> !('A' <= s[i] <= 'Z')
  }

  /** ASCII lower-casing, the part of `strings.ToLower` that matters for level names. */
  function Lower(s: string): (r: string)
    ensures |r| == |s|
    ensures IsLowerCase(r)
    ensures forall i :: 0 <= i < |s| ==> r[i] == LowerChar(s[i])
  {
    if s == [] then [] else [LowerChar(s[0])] + Lower(s[1..])
  }

  /** Lower-casing a lower-case string changes nothing. */
  lemma LowerOfLowerCase(s: string)
    requires IsLowerCase(s)
    ensures Lower(s) == s
  {
  }

  /** Lower-casing is idempotent. */
  lemma LowerIdempotent(s: string)
    ensures Lower(Lower(s)) == Lower(s)
  {
  }

  /** `logrus.ParseLevel`: the name is compared case-insensitively against the
      level table; an unknown name is an error that carries the name. */
  function ParseLevel(name: string): (r: Result<Level, string>)
    ensures r.Ok? <==> IsLevelName(Lower(name))
    ensures r.Ok? ==> Lower(name) == LevelName(r.value) || (Lower(name) == "warn" && r.value == WarnLevel)
    ensures r.Err? ==> r.error == name
  {
    var n := Lower(name);
    if n == "panic" then assert LevelName(PanicLevel) == n; Ok(PanicLevel)
    else if n == "fatal" then assert LevelName(FatalLevel) == n; Ok(FatalLevel)
    else if n == "error" then assert LevelName(ErrorLevel) == n; Ok(ErrorLevel)
    else if n == "warn" || n == "warning" then assert n == "warning" ==> LevelName(WarnLevel) == n; Ok(WarnLevel)
    else if n == "info" then assert LevelName(InfoLevel) == n; Ok(InfoLevel)
    else if n == "debug" then assert LevelName(DebugLevel) == n; Ok(DebugLevel)
    else
      assert forall l: Level :: LevelName(l) != n;
      Err(name)
  }

  /** The canonical name of every level parses back to that level. */
  lemma ParseLevelName(l: Level)
    ensures ParseLevel(LevelName(l)) == Ok(l)
  {
    LowerOfLowerCase(LevelName(l));
  }

  /** Parsing ignores case: a name and its lower-cased form parse alike. */
  lemma ParseLevelIgnoresCase(name: string)
    ensures ParseLevel(name).Ok? <==> ParseLevel(Lower(name)).Ok?
    ensures ParseLevel(name).Ok? ==> ParseLevel(name).value == ParseLevel(Lower(name)).value
  {
  }

  /** The gate is downward closed: a threshold that lets a level through lets
      every more severe level through too. */
  lemma EnabledIsDownwardClosed(threshold: Level, l: Level, moreSevere: Level)
    requires IsLevelEnabled(threshold, l) && Rank(moreSevere) <= Rank(l)
    ensures IsLevelEnabled(threshold, moreSevere)
  {
  }
}
