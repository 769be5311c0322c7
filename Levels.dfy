/** `Log4js.Level`: the fixed, totally ordered set of severity levels and
    `toLevel`, the case-insensitive parser of level names. */
module Levels {
  import opened Wrappers
  import opened Text

  /** Ranks of the levels. The library uses `Number.MIN_VALUE` for ALL and
      `Number.MAX_VALUE` for OFF; only their place in the order matters. */
  const ALL_RANK: int := 0
  const TRACE_RANK: int := 5000
  const DEBUG_RANK: int := 10000
  const INFO_RANK: int := 20000
  const WARN_RANK: int := 30000
  const ERROR_RANK: int := 40000
  const FATAL_RANK: int := 50000
  const OFF_RANK: int := 1_000_000_000

  datatype Level = All | Trace | Debug | Info | Warn | Error | Fatal | Off
  {
    /** `valueOf()`: the numeric rank the enabled checks compare. */
    function Rank(): int
    {
      match this
      case All => ALL_RANK
      case Trace => TRACE_RANK
      case Debug => DEBUG_RANK
      case Info => INFO_RANK
      case Warn => WARN_RANK
      case Error => ERROR_RANK
      case Fatal => FATAL_RANK
      case Off => OFF_RANK
    }

    /** `toString()`: the level's name as the layouts print it. */
    function Name(): string
    {
      match this
      case All => "ALL"
      case Trace => "TRACE"
      case Debug => "DEBUG"
      case Info => "INFO"
      case Warn => "WARN"
      case Error => "ERROR"
      case Fatal => "FATAL"
      case Off => "OFF"
    }
  }

  /** The levels from the most verbose to the most restrictive. */
  const Ordered: seq<Level> := [All, Trace, Debug, Info, Warn, Error, Fatal, Off]

  /** The ranks increase strictly along `Ordered`, and every level is in it once. */
  lemma RanksStrictlyIncrease()
    ensures forall i, j :: 0 <= i < j < |Ordered| ==> Ordered[i].Rank() < Ordered[j].Rank()
    ensures forall l: Level :: l in Ordered
  {
    forall l: Level ensures l in Ordered {
      match l
      case All => assert Ordered[0] == l;
      case Trace => assert Ordered[1] == l;
      case Debug => assert Ordered[2] == l;
      case Info => assert Ordered[3] == l;
      case Warn => assert Ordered[4] == l;
      case Error => assert Ordered[5] == l;
      case Fatal => assert Ordered[6] == l;
      case Off => assert Ordered[7] == l;
    }
  }

  /** Two levels with the same rank, or the same name, are the same level. */
  lemma RankAndNameIdentify(a: Level, b: Level)
    ensures a.Rank() == b.Rank() ==> a == b
    ensures a.Name() == b.Name() ==> a == b
  {
  }

  /** `isXEnabled()` of a logger at `loggerLevel`: its rank is at most X's. */
  predicate IsEnabledAt(loggerLevel: Level, l: Level)
  {
    loggerLevel.Rank() <= l.Rank()
  }

  /** Where a level sits in `Ordered`. */
  function Position(l: Level): (r: nat)
    ensures r < |Ordered| && Ordered[r] == l
  {
    match l
    case All => 0
    case Trace => 1
    case Debug => 2
    case Info => 3
    case Warn => 4
    case Error => 5
    case Fatal => 6
    case Off => 7
  }

  /** A logger lets through exactly the levels at or after its own in the order. */
  lemma EnabledFollowsOrder(loggerLevel: Level, l: Level)
    ensures IsEnabledAt(loggerLevel, l) <==> Position(loggerLevel) <= Position(l)
  {
    RanksStrictlyIncrease();
    var i, j := Position(loggerLevel), Position(l);
    if i < j {
      assert Ordered[i].Rank() < Ordered[j].Rank();
    } else if j < i {
      assert Ordered[j].Rank() < Ordered[i].Rank();
    }
  }

  /** ALL lets everything through, every level lets itself through, and the
      default FATAL lets through only FATAL and OFF. */
  lemma EnabledBounds(l: Level)
    ensures IsEnabledAt(All, l) && IsEnabledAt(l, l)
    ensures IsEnabledAt(Fatal, l) <==> l == Fatal || l == Off
    ensures IsEnabledAt(Off, l) <==> l == Off
  {
  }

  /** Raising a logger's level only ever disables more levels. */
  lemma EnabledMonotone(a: Level, b: Level, l: Level)
    requires a.Rank() <= b.Rank()
    ensures IsEnabledAt(b, l) ==> IsEnabledAt(a, l)
  {
  }

  /** What evaluating the numeric branch of `toLevel` throws. */
  datatype LevelError = ReferenceError(identifier: string)

  /** The level whose name is `name`, compared exactly. */
  function Named(name: string): Option<Level>
  {
    if name == "ALL" then Some(All)
    else if name == "DEBUG" then Some(Debug)
    else if name == "INFO" then Some(Info)
    else if name == "WARN" then Some(Warn)
    else if name == "ERROR" then Some(Error)
    else if name == "FATAL" then Some(Fatal)
    else if name == "OFF" then Some(Off)
    else if name == "TRACE" then Some(Trace)
    else None
  }

  /** `Level.prototype.toLevel(sArg, defaultLevel)` as written: `null` and values
      that are neither strings nor numbers give the default; a string is upper-cased
      and looked up by name; the numeric branch evaluates the undeclared identifier
      `ALL_INT` first and throws. */
  function ToLevel(arg: JsValue, defaultLevel: Level): (r: Result<Level, LevelError>)
    ensures r.Err? <==> arg.Num?
    ensures !arg.Str? && !arg.Num? ==> r == Ok(defaultLevel)
    ensures arg.Str? ==> r == Ok(defaultLevel) || Upper(arg.s) == r.value.Name()
    ensures arg.Str? ==> forall l: Level :: Upper(arg.s) == l.Name() ==> r == Ok(l)
  {
    match arg
    case Null => Ok(defaultLevel)
    case Str(s) =>
      (match Named(Upper(s))
       case Some(l) => Ok(l)
       case None => Ok(defaultLevel))
    case Num(_) => Err(ReferenceError("ALL_INT"))
    case _ => Ok(defaultLevel)
  }

  /** Every level's own name parses to that level, whatever the default. */
  lemma ToLevelOfName(l: Level, defaultLevel: Level)
    ensures ToLevel(Str(l.Name()), defaultLevel) == Ok(l)
  {
    NameIsUpper(l);
  }

  /** Level names are written in capitals. */
  lemma NameIsUpper(l: Level)
    ensures Upper(l.Name()) == l.Name()
  {
    UpperKeepsCapitals(l.Name());
  }

  /** Upper-casing the argument first makes no difference: the lookup ignores case. */
  lemma ToLevelIgnoresCase(s: string, defaultLevel: Level)
    ensures ToLevel(Str(Upper(s)), defaultLevel) == ToLevel(Str(s), defaultLevel)
  {
    UpperIdempotent(s);
  }

  /** A string that is no level name in any case gives the default level. */
  lemma ToLevelFallsBack(s: string, defaultLevel: Level)
    requires forall l: Level :: Upper(s) != l.Name()
    ensures ToLevel(Str(s), defaultLevel) == Ok(defaultLevel)
  {
  }

  /** The numeric lookup `toLevel` evidently intends: the level whose
      `Log4js.Level.*_INT` rank equals the number, or the default. */
  function ToLevelByRank(n: int, defaultLevel: Level): (r: Level)
    ensures r == defaultLevel || r.Rank() == n
    ensures forall l: Level :: l.Rank() == n ==> r == l
  {
    if n == ALL_RANK then All
    else if n == DEBUG_RANK then Debug
    else if n == INFO_RANK then Info
    else if n == WARN_RANK then Warn
    else if n == ERROR_RANK then Error
    else if n == FATAL_RANK then Fatal
    else if n == OFF_RANK then Off
    else if n == TRACE_RANK then Trace
    else defaultLevel
  }

  /** As written, a level's own rank does not parse back: the call throws. */
  lemma ToLevelRankThrows(l: Level, defaultLevel: Level)
    ensures ToLevel(Num(l.Rank()), defaultLevel).Err?
    ensures ToLevelByRank(l.Rank(), defaultLevel) == l
  {
  }
}
