/**
 * `LogType`: the helper's own level vocabulary, its conversions to and from
 * log4j levels, and parsing a level name without regard to case.
 */
module LogTypes {
  import opened JavaLang
  import L = Log4j

  /** The constants in declared order: SUPPRESS, ASSERT, ERROR, WARN, INFO, DEBUG, VERBOSE. */
  datatype LogType = Suppress | Assert | Error | Warn | Info | Debug | Verbose

  /** `LogType.values()`. */
  const Values: seq<LogType> := [Suppress, Assert, Error, Warn, Info, Debug, Verbose]

  /** `ordinal()`: the position of a constant in `Values`. */
  function Ordinal(t: LogType): (r: nat)
    ensures r < |Values| && Values[r] == t
  {
    match t
    case Suppress => 0
    case Assert => 1
    case Error => 2
    case Warn => 3
    case Info => 4
    case Debug => 5
    case Verbose => 6
  }

  /** `toString()`: the constant's name, upper-case letters only. */
  function Name(t: LogType): (r: string)
    ensures |r| > 0
    ensures forall i :: 0 <= i < |r| ==> 'A' <= r[i] <= 'Z'
  {
    match t
    case Suppress => "SUPPRESS"
    case Assert => "ASSERT"
    case Error => "ERROR"
    case Warn => "WARN"
    case Info => "INFO"
    case Debug => "DEBUG"
    case Verbose => "VERBOSE"
  }

  /**
   * `isEqual(logType, logTypeString, ignoreCase)`: false for a null type or a
   * null or empty string; otherwise the name compared with the string, after
   * lower-casing both when `ignoreCase` is set.
   */
  function IsEqual(t: Option<LogType>, s: JString, ignoreCase: bool): (r: bool)
    ensures t.None? || s.None? || s == Some("") ==> !r
    ensures !ignoreCase ==> (r <==> t.Some? && s == Some(Name(t.value)))
    ensures ignoreCase && r ==> |s.value| == |Name(t.value)|
  {
    if t.None? || s.None? || |s.value| == 0 then false
    else if ignoreCase then ToLowerCase(Name(t.value)) == ToLowerCase(s.value)
    else Name(t.value) == s.value
  }

  /** `isEqual(logType, logTypeString)`: the comparison that ignores case. */
  function IsEqualIgnoringCase(t: Option<LogType>, s: JString): (r: bool)
    ensures r <==> t.Some? && s.Some? && ToLowerCase(s.value) == ToLowerCase(Name(t.value))
  {
    IsEqual(t, s, true)
  }

  /** A string equal to a name also equals it when case is ignored. */
  lemma ExactMatchImpliesIgnoringCase(t: Option<LogType>, s: JString)
    ensures IsEqual(t, s, false) ==> IsEqual(t, s, true)
  {
  }

  /** The first constant, from position `i` of `Values` on, whose name matches `s` ignoring case. */
  function FirstMatchFrom(s: JString, i: nat): (r: Option<LogType>)
    requires i <= |Values|
    ensures r.Some? ==> i <= Ordinal(r.value) && IsEqualIgnoringCase(Some(r.value), s)
    ensures r.Some? ==> forall j :: i <= j < Ordinal(r.value) ==> !IsEqualIgnoringCase(Some(Values[j]), s)
    ensures r.None? ==> forall j :: i <= j < |Values| ==> !IsEqualIgnoringCase(Some(Values[j]), s)
    decreases |Values| - i
  {
    if i == |Values| then None
    else if IsEqualIgnoringCase(Some(Values[i]), s) then Some(Values[i])
    else FirstMatchFrom(s, i + 1)
  }

  /**
   * `toLogType(String)`: the first constant in declared order whose name
   * matches ignoring case; a RuntimeException when none does.
   */
  function LookupName(s: JString): (r: Result<LogType>)
    ensures r.Ok? ==> IsEqualIgnoringCase(Some(r.value), s)
    ensures r.Ok? ==> forall j :: 0 <= j < Ordinal(r.value) ==> !IsEqualIgnoringCase(Some(Values[j]), s)
    ensures r.Throw? <==> forall t :: !IsEqualIgnoringCase(Some(t), s)
    ensures r.Throw? ==> r.exception == RuntimeException
  {
    match FirstMatchFrom(s, 0)
    case Some(t) => Ok(t)
    case None =>
      assert forall t :: !IsEqualIgnoringCase(Some(t), s) by {
        forall t ensures !IsEqualIgnoringCase(Some(t), s) {
          assert Values[Ordinal(t)] == t;
        }
      }
      Throw(RuntimeException)
  }

  /** `toLogType(String)` as the source writes it: a search over `values()` that returns at the first match. */
  method ToLogType(s: JString) returns (r: Result<LogType>)
    ensures r == LookupName(s)
  {
    var i := 0;
    while i < |Values|
      invariant 0 <= i <= |Values|
      invariant FirstMatchFrom(s, i) == FirstMatchFrom(s, 0)
    {
      if IsEqualIgnoringCase(Some(Values[i]), s) {
        return Ok(Values[i]);
      }
      i := i + 1;
    }
    return Throw(RuntimeException);
  }

  /** Every constant is found again from its own name, ASSERT included. */
  lemma {:induction false} LookupNameRoundTrip(t: LogType)
    ensures LookupName(Some(Name(t))) == Ok(t)
  {
    var s := Some(Name(t));
    assert IsEqualIgnoringCase(Some(t), s);
    var r := LookupName(s);
    forall u | u != t ensures !IsEqualIgnoringCase(Some(u), s) {
      DistinctNamesIgnoringCase(u, t);
    }
  }

  /** No two constants have names that differ only in case. */
  lemma DistinctNamesIgnoringCase(a: LogType, b: LogType)
    requires a != b
    ensures ToLowerCase(Name(a)) != ToLowerCase(Name(b))
  {
    var la, lb := ToLowerCase(Name(a)), ToLowerCase(Name(b));
    // The only names of equal length, WARN/INFO and ERROR/DEBUG, differ in their first letter.
    assert |la| != |lb| || la[0] != lb[0];
  }

  /** Lookup depends on the string only up to case. */
  lemma {:induction false} LookupNameIgnoresCase(s: string)
    ensures LookupName(Some(s)) == LookupName(Some(ToLowerCase(s)))
  {
    ToLowerCaseIdempotent(s);
    forall t ensures IsEqualIgnoringCase(Some(t), Some(s)) == IsEqualIgnoringCase(Some(t), Some(ToLowerCase(s))) {
    }
    FirstMatchAgrees(Some(s), Some(ToLowerCase(s)), 0);
  }

  /** Two strings every constant matches alike give the same search result. */
  lemma {:induction false} FirstMatchAgrees(s1: JString, s2: JString, i: nat)
    requires i <= |Values|
    requires forall t :: IsEqualIgnoringCase(Some(t), s1) == IsEqualIgnoringCase(Some(t), s2)
    ensures FirstMatchFrom(s1, i) == FirstMatchFrom(s2, i)
    decreases |Values| - i
  {
    if i < |Values| {
      FirstMatchAgrees(s1, s2, i + 1);
    }
  }

  /**
   * `toLevel(LogType)`: SUPPRESS to OFF, ERROR, WARN, INFO and DEBUG to their
   * namesakes, VERBOSE to TRACE; ASSERT throws, and so does null (the switch
   * dereferences it).
   */
  function ToLevel(t: Option<LogType>): (r: Result<L.Level>)
    ensures t.None? ==> r == Throw(NullPointerException)
    ensures t.Some? ==> (r.Throw? <==> t.value == Assert)
    ensures r.Throw? && t.Some? ==> r.exception == RuntimeException
  {
    match t
    case None => Throw(NullPointerException)
    case Some(lt) =>
      match lt
      case Suppress => Ok(L.Off)
      case Error => Ok(L.Level.Error)
      case Warn => Ok(L.Level.Warn)
      case Info => Ok(L.Level.Info)
      case Debug => Ok(L.Level.Debug)
      case Verbose => Ok(L.Trace)
      case Assert => Throw(RuntimeException)
  }

  /** The six levels `toLogType(Level)` knows. */
  predicate HasLogType(l: L.Level) {
    l in {L.Off, L.Level.Error, L.Level.Warn, L.Level.Info, L.Level.Debug, L.Trace}
  }

  /**
   * `toLogType(Level)`: the inverse of `toLevel` on OFF, ERROR, WARN, INFO,
   * DEBUG and TRACE; a RuntimeException for any other level and for null.
   */
  function FromLevel(l: Option<L.Level>): (r: Result<LogType>)
    ensures r.Ok? <==> l.Some? && HasLogType(l.value)
    ensures r.Throw? ==> r.exception == RuntimeException
    ensures r.Ok? ==> r.value != Assert
  {
    if l == Some(L.Off) then Ok(Suppress)
    else if l == Some(L.Level.Error) then Ok(Error)
    else if l == Some(L.Level.Warn) then Ok(Warn)
    else if l == Some(L.Level.Info) then Ok(Info)
    else if l == Some(L.Level.Debug) then Ok(Debug)
    else if l == Some(L.Trace) then Ok(Verbose)
    else Throw(RuntimeException)
  }

  /** `toLogType(toLevel(t)) == t` for every constant but ASSERT. */
  lemma ToLevelRoundTrip(t: LogType)
    requires t != Assert
    ensures ToLevel(Some(t)).Ok? && HasLogType(ToLevel(Some(t)).value)
    ensures FromLevel(Some(ToLevel(Some(t)).value)) == Ok(t)
  {
  }

  /** `toLevel(toLogType(l)) == l` for the six mapped levels; FATAL and ALL throw. */
  lemma FromLevelRoundTrip(l: L.Level)
    ensures HasLogType(l) ==> ToLevel(Some(FromLevel(Some(l)).value)) == Ok(l)
    ensures !HasLogType(l) <==> l == L.Fatal || l == L.All
  {
  }

  /**
   * The declared order runs from most to least severe: for constants other
   * than ASSERT, an earlier constant converts to a strictly higher log4j rank.
   */
  lemma DeclaredOrderIsSeverityOrder(a: LogType, b: LogType)
    requires a != Assert && b != Assert
    ensures Ordinal(a) < Ordinal(b) <==> L.ToInt(ToLevel(Some(a)).value) > L.ToInt(ToLevel(Some(b)).value)
  {
  }
}
