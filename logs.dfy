/** Choice of the logging threshold from the verbosity option, and how the
    verbosity option itself is read from the command line. */
module Logs {
  import opened Wrappers

  /** The three thresholds the program configures. */
  datatype Level = Warning | Info | Debug

  /** The numeric value of a threshold in the logging library. */
  function Severity(l: Level): nat {
    match l
    case Warning => 30
    case Info => 20
    case Debug => 10
  }

  /** A message of severity `m` passes the threshold `l`. */
  predicate Passes(l: Level, m: int) {
    m >= Severity(l)
  }

  /** 0 selects WARNING, 1 selects INFO, every other value selects DEBUG. */
  function SetupLevel(verbosity: int): (l: Level)
    ensures l == Warning <==> verbosity == 0
    ensures l == Info <==> verbosity == 1
    ensures l == Debug <==> verbosity != 0 && verbosity != 1
  {
    if verbosity == 0 then Warning
    else if verbosity == 1 then Info
    else Debug
  }

  /** Among the documented values 0, 1 and 2, a higher verbosity lets through
      everything a lower one does. */
  lemma MoreVerbosePassesMore(v1: int, v2: int, m: int)
    requires 0 <= v1 <= v2
    requires Passes(SetupLevel(v1), m)
    ensures Passes(SetupLevel(v2), m)
  {
  }

  /** The values of the option parser: the declared choices are integers,
      while a value read from the command line is a string unless a
      conversion is declared. */
  datatype ArgValue = IntArg(i: int) | StrArg(s: string)

  datatype ArgError = InvalidChoice(given: string) | InvalidInt(given: string)

  /** The declared choices of the verbosity option. */
  const VerbosityChoices: seq<ArgValue> := [IntArg(0), IntArg(1), IntArg(2)]

  /** The option as declared: no conversion, so a given value stays a string
      and is checked for membership among the integer choices; an absent
      option takes the default 0, which is not checked. */
  function ParseVerbosityAsWritten(arg: Option<string>): (r: Result<int, ArgError>)
    ensures arg.None? ==> r == Success(0)
    ensures arg.Some? ==> r == Failure(InvalidChoice(arg.value))
  {
    match arg
    case None => Success(0)
    case Some(s) =>
      // A string value is never equal to one of the integer choices, so the
      // membership check refuses every explicit value.
      assert StrArg(s) !in VerbosityChoices;
      Failure(InvalidChoice(s))
  }

  /** The decimal value of a non-empty string of digits; None for anything else. */
  function DecimalValue(s: string): (r: Option<nat>)
    ensures r.Some? <==> s != [] && forall i :: 0 <= i < |s| ==> '0' <= s[i] <= '9'
    ensures |s| == 1 && r.Some? ==> r.value == s[0] as nat - '0' as nat
  {
    if s == [] then None
    else if !('0' <= s[|s| - 1] <= '9') then None
    else if |s| == 1 then Some(s[0] as nat - '0' as nat)
    else match DecimalValue(s[..|s| - 1])
      case None => None
      case Some(n) => Some(10 * n + (s[|s| - 1] as nat - '0' as nat))
  }

  /** The decimal digit for 0..9. */
  function DigitChar(d: nat): (c: char)
    requires d < 10
    ensures '0' <= c <= '9' && c as nat - '0' as nat == d
  {
    ('0' as nat + d) as char
  }

  /** The decimal rendering of a natural number, without leading zeros. */
  function Decimal(n: nat): (s: string)
    ensures s != []
    decreases n
  {
    if n < 10 then [DigitChar(n)] else Decimal(n / 10) + [DigitChar(n % 10)]
  }

  /** Converting a rendered number gives the number back. */
  lemma {:induction false} DecimalValueOfDecimal(n: nat)
    ensures DecimalValue(Decimal(n)) == Some(n)
    decreases n
  {
    if n >= 10 {
      DecimalValueOfDecimal(n / 10);
      var s := Decimal(n);
      assert s[..|s| - 1] == Decimal(n / 10);
    }
  }

  /** The option with an integer conversion: a given value is converted
      first and then checked against the choices. */
  function ParseVerbosity(arg: Option<string>): (r: Result<int, ArgError>)
    ensures arg.None? ==> r == Success(0)
    ensures r.Success? ==> 0 <= r.value <= 2
    ensures arg.Some? ==> (r.Success? <==> DecimalValue(arg.value).Some? && DecimalValue(arg.value).value <= 2)
    ensures arg.Some? && r.Success? ==> r.value == DecimalValue(arg.value).value
  {
    match arg
    case None => Success(0)
    case Some(s) =>
      match DecimalValue(s)
      case None => Failure(InvalidInt(s))
      case Some(n) => if IntArg(n) in VerbosityChoices then Success(n) else Failure(InvalidChoice(s))
  }

  /** As declared, only the threshold WARNING can ever be configured: every
      explicit value is refused. */
  lemma AsWrittenOnlyWarning(arg: Option<string>)
    ensures ParseVerbosityAsWritten(arg).Success? ==> SetupLevel(ParseVerbosityAsWritten(arg).value) == Warning
    ensures arg.Some? ==> ParseVerbosityAsWritten(arg).Failure?
  {
  }

  /** With the conversion, the values 0, 1 and 2 select the three thresholds,
      so each documented level is reachable. */
  lemma CorrectedReachesEveryLevel()
    ensures ParseVerbosity(Some("0")) == Success(0) && SetupLevel(0) == Warning
    ensures ParseVerbosity(Some("1")) == Success(1) && SetupLevel(1) == Info
    ensures ParseVerbosity(Some("2")) == Success(2) && SetupLevel(2) == Debug
    ensures ParseVerbosity(Some("3")).Failure?
  {
  }
}
