/**
 * internal/data/runtime.go: a movie runtime, an int32 number of minutes, written in
 * JSON as the string "<n> mins".
 */
module DataRuntime {
  import opened Wrappers
  import opened Strconv
  import opened Strings

  type Runtime = Int32

  datatype RuntimeError = ErrInvalidRuntimeFormat

  /** MarshalJSON: the quoted string of the decimal runtime followed by " mins". */
  function MarshalJSON(r: Runtime): (json: string)
    ensures json == "\"" + FormatInt(r) + " mins\""
  {
    var jsonValue := FormatInt(r) + " mins";
    QuotePlain(jsonValue);
    assert "\"" + jsonValue + "\"" == "\"" + FormatInt(r) + " mins\"";
    Quote(jsonValue)
  }

  /** The number part of an unquoted runtime: the first of exactly two space-separated parts, the second being "mins". */
  function NumberPart(unquoted: string): (n: Option<string>)
    ensures n.Some? ==> unquoted == n.value + " mins" && ' ' !in n.value
  {
    var parts := Split(unquoted, ' ');
    if |parts| != 2 || parts[1] != "mins" then None
    else
      JoinSplit(unquoted, ' ');
      assert Join(parts, ' ') == parts[0] + [' '] + parts[1];
      Some(parts[0])
  }

  lemma NumberPartOf(n: string)
    requires ' ' !in n
    ensures NumberPart(n + " mins") == Some(n)
  {
    SplitJoin([n, "mins"], ' ');
    assert Join([n, "mins"], ' ') == n + " mins";
  }

  /** The decoding of UnmarshalJSON, before the receiver is written. */
  function ParseRuntime(json: string): (r: Result<Runtime, RuntimeError>)
    ensures r.Success? ==> exists n :: Unquote(json) == Some(n + " mins") && ParseInt(n, Bits32) == Some(r.value as int)
  {
    match Unquote(json)
    case None => Failure(ErrInvalidRuntimeFormat)
    case Some(unquoted) =>
      match NumberPart(unquoted)
      case None => Failure(ErrInvalidRuntimeFormat)
      case Some(n) =>
        match ParseInt(n, Bits32)
        case None => Failure(ErrInvalidRuntimeFormat)
        case Some(i) => Success(i)
  }

  /** Decoding an encoded runtime gives it back, for every int32. */
  lemma RoundTrip(r: Runtime)
    ensures ParseRuntime(MarshalJSON(r)) == Success(r)
  {
    var number := FormatInt(r);
    var jsonValue := number + " mins";
    EscapePlain(jsonValue);
    UnquoteQuote(jsonValue);
    assert Unquote(MarshalJSON(r)) == Some(jsonValue);
    NumberPartOf(number);
    ParseFormat(r, Bits32);
  }

  /**
   * Unquote decodes the escapes of Go string literals, so a runtime whose leading
   * digit is written as a `\u` escape (`"\u0031 mins"` for one minute) decodes to
   * the same value as the plain text.
   */
  lemma EscapedDigitRuntime(r: Runtime)
    requires r >= 0
    ensures var s := FormatInt(r);
            ParseRuntime("\"" + ("\\u003" + [s[0]] + s[1..] + " mins") + "\"") == Success(r)
  {
    var s := FormatInt(r);
    var t := s + " mins";
    assert s[0] in s && AllDigits(s);
    assert t[0] == s[0] && t[1..] == s[1..] + " mins";
    UnquoteEscapedLeadingDigit(t);
    assert "\\u003" + [s[0]] + s[1..] + " mins" == "\\u003" + [t[0]] + t[1..];
    ParseFormat(r as int, Bits32);
    DecodesTo("\"" + ("\\u003" + [s[0]] + s[1..] + " mins") + "\"", s, r);
  }

  /** An input that unquotes to a space-free number and " mins" decodes to that number's value. */
  lemma DecodesTo(json: string, n: string, i: Runtime)
    requires Unquote(json) == Some(n + " mins") && ' ' !in n
    requires ParseInt(n, Bits32) == Some(i as int)
    ensures ParseRuntime(json) == Success(i)
  {
    NumberPartOf(n);
  }

  /** A mutable Runtime cell, the *Runtime receiver of UnmarshalJSON. */
  class RuntimeRef {
    var value: Runtime

    constructor (initial: Runtime)
      ensures value == initial
    {
      value := initial;
    }

    /** UnmarshalJSON: writes the receiver only when the whole input decodes. */
    method UnmarshalJSON(json: string) returns (err: Option<RuntimeError>)
      modifies this
      ensures err.None? <==> ParseRuntime(json).Success?
      ensures err.Some? ==> err.value == ErrInvalidRuntimeFormat && value == old(value)
      ensures err.None? ==> value == ParseRuntime(json).value
    {
      var unquoted := Unquote(json);
      if unquoted.None? {
        return Some(ErrInvalidRuntimeFormat);
      }
      var parts := Split(unquoted.value, ' ');
      if |parts| != 2 || parts[1] != "mins" {
        return Some(ErrInvalidRuntimeFormat);
      }
      var i := ParseInt(parts[0], Bits32);
      if i.None? {
        return Some(ErrInvalidRuntimeFormat);
      }
      value := i.value;
      return None;
    }
  }
}
