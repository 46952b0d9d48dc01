/**
 * cmd/api/helpers.go: reading the id route parameter and typed values out of the
 * query string.
 */
module ApiHelpers {
  import opened Wrappers
  import opened Strconv
  import opened Strings
  import opened Http
  import Validator

  const InvalidIDMessage := "invalid id parameter"

  /**
   * readIDParam: the id parameter as a positive int64, or (0, error) when it does
   * not parse in base 10 as an int64 or is below 1.
   */
  function ReadIDParam(param: string): (r: (int, Option<string>))
    ensures r.1.None? <==> (ParseInt(param, Bits64).Some? && ParseInt(param, Bits64).value >= 1)
    ensures r.1.None? ==> Some(r.0) == ParseInt(param, Bits64) && 1 <= r.0 < Half(Bits64)
    ensures r.1.Some? ==> r == (0, Some(InvalidIDMessage))
  {
    match ParseInt(param, Bits64)
    case Some(id) => if id < 1 then (0, Some(InvalidIDMessage)) else (id, None)
    case None => (0, Some(InvalidIDMessage))
  }

  /** The decimal form of every positive int64 reads back as that id; no other value is ever read. */
  lemma ReadIDParamFormat(id: Int64)
    requires id >= 1
    ensures ReadIDParam(FormatInt(id)) == (id, None)
  {
    ParseFormat(id, Bits64);
  }

  /** Zero and negative numbers are rejected, as is the empty parameter. */
  lemma ReadIDParamRejects(n: Int64)
    requires n < 1
    ensures ReadIDParam(FormatInt(n)) == (0, Some(InvalidIDMessage))
    ensures ReadIDParam("") == (0, Some(InvalidIDMessage))
  {
    ParseFormat(n, Bits64);
  }

  /** readString: the query value of the key, or the default when it is empty. */
  function ReadString(qs: Header, key: string, defaultValue: string): (s: string)
    ensures Get(qs, key) == "" ==> s == defaultValue
    ensures Get(qs, key) != "" ==> s == qs[key][0]
  {
    var s := Get(qs, key);
    if s == "" then defaultValue else s
  }

  /**
   * readCSV: the default on an empty value; otherwise the value split on ",",
   * which has at least one element, none containing ",", and joins back to it.
   */
  function ReadCSV(qs: Header, key: string, defaultValue: seq<string>): (values: seq<string>)
    ensures Get(qs, key) == "" ==> values == defaultValue
    ensures Get(qs, key) != "" ==> |values| >= 1 && Join(values, ',') == Get(qs, key)
    ensures Get(qs, key) != "" ==> forall i :: 0 <= i < |values| ==> ',' !in values[i]
  {
    var csv := Get(qs, key);
    if csv == "" then defaultValue
    else
      JoinSplit(csv, ',');
      Split(csv, ',')
  }

  /** A non-empty list of comma-free values, joined with ",", reads back as that list. */
  lemma ReadCSVJoin(qs: Header, key: string, values: seq<string>, defaultValue: seq<string>)
    requires |values| >= 1 && forall i :: 0 <= i < |values| ==> ',' !in values[i]
    requires Join(values, ',') != ""
    ensures ReadCSV(qs[key := [Join(values, ',')]], key, defaultValue) == values
  {
    SplitJoin(values, ',');
  }

  const IntegerMessage := "must be an integer value"

  /**
   * readInt: the default on an empty value; the default and "must be an integer
   * value" under the key when Atoi fails; the parsed value otherwise.
   */
  method ReadInt(qs: Header, key: string, defaultValue: int, v: Validator.Validator) returns (i: int)
    modifies v
    ensures Get(qs, key) == "" ==> i == defaultValue && v.errors == old(v.errors)
    ensures Get(qs, key) != "" && Atoi(Get(qs, key)).None? ==>
              i == defaultValue && v.errors == Validator.WithError(old(v.errors), key, IntegerMessage)
    ensures Get(qs, key) != "" && Atoi(Get(qs, key)).Some? ==>
              i == Atoi(Get(qs, key)).value && v.errors == old(v.errors)
  {
    var s := Get(qs, key);
    if s == "" {
      return defaultValue;
    }
    var parsed := Atoi(s);
    if parsed.None? {
      v.AddError(key, IntegerMessage);
      return defaultValue;
    }
    return parsed.value;
  }
}
