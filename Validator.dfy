/**
 * internal/validator: an error map keyed by field name in which the first message
 * recorded for a field wins, and the membership and uniqueness checks that the
 * other validators build on.
 */
module Validator {

  type Errors = map<string, string>

  /** The error map after AddError(field, message): the first message for a field wins. */
  function WithError(errs: Errors, field: string, message: string): (r: Errors)
    ensures r.Keys == errs.Keys + {field}
    ensures forall g :: g in errs ==> r[g] == errs[g]
    ensures field !in errs ==> r[field] == message
  {
    if field in errs then errs else errs[field := message]
  }

  /** The error map after Check(ok, field, message). */
  function Checked(errs: Errors, ok: bool, field: string, message: string): (r: Errors)
    ensures ok ==> r == errs
    ensures !ok ==> r == WithError(errs, field, message)
  {
    if ok then errs else WithError(errs, field, message)
  }

  class Validator {
    var errors: Errors

    /** validator.New(): no errors yet. */
    constructor New()
      ensures errors == map[]
      ensures Valid()
    {
      errors := map[];
    }

    /** Valid(): no field has an error. */
    predicate Valid()
      reads this
      ensures Valid() <==> errors == map[]
    {
      |errors| == 0
    }

    method AddError(field: string, message: string)
      modifies this
      ensures errors == WithError(old(errors), field, message)
    {
      if field !in errors {
        errors := errors[field := message];
      }
    }

    method Check(ok: bool, field: string, message: string)
      modifies this
      ensures errors == Checked(old(errors), ok, field, message)
    {
      if !ok {
        AddError(field, message);
      }
    }
  }

  /** A second AddError on a field already in the map changes nothing. */
  lemma AddErrorFirstWins(errs: Errors, field: string, first: string, second: string)
    ensures WithError(WithError(errs, field, first), field, second) == WithError(errs, field, first)
    ensures WithError(WithError(errs, field, first), field, second)[field]
         == (if field in errs then errs[field] else first)
  {
  }

  /** PermiteedValue(value, permittedValues...): whether `value` is one of them. */
  method PermiteedValue<T(==)>(value: T, permittedValues: seq<T>) returns (found: bool)
    ensures found <==> value in permittedValues
  {
    var i := 0;
    while i < |permittedValues|
      invariant 0 <= i <= |permittedValues|
      invariant value !in permittedValues[..i]
    {
      if value == permittedValues[i] {
        return true;
      }
      i := i + 1;
    }
    assert permittedValues[..i] == permittedValues;
    return false;
  }

  /** No two positions of `values` hold the same element. */
  predicate NoDuplicates<T(==)>(values: seq<T>) {
    forall i, j :: 0 <= i < j < |values| ==> values[i] != values[j]
  }

  function Elements<T>(values: seq<T>): set<T> {
    set i | 0 <= i < |values| :: values[i]
  }

  /** A sequence has as many distinct elements as positions exactly when it has no duplicates. */
  lemma {:induction false} ElementsCount<T>(values: seq<T>)
    ensures |Elements(values)| <= |values|
    ensures |Elements(values)| == |values| <==> NoDuplicates(values)
    decreases |values|
  {
    if values != [] {
      var init := values[..|values| - 1];
      var x := values[|values| - 1];
      ElementsCount(init);
      assert Elements(values) == Elements(init) + {x};
      if x in Elements(init) {
        var k :| 0 <= k < |init| && init[k] == x;
        assert values[k] == values[|values| - 1];
        assert Elements(init) + {x} == Elements(init);
      } else {
        assert |Elements(values)| == |Elements(init)| + 1;
        if NoDuplicates(init) {
          forall i, j | 0 <= i < j < |values|
            ensures values[i] != values[j]
          {
            if j == |values| - 1 {
              assert values[i] == init[i];
              assert init[i] in Elements(init);
            } else {
              assert values[i] == init[i] && values[j] == init[j];
            }
          }
        }
      }
    }
  }

  /** Unique(values): whether no element occurs twice, by counting distinct keys in a map. */
  method Unique<T(==)>(values: seq<T>) returns (unique: bool)
    ensures unique <==> NoDuplicates(values)
  {
    var encountered: map<T, bool> := map[];
    var i := 0;
    while i < |values|
      invariant 0 <= i <= |values|
      invariant encountered.Keys == Elements(values[..i])
    {
      encountered := encountered[values[i] := true];
      assert values[..i + 1] == values[..i] + [values[i]];
      assert Elements(values[..i + 1]) == Elements(values[..i]) + {values[i]};
      i := i + 1;
    }
    assert values[..i] == values;
    ElementsCount(values);
    unique := |values| == |encountered|;
    assert |encountered| == |encountered.Keys|;
  }
}
