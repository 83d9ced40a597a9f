/**
 * Validator chains: a list of validators checked in order, stopping at the
 * first that fails. An error is represented by its message.
 */
module Validator {
  import opened Wrappers

  /**
   * A validator: a boolean requirement with its message, a ValidatorFunc
   * (represented by the error it returns), or a list of validators.
   */
  datatype Validator =
    | BoolValidator(val: bool, msg: string)
    | FuncValidator(result: Option<string>)
    | ListValidator(items: seq<Validator>)

  /** What Validate() returns for one validator. */
  function ErrorOf(v: Validator): Option<string>
    decreases v
  {
    match v
    case BoolValidator(val, msg) => if !val then Some(msg) else None
    case FuncValidator(result) => result
    case ListValidator(items) => FirstError(items)
  }

  /** The error of the first validator in the list that fails; nil when none does. */
  function FirstError(items: seq<Validator>): Option<string>
    decreases items
  {
    if |items| == 0 then None
    else if ErrorOf(items[0]).Some? then ErrorOf(items[0])
    else FirstError(items[1..])
  }

  /** The number of validators Validate calls: up to and including the first that fails. */
  function Calls(items: seq<Validator>): (n: nat)
    ensures n <= |items|
  {
    if |items| == 0 then 0
    else if ErrorOf(items[0]).Some? then 1
    else 1 + Calls(items[1..])
  }

  /** boolValidator: an error carrying msg exactly when val is false. */
  lemma BoolValidatorRule(val: bool, msg: string)
    ensures ErrorOf(BoolValidator(val, msg)).Some? <==> !val
    ensures !val ==> ErrorOf(BoolValidator(val, msg)) == Some(msg)
  {
  }

  /**
   * FirstError is nil exactly when every validator passes; otherwise it is
   * the error of the validator at Calls - 1, and every validator before that
   * one passes.
   */
  lemma {:induction false} FirstErrorRules(items: seq<Validator>)
    ensures FirstError(items).None? <==> forall k :: 0 <= k < |items| ==> ErrorOf(items[k]).None?
    ensures FirstError(items).None? ==> Calls(items) == |items|
    ensures FirstError(items).Some? ==>
      0 < Calls(items) && FirstError(items) == ErrorOf(items[Calls(items) - 1])
    ensures forall k :: 0 <= k < Calls(items) - 1 ==> ErrorOf(items[k]).None?
  {
    if |items| > 0 && ErrorOf(items[0]).None? {
      var rest := items[1..];
      FirstErrorRules(rest);
      assert forall k :: 1 <= k < |items| ==> items[k] == rest[k - 1];
    }
  }

  /** Appending a validator that passes changes nothing; appending one to a list that fails changes nothing either. */
  lemma {:induction false} FirstErrorSnoc(items: seq<Validator>, v: Validator)
    ensures FirstError(items + [v]) == if FirstError(items).Some? then FirstError(items) else ErrorOf(v)
  {
    if |items| == 0 {
      assert items + [v] == [v];
    } else {
      assert (items + [v])[1..] == items[1..] + [v];
      FirstErrorSnoc(items[1..], v);
    }
  }

  /** A *ValidatorList: the list that AndRequire and And append to, in place. */
  class ValidatorList {
    var items: seq<Validator>

    /** NewSet: an empty list. */
    constructor()
      ensures items == []
    {
      items := [];
    }

    /** Validate: the validators are called in order and the first error is returned. */
    method Validate() returns (err: Option<string>, called: nat)
      ensures err == FirstError(items) && called == Calls(items)
    {
      var i := 0;
      called := 0;
      while i < |items|
        invariant 0 <= i <= |items|
        invariant FirstError(items) == FirstError(items[i..])
        invariant Calls(items) == i + Calls(items[i..])
        invariant called == i
      {
        assert items[i..][1..] == items[i + 1..];
        called := called + 1;
        var e := ErrorOf(items[i]);
        if e.Some? {
          return e, called;
        }
        i := i + 1;
      }
      err := None;
    }

    /** AndRequire: one boolean validator is appended at the end; the same list is returned. */
    method AndRequire(val: bool, msg: string) returns (self: ValidatorList)
      modifies this
      ensures self == this && items == old(items) + [BoolValidator(val, msg)]
    {
      items := items + [BoolValidator(val, msg)];
      self := this;
    }

    /** And: the validator is appended at the end; the same list is returned. */
    method And(v: Validator) returns (self: ValidatorList)
      modifies this
      ensures self == this && items == old(items) + [v]
    {
      items := items + [v];
      self := this;
    }
  }

  /** Require: a new list holding the one boolean validator. */
  method Require(val: bool, msg: string) returns (list: ValidatorList)
    ensures fresh(list) && list.items == [BoolValidator(val, msg)]
  {
    list := new ValidatorList();
    list := list.AndRequire(val, msg);
  }

  /**
   * A chain built by AndRequire fails with the message of the first false
   * requirement and passes when every requirement holds; an empty chain
   * passes and calls nothing.
   */
  lemma ChainOfRequirements(a: bool, ma: string, b: bool, mb: string)
    ensures FirstError([]) == None && Calls([]) == 0
    ensures FirstError([BoolValidator(a, ma), BoolValidator(b, mb)]) ==
      if !a then Some(ma) else if !b then Some(mb) else None
    ensures Calls([BoolValidator(a, ma), BoolValidator(b, mb)]) == if !a then 1 else 2
  {
    var items := [BoolValidator(a, ma), BoolValidator(b, mb)];
    assert items[1..] == [BoolValidator(b, mb)];
    assert items[1..][1..] == [];
    assert FirstError(items[1..]) == ErrorOf(BoolValidator(b, mb));
  }
}
