/**
 * The integer and string part of the expression package's variable value:
 * a kind tag with a raw text and, for integers, a 64-bit value. Every
 * operation takes the value as a receiver copy and builds a new value, so
 * nothing here changes the caller's variable.
 */
module ExprValue {
  import opened Wrappers
  import GoStrings

  /** A Go int64. */
  type Int64 = x: int | -0x8000_0000_0000_0000 <= x < 0x8000_0000_0000_0000

  datatype Kind = KindInvalid | KindInt | KindFloat | KindString

  datatype VarError =
    | ErrFailToParseInteger
    | ErrFailToParseFloat
    | ErrUnsupportedType
    | CompareError(reason: string)

  /**
   * A variable. The float value is kept as a real number: only whether it
   * is zero and its truncation are read here.
   */
  datatype Var = Var(name: string, kind: Kind, rawValue: string, intValue: Int64, floatValue: real)
  {
    /** The truth of a value: non-empty text, a non-zero number; an invalid value is false. */
    predicate Bool()
      ensures Bool() ==> kind != KindInvalid
      ensures kind == KindString ==> (Bool() <==> |rawValue| > 0)
      ensures kind == KindInt ==> (Bool() <==> intValue != 0)
      ensures kind == KindFloat ==> (Bool() <==> floatValue != 0.0)
    {
      match kind
      case KindString => rawValue != ""
      case KindInt => intValue != 0
      case KindFloat => floatValue != 0.0
      case KindInvalid => false
    }

    /** Int(): a float is truncated toward zero, any other kind gives its integer field. */
    function Int(): (r: int)
      ensures kind != KindFloat ==> r == intValue
      ensures kind == KindFloat && floatValue >= 0.0 ==> r as real <= floatValue < r as real + 1.0
      ensures kind == KindFloat && floatValue < 0.0 ==> r as real - 1.0 < floatValue <= r as real
      ensures kind == KindFloat ==> (if floatValue >= 0.0 then 0 <= r else r <= 0)
    {
      if kind != KindFloat then intValue
      else if floatValue >= 0.0 then floatValue.Floor
      else -((-floatValue).Floor)
    }

    function And(v2: Var): (r: Var)
      ensures IsTruth(r) && r.Bool() == (Bool() && v2.Bool())
    {
      OfBool(Bool() && v2.Bool())
    }

    function Or(v2: Var): (r: Var)
      ensures IsTruth(r) && r.Bool() == (Bool() || v2.Bool())
    {
      OfBool(Bool() || v2.Bool())
    }

    function Not(): (r: Var)
      ensures IsTruth(r) && r.Bool() == !Bool()
    {
      OfBool(!Bool())
    }

    /** Contains: true exactly when both values are strings and v2's text occurs in this one's. */
    function Contains(v2: Var): (r: Var)
      ensures IsTruth(r)
      ensures r.Bool() <==> kind == KindString && v2.kind == KindString
                            && exists k :: GoStrings.OccursAt(rawValue, v2.rawValue, k)
    {
      GoStrings.ContainsOffset(rawValue, v2.rawValue);
      if kind == KindString && v2.kind == KindString then OfBool(GoStrings.Contains(rawValue, v2.rawValue))
      else False()
    }
  }

  const NilValue := Var("", KindInvalid, "", 0, 0.0)

  function Nil(): Var { NilValue }

  function Zero(): (r: Var)
    ensures r.kind == KindInt && r.intValue == 0 && r.rawValue == "0" && !r.Bool()
  {
    Var("", KindInt, "0", 0, 0.0)
  }

  function True(): Var { Var("", KindInt, "true", 1, 0.0) }

  function False(): Var { Var("", KindInt, "false", 0, 0.0) }

  /** The two truth values every logical operation returns. */
  predicate IsTruth(v: Var)
  {
    v == True() || v == False()
  }

  /** The package-level Bool(ok): the truth value of ok. */
  function OfBool(ok: bool): (r: Var)
    ensures IsTruth(r) && r.Bool() == ok
    ensures r.kind == KindInt && r.intValue == (if ok then 1 else 0)
  {
    if ok then True() else False()
  }

  /** Int(i): an integer value whose raw text is the decimal text of i. */
  function Int(i: Int64): (r: Var)
    ensures r.kind == KindInt && r.intValue == i
    ensures r.rawValue == GoStrings.IntToString(i)
    ensures r.Bool() == (i != 0)
  {
    Var("", KindInt, GoStrings.IntToString(i), i, 0.0)
  }

  /** Int() reads back the integer of Int(i) and of a truth value. */
  lemma IntReadsBack(i: Int64, ok: bool)
    ensures Int(i).Int() == i
    ensures OfBool(ok).Int() == (if ok then 1 else 0)
  {
  }

  /** The raw text of Int(i) reads back as i. */
  lemma IntTextReadsBack(i: Int64)
    ensures var raw := Int(i).rawValue;
      if i >= 0 then GoStrings.DecimalValue(raw) == i
      else raw[0] == '-' && GoStrings.DecimalValue(raw[1..]) == -(i as int)
  {
    if i >= 0 {
      GoStrings.NatToStringRoundTrip(i);
    } else {
      GoStrings.NatToStringRoundTrip(-(i as int));
      assert Int(i).rawValue[1..] == GoStrings.NatToString(-(i as int));
    }
  }

  /** String(s): a string value with raw text s. */
  function String(s: string): (r: Var)
    ensures r.kind == KindString && r.rawValue == s && r.Bool() == (s != "")
  {
    Var("", KindString, s, 0, 0.0)
  }

  function NewVar(name: string, kind: Kind): (r: Var)
    ensures r.name == name && r.kind == kind && r.rawValue == "" && !r.Bool()
  {
    Var(name, kind, "", 0, 0.0)
  }

  /** strconv.ParseInt(s, base, 64) and strconv.ParseFloat(s, 64), whose code is not part of this model. */
  datatype Parsers = Parsers(parseInt: (string, nat) -> Option<Int64>, parseFloat: string -> Option<real>)

  /** The bases Set tries, in order. */
  const NumberBases: seq<nat> := [10, 16, 8]

  /** The first of the bases under which s parses, with its value. */
  function FirstParse(bases: seq<nat>, s: string, parsers: Parsers): (r: Option<Int64>)
  {
    if |bases| == 0 then None
    else if parsers.parseInt(s, bases[0]).Some? then parsers.parseInt(s, bases[0])
    else FirstParse(bases[1..], s, parsers)
  }

  /** FirstParse fails exactly when no base parses, and otherwise gives the value of the first that does. */
  lemma {:induction false} FirstParseFirst(bases: seq<nat>, s: string, parsers: Parsers)
    ensures FirstParse(bases, s, parsers).None? <==> forall k :: 0 <= k < |bases| ==> parsers.parseInt(s, bases[k]).None?
    ensures FirstParse(bases, s, parsers).Some? ==>
      exists k :: 0 <= k < |bases| && FirstParse(bases, s, parsers) == parsers.parseInt(s, bases[k])
               && forall j :: 0 <= j < k ==> parsers.parseInt(s, bases[j]).None?
  {
    if |bases| > 0 {
      FirstParseFirst(bases[1..], s, parsers);
      var r := FirstParse(bases, s, parsers);
      if parsers.parseInt(s, bases[0]).None? {
        assert forall k :: 1 <= k < |bases| ==> bases[k] == bases[1..][k - 1];
        if r.Some? {
          var k :| 0 <= k < |bases[1..]| && r == parsers.parseInt(s, bases[1..][k])
                   && forall j :: 0 <= j < k ==> parsers.parseInt(s, bases[1..][j]).None?;
          assert r == parsers.parseInt(s, bases[k + 1]);
        }
      } else {
        assert r == parsers.parseInt(s, bases[0]);
      }
    }
  }

  /** The loop of Set over the number bases, stopping at the first that parses. */
  method ParseInteger(s: string, parsers: Parsers) returns (r: Option<Int64>)
    ensures r == FirstParse(NumberBases, s, parsers)
  {
    var i := 0;
    while i < |NumberBases|
      invariant 0 <= i <= |NumberBases|
      invariant FirstParse(NumberBases, s, parsers) == FirstParse(NumberBases[i..], s, parsers)
    {
      var parsed := parsers.parseInt(s, NumberBases[i]);
      if parsed.Some? {
        return parsed;
      }
      i := i + 1;
    }
    return None;
  }

  /**
   * What Set(s) returns: no error for strings, the integer or float parse
   * error when s does not parse, and an unsupported-type error for an
   * invalid value.
   */
  function SetError(v: Var, s: string, parsers: Parsers): (err: Option<VarError>)
    ensures v.kind == KindString ==> err.None?
    ensures err == Some(ErrUnsupportedType) <==> v.kind == KindInvalid
    ensures err == Some(ErrFailToParseFloat) ==> v.kind == KindFloat
  {
    match v.kind
    case KindString => None
    case KindInt => if FirstParse(NumberBases, s, parsers).None? then Some(ErrFailToParseInteger) else None
    case KindFloat => if parsers.parseFloat(s).None? then Some(ErrFailToParseFloat) else None
    case KindInvalid => Some(ErrUnsupportedType)
  }

  /** Set on the copy it receives: it returns the error, and the caller's value stays as it was. */
  method Set(v: Var, s: string, parsers: Parsers) returns (err: Option<VarError>)
    ensures err == SetError(v, s, parsers)
  {
    match v.kind
    case KindString =>
      err := None;
    case KindInt =>
      var parsed := ParseInteger(s, parsers);
      err := if parsed.None? then Some(ErrFailToParseInteger) else None;
    case KindFloat =>
      err := if parsers.parseFloat(s).None? then Some(ErrFailToParseFloat) else None;
    case KindInvalid =>
      err := Some(ErrUnsupportedType);
  }

  /**
   * Set's outcome by kind: never an error for a string, an integer error
   * exactly when none of bases 10, 16 and 8 parses, always an error for an
   * invalid value.
   */
  lemma SetRules(v: Var, s: string, parsers: Parsers)
    ensures v.kind == KindString ==> SetError(v, s, parsers).None?
    ensures v.kind == KindInvalid ==> SetError(v, s, parsers) == Some(ErrUnsupportedType)
    ensures v.kind == KindInt ==>
      (SetError(v, s, parsers) == Some(ErrFailToParseInteger) <==>
        parsers.parseInt(s, 10).None? && parsers.parseInt(s, 16).None? && parsers.parseInt(s, 8).None?)
    ensures v.kind == KindInt ==> SetError(v, s, parsers) != Some(ErrFailToParseFloat)
  {
    FirstParseFirst(NumberBases, s, parsers);
    assert NumberBases[0] == 10 && NumberBases[1] == 16 && NumberBases[2] == 8;
  }

  /** The comparisons Eq, Gt and Ge, whose code is not part of this model. */
  datatype Comparisons = Comparisons(
    eq: (Var, Var) -> Result<Var, VarError>,
    gt: (Var, Var) -> Result<Var, VarError>,
    ge: (Var, Var) -> Result<Var, VarError>)

  /** Lt(a, b) is Gt with the operands swapped. */
  function Lt(a: Var, b: Var, c: Comparisons): (r: Result<Var, VarError>)
    ensures r == c.gt(b, a)
  {
    c.gt(b, a)
  }

  /** Le(a, b) is Ge with the operands swapped. */
  function Le(a: Var, b: Var, c: Comparisons): (r: Result<Var, VarError>)
    ensures r == c.ge(b, a)
  {
    c.ge(b, a)
  }

  /** Neq negates Eq's result and passes Eq's error through unchanged. */
  function Neq(a: Var, b: Var, c: Comparisons): (r: Result<Var, VarError>)
    ensures c.eq(a, b).Err? ==> r == c.eq(a, b)
    ensures c.eq(a, b).Ok? ==> r.Ok? && IsTruth(r.value) && r.value.Bool() == !c.eq(a, b).value.Bool()
  {
    var result := c.eq(a, b);
    if result.Ok? then Ok(result.value.Not()) else result
  }

  /** Negating twice gives back the truth of a value; Bool(true) and Bool(false) are the named constants. */
  lemma TruthRoundTrip(v: Var, ok: bool)
    ensures v.Not().Not() == OfBool(v.Bool())
    ensures OfBool(ok).Bool() == ok
    ensures OfBool(true) == True() && OfBool(false) == False()
    ensures IsTruth(v) ==> OfBool(v.Bool()) == v
  {
  }

  /** De Morgan's laws hold for And, Or and Not on the truth values they return. */
  lemma DeMorgan(a: Var, b: Var)
    ensures a.And(b).Not() == a.Not().Or(b.Not())
    ensures a.Or(b).Not() == a.Not().And(b.Not())
  {
  }

  /** A string contains the empty string and itself; a non-string never contains anything. */
  lemma ContainsExamples(s: string, v: Var)
    ensures String(s).Contains(String("")).Bool()
    ensures String(s).Contains(String(s)).Bool()
    ensures v.kind != KindString ==> v.Contains(String(s)) == False()
  {
    assert GoStrings.OccursAt(s, "", 0);
    assert GoStrings.OccursAt(s, s, 0);
  }
}
