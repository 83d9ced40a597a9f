/** The option plumbing of encoding/jsonx/jsonx.go: the options record, the
    With* option constructors and applyOptions. */
module JsonxOptions {

  /** The options record: prefix and indent for pretty output, and the three
      switches. */
  datatype Options = Options(
    prefix: string, indent: string, supportComment: bool, unquotedKey: bool, extraComma: bool)

  /** options{}: empty strings and every switch off. */
  const ZeroOptions := Options("", "", false, false, false)

  /** The closures the With* constructors return, named by constructor. */
  datatype Option =
    | WithComment
    | WithPrefix(prefix: string)
    | WithIndent(indent: string)
    | WithUnquotedKey
    | WithExtraComma

  /** Calling an option closure on an options record. */
  function Apply(o: Option, opt: Options): Options
  {
    match o
    case WithComment => opt.(supportComment := true)
    case WithPrefix(p) => opt.(prefix := p)
    case WithIndent(s) => opt.(indent := s)
    case WithUnquotedKey => opt.(unquotedKey := true)
    case WithExtraComma => opt.(extraComma := true)
  }

  /** The options after applying `opts` left to right to `opt`: the last
      option is applied to the result of the others. */
  function ApplyAll(opts: seq<Option>, opt: Options): Options
    decreases |opts|
  {
    if |opts| == 0 then opt else Apply(opts[|opts| - 1], ApplyAll(opts[..|opts| - 1], opt))
  }

  /** applyOptions: start from the zero options and apply each option in
      turn. */
  method ApplyOptions(opts: seq<Option>) returns (opt: Options)
    ensures opt == ApplyAll(opts, ZeroOptions)
  {
    opt := ZeroOptions;
    for i := 0 to |opts|
      invariant opt == ApplyAll(opts[..i], ZeroOptions)
    {
      assert opts[..i + 1][..i] == opts[..i];
      opt := Apply(opts[i], opt);
    }
    assert opts[..|opts|] == opts;
  }

  /** Each option sets exactly its own field: every other field keeps its
      value. */
  lemma ApplyTouchesOwnFieldOnly(o: Option, opt: Options)
    ensures var r := Apply(o, opt);
      (r.prefix != opt.prefix ==> o.WithPrefix?) &&
      (r.indent != opt.indent ==> o.WithIndent?) &&
      (r.supportComment != opt.supportComment ==> o == WithComment) &&
      (r.unquotedKey != opt.unquotedKey ==> o == WithUnquotedKey) &&
      (r.extraComma != opt.extraComma ==> o == WithExtraComma)
    ensures o.WithPrefix? ==> Apply(o, opt).prefix == o.prefix
    ensures o.WithIndent? ==> Apply(o, opt).indent == o.indent
    ensures o == WithComment ==> Apply(o, opt).supportComment
    ensures o == WithUnquotedKey ==> Apply(o, opt).unquotedKey
    ensures o == WithExtraComma ==> Apply(o, opt).extraComma
  {
  }

  /** Applying a concatenation applies the first part, then the second. */
  lemma {:induction false} ApplyAllAppend(a: seq<Option>, b: seq<Option>, opt: Options)
    ensures ApplyAll(a + b, opt) == ApplyAll(b, ApplyAll(a, opt))
    decreases |b|
  {
    if |b| > 0 {
      assert (a + b)[..|a + b| - 1] == a + b[..|b| - 1];
      ApplyAllAppend(a, b[..|b| - 1], opt);
    } else {
      assert a + b == a;
    }
  }

  /** The indent of the last WithIndent in `opts`, if there is one. */
  function LastIndent(opts: seq<Option>, default: string): string
    decreases |opts|
  {
    if |opts| == 0 then default
    else if opts[|opts| - 1].WithIndent? then opts[|opts| - 1].indent
    else LastIndent(opts[..|opts| - 1], default)
  }

  /** The prefix of the last WithPrefix in `opts`, if there is one. */
  function LastPrefix(opts: seq<Option>, default: string): string
    decreases |opts|
  {
    if |opts| == 0 then default
    else if opts[|opts| - 1].WithPrefix? then opts[|opts| - 1].prefix
    else LastPrefix(opts[..|opts| - 1], default)
  }

  /** What applying `opts` yields, field by field: the last prefix and
      indent given win, and a switch is on iff it was on or its option
      occurs. */
  lemma ApplyAllFields(opts: seq<Option>, opt: Options)
    ensures var r := ApplyAll(opts, opt);
      r.prefix == LastPrefix(opts, opt.prefix) &&
      r.indent == LastIndent(opts, opt.indent) &&
      (r.supportComment <==> opt.supportComment || WithComment in opts) &&
      (r.unquotedKey <==> opt.unquotedKey || WithUnquotedKey in opts) &&
      (r.extraComma <==> opt.extraComma || WithExtraComma in opts)
  {
    ApplyAllStrings(opts, opt);
    ApplyAllComment(opts, opt);
    ApplyAllUnquotedKey(opts, opt);
    ApplyAllExtraComma(opts, opt);
  }

  lemma {:induction false} ApplyAllStrings(opts: seq<Option>, opt: Options)
    ensures ApplyAll(opts, opt).prefix == LastPrefix(opts, opt.prefix)
    ensures ApplyAll(opts, opt).indent == LastIndent(opts, opt.indent)
    decreases |opts|
  {
    if |opts| > 0 {
      ApplyAllStrings(opts[..|opts| - 1], opt);
    }
  }

  lemma {:induction false} ApplyAllComment(opts: seq<Option>, opt: Options)
    ensures ApplyAll(opts, opt).supportComment <==> opt.supportComment || WithComment in opts
    decreases |opts|
  {
    if |opts| > 0 {
      var init, o := opts[..|opts| - 1], opts[|opts| - 1];
      assert opts == init + [o];
      assert WithComment in opts <==> WithComment in init || o == WithComment;
      ApplyAllComment(init, opt);
    }
  }

  lemma {:induction false} ApplyAllUnquotedKey(opts: seq<Option>, opt: Options)
    ensures ApplyAll(opts, opt).unquotedKey <==> opt.unquotedKey || WithUnquotedKey in opts
    decreases |opts|
  {
    if |opts| > 0 {
      var init, o := opts[..|opts| - 1], opts[|opts| - 1];
      assert opts == init + [o];
      assert WithUnquotedKey in opts <==> WithUnquotedKey in init || o == WithUnquotedKey;
      ApplyAllUnquotedKey(init, opt);
    }
  }

  lemma {:induction false} ApplyAllExtraComma(opts: seq<Option>, opt: Options)
    ensures ApplyAll(opts, opt).extraComma <==> opt.extraComma || WithExtraComma in opts
    decreases |opts|
  {
    if |opts| > 0 {
      var init, o := opts[..|opts| - 1], opts[|opts| - 1];
      assert opts == init + [o];
      assert WithExtraComma in opts <==> WithExtraComma in init || o == WithExtraComma;
      ApplyAllExtraComma(init, opt);
    }
  }

  /** applyOptions on the zero options: a later WithIndent or WithPrefix
      overrides an earlier one. */
  lemma LaterOverrides(opts: seq<Option>, s: string, t: string)
    ensures ApplyAll(opts + [WithIndent(s)], ZeroOptions).indent == s
    ensures ApplyAll(opts + [WithPrefix(t)], ZeroOptions).prefix == t
  {
    ApplyAllFields(opts + [WithIndent(s)], ZeroOptions);
    ApplyAllFields(opts + [WithPrefix(t)], ZeroOptions);
  }
}
