/** Small documents laid out by the printer, after the examples of
    encoding/jsonx/jsonx_test.go. Keys are kept as the scanner returns them,
    quotes included. */
module JsonxExamples {
  import opened Wrappers
  import JsonxOptions
  import Encoding
  import opened JsonxNode
  import Jsonx

  function Lit(k: NodeKind, t: string): Node { Literal(ZeroBase, k, t) }
  function Obj(cs: seq<Member>): Node { Object(ZeroBase, cs, Some(map[])) }
  function Arr(es: seq<Node>): Node { Array(ZeroBase, es) }
  function Group(text: string): Option<Encoding.CommentGroup> {
    Some(Encoding.CommentGroup([Encoding.Comment(Encoding.Position("", 0, 0, 0), text)]))
  }

  const D := Obj([Member("\"d\"", Obj([]))])

  /** The member of D in pretty mode, with and without the extra comma. */
  lemma MemberOfD(quote: string -> string, extraComma: bool)
    ensures var o := JsonxOptions.Options("", "  ", false, false, extraComma);
      MembersText(D, "", o, quote, 1) == if extraComma then "\n  \"d\": {}," else "\n  \"d\": {}"
  {
    var o := JsonxOptions.Options("", "  ", false, false, extraComma);
    assert Render(Obj([]), "  ", o, quote, false, true) == if extraComma then "{}," else "{}";
  }

  /** With WithExtraComma every member ends with ',', but the top node gets
      none. */
  lemma ExtraCommaExample(quote: string -> string)
    ensures Jsonx.WriteText(D, [JsonxOptions.WithIndent("  "), JsonxOptions.WithExtraComma], quote) == "{\n  \"d\": {},\n}"
  {
    var o := JsonxOptions.Options("", "  ", false, false, true);
    assert JsonxOptions.ApplyAll([JsonxOptions.WithIndent("  "), JsonxOptions.WithExtraComma], JsonxOptions.ZeroOptions) == o;
    MemberOfD(quote, true);
  }

  /** Without it the last member has no comma either. */
  lemma NoExtraCommaExample(quote: string -> string)
    ensures Jsonx.WriteText(D, [JsonxOptions.WithIndent("  ")], quote) == "{\n  \"d\": {}\n}"
  {
    var o := JsonxOptions.Options("", "  ", false, false, false);
    assert JsonxOptions.ApplyAll([JsonxOptions.WithIndent("  ")], JsonxOptions.ZeroOptions) == o;
    MemberOfD(quote, false);
  }

  /** An unquoted key is quoted on output unless WithUnquotedKey is given;
      compact mode writes no space and no line break. */
  lemma UnquotedKeyExample(quote: string -> string)
    requires quote("a") == "\"a\""
    ensures Jsonx.WriteText(Obj([Member("a", Lit(IntNode, "1"))]), [], quote) == "{\"a\":1}"
    ensures Jsonx.WriteText(Obj([Member("a", Lit(IntNode, "1"))]), [JsonxOptions.WithUnquotedKey], quote) == "{a:1}"
  {
    var t := Obj([Member("a", Lit(IntNode, "1"))]);
    assert MemberText(t, "", JsonxOptions.ZeroOptions, quote, 0) == "\"a\":1";
    var u := JsonxOptions.ZeroOptions.(unquotedKey := true);
    assert JsonxOptions.ApplyAll([JsonxOptions.WithUnquotedKey], JsonxOptions.ZeroOptions) == u;
    assert MemberText(t, "", u, quote, 0) == "a:1";
  }

  /** Signed numbers keep their sign: the raw text is written. */
  lemma SignsKept(quote: string -> string)
    ensures Jsonx.WriteText(Arr([Lit(IntNode, "-1"), Lit(IntNode, "+1")]), [], quote) == "[-1,+1]"
  {
    var t := Arr([Lit(IntNode, "-1"), Lit(IntNode, "+1")]);
    assert ElemText(t, "", JsonxOptions.ZeroOptions, quote, 0) == "-1,";
    assert ElemText(t, "", JsonxOptions.ZeroOptions, quote, 1) == "+1";
    assert ElemsText(t, "", JsonxOptions.ZeroOptions, quote, 2) == "-1,+1";
  }

  /** A line comment follows the comma with no space between. */
  lemma LineCommentExample(quote: string -> string)
    ensures var o := JsonxOptions.Options("", "  ", true, false, false);
      MemberText(Obj([Member("\"a\"", SetComment(Lit(IntNode, "1"), Group("// line a"))), Member("\"b\"", Lit(IdentNode, "true"))]), "", o, quote, 0)
      == "\n  \"a\": 1,// line a"
  {
    var o := JsonxOptions.Options("", "  ", true, false, false);
    var a := SetComment(Lit(IntNode, "1"), Group("// line a"));
    assert Encoding.GroupText(Group("// line a")) == "// line a";
    assert Render(a, "  ", o, quote, false, false) == "1,// line a";
    assert MemberHead(Member("\"a\"", a), "", o, quote) == "\n  \"a\": ";
  }

  /** The doc comment of an array element is written at the element's own
      depth, prefix + indent: four spaces for an element of an array that is
      itself a member of the top object. */
  lemma ElementDocExample(quote: string -> string)
    ensures var o := JsonxOptions.Options("", "  ", true, false, false);
      ChildDoc(SetDoc(Obj([]), Group("// doc y")), "  ", o) == "\n    // doc y"
  {
    assert "  " + "  " == "    ";
    assert DocLines("    ", [Encoding.Comment(Encoding.Position("", 0, 0, 0), "// doc y")], 1) == "\n    // doc y";
  }
}
