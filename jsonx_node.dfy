/** The jsonx node model and printer of encoding/jsonx/node.go: object,
    array and literal nodes with their doc and line comments, their accessors,
    the value they denote, and the output methods that write them as text. */
module JsonxNode {
  import opened Wrappers
  import JsonxOptions
  import Encoding
  import GoStrings
  import Io

  /** NodeKind, in declaration order: InvalidNode is 0. */
  datatype NodeKind = InvalidNode | IdentNode | IntNode | FloatNode | CharNode | StringNode | ObjectNode | ArrayNode

  const KindNames: seq<string> :=
    ["InvalidNode", "IdentNode", "IntNode", "FloatNode", "CharNode", "StringNode", "ObjectNode", "ArrayNode"]

  /** The integer value of a kind: its place in the iota sequence, which is
      also the place of its name in KindNames. */
  function KindCode(k: NodeKind): (c: nat)
    ensures c < |KindNames|
    ensures k == InvalidNode <==> c == 0
    ensures k == IdentNode <==> c == 1
    ensures k == IntNode <==> c == 2
    ensures k == FloatNode <==> c == 3
    ensures k == CharNode <==> c == 4
    ensures k == StringNode <==> c == 5
    ensures k == ObjectNode <==> c == 6
    ensures k == ArrayNode <==> c == 7
  {
    match k
    case InvalidNode => 0
    case IdentNode => 1
    case IntNode => 2
    case FloatNode => 3
    case CharNode => 4
    case StringNode => 5
    case ObjectNode => 6
    case ArrayNode => 7
  }

  /** NodeKind.String() on any integer kind value. */
  function KindString(kind: int): (r: string)
    ensures GoStrings.HasPrefix(r, "Unknown kind(") <==> !(0 <= kind < |KindNames|)
  {
    if 0 <= kind < |KindNames| then KindNames[kind]
    else "Unknown kind(" + GoStrings.IntToString(kind) + ")"
  }

  /** Every declared kind prints as its own name, and no two kinds print
      alike. */
  lemma KindStringNames(a: NodeKind, b: NodeKind)
    ensures KindString(KindCode(a)) == KindNames[KindCode(a)]
    ensures KindString(KindCode(a)) == KindString(KindCode(b)) ==> a == b
  {
  }

  /** The embedded nodebase: position, doc (lead) comment and line comment. */
  datatype NodeBase = NodeBase(
    pos: Encoding.Position, doc: Option<Encoding.CommentGroup>, comment: Option<Encoding.CommentGroup>)

  /** The kv pair of an object node. */
  datatype Member = Member(key: string, value: Node)

  datatype Node =
    | Object(base: NodeBase, children: seq<Member>, indexMap: Option<map<string, nat>>)
    | Array(base: NodeBase, elems: seq<Node>)
    | Literal(base: NodeBase, kind: NodeKind, text: string)

  const ZeroBase := NodeBase(Encoding.Position("", 0, 0, 0), None, None)

  /** newObjectNode: no children and a nil index map. */
  const NewObjectNode := Object(ZeroBase, [], None)

  /** newArrayNode */
  const NewArrayNode := Array(ZeroBase, [])

  /** Kind() */
  function Kind(n: Node): NodeKind {
    match n
    case Object(_, _, _) => ObjectNode
    case Array(_, _) => ArrayNode
    case Literal(_, k, _) => k
  }

  /** Every index the object's index map holds is a valid child index (the
      map is read only by ByKey and addChild). */
  predicate IndexesInRange(n: Node) {
    n.Object? && n.indexMap.Some? ==> forall k :: k in n.indexMap.value ==> n.indexMap.value[k] < |n.children|
  }

  /** objectNode.addChild: make the index map if it is nil; a key found in
      it has its child's value replaced, any other key is appended. The map
      itself is never written. */
  function AddChild(n: Node, key: string, value: Node): (r: Node)
    requires n.Object? && IndexesInRange(n)
    ensures r.Object? && IndexesInRange(r) && r.base == n.base
    ensures r.indexMap == Some(if n.indexMap.None? then map[] else n.indexMap.value)
    ensures key !in r.indexMap.value ==> r.children == n.children + [Member(key, value)]
  {
    var m := if n.indexMap.None? then map[] else n.indexMap.value;
    if key in m then
      var i := m[key];
      n.(children := n.children[i := n.children[i].(value := value)], indexMap := Some(m))
    else n.(children := n.children + [Member(key, value)], indexMap := Some(m))
  }

  /** arrayNode.addChild */
  function AddElem(n: Node, value: Node): (r: Node)
    requires n.Array?
    ensures r.Array? && r.base == n.base && r.elems == n.elems + [value]
  {
    n.(elems := n.elems + [value])
  }

  /** setDoc */
  function SetDoc(n: Node, doc: Option<Encoding.CommentGroup>): (r: Node)
    ensures r.base.doc == doc && r.base.comment == n.base.comment && r.base.pos == n.base.pos
    ensures Kind(r) == Kind(n) && NumChild(r) == NumChild(n)
  {
    n.(base := n.base.(doc := doc))
  }

  /** setComment */
  function SetComment(n: Node, comment: Option<Encoding.CommentGroup>): (r: Node)
    ensures r.base.comment == comment && r.base.doc == n.base.doc && r.base.pos == n.base.pos
    ensures Kind(r) == Kind(n) && NumChild(r) == NumChild(n)
  {
    n.(base := n.base.(comment := comment))
  }

  /** NumChild() */
  function NumChild(n: Node): nat {
    match n
    case Object(_, cs, _) => |cs|
    case Array(_, es) => |es|
    case Literal(_, _, _) => 0
  }

  /** ByIndex(i): object and array nodes panic outside [0, NumChild); a
      literal gives ("", nil) for any i. */
  function ByIndex(n: Node, i: int): (r: (string, Option<Node>))
    requires !n.Literal? ==> 0 <= i < NumChild(n)
    ensures n.Object? ==> r == (n.children[i].key, Some(n.children[i].value))
    ensures !n.Object? ==> r.0 == ""
    ensures r.1.None? <==> n.Literal?
  {
    match n
    case Object(_, cs, _) => (cs[i].key, Some(cs[i].value))
    case Array(_, es) => ("", Some(es[i]))
    case Literal(_, _, _) => ("", None)
  }

  /** ByKey(key): only an object node can answer, and only through its index
      map. */
  function ByKey(n: Node, key: string): (r: Option<Node>)
    requires IndexesInRange(n)
    ensures r.Some? ==> n.Object? && n.indexMap.Some? && key in n.indexMap.value
    ensures n.Object? && n.indexMap.Some? && key in n.indexMap.value ==>
      r == Some(n.children[n.indexMap.value[key]].value)
  {
    match n
    case Object(_, cs, m) =>
      if m.None? || key !in m.value then None else Some(cs[m.value[key]].value)
    case Array(_, _) => None
    case Literal(_, _, _) => None
  }

  /** The object node the parser builds from `members` by calling addChild
      on a new object node, one member after the other. */
  function BuildObject(members: seq<Member>): (r: Node)
    ensures r.Object? && IndexesInRange(r)
    decreases |members|
  {
    if |members| == 0 then NewObjectNode
    else
      var last := members[|members| - 1];
      AddChild(BuildObject(members[..|members| - 1]), last.key, last.value)
  }

  /** Since addChild never fills the index map, building an object keeps
      every member, repeated keys included, in call order, and ByKey finds
      none of them. */
  lemma {:induction false} BuildObjectAppends(members: seq<Member>)
    ensures BuildObject(members).children == members
    ensures NumChild(BuildObject(members)) == |members|
    ensures members != [] ==> BuildObject(members).indexMap == Some(map[])
    ensures forall key :: ByKey(BuildObject(members), key).None?
    decreases |members|
  {
    if |members| > 0 {
      var init := members[..|members| - 1];
      BuildObjectAppends(init);
      assert init + [members[|members| - 1]] == members;
    }
  }

  /** The corrected addChild: a new key is appended and its index recorded in
      the map, so that ByKey can find it; a key already recorded has its
      child's value replaced. */
  function AddChildIndexed(n: Node, key: string, value: Node): (r: Node)
    requires n.Object? && IndexesInRange(n)
    ensures r.Object? && IndexesInRange(r) && r.base == n.base
  {
    var m := if n.indexMap.None? then map[] else n.indexMap.value;
    if key in m then
      var i := m[key];
      n.(children := n.children[i := n.children[i].(value := value)], indexMap := Some(m))
    else n.(children := n.children + [Member(key, value)], indexMap := Some(m[key := |n.children|]))
  }

  /** The index map of a node built by the corrected addChild: it maps each
      child's key to that child's index, and holds no other key. */
  predicate Indexed(n: Node) {
    && n.Object?
    && (n.indexMap.None? ==> n.children == [])
    && (n.indexMap.Some? ==>
      && (forall k :: k in n.indexMap.value ==> n.indexMap.value[k] < |n.children| && n.children[n.indexMap.value[k]].key == k)
      && (forall i :: 0 <= i < |n.children| ==> n.children[i].key in n.indexMap.value && n.indexMap.value[n.children[i].key] == i))
  }

  /** The corrected addChild keeps the index map exact; afterwards ByKey finds
      the new value under key and answers as before for every other key. */
  lemma AddChildIndexedByKey(n: Node, key: string, value: Node, other: string)
    requires Indexed(n)
    ensures IndexesInRange(n)
    ensures Indexed(AddChildIndexed(n, key, value))
    ensures ByKey(AddChildIndexed(n, key, value), key) == Some(value)
    ensures other != key ==> ByKey(AddChildIndexed(n, key, value), other) == ByKey(n, other)
  {
  }

  /** The object the parser would build with the corrected addChild. */
  function BuildObjectIndexed(members: seq<Member>): (r: Node)
    ensures r.Object? && IndexesInRange(r)
    decreases |members|
  {
    if |members| == 0 then NewObjectNode
    else
      var last := members[|members| - 1];
      AddChildIndexed(BuildObjectIndexed(members[..|members| - 1]), last.key, last.value)
  }

  /** The value of the last member with the given key, if any. */
  function LastValue(members: seq<Member>, key: string): Option<Node>
    decreases |members|
  {
    if |members| == 0 then None
    else if members[|members| - 1].key == key then Some(members[|members| - 1].value)
    else LastValue(members[..|members| - 1], key)
  }

  /** With the corrected addChild, ByKey finds the value last added under a
      key, and nil for a key never added, as its doc comment says. */
  lemma {:induction false} BuildObjectIndexedByKey(members: seq<Member>, key: string)
    ensures Indexed(BuildObjectIndexed(members))
    ensures ByKey(BuildObjectIndexed(members), key) == LastValue(members, key)
    decreases |members|
  {
    if |members| > 0 {
      var init, last := members[..|members| - 1], members[|members| - 1];
      BuildObjectIndexedByKey(init, key);
      AddChildIndexedByKey(BuildObjectIndexed(init), last.key, last.value, key);
    }
  }

  /** The dynamic value Value() returns: a map, a slice, a rune, a string, a
      float64, an int64 or nil. */
  datatype Dyn = DMap(entries: map<string, Dyn>) | DList(items: seq<Dyn>) | DRune(rune: int)
               | DString(s: string) | DFloat(f: real) | DInt(i: int) | DNil

  /** The strconv functions the package calls, as parameters: Quote,
      Unquote, UnquoteChar(s, '\''), ParseInt(s, 0, 64), ParseFloat(s, 64),
      each with its error result dropped as the source does. */
  datatype Strconv = Strconv(
    quote: string -> string, unquote: string -> string, unquoteChar: string -> int,
    parseInt: string -> int, parseFloat: string -> real)

  /** literalNode.Value() */
  function LiteralValue(kind: NodeKind, text: string, sc: Strconv): Dyn {
    match kind
    case CharNode => DRune(sc.unquoteChar(text))
    case StringNode => DString(sc.unquote(text))
    case FloatNode => DFloat(sc.parseFloat(text))
    case IntNode => DInt(sc.parseInt(text))
    case IdentNode => DString(text)
    case _ => DNil
  }

  /** Value() of any node. */
  function ValueOf(n: Node, sc: Strconv): Dyn
    decreases n, 1
  {
    match n
    case Object(_, cs, _) => DMap(MembersValue(n, sc, |cs|))
    case Array(_, es) => DList(ElemsValue(n, sc, |es|))
    case Literal(_, k, t) => LiteralValue(k, t, sc)
  }

  /** The map objectNode.Value() has built after its first i children. */
  function MembersValue(n: Node, sc: Strconv, i: nat): map<string, Dyn>
    requires n.Object? && i <= |n.children|
    decreases n, 0, i
  {
    if i == 0 then map[]
    else MembersValue(n, sc, i - 1)[n.children[i - 1].key := ValueOf(n.children[i - 1].value, sc)]
  }

  /** The slice arrayNode.Value() has built after its first i children. */
  function ElemsValue(n: Node, sc: Strconv, i: nat): (r: seq<Dyn>)
    requires n.Array? && i <= |n.elems|
    ensures |r| == i
    decreases n, 0, i
  {
    if i == 0 then [] else ElemsValue(n, sc, i - 1) + [ValueOf(n.elems[i - 1], sc)]
  }

  /** Value(), with the loops of the three Value methods. */
  method Value(n: Node, sc: Strconv) returns (d: Dyn)
    ensures d == ValueOf(n, sc)
    decreases n
  {
    match n {
      case Object(_, cs, _) =>
        var m: map<string, Dyn> := map[];
        for i := 0 to |cs|
          invariant m == MembersValue(n, sc, i)
        {
          var v := Value(cs[i].value, sc);
          m := m[cs[i].key := v];
        }
        d := DMap(m);
      case Array(_, es) =>
        if |es| == 0 {
          return DList([]);
        }
        var s: seq<Dyn> := [];
        for i := 0 to |es|
          invariant s == ElemsValue(n, sc, i)
        {
          var v := Value(es[i], sc);
          s := s + [v];
        }
        d := DList(s);
      case Literal(_, k, t) =>
        d := LiteralValue(k, t, sc);
    }
  }

  /** The index of the last of the first i members with the given key, or -1. */
  function LastWithKey(cs: seq<Member>, key: string, i: nat): (j: int)
    requires i <= |cs|
    ensures -1 <= j < i
    ensures j >= 0 ==> cs[j].key == key
    ensures forall k :: j < k < i ==> cs[k].key != key
  {
    if i == 0 then -1 else if cs[i - 1].key == key then i - 1 else LastWithKey(cs, key, i - 1)
  }

  /** objectNode.Value() maps exactly the keys of the children, and a
      repeated key maps to the value of its last child. */
  lemma {:induction false} ObjectValueLastWins(n: Node, sc: Strconv, key: string, i: nat)
    requires n.Object? && i <= |n.children|
    ensures key in MembersValue(n, sc, i) <==> LastWithKey(n.children, key, i) >= 0
    ensures key in MembersValue(n, sc, i) ==>
      MembersValue(n, sc, i)[key] == ValueOf(n.children[LastWithKey(n.children, key, i)].value, sc)
    decreases i
  {
    if i > 0 {
      ObjectValueLastWins(n, sc, key, i - 1);
    }
  }

  /** An array's value lists its children's values in order; an empty array
      gives an empty, non-nil slice. */
  lemma {:induction false} ArrayValueInOrder(n: Node, sc: Strconv, i: nat)
    requires n.Array? && i <= |n.elems|
    ensures forall k :: 0 <= k < i ==> ElemsValue(n, sc, i)[k] == ValueOf(n.elems[k], sc)
    decreases i
  {
    if i > 0 {
      ArrayValueInOrder(n, sc, i - 1);
    }
  }

  /** newLiteralNode: the token kind decides the node kind; the raw text is
      kept. */
  function NewLiteralNode(pos: Encoding.Position, tok: Encoding.TokenKind, value: string): (r: Result<Node, string>)
    ensures r.Ok? ==> r.value.Literal? && r.value.text == value && r.value.base == ZeroBase.(pos := pos)
    ensures r.Ok? <==> tok in {Encoding.Char, Encoding.String, Encoding.Float, Encoding.Int, Encoding.Ident}
    ensures r.Err? ==> r.error == "unexpected begin of json node " + value + " at " + Encoding.PositionString(pos)
  {
    var kind :=
      match tok
      case Char => Some(CharNode)
      case String => Some(StringNode)
      case Float => Some(FloatNode)
      case Int => Some(IntNode)
      case Ident => Some(IdentNode)
      case _ => None;
    if kind.None? then Err("unexpected begin of json node " + value + " at " + Encoding.PositionString(pos))
    else Ok(Literal(ZeroBase.(pos := pos), kind.value, value))
  }

  /** The kind each accepted token gives. */
  lemma NewLiteralNodeKinds(pos: Encoding.Position, value: string)
    ensures Kind(NewLiteralNode(pos, Encoding.Char, value).value) == CharNode
    ensures Kind(NewLiteralNode(pos, Encoding.String, value).value) == StringNode
    ensures Kind(NewLiteralNode(pos, Encoding.Float, value).value) == FloatNode
    ensures Kind(NewLiteralNode(pos, Encoding.Int, value).value) == IntNode
    ensures Kind(NewLiteralNode(pos, Encoding.Ident, value).value) == IdentNode
  {
  }

  // ---------------------------------------------------------------------
  // The printer: what output writes, as text.

  /** outputDoc: each comment of the group on a line of its own, after
      "\n" + prefix. */
  function DocText(prefix: string, doc: Option<Encoding.CommentGroup>): string {
    if doc.None? then "" else DocLines(prefix, doc.value.list, |doc.value.list|)
  }

  /** The text outputDoc has written after its first i comments. */
  function DocLines(prefix: string, list: seq<Encoding.Comment>, i: nat): string
    requires i <= |list|
  {
    if i == 0 then "" else DocLines(prefix, list, i - 1) + "\n" + prefix + list[i - 1].text
  }

  /** outputNext: the line break before a child, in pretty mode only. */
  function NextText(prefix: string, opt: JsonxOptions.Options): string {
    if opt.indent == "" then "" else "\n" + prefix + opt.indent
  }

  /** outputNodeTail: the comma, then the line comment's text. */
  function TailText(n: Node, top: bool, last: bool, opt: JsonxOptions.Options): string {
    (if (opt.extraComma || !last) && !top then "," else "") + CommentText(n, opt)
  }

  /** The line comment outputNodeTail writes: its text, when comments are
      supported and the node has one. */
  function CommentText(n: Node, opt: JsonxOptions.Options): string {
    if opt.supportComment && n.base.comment.Some? then Encoding.GroupText(n.base.comment) else ""
  }

  /** A key as written: quoted unless empty, already starting with '"', or
      unquoted keys are asked for. */
  function KeyText(key: string, opt: JsonxOptions.Options, quote: string -> string): string {
    if |key| > 0 && key[0] != '"' && !opt.unquotedKey then quote(key) else key
  }

  /** The closer of a container with `count` children. */
  function CloserText(closer: string, count: nat, prefix: string, opt: JsonxOptions.Options): string {
    if count > 0 then (if opt.indent != "" then "\n" else "") + prefix + closer else closer
  }

  /** Whether doc comments are written (writeComment). */
  predicate WriteComment(opt: JsonxOptions.Options) {
    opt.indent != "" && opt.supportComment
  }

  /** The doc comment written before a child. */
  function ChildDoc(child: Node, prefix: string, opt: JsonxOptions.Options): string {
    if WriteComment(opt) && child.base.doc.Some? then DocText(prefix + opt.indent, child.base.doc) else ""
  }

  /** What n.output(prefix, w, opt, top, last) writes. */
  function Render(n: Node, prefix: string, opt: JsonxOptions.Options, quote: string -> string, top: bool, last: bool): string
    decreases n, 2
  {
    Body(n, prefix, opt, quote) + TailText(n, top, last, opt)
  }

  /** What output writes before outputNodeTail. */
  function Body(n: Node, prefix: string, opt: JsonxOptions.Options, quote: string -> string): string
    decreases n, 1
  {
    match n
    case Object(_, cs, _) => "{" + MembersText(n, prefix, opt, quote, |cs|) + CloserText("}", |cs|, prefix, opt)
    case Array(_, es) => "[" + ElemsText(n, prefix, opt, quote, |es|) + CloserText("]", |es|, prefix, opt)
    case Literal(_, _, t) => t
  }

  /** The text of the first i members of an object. */
  function MembersText(n: Node, prefix: string, opt: JsonxOptions.Options, quote: string -> string, i: nat): string
    requires n.Object? && i <= |n.children|
    decreases n, 0, i
  {
    if i == 0 then "" else MembersText(n, prefix, opt, quote, i - 1) + MemberText(n, prefix, opt, quote, i - 1)
  }

  /** The text of member j: its doc, the line break, the key and ':', a
      space in pretty mode, and the value one indent deeper. */
  function MemberText(n: Node, prefix: string, opt: JsonxOptions.Options, quote: string -> string, j: nat): string
    requires n.Object? && j < |n.children|
    decreases n, 0, j
  {
    MemberHead(n.children[j], prefix, opt, quote) +
    Render(n.children[j].value, prefix + opt.indent, opt, quote, false, j + 1 == |n.children|)
  }

  /** What objectNode.output writes for a member before its value. */
  function MemberHead(c: Member, prefix: string, opt: JsonxOptions.Options, quote: string -> string): string {
    ChildDoc(c.value, prefix, opt) + NextText(prefix, opt) + (KeyText(c.key, opt, quote) + ":") +
    (if opt.indent != "" then " " else "")
  }

  /** The text of the first i elements of an array. */
  function ElemsText(n: Node, prefix: string, opt: JsonxOptions.Options, quote: string -> string, i: nat): string
    requires n.Array? && i <= |n.elems|
    decreases n, 0, i
  {
    if i == 0 then "" else ElemsText(n, prefix, opt, quote, i - 1) + ElemText(n, prefix, opt, quote, i - 1)
  }

  /** The text of element j: its doc, the line break and the element one
      indent deeper. */
  function ElemText(n: Node, prefix: string, opt: JsonxOptions.Options, quote: string -> string, j: nat): string
    requires n.Array? && j < |n.elems|
    decreases n, 0, j
  {
    ChildDoc(n.elems[j], prefix, opt) + NextText(prefix, opt) +
    Render(n.elems[j], prefix + opt.indent, opt, quote, false, j + 1 == |n.elems|)
  }

  // ---------------------------------------------------------------------
  // The output methods, writing to an io.Writer.

  /** outputDoc */
  method OutputDoc(prefix: string, w: Io.Writer, doc: Option<Encoding.CommentGroup>)
    modifies w
    ensures w.text == old(w.text) + DocText(prefix, doc)
  {
    if doc.None? {
      return;
    }
    var list := doc.value.list;
    for i := 0 to |list|
      invariant w.text == old(w.text) + DocLines(prefix, list, i)
    {
      w.Write("\n" + prefix + list[i].text);
    }
  }

  /** outputNext */
  method OutputNext(prefix: string, w: Io.Writer, opt: JsonxOptions.Options)
    modifies w
    ensures w.text == old(w.text) + NextText(prefix, opt)
  {
    if opt.indent == "" {
      return;
    }
    w.Write("\n" + prefix + opt.indent);
  }

  /** outputNodeTail */
  method OutputNodeTail(w: Io.Writer, n: Node, top: bool, last: bool, opt: JsonxOptions.Options)
    modifies w
    ensures w.text == old(w.text) + TailText(n, top, last, opt)
  {
    if (opt.extraComma || !last) && !top {
      w.Write(",");
    }
    if opt.supportComment && n.base.comment.Some? {
      var text := Encoding.Text(n.base.comment);
      w.Write(text);
    }
  }

  /** Node.output: dispatch on the node's dynamic type. */
  method Output(n: Node, prefix: string, w: Io.Writer, opt: JsonxOptions.Options, quote: string -> string, top: bool, last: bool)
    modifies w
    ensures w.text == old(w.text) + Render(n, prefix, opt, quote, top, last)
    decreases n, 1
  {
    match n {
      case Object(_, _, _) => OutputObject(n, prefix, w, opt, quote, top, last);
      case Array(_, _) => OutputArray(n, prefix, w, opt, quote, top, last);
      case Literal(_, _, _) => OutputLiteral(n, prefix, w, opt, top, last);
    }
  }

  /** The closing text objectNode.output and arrayNode.output write. */
  method OutputCloser(closer: string, count: nat, prefix: string, w: Io.Writer, opt: JsonxOptions.Options)
    modifies w
    ensures w.text == old(w.text) + CloserText(closer, count, prefix, opt)
  {
    var next := closer;
    if count > 0 {
      next := prefix + next;
      if opt.indent != "" {
        next := "\n" + next;
      }
    }
    w.Write(next);
  }

  /** objectNode.output */
  method OutputObject(n: Node, prefix: string, w: Io.Writer, opt: JsonxOptions.Options, quote: string -> string, top: bool, last: bool)
    requires n.Object?
    modifies w
    ensures w.text == old(w.text) + Render(n, prefix, opt, quote, top, last)
    decreases n, 0
  {
    ghost var t0 := w.text;
    w.Write("{");
    for i := 0 to |n.children|
      invariant w.text == t0 + ("{" + MembersText(n, prefix, opt, quote, i))
    {
      ghost var before := "{" + MembersText(n, prefix, opt, quote, i);
      OutputMember(n, prefix, w, opt, quote, i);
      GoStrings.AppendAssoc(t0, before, MemberText(n, prefix, opt, quote, i));
      GoStrings.AppendAssoc("{", MembersText(n, prefix, opt, quote, i), MemberText(n, prefix, opt, quote, i));
    }
    ghost var body := "{" + MembersText(n, prefix, opt, quote, |n.children|);
    OutputCloser("}", |n.children|, prefix, w, opt);
    GoStrings.AppendAssoc(t0, body, CloserText("}", |n.children|, prefix, opt));
    ghost var full := body + CloserText("}", |n.children|, prefix, opt);
    OutputNodeTail(w, n, top, last, opt);
    GoStrings.AppendAssoc(t0, full, TailText(n, top, last, opt));
    assert Body(n, prefix, opt, quote) == full;
  }

  /** One turn of objectNode.output's loop over the children. */
  method OutputMember(n: Node, prefix: string, w: Io.Writer, opt: JsonxOptions.Options, quote: string -> string, i: nat)
    requires n.Object? && i < |n.children|
    modifies w
    ensures w.text == old(w.text) + MemberText(n, prefix, opt, quote, i)
    decreases n, 0, i
  {
    ghost var t0 := w.text;
    var child := n.children[i];
    OutputMemberHead(child, prefix, w, opt, quote);
    ghost var a := MemberHead(child, prefix, opt, quote);
    ghost var r := Render(child.value, prefix + opt.indent, opt, quote, false, i + 1 == |n.children|);
    Output(child.value, prefix + opt.indent, w, opt, quote, false, i + 1 == |n.children|);
    GoStrings.AppendAssoc(t0, a, r);
  }

  /** The start of one turn of objectNode.output's loop: the doc comment,
      the line break, the key and ':'. */
  method OutputMemberHead(child: Member, prefix: string, w: Io.Writer, opt: JsonxOptions.Options, quote: string -> string)
    modifies w
    ensures w.text == old(w.text) + MemberHead(child, prefix, opt, quote)
  {
    ghost var t0 := w.text;
    var writeComment := opt.indent != "" && opt.supportComment;
    var doc := child.value.base.doc;
    if writeComment && doc.Some? {
      OutputDoc(prefix + opt.indent, w, doc);
    }
    ghost var a := ChildDoc(child.value, prefix, opt);
    assert w.text == t0 + a;
    OutputNext(prefix, w, opt);
    GoStrings.AppendAssoc(t0, a, NextText(prefix, opt));
    a := a + NextText(prefix, opt);
    var key := child.key;
    if |key| > 0 && key[0] != '"' && !opt.unquotedKey {
      key := quote(key);
    }
    assert key == KeyText(child.key, opt, quote);
    w.Write(key + ":");
    GoStrings.AppendAssoc(t0, a, key + ":");
    a := a + (key + ":");
    if opt.indent != "" {
      w.Write(" ");
    }
  }

  /** arrayNode.output */
  method OutputArray(n: Node, prefix: string, w: Io.Writer, opt: JsonxOptions.Options, quote: string -> string, top: bool, last: bool)
    requires n.Array?
    modifies w
    ensures w.text == old(w.text) + Render(n, prefix, opt, quote, top, last)
    decreases n, 0
  {
    ghost var t0 := w.text;
    w.Write("[");
    for i := 0 to |n.elems|
      invariant w.text == t0 + ("[" + ElemsText(n, prefix, opt, quote, i))
    {
      ghost var before := "[" + ElemsText(n, prefix, opt, quote, i);
      OutputElem(n, prefix, w, opt, quote, i);
      GoStrings.AppendAssoc(t0, before, ElemText(n, prefix, opt, quote, i));
      GoStrings.AppendAssoc("[", ElemsText(n, prefix, opt, quote, i), ElemText(n, prefix, opt, quote, i));
    }
    ghost var body := "[" + ElemsText(n, prefix, opt, quote, |n.elems|);
    OutputCloser("]", |n.elems|, prefix, w, opt);
    GoStrings.AppendAssoc(t0, body, CloserText("]", |n.elems|, prefix, opt));
    ghost var full := body + CloserText("]", |n.elems|, prefix, opt);
    OutputNodeTail(w, n, top, last, opt);
    GoStrings.AppendAssoc(t0, full, TailText(n, top, last, opt));
    assert Body(n, prefix, opt, quote) == full;
  }

  /** One turn of arrayNode.output's loop over the children. */
  method OutputElem(n: Node, prefix: string, w: Io.Writer, opt: JsonxOptions.Options, quote: string -> string, i: nat)
    requires n.Array? && i < |n.elems|
    modifies w
    ensures w.text == old(w.text) + ElemText(n, prefix, opt, quote, i)
    decreases n, 0, i
  {
    ghost var t0 := w.text;
    var writeComment := opt.indent != "" && opt.supportComment;
    var child := n.elems[i];
    var doc := child.base.doc;
    if writeComment && doc.Some? {
      OutputDoc(prefix + opt.indent, w, doc);
    }
    ghost var a := ChildDoc(child, prefix, opt);
    assert w.text == t0 + a;
    OutputNext(prefix, w, opt);
    GoStrings.AppendAssoc(t0, a, NextText(prefix, opt));
    a := a + NextText(prefix, opt);
    ghost var r := Render(child, prefix + opt.indent, opt, quote, false, i + 1 == |n.elems|);
    Output(child, prefix + opt.indent, w, opt, quote, false, i + 1 == |n.elems|);
    GoStrings.AppendAssoc(t0, a, r);
    a := a + r;
    assert ElemText(n, prefix, opt, quote, i) == a;
  }

  /** literalNode.output: the raw text, verbatim. */
  method OutputLiteral(n: Node, prefix: string, w: Io.Writer, opt: JsonxOptions.Options, top: bool, last: bool)
    requires n.Literal?
    modifies w
    ensures w.text == old(w.text) + n.text + TailText(n, top, last, opt)
    decreases n, 0
  {
    w.Write(n.text);
    OutputNodeTail(w, n, top, last, opt);
  }

  // ---------------------------------------------------------------------
  // Layout rules of the printer.

  /** outputNodeTail writes a comma exactly when (extraComma || !last) &&
      !top, then the line comment's text with no space before it, whatever
      the indent. */
  lemma TailLayout(n: Node, top: bool, last: bool, opt: JsonxOptions.Options, indent: string)
    ensures (opt.extraComma || !last) && !top ==> TailText(n, top, last, opt) == "," + CommentText(n, opt)
    ensures !((opt.extraComma || !last) && !top) ==> TailText(n, top, last, opt) == CommentText(n, opt)
    ensures CommentText(n, opt) == (if opt.supportComment then Encoding.GroupText(n.base.comment) else "")
    ensures TailText(n, top, last, opt.(indent := indent)) == TailText(n, top, last, opt)
  {
  }

  /** An empty object or array prints as "{}" or "[]", in either mode. */
  lemma EmptyContainer(n: Node, prefix: string, opt: JsonxOptions.Options, quote: string -> string, top: bool, last: bool)
    requires !n.Literal? && NumChild(n) == 0
    ensures Render(n, prefix, opt, quote, top, last) == (if n.Object? then "{}" else "[]") + TailText(n, top, last, opt)
  {
    if n.Object? {
      assert Body(n, prefix, opt, quote) == "{" + "" + "}" == "{}";
    } else {
      assert Body(n, prefix, opt, quote) == "[" + "" + "]" == "[]";
    }
  }

  /** A literal's raw text is written verbatim, so "-1" and "+1" keep their
      sign. */
  lemma LiteralVerbatim(n: Node, prefix: string, opt: JsonxOptions.Options, quote: string -> string, top: bool, last: bool)
    requires n.Literal?
    ensures Render(n, prefix, opt, quote, top, last) == n.text + TailText(n, top, last, opt)
  {
  }

  /** Keys are quoted unless empty, already starting with '"', or unquoted
      keys are asked for. */
  lemma KeyQuoting(key: string, opt: JsonxOptions.Options, quote: string -> string)
    ensures KeyText(key, opt, quote) == key <== key == "" || key[0] == '"' || opt.unquotedKey
    ensures key != "" && key[0] != '"' && !opt.unquotedKey ==> KeyText(key, opt, quote) == quote(key)
  {
  }

  /** Compact mode: a member is its key, ':' and its value, with no line
      break, no space and no doc comment; the prefix is not extended. */
  lemma CompactMember(n: Node, prefix: string, opt: JsonxOptions.Options, quote: string -> string, j: nat)
    requires opt.indent == "" && n.Object? && j < |n.children|
    ensures MemberText(n, prefix, opt, quote, j) ==
      KeyText(n.children[j].key, opt, quote) + ":" + Render(n.children[j].value, prefix, opt, quote, false, j + 1 == |n.children|)
  {
    assert prefix + opt.indent == prefix;
  }

  /** Compact mode: an element is its value alone. */
  lemma CompactElem(n: Node, prefix: string, opt: JsonxOptions.Options, quote: string -> string, j: nat)
    requires opt.indent == "" && n.Array? && j < |n.elems|
    ensures ElemText(n, prefix, opt, quote, j) == Render(n.elems[j], prefix, opt, quote, false, j + 1 == |n.elems|)
  {
    assert prefix + opt.indent == prefix;
  }

  /** Pretty mode: each member starts a new line at prefix + indent, after
      its doc comment, with ": " between key and value; the value is
      printed one indent deeper. */
  lemma PrettyMember(n: Node, prefix: string, opt: JsonxOptions.Options, quote: string -> string, j: nat)
    requires opt.indent != "" && n.Object? && j < |n.children|
    ensures MemberText(n, prefix, opt, quote, j) ==
      ChildDoc(n.children[j].value, prefix, opt) + ("\n" + prefix + opt.indent) +
      (KeyText(n.children[j].key, opt, quote) + ":") + " " +
      Render(n.children[j].value, prefix + opt.indent, opt, quote, false, j + 1 == |n.children|)
  {
  }

  /** Pretty mode: each element starts a new line at prefix + indent. */
  lemma PrettyElem(n: Node, prefix: string, opt: JsonxOptions.Options, quote: string -> string, j: nat)
    requires opt.indent != "" && n.Array? && j < |n.elems|
    ensures ElemText(n, prefix, opt, quote, j) ==
      ChildDoc(n.elems[j], prefix, opt) + ("\n" + prefix + opt.indent) +
      Render(n.elems[j], prefix + opt.indent, opt, quote, false, j + 1 == |n.elems|)
  {
  }

  /** The closer of a non-empty container follows "\n" + prefix in pretty
      mode and the prefix alone in compact mode. */
  lemma CloserLayout(closer: string, count: nat, prefix: string, opt: JsonxOptions.Options)
    ensures count == 0 ==> CloserText(closer, count, prefix, opt) == closer
    ensures count > 0 && opt.indent != "" ==> CloserText(closer, count, prefix, opt) == "\n" + prefix + closer
    ensures count > 0 && opt.indent == "" ==> CloserText(closer, count, prefix, opt) == prefix + closer
  {
  }

  /** The doc lines outputDoc writes: each comment after "\n" + prefix. */
  lemma {:induction false} DocLinesJoin(prefix: string, list: seq<Encoding.Comment>, i: nat)
    requires 0 < i <= |list|
    ensures DocLines(prefix, list, i) == "\n" + prefix + GoStrings.Join(Encoding.Texts(list[..i]), "\n" + prefix)
  {
    if i > 1 {
      DocLinesJoin(prefix, list, i - 1);
      assert list[..i] == list[..i - 1] + [list[i - 1]];
      assert Encoding.Texts(list[..i]) == Encoding.Texts(list[..i - 1]) + [list[i - 1].text];
      GoStrings.JoinSnoc(Encoding.Texts(list[..i - 1]), list[i - 1].text, "\n" + prefix);
    } else {
      assert Encoding.Texts(list[..1]) == [list[0].text];
    }
  }

  /** A child's doc comment is written only in pretty mode with comments
      supported, each of its lines at prefix + indent. */
  lemma DocLayout(child: Node, prefix: string, opt: JsonxOptions.Options)
    ensures !WriteComment(opt) || child.base.doc.None? ==> ChildDoc(child, prefix, opt) == ""
    ensures WriteComment(opt) && child.base.doc.Some? && |child.base.doc.value.list| > 0 ==>
      ChildDoc(child, prefix, opt) ==
        "\n" + (prefix + opt.indent) + GoStrings.Join(Encoding.Texts(child.base.doc.value.list), "\n" + (prefix + opt.indent))
  {
    if WriteComment(opt) && child.base.doc.Some? && |child.base.doc.value.list| > 0 {
      var list := child.base.doc.value.list;
      DocLinesJoin(prefix + opt.indent, list, |list|);
      assert list[..|list|] == list;
    }
  }

  /** None of a node's keys, literal texts and line comments holds a line
      break. */
  predicate FlatContent(n: Node, opt: JsonxOptions.Options, quote: string -> string)
    decreases n
  {
    '\n' !in CommentText(n, opt) &&
    match n
    case Literal(_, _, t) => '\n' !in t
    case Object(_, cs, _) =>
      forall j :: 0 <= j < |cs| ==> '\n' !in KeyText(cs[j].key, opt, quote) && FlatContent(cs[j].value, opt, quote)
    case Array(_, es) => forall j :: 0 <= j < |es| ==> FlatContent(es[j], opt, quote)
  }

  /** Compact mode inserts no line break: the output of a node whose own
      content has none is a single line. */
  lemma {:induction false} CompactIsOneLine(n: Node, prefix: string, opt: JsonxOptions.Options, quote: string -> string, top: bool, last: bool)
    requires opt.indent == "" && '\n' !in prefix && FlatContent(n, opt, quote)
    ensures '\n' !in Render(n, prefix, opt, quote, top, last)
    decreases n
  {
    match n {
      case Object(_, cs, _) =>
        forall j | 0 <= j < |cs|
          ensures '\n' !in KeyText(cs[j].key, opt, quote)
          ensures '\n' !in Render(cs[j].value, prefix, opt, quote, false, j + 1 == |cs|)
        {
          FlatMember(n, opt, quote, j);
          CompactIsOneLine(cs[j].value, prefix, opt, quote, false, j + 1 == |cs|);
        }
        CompactMembersOneLine(n, prefix, opt, quote, |cs|);
      case Array(_, es) =>
        forall j | 0 <= j < |es|
          ensures '\n' !in Render(es[j], prefix, opt, quote, false, j + 1 == |es|)
        {
          FlatElem(n, opt, quote, j);
          CompactIsOneLine(es[j], prefix, opt, quote, false, j + 1 == |es|);
        }
        CompactElemsOneLine(n, prefix, opt, quote, |es|);
      case Literal(_, _, _) =>
    }
  }

  /** Compact members whose keys and values print without a line break print on one line. */
  lemma {:induction false} CompactMembersOneLine(n: Node, prefix: string, opt: JsonxOptions.Options, quote: string -> string, i: nat)
    requires opt.indent == "" && '\n' !in prefix && n.Object? && i <= |n.children|
    requires forall j :: 0 <= j < |n.children| ==>
      '\n' !in KeyText(n.children[j].key, opt, quote) &&
      '\n' !in Render(n.children[j].value, prefix, opt, quote, false, j + 1 == |n.children|)
    ensures '\n' !in MembersText(n, prefix, opt, quote, i)
  {
    if i > 0 {
      CompactMembersOneLine(n, prefix, opt, quote, i - 1);
      CompactMember(n, prefix, opt, quote, i - 1);
      var c := n.children[i - 1];
      NoLineBreakJoined(MembersText(n, prefix, opt, quote, i - 1), KeyText(c.key, opt, quote),
        Render(c.value, prefix, opt, quote, false, i == |n.children|));
    }
  }

  /** Text with no line break, followed by a key, ':' and a value with none, has none. */
  lemma NoLineBreakJoined(before: string, key: string, value: string)
    requires '\n' !in before && '\n' !in key && '\n' !in value
    ensures '\n' !in before + (key + ":" + value)
  {
  }

  /** Compact elements that print without a line break print on one line. */
  lemma {:induction false} CompactElemsOneLine(n: Node, prefix: string, opt: JsonxOptions.Options, quote: string -> string, i: nat)
    requires opt.indent == "" && n.Array? && i <= |n.elems|
    requires forall j :: 0 <= j < |n.elems| ==> '\n' !in Render(n.elems[j], prefix, opt, quote, false, j + 1 == |n.elems|)
    ensures '\n' !in ElemsText(n, prefix, opt, quote, i)
  {
    if i > 0 {
      CompactElemsOneLine(n, prefix, opt, quote, i - 1);
      CompactElem(n, prefix, opt, quote, i - 1);
    }
  }

  /** A member of a flat object has a key without a line break and a flat value. */
  lemma FlatMember(n: Node, opt: JsonxOptions.Options, quote: string -> string, j: nat)
    requires FlatContent(n, opt, quote) && n.Object? && j < |n.children|
    ensures '\n' !in KeyText(n.children[j].key, opt, quote) && FlatContent(n.children[j].value, opt, quote)
  {
  }

  /** An element of a flat array is flat. */
  lemma FlatElem(n: Node, opt: JsonxOptions.Options, quote: string -> string, j: nat)
    requires FlatContent(n, opt, quote) && n.Array? && j < |n.elems|
    ensures FlatContent(n.elems[j], opt, quote)
  {
  }

  /** The printer never reads the prefix option: options that agree on
      everything else print alike. */
  predicate SameLayout(o1: JsonxOptions.Options, o2: JsonxOptions.Options) {
    o1.indent == o2.indent && o1.supportComment == o2.supportComment &&
    o1.unquotedKey == o2.unquotedKey && o1.extraComma == o2.extraComma
  }

  /** A member prints alike under options of the same layout once its value does. */
  lemma MemberTextSameLayout(n: Node, prefix: string, o1: JsonxOptions.Options, o2: JsonxOptions.Options, quote: string -> string, j: nat)
    requires SameLayout(o1, o2) && n.Object? && j < |n.children|
    requires Render(n.children[j].value, prefix + o1.indent, o1, quote, false, j + 1 == |n.children|)
      == Render(n.children[j].value, prefix + o1.indent, o2, quote, false, j + 1 == |n.children|)
    ensures MemberText(n, prefix, o1, quote, j) == MemberText(n, prefix, o2, quote, j)
  {
    assert MemberHead(n.children[j], prefix, o1, quote) == MemberHead(n.children[j], prefix, o2, quote);
  }

  /** One more member keeps the texts of the first members alike. */
  lemma MembersTextStepSame(n: Node, prefix: string, o1: JsonxOptions.Options, o2: JsonxOptions.Options, quote: string -> string, i: nat)
    requires n.Object? && 0 < i <= |n.children|
    requires MembersText(n, prefix, o1, quote, i - 1) == MembersText(n, prefix, o2, quote, i - 1)
    requires MemberText(n, prefix, o1, quote, i - 1) == MemberText(n, prefix, o2, quote, i - 1)
    ensures MembersText(n, prefix, o1, quote, i) == MembersText(n, prefix, o2, quote, i)
  {
  }

  /** One more element printed alike keeps the texts of the first elements alike. */
  lemma ElemsTextStepSame(n: Node, prefix: string, o1: JsonxOptions.Options, o2: JsonxOptions.Options, quote: string -> string, i: nat)
    requires SameLayout(o1, o2) && n.Array? && 0 < i <= |n.elems|
    requires ElemsText(n, prefix, o1, quote, i - 1) == ElemsText(n, prefix, o2, quote, i - 1)
    requires Render(n.elems[i - 1], prefix + o1.indent, o1, quote, false, i == |n.elems|)
      == Render(n.elems[i - 1], prefix + o1.indent, o2, quote, false, i == |n.elems|)
    ensures ElemsText(n, prefix, o1, quote, i) == ElemsText(n, prefix, o2, quote, i)
  {
    assert ChildDoc(n.elems[i - 1], prefix, o1) == ChildDoc(n.elems[i - 1], prefix, o2);
  }

  lemma {:induction false} PrefixOptionUnused(n: Node, prefix: string, o1: JsonxOptions.Options, o2: JsonxOptions.Options, quote: string -> string, top: bool, last: bool)
    requires SameLayout(o1, o2)
    ensures Render(n, prefix, o1, quote, top, last) == Render(n, prefix, o2, quote, top, last)
    decreases n, 2
  {
    match n {
      case Object(_, cs, _) => MembersPrefixOptionUnused(n, prefix, o1, o2, quote, |cs|);
      case Array(_, es) => ElemsPrefixOptionUnused(n, prefix, o1, o2, quote, |es|);
      case Literal(_, _, _) =>
    }
  }

  lemma {:induction false} MembersPrefixOptionUnused(n: Node, prefix: string, o1: JsonxOptions.Options, o2: JsonxOptions.Options, quote: string -> string, i: nat)
    requires SameLayout(o1, o2) && n.Object? && i <= |n.children|
    ensures MembersText(n, prefix, o1, quote, i) == MembersText(n, prefix, o2, quote, i)
    decreases n, 0, i
  {
    if i > 0 {
      MembersPrefixOptionUnused(n, prefix, o1, o2, quote, i - 1);
      PrefixOptionUnused(n.children[i - 1].value, prefix + o1.indent, o1, o2, quote, false, i == |n.children|);
      MemberTextSameLayout(n, prefix, o1, o2, quote, i - 1);
      MembersTextStepSame(n, prefix, o1, o2, quote, i);
    }
  }

  lemma {:induction false} ElemsPrefixOptionUnused(n: Node, prefix: string, o1: JsonxOptions.Options, o2: JsonxOptions.Options, quote: string -> string, i: nat)
    requires SameLayout(o1, o2) && n.Array? && i <= |n.elems|
    ensures ElemsText(n, prefix, o1, quote, i) == ElemsText(n, prefix, o2, quote, i)
    decreases n, 0, i
  {
    if i > 0 {
      ElemsPrefixOptionUnused(n, prefix, o1, o2, quote, i - 1);
      PrefixOptionUnused(n.elems[i - 1], prefix + o1.indent, o1, o2, quote, false, i == |n.elems|);
      ElemsTextStepSame(n, prefix, o1, o2, quote, i);
    }
  }
}
