# A Dafny model of the core of mkideal/pkg

This project models, in Dafny, the core of the Go utility collection
`github.com/mkideal/pkg` and proves properties of the model.

The main part is the jsonx package, a JSON dialect with unquoted keys,
trailing commas and C-style comments:

- **Node model** (`jsonx_node.dfy`). Object, array and literal nodes carry their
  children and their doc and line comment groups. The model covers `addChild`,
  `Value`, `ByIndex`, `ByKey`, `NumChild` and `newLiteralNode`.
- **Printer** (`jsonx_node.dfy`). The `output` methods write the node's
  rendering to an `io.Writer`, modelled as a string being built (`io.dfy`).
  They are proved equal to pure rendering functions, and the layout rules
  (commas, top node, key quoting, compact and pretty mode, comments) are
  lemmas about those functions.
- **Comment collector** (`encoding.dfy`). `Parser.Next` runs over an abstract
  token stream and groups comments into line and lead comments. It is proved
  against specification functions.
- **Options and glue** (`jsonx_options.dfy`, `jsonx.dfy`). The options, the
  `With*` setters, `applyOptions`, and the call shape of `Read`, `Write` and
  `Unmarshal`. Byte-exact examples of the printer's output are in
  `jsonx_examples.dfy`.

The smaller cores, one module each:

- the bit-packed `BoolSlice` (`boolslice.dfy`);
- the ASCII table writer (`table.dfy`);
- playing-card packing and dealing (`poker.dfy`);
- the three-player landlord game state machine (`landlord3.dfy`);
- random strings and the two Fisher-Yates shuffles (`random.dfy`,
  `algorithm.dfy`). These run over an abstract random source
  (`rand_source.dfy`).
- the int/string part of `expr.Var` (`expr_value.dfy`);
- the SMTP command dispatcher (`smtpd.dfy`);
- length-prefixed packet framing (`packet_reader.dfy`);
- smaller helpers:
  - test log-line decoration (`testing_ex.dfy`);
  - error tracing and unwrapping (`errors.dfy`);
  - validator chains (`validator.dfy`);
  - the output-target choice of `ConfigBase.Init` (`config.dfy`);
  - client-IP extraction (`httputil.dfy`);
  - the `optvar` and `is` error helpers (`optvar.dfy`, `is_error.dfy`).

Shared pieces:

- `wrappers.dfy` holds Option and Result.
- `strings.dfy` holds the parts of Go's `strings` and `strconv` that the code
  uses.
- `gomath.dfy` holds Go's truncating remainder and integer conversions.

Types and state follow the Go code:

- An object whose fields the Go methods update in place is a class. Examples:
  `BoolSlice`, `Parser`, `Landlord3`, `Session`, the packet reader, the random
  sources and `ValidatorList`.
- A loop in the Go code is a method with loop invariants, proved against a
  specification function.
- Pure Go code is functions and lemmas.
- Go panics are preconditions.
- Calls into code outside this model are function-typed parameters. Examples:
  `text/scanner`, `strconv` quoting and parsing, `runtime.Caller`,
  `debug.Stack`, HTTP, files and marshalling.

Where the code and its documentation disagree, the model follows the code, except for the four defects listed under Findings: each is modelled as written by one member, and the rest of the model uses the corrected behaviour. The other disagreements are:

- **Duplicate declarations in jsonx.** `jsonx.go` redeclares `NodeKind`
  (with `IdentNode` = 0) and an `output` with only a `lastNode` flag. Those
  declarations conflict with `node.go`. The model follows `node.go`
  (`InvalidNode` = 0, `output(prefix, w, opt, topNode, lastNode)`), which the
  tests match. `Write` is modelled as printing its node as the top node.
- **`addChild` and `ByKey`.** `addChild` never records a key in `indexMap`. So
  `ByKey` finds nothing, against its doc comment (see Findings).
- **A test expectation.** `encoding/jsonx/jsonx_test.go:138` expects a doc
  comment indented by six spaces, but the code writes prefix + indent, four
  spaces in that test. The model follows the code.
- **`random.Shuffle` with a nil source.** It draws from math/rand's
  `rand.Intn(i+1)`, not from `DefaultSource` as the other functions of the
  package do. The model follows the code.
- **SMTP verbs.** Verbs match exactly and case-sensitively, so "noop" is
  answered 502. Section 2.4 of RFC 5321 makes verbs case-insensitive.
- **`IP` and bracketed addresses.** Only a host part of exactly "[" is turned
  into 127.0.0.1. "[fe80::1]:80" gives "[fe80".

## Model

| member | source | states |
|---|---|---|
| GoStrings.IndexOf | smtpd/smtpd.go:87 | the first index of the character: -1 exactly when it is absent, otherwise it holds the character and no earlier index does |
| GoStrings.LastIndex | config/config.go:85 | the last index of the character: -1 exactly when it is absent, otherwise it holds the character and no later index does |
| GoStrings.Split | config/config.go:76 | a split always has at least one piece |
| GoStrings.SplitLength | config/config.go:76-88 | a split has one more piece than the text has separators |
| GoStrings.JoinSplit | netutil/httputil/httputil.go:30 | joining the pieces of a split with the separator gives the text back |
| GoStrings.SplitPiecesAvoidSep | testing/testing_ex.go:37 | no piece of a split holds the separator |
| GoStrings.SplitSnocSep | testing/testing_ex.go:37-40 | a separator at the end of the text adds exactly one empty last piece |
| GoStrings.Repeat | textutil/table.go:50-57 | n copies of the character, nothing for n <= 0 |
| GoStrings.PadRight | textutil/table.go:64-65 | "%-Ns" keeps the text at the front and pads with spaces up to the width, never cutting |
| GoStrings.NatToString | expr/value.go:51 | the decimal text of a number is non-empty and all digits |
| GoStrings.IntToString | expr/value.go:51 | the text starts with '-' exactly for a negative number |
| GoStrings.NatToStringRoundTrip | expr/value.go:51 | reading the decimal text back gives the number |
| GoStrings.ContainsOffset | expr/value.go:157 | strings.Contains holds exactly when the substring occurs at some offset |
| Encoding.PositionString | encoding/jsonx/node.go:308 | the `%v` of a scanner position in newLiteralNode's error: the file name, or "<input>" when it is empty, followed by ":line:column" when the line is positive, and the name alone otherwise |
| Encoding.At | encoding/encoding.go:85-87 | a comment token can only come from the scanned tokens: past them the scanner returns EOF for ever |
| Encoding.Texts | encoding/encoding.go:30-35 | the texts of a group's comments, one per comment and in order |
| Encoding.TextJoinsLines | encoding/encoding.go:25-37 | a group's text is its comments' texts joined by "\n", and is not empty when the group is not |
| Encoding.Text | encoding/encoding.go:25-37 | CommentGroup.Text(): "" for a nil or empty group, else each comment's text, with '\n' before it whenever the buffer already holds something |
| Encoding.CommentsBetween | encoding/encoding.go:100 | the comments of tokens a .. b-1, one per token |
| Encoding.ConsumeGroup | encoding/encoding.go:106-113 | a group takes one comment per token it passes; the end line stays as given when it takes nothing and is the last comment's end line otherwise |
| Encoding.ConsumeGroupSpec | encoding/encoding.go:106-113 | a group holds exactly the tokens it passes, all comments, each starting at most n lines after the previous end line; the token that stops it is not a comment or starts later than that |
| Encoding.GroupTakesFirst | encoding/encoding.go:23-113 | a group started on a comment with n >= 0 takes that comment, so the group's position is that comment's |
| Encoding.CommentPos | encoding/encoding.go:17 | a comment's position is where its slash is |
| Encoding.GroupPos | encoding/encoding.go:23 | a group's position is its first comment's, and an empty group (a Go panic) is excluded; GroupTakesFirst states which comment that is |
| Encoding.LeadPhase | encoding/encoding.go:73-76 | the lead loop ends on a token that is not a comment |
| Encoding.LeadPhaseSpec | encoding/encoding.go:73-76 | a lead loop that runs leaves its last group in comment and that group's end line in endline; one that does not run leaves both as they were |
| Encoding.LeadPhaseStep | encoding/encoding.go:74-76 | one turn of the lead loop takes a group with n = 1 and carries on after it |
| Encoding.LinePhase | encoding/encoding.go:66-71 | the line step never moves backwards in the stream |
| Encoding.NextSpec | encoding/encoding.go:56-82 | Next stops on a token that is not a comment, never before the first token it scans |
| Encoding.CommentsBetweenSplit | encoding/encoding.go:106-113 | the comments between a and c are those between a and b followed by those between b and c |
| Encoding.LeadPhaseCovers | encoding/encoding.go:73-117 | every comment the lead loop passes lands in exactly one of its groups, in scan order, and no group is empty |
| Encoding.NextGroupsCoverComments | encoding/encoding.go:56-117 | the groups Next appends to Comments hold exactly the comments between the previous token and the new one, in order, and none is empty |
| Encoding.LineRunCovers | encoding/encoding.go:66-76 | the line group and the lead groups together hold every comment passed, in order |
| Encoding.NextLineComment | encoding/encoding.go:66-71 | LineComment is set exactly when the first comment is on the previous token's line and the token after its group is not on the group's end line; it is then the first group appended |
| Encoding.NextLeadComment | encoding/encoding.go:73-80 | LeadComment, when set, is the last group appended and the new token starts on the line after its end; a line group followed by a non-comment gives no lead comment |
| Encoding.Parser.Init | encoding/encoding.go:52-54 | the parser reads the given scanner and every other field holds its zero value |
| Encoding.Parser.Next0 | encoding/encoding.go:84-88 | the next token of the stream becomes Tok, Pos and Lit; the comment fields are unchanged |
| Encoding.Parser.ConsumeComment | encoding/encoding.go:90-104 | the current comment is returned with its end line (its line plus its newlines for a block comment) and the following token becomes current |
| Encoding.Parser.ConsumeCommentGroup | encoding/encoding.go:106-120 | the group and end line are those ConsumeGroup describes, the token after the group is current, and the group is appended to Comments |
| Encoding.Parser.Next | encoding/encoding.go:56-82 | LeadComment, LineComment, the groups appended to Comments and the new current token are those NextSpec describes, and the current token is not a comment |
| Encoding.Parser.ConsumeLineGroup | encoding/encoding.go:66-71 | the line step as LinePhase describes it, appending its group to Comments |
| Encoding.Parser.ConsumeLeadGroups | encoding/encoding.go:73-76 | the lead loop as LeadPhase describes it, appending every group it takes to Comments |
| Encoding.CountNewlines | encoding/encoding.go:93-97 | the count is the number of '\n' in the text |
| JsonxOptions.ApplyOptions | encoding/jsonx/jsonx.go:109-115 | applyOptions starts from options{} and applies each option in turn, last option last |
| JsonxOptions.ApplyTouchesOwnFieldOnly | encoding/jsonx/jsonx.go:74-107 | each With* option sets its own field to its value and leaves every other field as it was |
| JsonxOptions.ApplyAllAppend | encoding/jsonx/jsonx.go:109-115 | applying a + b applies a, then b |
| JsonxOptions.ApplyAllFields | encoding/jsonx/jsonx.go:74-115 | after applying a list, prefix and indent are the last ones given, and each switch is on exactly when it was on or its option occurs |
| JsonxOptions.ApplyAllStrings | encoding/jsonx/jsonx.go:81-115 | prefix and indent are those of the last WithPrefix and WithIndent |
| JsonxOptions.ApplyAllComment | encoding/jsonx/jsonx.go:74-115 | supportComment is on exactly when WithComment occurs or it was on |
| JsonxOptions.ApplyAllUnquotedKey | encoding/jsonx/jsonx.go:95-115 | unquotedKey is on exactly when WithUnquotedKey occurs or it was on |
| JsonxOptions.ApplyAllExtraComma | encoding/jsonx/jsonx.go:102-115 | extraComma is on exactly when WithExtraComma occurs or it was on |
| JsonxOptions.LaterOverrides | encoding/jsonx/jsonx.go:81-115 | a later WithIndent or WithPrefix overrides any earlier one |
| JsonxNode.KindCode | encoding/jsonx/node.go:15-24 | InvalidNode .. ArrayNode are 0 .. 7 in declaration order, each code naming exactly its own kind and lying below the length of the name table |
| JsonxNode.KindString | encoding/jsonx/node.go:26-31 | the result starts with "Unknown kind(" exactly when the value lies outside the name table |
| JsonxNode.Kind | encoding/jsonx/node.go:157-334 | an object is ObjectNode, an array ArrayNode and a literal its own kind; SetDoc, SetComment and NewLiteralNodeKinds state what keeps or sets it |
| JsonxNode.NumChild | encoding/jsonx/node.go:158-335 | the number of children of an object or array, 0 for a literal; ElemsValue and the ByIndex bounds use it |
| JsonxNode.KindStringNames | encoding/jsonx/node.go:26-42 | every declared kind prints as its own name, and two kinds that print alike are the same kind |
| JsonxNode.AddChild | encoding/jsonx/node.go:137-147 | the index map is made when nil and is never written; a key it does not hold is appended as a new child |
| JsonxNode.AddElem | encoding/jsonx/node.go:228-230 | the value is appended to the array's children and nothing else changes |
| JsonxNode.SetDoc | encoding/jsonx/node.go:123 | only the doc comment changes: the line comment, position, kind and children are kept |
| JsonxNode.SetComment | encoding/jsonx/node.go:124 | only the line comment changes: the doc comment, position, kind and children are kept |
| JsonxNode.ByIndex | encoding/jsonx/node.go:159-336 | an object gives child i's key and value, an array "" and child i, a literal "" and nil for any i; objects and arrays require i in range, where Go panics |
| JsonxNode.ByKey | encoding/jsonx/node.go:160-337 | a node is found exactly when the node is an object whose index map holds the key, and it is then that child's value (children[indexMap[key]].value) |
| JsonxNode.BuildObject | encoding/jsonx/node.go:133-147 | adding members one by one to a new object node always gives an object whose map indexes only its children |
| JsonxNode.BuildObjectAppends | encoding/jsonx/node.go:137-169 | as written, an object built by addChild keeps every member, repeated keys included, in call order, and ByKey finds none of them |
| JsonxNode.ElemsValue | encoding/jsonx/node.go:232-242 | the slice built after i children has i entries |
| JsonxNode.Value | encoding/jsonx/node.go:149-332 | the value Value() returns, computed with the three source loops, is the value ValueOf defines |
| JsonxNode.LastWithKey | encoding/jsonx/node.go:149-155 | the index found holds the key and no later child among the first i does |
| JsonxNode.ObjectValueLastWins | encoding/jsonx/node.go:149-155 | an object's value maps exactly its children's keys, a repeated key to the value of its last child |
| JsonxNode.ArrayValueInOrder | encoding/jsonx/node.go:232-242 | an array's value lists its children's values in order |
| JsonxNode.NewLiteralNode | encoding/jsonx/node.go:289-311 | the node is made exactly for Char, String, Float, Int and Ident tokens, with the raw text and the position; any other token gives the error "unexpected begin of json node <value> at <pos>" |
| JsonxNode.NewLiteralNodeKinds | encoding/jsonx/node.go:296-306 | each accepted token gives its own node kind |
| JsonxNode.OutputDoc | encoding/jsonx/node.go:72-83 | the writer gains "\n" + prefix + text for each comment of the doc, and nothing for a nil doc |
| JsonxNode.OutputNext | encoding/jsonx/node.go:85-91 | the writer gains "\n" + prefix + indent in pretty mode and nothing in compact mode |
| JsonxNode.OutputNodeTail | encoding/jsonx/node.go:93-105 | the writer gains the comma, when one is due, then the line comment's text |
| JsonxNode.Output | encoding/jsonx/node.go:69-344 | output writes the node's whole rendering, whatever its dynamic type |
| JsonxNode.OutputCloser | encoding/jsonx/node.go:205-276 | the closer of an empty container alone, of any other container after prefix, and after "\n" too in pretty mode |
| JsonxNode.OutputObject | encoding/jsonx/node.go:171-216 | the writer gains "{", every member's text in order, the closer and the tail |
| JsonxNode.OutputMember | encoding/jsonx/node.go:178-203 | one turn of the member loop writes the member's head and then its value one indent deeper |
| JsonxNode.OutputMemberHead | encoding/jsonx/node.go:178-200 | the doc comment when written, the line break, the key as quoted and ":", and " " in pretty mode |
| JsonxNode.OutputArray | encoding/jsonx/node.go:249-280 | the writer gains "[", every element's text in order, the closer and the tail |
| JsonxNode.OutputElem | encoding/jsonx/node.go:256-267 | one turn of the element loop writes the doc comment when written, the line break, and the element one indent deeper |
| JsonxNode.OutputLiteral | encoding/jsonx/node.go:339-344 | a literal writes its raw text and then its tail |
| JsonxNode.TailLayout | encoding/jsonx/node.go:93-105 | a comma is written exactly when (extraComma or not last) and not top; the line comment follows with no space, and the indent changes nothing |
| JsonxNode.EmptyContainer | encoding/jsonx/node.go:205-276 | an empty object or array prints as "{}" or "[]" in both modes |
| JsonxNode.LiteralVerbatim | encoding/jsonx/node.go:339-344 | a literal's text is written unchanged, sign and quotes included |
| JsonxNode.KeyQuoting | encoding/jsonx/node.go:187-191 | a key is quoted exactly when it is not empty, does not start with '"' and unquoted keys are off |
| JsonxNode.CompactMember | encoding/jsonx/node.go:178-203 | in compact mode a member is its key, ':' and its value, with no line break, space or doc comment and the same prefix |
| JsonxNode.CompactElem | encoding/jsonx/node.go:256-267 | in compact mode an element is its value alone |
| JsonxNode.PrettyMember | encoding/jsonx/node.go:178-203 | in pretty mode a member is its doc, "\n" + prefix + indent, the key, ": " and its value one indent deeper |
| JsonxNode.PrettyElem | encoding/jsonx/node.go:256-267 | in pretty mode an element is its doc, "\n" + prefix + indent and its value one indent deeper |
| JsonxNode.CloserLayout | encoding/jsonx/node.go:205-275 | the three cases of the closer: empty, pretty, compact |
| JsonxNode.DocLinesJoin | encoding/jsonx/node.go:76-81 | the doc lines are "\n" + prefix followed by the comment texts joined by "\n" + prefix |
| JsonxNode.DocLayout | encoding/jsonx/node.go:172-261 | a child's doc comment is written only in pretty mode with comments on, each line at prefix + indent |
| JsonxNode.CompactIsOneLine | encoding/jsonx/node.go:171-344 | in compact mode the output of a node with no line break in its keys, literals and line comments has no line break |
| JsonxNode.CompactMembersOneLine | encoding/jsonx/node.go:177-204 | in compact mode, members whose keys and values have no line break (under a prefix without one) print without a line break |
| JsonxNode.CompactElemsOneLine | encoding/jsonx/node.go:255-268 | in compact mode, elements that each print without a line break print without one together |
| JsonxNode.PrefixOptionUnused | encoding/jsonx/node.go:171-344 | the printer never reads the prefix option: options that differ only in it print a node alike |
| JsonxNode.MembersPrefixOptionUnused | encoding/jsonx/node.go:177-204 | the same for an object's members |
| JsonxNode.ElemsPrefixOptionUnused | encoding/jsonx/node.go:255-268 | the same for an array's elements |
| JsonxNode.AddChildIndexed | encoding/jsonx/node.go:137-147 | the corrected addChild keeps an object whose map indexes only its own children, on the same base |
| JsonxNode.AddChildIndexedByKey | encoding/jsonx/node.go:137-169 | after the corrected addChild, ByKey finds the new value under its key and answers every other key as before |
| JsonxNode.BuildObjectIndexed | encoding/jsonx/node.go:133-147 | an object built with the corrected addChild is an object whose map indexes only its children |
| JsonxNode.BuildObjectIndexedByKey | encoding/jsonx/node.go:137-169 | with the corrected addChild every key is indexed, and ByKey gives the last value added under it |
| Jsonx.ReadMode | encoding/jsonx/jsonx.go:122-125 | the scanner mode always has identifiers, numbers, chars and strings, and has comments exactly when comments are supported |
| Jsonx.Read | encoding/jsonx/jsonx.go:118-129 | Read applies the options and parses with ReadMode's scanner mode; ReadScansCommentsIff states that comments are scanned exactly with WithComment |
| Jsonx.ReadScansCommentsIff | encoding/jsonx/jsonx.go:118-129 | Read scans comments exactly when WithComment is among its options |
| Jsonx.Write | encoding/jsonx/jsonx.go:132-134 | the writer gains the node rendered as the top node at prefix "" with the applied options |
| Jsonx.WriteIgnoresPrefix | encoding/jsonx/jsonx.go:81-134 | adding WithPrefix changes nothing Write writes |
| Jsonx.WriteTopNoComma | encoding/jsonx/jsonx.go:132-134 | the top node gets no trailing comma, even with WithExtraComma: Write writes its body and its line comment |
| Jsonx.Unmarshal | encoding/jsonx/jsonx.go:137-143 | Read's error is returned unchanged; otherwise the result is that of decoding the node |
| JsonxExamples.MemberOfD | encoding/jsonx/jsonx_test.go:28-66 | in pretty mode the member "d" with an empty object prints as "\n  \"d\": {}", with a ',' after it only under WithExtraComma when it is the last member |
| JsonxExamples.ExtraCommaExample | encoding/jsonx/jsonx_test.go:41-67 | with WithExtraComma the last member gets a ',' but the top node does not |
| JsonxExamples.NoExtraCommaExample | encoding/jsonx/jsonx_test.go:40-55 | without it the last member has no ',' |
| JsonxExamples.UnquotedKeyExample | encoding/jsonx/jsonx_test.go:76-92 | an unquoted key is quoted on output unless WithUnquotedKey is given; compact mode writes no space and no line break |
| JsonxExamples.SignsKept | encoding/jsonx/jsonx_test.go:10-30 | "-1" and "+1" are written as read |
| JsonxExamples.LineCommentExample | encoding/jsonx/jsonx_test.go:130 | a line comment follows the comma with no space: "\n  \"a\": 1,// line a" |
| JsonxExamples.ElementDocExample | encoding/jsonx/node.go:256-261 | the doc of an element of the member "c" is written after four spaces, prefix + indent of the array; the expected output at encoding/jsonx/jsonx_test.go:138 shows six |
| BoolSlice.WithBitSpec | container/boolslice/boolslice.go:24-31 | Set(k, v) makes bit k equal to v and leaves every other bit as it was |
| BoolSlice.ByteBit | container/boolslice/boolslice.go:26-30 | `b \|= 1<<j` sets and `b &= ^(1<<j)` clears bit j of a byte, and no other bit changes |
| BoolSlice.Bits | container/boolslice/boolslice.go:19-22 | the first n elements are the bits at index>>3, index&7 |
| BoolSlice.NewWithCapAsWritten | container/boolslice/boolslice.go:12-14 | as written, NewWithCap(size) for size > 0 has length size but no byte of storage, so the storage invariant fails |
| BoolSlice.NewWithCapData | container/boolslice/boolslice.go:12-14 | the corrected storage, (size>>3)+1 zero bytes, holds size elements, all false |
| BoolSlice.BoolSlice.New | container/boolslice/boolslice.go:8-10 | New gives an empty slice with no bytes |
| BoolSlice.BoolSlice.Len | container/boolslice/boolslice.go:16 | Len() is the number of elements the slice holds |
| BoolSlice.BoolSlice.NewWithCap | container/boolslice/boolslice.go:12-14 | the corrected NewWithCap gives size false elements |
| BoolSlice.BoolSlice.Get | container/boolslice/boolslice.go:19-22 | within the length, Get(i) is element i; any index inside the bytes can be read, and one past them panics |
| BoolSlice.BoolSlice.Set | container/boolslice/boolslice.go:24-31 | the bytes become WithBit(old bytes, index, value) and the length is unchanged |
| BoolSlice.BoolSlice.Push | container/boolslice/boolslice.go:33-44 | the contents gain value at the end; a byte is appended exactly when the old bytes are full |
| BoolSlice.BoolSlice.Pop | container/boolslice/boolslice.go:46-56 | returns the last element and removes it; the bytes are cut to (len>>3)+1 when there are more; an empty slice panics |
| BoolSlice.BoolSlice.Shrink | container/boolslice/boolslice.go:61-63 | cutting the bytes to (len>>3)+1 keeps the contents |
| BoolSlice.BoolSlice.Truncate | container/boolslice/boolslice.go:58-75 | the length becomes to - from when from > 0, and otherwise the smaller of to and the old length; when that is not negative the contents become the old contents from max(from, 0) on, that many elements; from <= 0 with to at or past the length leaves length and bytes unchanged; a negative result length leaves no bytes; a length below -8 (where the cut panics) is excluded |
| BoolSlice.BoolSlice.CutLength | container/boolslice/boolslice.go:59-64 | the length becomes the smaller of to and the old length; the contents become the old contents cut to that length when it is not negative, no bytes are kept when it is negative, and a to at or past the length leaves the bytes unchanged |
| BoolSlice.BoolSlice.MoveFront | container/boolslice/boolslice.go:65-74 | on a slice of length to, the length becomes to - from; when that is not negative the contents become old contents[from..to], and otherwise no bytes are kept |
| BoolSlice.BoolSlice.MoveDown | container/boolslice/boolslice.go:67-69 | the copy loop leaves bit k equal to the old bit k + from for every k < l |
| BoolSlice.PushThenPop | container/boolslice/boolslice.go:33-56 | Push(v) then Pop() returns v and restores the contents and the length |
| TextTable.ViewGetFinding | textutil/table.go:91-103 | on a 2 x 2 matrix, the view ClipTable(t, 0, 0, 1, 1) reads "d" at (0, 0) as written, while the corrected Get reads "a", the cell at the view's origin |
| TextTable.Get | textutil/table.go:91-134 | a matrix gives its cell, a header table its header at row 0 and row i-1 of the table below, and a view (with the corrected reading) the cell at its origin plus (i, j) |
| TextTable.ClipTable | textutil/table.go:95-103 | the view has m rows and n columns; it is defined (the source does not panic) only when neither origin coordinate is negative, neither size is negative, and the far corner i+m, j+n lies strictly inside the table |
| TextTable.RowCount | textutil/table.go:83-127 | a matrix has as many rows as entries, a header table one more than its table, and a view its own row count; HeaderRows and ClipTable state them |
| TextTable.ColCount | textutil/table.go:87-133 | a matrix has as many columns as its first row (0 when empty), a header table those of its table, and a view its own column count |
| TextTable.ClipTableCells | textutil/table.go:91-103 | with the corrected Get, cell (a, b) of a view is cell (i+a, j+b) of the table |
| TextTable.HeaderRows | textutil/table.go:105-122 | a header adds one row on top and no column; row 0 is the header and row i is row i-1 of the table |
| TextTable.RectangularComplete | textutil/table.go:124-134 | a matrix whose rows are all as long as the first can be read at every cell within RowCount x ColCount |
| TextTable.HeaderComplete | textutil/table.go:111-118 | a header at least as wide as a complete table keeps every cell readable |
| TextTable.ColWidthIsMax | textutil/table.go:29-38 | a column's width is the greatest length in characters among its cells, and some cell has that length |
| TextTable.TableText | textutil/table.go:23-48 | an empty table, with no rows or no columns, writes nothing; any other table's output ends with "\n" |
| TextTable.BorderLineLength | textutil/table.go:50-57 | the border line is 1 + the sum of (width + 3) characters long |
| TextTable.RowLineLength | textutil/table.go:59-68 | every row line is exactly as long as the border line, because no cell is wider than its column's width |
| TextTable.RowCellsLength | textutil/table.go:62-67 | the first k cells of a row line take the sum of (width + 3) over the first k columns |
| TextTable.CellTextLength | textutil/table.go:63-66 | one cell takes its column's width + 3 characters: a space, the cell padded to width+1, and "\|" |
| TextTable.WidthsPrefix | textutil/table.go:29-38 | the width of a column does not depend on the columns after it |
| TextTable.RepeatStringLength | textutil/table.go:70-74 | repeating s count times gives count·\|s\| characters, and nothing for count <= 0 |
| TextTable.RepeatWriteString | textutil/table.go:70-74 | the writer gains s count times |
| TextTable.RowBorderLine | textutil/table.go:50-57 | the loop builds "+", then, per column, width+2 dashes and "+" |
| TextTable.WriteTableRow | textutil/table.go:59-68 | the writer gains "\|" followed by every cell of the row, each padded to width+1 between " " and "\|" |
| TextTable.WriteCell | textutil/table.go:63-66 | one turn of the row loop writes one cell's text |
| TextTable.ColumnWidths | textutil/table.go:28-38 | the width array holds, per column, the greatest cell length |
| TextTable.WriteTable | textutil/table.go:23-48 | the writer gains TableText(t): the border, then, per row, "\n", the row line, "\n" and the border, then one final "\n" |
| TextTable.WriteRows | textutil/table.go:41-46 | the row loop writes the blocks of rows 0 .. RowCount-1 in order |
| TextTable.WriteRowBlock | textutil/table.go:42-45 | one turn of the row loop writes "\n", the row line, "\n" and the border |
| GoMath.Rem | math/random/random.go:53 | Go's % truncates toward zero: r differs from a by a multiple of \|b\|, and lies in [0, \|b\|) for a non-negative dividend and in (-\|b\|, 0] for a negative one, which fixes it |
| GoMath.RemCongruent | math/random/random.go:53 | n and -n differ from n's remainder and its negation by a multiple of m |
| GoMath.MultipleRem | math/random/random.go:53 | a multiple of m leaves remainder 0 |
| GoMath.Int8 | game/poker/landlord/landlord3.go:192 | int8(x) keeps x modulo 256, read as two's complement, and is the identity on [-128, 128) |
| Algorithm.Partner | algorithm/rand.go:18 | the swap partner int(source.Int63()) % (i+1) of a non-negative draw lies in [0, i] |
| Algorithm.PartnerAt | algorithm/rand.go:15-18 | the partner used in a round lies in [0, i], whether it comes from the source or from rand.Intn(i+1) |
| Algorithm.SwapPermutation | algorithm/rand.go:16-18 | swapping two elements keeps the multiset of elements |
| Algorithm.StepsNext | algorithm/rand.go:14-20 | each further round of the countdown swaps the next lower index with its partner for the next draw |
| Algorithm.StepsPermutation | algorithm/rand.go:13-21 | any number of rounds keeps the multiset of elements |
| Algorithm.ShuffledPermutation | algorithm/rand.go:13-21 | the whole shuffle keeps the length and the multiset of elements |
| Algorithm.DrawsOf | algorithm/rand.go:15-18 | a shuffle draws from the source when there is one, and from rand.Intn when it is nil, starting at the draws not yet taken |
| Algorithm.SwapElements | algorithm/rand.go:16-18 | the elements at i and j trade places and nothing else moves |
| Algorithm.Round | algorithm/rand.go:15-19 | one round swaps index i with its partner for exactly one draw, taken from the source, or from rand.Intn when the source is nil (which then leaves rand.Intn untouched otherwise) |
| Algorithm.Shuffle | algorithm/rand.go:13-21 | the slice ends as the countdown from the last index to 0 leaves it, one swap and one draw per index, so none for an empty slice; with a source, rand.Intn is not called |
| Algorithm.ShuffleInts | algorithm/rand.go:23 | Shuffle on an int slice; the result is a permutation of the input |
| Algorithm.ShuffleFloats | algorithm/rand.go:24 | Shuffle on a float64 slice; the result is a permutation of the input |
| Algorithm.ShuffleStrings | algorithm/rand.go:25 | Shuffle on a string slice; the result is a permutation of the input |
| RandSource.Source.Int63 | algorithm/rand.go:18 | source.Int63() hands out the next number of the source's stream, a non-negative 63-bit integer |
| RandSource.GlobalRand.Intn | algorithm/rand.go:16 | rand.Intn(n), for n > 0, gives the next answer of the global generator, a number in [0, n) |
| RandSource.Choose | math/random/random.go:45-50 | a nil source stands for DefaultSource; any other source is used as it is |
| Random.Int63 | math/random/random.go:45-50 | the next number of the given source, or of DefaultSource when the source is nil; exactly one number is drawn |
| Random.IntnOf | math/random/random.go:52-54 | Intn(n) is the drawn number's remainder by \|n\|, so x % n for n > 0, and lies in [0, \|n\|) |
| Random.Intn | math/random/random.go:52-54 | Intn draws one number and returns its remainder by n; n = 0 (a Go panic) is excluded |
| Random.BoolOf | math/random/random.go:56-58 | Bool is true exactly when the drawn number is odd |
| Random.Bool | math/random/random.go:56-58 | Bool draws one number and returns Intn(2) == 1 |
| Random.LowBits | math/random/random.go:64-68 | the four flag bits of a mode, two's complement, lie below 16 |
| Random.Flags | math/random/random.go:64-67 | the OR of all modes, restricted to the four flag bits, lies below 16 |
| Random.Mode | math/random/random.go:64-70 | the effective mode is never empty: the OR of the modes when it sets a known flag, and exactly lower and upper case when it sets none (an empty or flagless list) |
| Random.Charset | math/random/random.go:13-18 | each of the four charsets is non-empty |
| Random.Flag | math/random/random.go:20-25 | each O_ flag is a single non-zero bit among the low four |
| Random.Size | math/random/random.go:71-83 | size, the sum of the enabled charsets' lengths, lies between 0 and the length of all four, and is positive when a known flag is set |
| Random.Cascade | math/random/random.go:90-122 | the cascade of the loop body picks entry index of the concatenation of the enabled charsets (digits, lower, upper, special) when index lies within it, and gives '-' exactly past its end |
| Random.SizeIsAlphabetLength | math/random/random.go:71-83 | size is the length of the concatenated enabled charsets and is positive |
| Random.RandomText | math/random/random.go:88-124 | the string of n drawn bytes has length n |
| Random.RandomTextFromAlphabet | math/random/random.go:88-124 | the random text has the requested length and byte i is the alphabet's entry at draw i modulo the alphabet's length |
| Random.DrawnSnoc | math/random/random.go:88-123 | appending the byte for the next draw keeps the text drawn from the alphabet |
| Random.RandomTextSnoc | math/random/random.go:88-123 | appending the alphabet's entry at draw start + i to the text of i draws gives the text of i + 1 draws |
| Random.RandomTextNext | math/random/random.go:88-123 | one more loop round appends the alphabet's entry at the next draw modulo size, and size is the alphabet's length |
| Random.String | math/random/random.go:60-125 | a length of zero or less gives "" and draws nothing; otherwise the result is the random text of exactly length bytes over the effective mode, one draw per byte from the source or DefaultSource |
| Random.Draw | math/random/random.go:84-124 | the loop draws length numbers and builds the random text of those draws, one alphabet entry per number |
| Random.DrawNext | math/random/random.go:89-123 | one loop round extends the random text of i draws to that of i + 1 draws and uses up one number |
| Random.DrawByte | math/random/random.go:89-122 | one round draws one number and writes the alphabet's entry at that number modulo size, size being the alphabet's length |
| Random.Shuffle | math/random/random.go:132-140 | the same countdown as Algorithm.Shuffle, with rand.Intn for a nil source; the result is a permutation of the input |
| Poker.Order | game/poker/poker.go:27-29 | an order is the five bits above the suit, so it lies in 0 .. 31 |
| Poker.Kind | game/poker/poker.go:31-33 | a kind is the low three bits, so it lies in 0 .. 7 |
| Poker.Value | game/poker/poker.go:35-41 | orders 1 and 2 count 15 and 16; every other order counts itself |
| Poker.PackBits | game/poker/poker.go:23-33 | a kind below 8 and an order below 32 packed into a byte read back unchanged |
| Poker.ByteOf | game/poker/poker.go:24 | a number below 32 keeps its value as a byte |
| Poker.NewKindOrder | game/poker/poker.go:23-33 | Kind(New(kind, order)) is kind for any kind below 8, and Order(New(kind, order)) is order mod 32: the uint8 conversion keeps five bits of the order |
| Poker.New | game/poker/poker.go:23-25 | New packs the kind into the low three bits and the order, truncated as uint8, above them; NewKindOrder states that Kind and Order read them back |
| Poker.JokerOrders | game/poker/poker.go:23-118 | the jokers' orders 101 and 102 come out as 5 and 6, so their Values equal those of the fives and sixes; their kinds are kept |
| Poker.ValueRanks | game/poker/poker.go:35-41 | among the suit orders 1 .. 13, Value lies in 3 .. 16, is one-to-one, keeps the order of 3 .. 13 and ranks aces and twos above them |
| Poker.LessByValueStrictWeak | game/poker/poker.go:49-53 | ByValue's Less is irreflexive and transitive and its incomparability is transitive, as sort.Sort requires |
| Poker.LessByValue | game/poker/poker.go:49-53 | ByValue's Less compares Value; LessByValueStrictWeak states it is a strict weak order |
| Poker.LessByOrder | game/poker/poker.go:43-47 | ByOrder's Less compares Order; LessByOrderStrictWeak states it is a strict weak order |
| Poker.LessByOrderStrictWeak | game/poker/poker.go:43-47 | ByOrder's Less is irreflexive and transitive and its incomparability is transitive, as sort.Sort requires |
| Poker.Suit | game/poker/poker.go:56-68 | a suit has 13 cards |
| Poker.DeckLength | game/poker/poker.go:55-114 | the deck table has 54 cards |
| Poker.SuitCard | game/poker/poker.go:56-110 | card o of a suit has that suit as kind and o + 1 as order |
| Poker.DeckShape | game/poker/poker.go:55-114 | the table holds spades, hearts, clubs and diamonds 1 .. 13 in that order, then Joker1 and Joker2 |
| Poker.Pick | game/poker/poker.go:121-127 | as many cards as positions |
| Poker.PickCards | game/poker/poker.go:122-126 | the loop gives, for each position, the table's card at that position |
| Poker.GetPokers | game/poker/poker.go:121-127 | the cards of the deck at the given positions, in order; a position outside 0 .. 53 is excluded, where Go panics |
| Poker.Range | game/poker/poker.go:129-135 | entry i of newOrders(n) is i |
| Poker.NewOrders | game/poker/poker.go:129-135 | the new array holds 0 .. n-1 in order |
| Poker.PickAppend | game/poker/poker.go:121-127 | picking by a + b is picking by a followed by picking by b |
| Poker.PickSwap | game/poker/poker.go:121-140 | picking after swapping two positions is swapping two picked cards |
| Poker.PickSteps | game/poker/poker.go:139-140 | picking by shuffled positions is shuffling the picked cards with the same draws |
| Poker.ShuffledDeck | game/poker/poker.go:139-140 | for any draws, from a source or from rand.Intn, picking the deck by shuffled positions gives a permutation of the deck |
| Poker.Insert | game/poker/poker.go:150 | inserting into a sorted hand keeps it sorted and adds exactly that card |
| Poker.SortBy | game/poker/poker.go:150 | the sort used for sort.Sort(ByValue) gives a sorted permutation of its input |
| Poker.SortedPairwise | game/poker/poker.go:150 | in a sorted hand no card comes after one of higher value |
| Poker.Used | game/poker/poker.go:143-151 | the cards handed out so far never exceed 54 |
| Poker.UsedStep | game/poker/poker.go:144-151 | hand k takes min(nums[k], cards left) cards |
| Poker.SortByValueSorts | game/poker/poker.go:150 | the sort permutes and sorts by Value |
| Poker.Hands | game/poker/poker.go:142-152 | the first k hands are k hands |
| Poker.FlattenSnoc | game/poker/poker.go:142-152 | the cards of one more hand follow those of the others |
| Poker.PickSplit | game/poker/poker.go:146-153 | the cards at the positions before u and from u on are together the cards at all positions |
| Poker.HandsIndex | game/poker/poker.go:144-151 | hand i of the first k hands is the i-th hand dealt |
| Poker.DealtHand | game/poker/poker.go:144-151 | hand i holds min(nums[i], cards left) cards, sorted by Value |
| Poker.RemainsSize | game/poker/poker.go:153 | the remains are the 54 - Used cards no hand took |
| Poker.HandShape | game/poker/poker.go:145-150 | one hand has min(nums[i], cards left) cards and is sorted |
| Poker.PickPrefixes | game/poker/poker.go:146-151 | the cards of consecutive shares add up to those of their union |
| Poker.SnocCards | game/poker/poker.go:144-152 | one more hand adds exactly its cards to those already dealt |
| Poker.HandCards | game/poker/poker.go:145-150 | a hand holds the cards at its share of the shuffled positions |
| Poker.HandsCards | game/poker/poker.go:142-152 | the first k hands together hold the cards at the first Used(k) shuffled positions |
| Poker.DealPartition | game/poker/poker.go:138-155 | hands and remains together hold every card of the deck exactly once, whatever the counts |
| Poker.ShuffledDealable | game/poker/poker.go:139-140 | shuffled positions are valid positions that pick every card once |
| Poker.DealHand | game/poker/poker.go:145-151 | one turn of Deal's loop gives the next nums[i] cards, or all that are left, sorted, and advances the count by the hand's size |
| Poker.DealDeck | game/poker/poker.go:138-155 | for any draws, the hands and the remains of a deal hold every card of the deck exactly once, and the remains are the cards no hand took |
| Poker.DealDeckHand | game/poker/poker.go:144-151 | hand i of a deal holds min(nums[i], cards left) cards, sorted by Value |
| Poker.Deal | game/poker/poker.go:137-155 | hands and remains are those of the deck dealt along the positions ShuffleInts gives with a nil source, so the next 54 answers of rand.Intn are used and taken; the shuffled positions are dealable |
| Poker.DealHands | game/poker/poker.go:142-154 | Deal's loop over the counts gives the hands and remains the spec functions describe |
| Landlord3.Failed | game/poker/landlord/landlord3.go:240-241 | a callback's error is returned as it is, and nil stays nil |
| Landlord3.PlayerIndex | game/poker/landlord/landlord3.go:163-170 | GetPlayer's index lies in 0 .. 2 for any pos, negative ones included |
| Landlord3.PlayerIndexMod | game/poker/landlord/landlord3.go:163-180 | GetPlayer(pos) is player pos mod 3 (non-negative remainder); GetNextPlayer and GetPrevPlayer are the neighbours, and they undo each other |
| Landlord3.PlayerIndexIsMod | game/poker/landlord/landlord3.go:163-170 | GetPlayer's corrected index is pos mod 3, the non-negative remainder |
| Landlord3.NextTurnOf | game/poker/landlord/landlord3.go:198-201 | nextTurn's int8 remainder of any int8 turn lies strictly between -3 and 3 |
| Landlord3.TurnCycles | game/poker/landlord/landlord3.go:198-201 | from a turn in 0 .. 2, nextTurn gives (turn+1) mod 3, never the same turn, and is back after three steps |
| Landlord3.SetPlayingToggles | game/poker/landlord/landlord3.go:113-119 | with Playing 0 or 1, exactly one of setPlaying(true) and setPlaying(false) succeeds, and a success makes the opposite call succeed next |
| Landlord3.Winner | game/poker/landlord/landlord3.go:146-151 | the winner position is -1 or a player index |
| Landlord3.WinnerIsLastEmpty | game/poker/landlord/landlord3.go:146-153 | the winner is -1 exactly when no hand is empty; otherwise it is the last player whose hand is empty |
| Landlord3.GameoverEnds | game/poker/landlord/landlord3.go:141-160 | beforeGameover leaves Playing 0 and changes nothing else; it returns ErrGameover exactly when the game was not playing, and ErrUnexpectedGameover exactly when it was playing, the call is not forced and no hand is empty |
| Landlord3.MultiplyAll | game/poker/landlord/landlord3.go:126-130 | double(m) keeps the number of players |
| Landlord3.MultiplyAllOnlyMultiplies | game/poker/landlord/landlord3.go:126-130 | double(m) changes only Multiple; without int32 overflow, each Multiple is multiplied by m exactly |
| Landlord3.BidRules | game/poker/landlord/landlord3.go:229-248 | OnBidLandlord returns ErrState exactly outside the Bid stage and ErrTurn exactly when pos is not on turn, changing nothing in both cases; it succeeds exactly in stage and on turn with a callback that does not fail; in stage and on turn the player's state becomes the callback's, even when it fails; a successful bid passes the turn to (Turn+1) mod 3, or, when over, makes the player on turn the landlord and opens the Double stage; the state stays valid |
| Landlord3.BidStep | game/poker/landlord/landlord3.go:229-248 | a bid keeps three players, the doubled record, the playing flag and the last play; the stage stays, except that a successful bid in the Bid stage may open the Double stage |
| Landlord3.DoubleAsWrittenRepeats | game/poker/landlord/landlord3.go:250-269 | as written, positions 0, 3 and 6 name the same player, pass the repeat check each time, record player 0 three times and open the Play stage |
| Landlord3.AllDoubled | game/poker/landlord/landlord3.go:265-267 | three distinct recorded positions in 0 .. 2 are all three players |
| Landlord3.DoubleRules | game/poker/landlord/landlord3.go:250-269 | with the repeat check on the recorded position: OnDouble returns ErrState exactly outside the Double stage and ErrCommandRepeated exactly when the player is already recorded, changing nothing in both cases; otherwise the player is appended to the record, even when its callback fails; a success with multiple > 1 sets the player's state to the callback's, one with multiple <= 1 keeps every player's state; a success opens Play exactly when three players are recorded; no player is recorded twice |
| Landlord3.DoubleFailureStaysInDouble | game/poker/landlord/landlord3.go:259-264 | a failing Double callback for the third player still records that player but returns before the stage moves to Play |
| Landlord3.BeatRule | game/poker/landlord/landlord3.go:315-329 | the beat rule is irreflexive, asymmetric and transitive; a bomb or rocket beats any non-bomb and no non-bomb beats it; two bombs compare by value; two non-bombs need the same category and a greater value |
| Landlord3.HandsOfPokers | game/poker/landlord/landlord3.go:294-297 | the stub's hand is never valid |
| Landlord3.PlayRules | game/poker/landlord/landlord3.go:299-343 | a play out of stage, out of turn, unclassified or not beating another player's valid last play changes nothing; an accepted play records player, hand and cards as the last play; the turn passes to (Turn+1) mod 3 unless a hand is now empty, when the game stops playing; ErrUnexpectedGameover never arises |
| Landlord3.PlayStep | game/poker/landlord/landlord3.go:299-343 | a play keeps three players, the stage, the doubled record and the landlord |
| Landlord3.StubRefusesEveryPlay | game/poker/landlord/landlord3.go:294-313 | with the stub classification every play and every pass is refused and changes nothing |
| Landlord3.StagesMoveForward | game/poker/landlord/landlord3.go:203-207 | no command moves the game back to an earlier stage |
| Landlord3.Landlord3.constructor | game/poker/landlord/landlord3.go:58-72 | exactly three players (the code panics otherwise); player i gets Pos i, Multiple 1 and its ID; the stage is the zero stage, Ready |
| Landlord3.Landlord3.SetPlaying | game/poker/landlord/landlord3.go:113-119 | the compare-and-swap succeeds only from 0 to 1 (on) or from 1 to 0 (off), and changes Playing only then |
| Landlord3.Landlord3.Gameover | game/poker/landlord/landlord3.go:132-139 | gameover is true exactly when some player's hand is empty |
| Landlord3.Landlord3.BeforeGameover | game/poker/landlord/landlord3.go:141-160 | the loops give the outcome GameoverEnds describes; when it is nil and not forced, every player is told the last empty position as the winner |
| Landlord3.Landlord3.Shutdown | game/poker/landlord/landlord3.go:121-123 | Shutdown is a forced beforeGameover |
| Landlord3.Landlord3.Double | game/poker/landlord/landlord3.go:126-130 | the loop multiplies every Multiple by int32(m), wrapping as int32, and changes nothing else |
| Landlord3.Landlord3.IsDoubled | game/poker/landlord/landlord3.go:209-216 | doubled(pos) is true exactly when int8(pos) is recorded |
| Landlord3.Landlord3.ExpectStages | game/poker/landlord/landlord3.go:182-189 | nil exactly when the stage is one of those given, ErrState otherwise |
| Landlord3.Landlord3.ExpectTurn | game/poker/landlord/landlord3.go:191-196 | nil exactly when Turn equals int8(pos), ErrTurn otherwise |
| Landlord3.Landlord3.NextTurn | game/poker/landlord/landlord3.go:198-201 | Turn becomes (Turn+1) % 3 in int8 arithmetic, and the new Turn is returned |
| Landlord3.Landlord3.SelectLandlord | game/poker/landlord/landlord3.go:203-207 | the player on turn becomes the landlord and the stage becomes Double; nothing else changes |
| Landlord3.Landlord3.StoreLastPokers | game/poker/landlord/landlord3.go:218-225 | after growing and cutting the buffer, the last cards are exactly the played cards |
| Landlord3.Landlord3.OnBidLandlord | game/poker/landlord/landlord3.go:229-248 | the new state and the error are those BidRules describes, and the state stays valid |
| Landlord3.Landlord3.OnDouble | game/poker/landlord/landlord3.go:250-269 | the new state and the error are those DoubleRules describes, and the state stays valid |
| Landlord3.Landlord3.OnRevealCards | game/poker/landlord/landlord3.go:271-281 | ErrState without any change outside the Play stage or once cards have been played; otherwise the player's callback decides the error |
| Landlord3.Landlord3.PlayCards | game/poker/landlord/landlord3.go:299-343 | the new state and the error are those PlayRules describes, and the state stays valid |
| Landlord3.Landlord3.AcceptPlay | game/poker/landlord/landlord3.go:334-342 | an accepted play is recorded, then the game ends through beforeGameover(false) or the turn passes on |
| Landlord3.Landlord3.OnPlayCards | game/poker/landlord/landlord3.go:283-288 | an empty play is refused with ErrEmptyPokers and changes nothing; any other play goes through playCards with the stub classification |
| Landlord3.Landlord3.OnPass | game/poker/landlord/landlord3.go:290-292 | a pass is playCards with no cards |
| ExprValue.Var.Int | expr/value.go:101-106 | Int() is the integer field for every kind but float; a float is truncated toward zero (int64 conversion): the greatest integer not above it when it is non-negative, the least not below it when negative |
| ExprValue.Var.And | expr/value.go:137 | And is True() or False(), true exactly when both operands are true by Bool() |
| ExprValue.Var.Or | expr/value.go:138 | Or is True() or False(), true exactly when either operand is true by Bool() |
| ExprValue.Var.Not | expr/value.go:139 | Not is True() or False(), the negation of Bool() |
| ExprValue.Var.Bool | expr/value.go:113-123 | a string is true exactly when non-empty, an integer or a float exactly when non-zero, and an invalid value is never true |
| ExprValue.Var.Contains | expr/value.go:155-160 | Contains is True() exactly when both values are strings and v2's raw text occurs in v's at some offset; False() otherwise |
| ExprValue.Zero | expr/value.go:34-40 | Zero() is the integer 0 with raw text "0", which is false |
| ExprValue.OfBool | expr/value.go:44-49 | Bool(ok) is True() (KindInt, 1) for true and False() (KindInt, 0) for false, and its truth is ok |
| ExprValue.Int | expr/value.go:51 | Int(i) has kind KindInt, integer value i and the decimal text of i as raw text, and it is true exactly when i is not 0 |
| ExprValue.IntTextReadsBack | expr/value.go:51 | the raw text of Int(i) reads back as i: the digits of i, after a '-' when i is negative |
| ExprValue.IntReadsBack | expr/value.go:47-106 | Int() gives back the integer i of Int(i), and 1 or 0 for a truth value |
| ExprValue.String | expr/value.go:53 | String(s) has kind KindString and raw text s, and it is true exactly when s is non-empty |
| ExprValue.NewVar | expr/value.go:63-65 | NewVar keeps the name and kind, with empty raw text and zero values, so it is false |
| ExprValue.FirstParseFirst | expr/value.go:75-81 | the base loop fails exactly when no base parses; otherwise it takes the value of the first base that parses |
| ExprValue.ParseInteger | expr/value.go:74-84 | the loop over bases 10, 16 and 8 stops at the first that parses |
| ExprValue.Set | expr/value.go:69-96 | Set returns the error of the rules SetRules states, and works on its copy of the value |
| ExprValue.SetRules | expr/value.go:69-96 | Set never fails for a string, always fails with ErrUnsupportedType for an invalid value, and fails for an integer exactly when none of bases 10, 16 and 8 parses, then with ErrFailToParseInteger |
| ExprValue.SetError | expr/value.go:69-96 | no error for a string, ErrUnsupportedType exactly for an invalid value, and ErrFailToParseFloat only for a float |
| ExprValue.Lt | expr/value.go:152 | Lt(a, b) is the answer of Gt(b, a) |
| ExprValue.Le | expr/value.go:153 | Le(a, b) is the answer of Ge(b, a) |
| ExprValue.Neq | expr/value.go:142-148 | Neq passes Eq's error through unchanged; without an error it is a truth value, the negation of Eq's |
| ExprValue.TruthRoundTrip | expr/value.go:35-49 | Bool(true) is True() and Bool(false) is False(); Not twice gives back a value's truth |
| ExprValue.DeMorgan | expr/value.go:137-139 | And, Or and Not obey De Morgan's laws |
| ExprValue.ContainsExamples | expr/value.go:155-160 | a string contains "" and itself; a value that is not a string contains nothing |
| Smtpd.SplitCommand | smtpd/smtpd.go:85-93 | the verb is the text before the first space and holds no space; the arguments are the rest of the line after that space, or "" when the line has no space, and the line is verb + " " + arguments |
| Smtpd.NoQuitAnswersAll | smtpd/smtpd.go:79-98 | when no line is a QUIT, every line gets its reply, in order, and a greeting among them is remembered |
| Smtpd.FirstQuitEndsSession | smtpd/smtpd.go:94-97 | the first QUIT ends the session: the lines up to and including it are answered and nothing after it is read |
| Smtpd.AnswersSnoc | smtpd/smtpd.go:79-98 | one more answered line adds exactly its reply at the end |
| Smtpd.TranscriptUnfold | smtpd/smtpd.go:79-98 | a loop turn answers the current line, then stops if it was a QUIT and reads on otherwise |
| Smtpd.Session.constructor | smtpd/smtpd.go:69-75 | a new session has not been greeted, has sent nothing and is open |
| Smtpd.Session.ResponseOK | smtpd/smtpd.go:133-135 | sends "250 OK" and changes nothing else |
| Smtpd.Session.CommandNotImplemented | smtpd/smtpd.go:129-131 | sends "502 command not implemented", whatever the command, and changes nothing else |
| Smtpd.Session.OnHello | smtpd/smtpd.go:137-145 | the greeting is recorded in any case; the reply is "250 OK" with an argument and "500 syntax error" without one |
| Smtpd.Session.OnQuit | smtpd/smtpd.go:147-150 | sends "221 bye" and asks to end the session |
| Smtpd.Session.Dispatch | smtpd/smtpd.go:101-127 | exactly one reply per command, the one Reply gives; only QUIT asks to end, and only HELO or EHLO records a greeting |
| Smtpd.Session.HandleLine | smtpd/smtpd.go:85-97 | a received line is split into verb and arguments and dispatched: one reply, and the end of the session exactly for QUIT |
| Smtpd.Session.Run | smtpd/smtpd.go:77-99 | the session sends "220 Service ready", then the transcript of the lines up to the first QUIT, and is closed at QUIT or when the lines run out |
| Smtpd.RepliesWellFormed | smtpd/smtpd.go:78 | the greeting and every reply are reply lines of section 4.2 of RFC 5321 (three digits, a space, text), with codes 220, 250, 500, 221 or 502 |
| Smtpd.ReplyByVerb | smtpd/smtpd.go:103-126 | NOOP gets 250; HELO and EHLO get 250 with an argument and 500 without; exactly QUIT gets 221; exactly the other verbs, HELP, EXPN, VRFY and RSET included, get 502 |
| Smtpd.VerbsAreCaseSensitive | smtpd/smtpd.go:103-124 | "noop" and "quit" in lower case get 502 and do not end the session, though section 2.4 of RFC 5321 makes verbs case-insensitive |
| PacketReader.BigEndianUint32 | netutil/packet_reader.go:64 | the decoded length is a uint32 |
| PacketReader.PutUint32 | netutil/packet_reader.go:64 | the big-endian encoding of a uint32 has four bytes |
| PacketReader.DecodeEncode | netutil/packet_reader.go:64 | decoding the four big-endian bytes of a length gives the length back |
| PacketReader.EncodeDecode | netutil/packet_reader.go:64 | re-encoding a decoded header gives the header back, so the decoding is one-to-one |
| PacketReader.Fill | netutil/packet_reader.go:58-74 | a read fills at most len(p) bytes of p with what it delivers and leaves the rest of p as it was |
| PacketReader.Reader.constructor | netutil/packet_reader.go:35-41 | a new reader has an empty buffer, a zero header, the connection's reads still to come and no packet handled |
| PacketReader.Reader.Read | netutil/packet_reader.go:58 | conn.Read consumes the next read result and copies its bytes into p; nothing else changes |
| PacketReader.Reader.ReadBody | netutil/packet_reader.go:70-82 | the buffer is reallocated to exactly length only when shorter, the body is read into its first length bytes, the total adds the bytes read, and on success the handler gets buf[:length] once |
| PacketReader.Reader.ReadPacket | netutil/packet_reader.go:51-83 | the total, the error and the new state are those of the framing rules of the lemmas below |
| PacketReader.ReadPacketStep | netutil/packet_reader.go:51-83 | ReadPacket keeps a four-byte header and consumes read results; a failure hands nothing to the handler, a success hands it exactly one new packet after the old ones |
| PacketReader.HeaderErrorStops | netutil/packet_reader.go:58-63 | a failed header read returns the bytes it read and its error; the body is not read, the buffer is kept and no packet is handled |
| PacketReader.TooBigIsRefused | netutil/packet_reader.go:66-69 | a header announcing more than 4·1024·1024 bytes returns errLengthTooBig after 4 bytes, without reading the body and without touching the buffer or the handler |
| PacketReader.WholePacketIsHandled | netutil/packet_reader.go:51-83 | a complete packet is handed to the handler once, with exactly its body; the result is 4 plus the body length, and the buffer grows to the length only when it was shorter |
| PacketReader.BufferNeverShrinks | netutil/packet_reader.go:71-73 | the buffer never shrinks, and when its length changes it becomes exactly the header's length |
| PacketReader.ShortBodyIsHandled | netutil/packet_reader.go:74-81 | a body read that delivers 1 of 3 announced bytes still hands the handler 3 bytes, the missing ones being the buffer's old content |
| TestingEx.CutAfterLast | testing/testing_ex.go:24-28 | the result is a suffix of the name holding no separator, the whole name when it holds none, and otherwise exactly the text after the last separator: the character just before the suffix is the separator |
| TestingEx.BaseName | testing/testing_ex.go:22-28 | the base name is a suffix without '/': the text after the last '/' when there is one; with no '/', the text after the last '\\' when there is one, else the whole name |
| TestingEx.Lines | testing/testing_ex.go:37-40 | there is always at least one line |
| TestingEx.Decorate | testing/testing_ex.go:20-50 | the buffer built piece by piece is the header, the lines joined by a newline and two tabs, and one final newline |
| TestingEx.LinesRoundTrip | testing/testing_ex.go:37-40 | the lines hold no newline and, joined back with newlines, give the message, less the one trailing newline when it has one |
| TestingEx.TrailingNewlineNotDoubled | testing/testing_ex.go:37-48 | a message decorates the same with or without one trailing newline, so the newline Sprintln adds is not doubled |
| TestingEx.LocationRules | testing/testing_ex.go:21-36 | an unknown caller gives the header "\t???:1: ", a known one the base name of its file and its line |
| TestingEx.Common.constructor | testing/testing_ex.go:14-17 | a new test state has collected no output |
| TestingEx.Common.LogWithCalldepth | testing/testing_ex.go:14-18 | the decorated message is appended to the output and nothing else changes |
| TestingEx.Common.LogCalldepth | testing/testing_ex.go:10-12 | the output grows by the decoration of the operands joined by spaces with a newline at the end |
| GoErrors.Throw | errors/errors.go:31-46 | a thrown error reads as its text with tracing off, and as its caller's stack, a newline and the text with tracing on |
| GoErrors.Wrap | errors/errors.go:73-78 | Wrap gives a wrapped error whose Core() is the error it was given |
| GoErrors.Core | errors/errors.go:81-96 | Core takes off wrapping layers while the error is wrapped, at most 32 of them; nil stays nil |
| GoErrors.UnwrapPeels | errors/errors.go:85-94 | unwrapping n layers takes off exactly min(n, depth) of them, and within the limit what is left is not wrapped |
| GoErrors.CoreRules | errors/errors.go:81-96 | Core(nil) is nil, Core(e) is e when e is not wrapped, an error wrapped at most 32 times comes out unwrapped, and a deeper one keeps all but 32 of its layers |
| GoErrors.Innermost | errors/errors.go:49-73 | the innermost error under the wrapping layers is not wrapped, and is the error itself when that is not wrapped |
| GoErrors.MessageThroughWraps | errors/errors.go:62-71 | with tracing off a wrapped error reads as the innermost error it wraps; with tracing on each layer puts its stack and a newline in front of the wrapped error's text |
| GoErrors.StringErrorText | errors/errors.go:10-12 | Error(s).Error() is s, whatever the trace switch says |
| GoErrors.Message | errors/errors.go:12-70 | Error() of each error: tracing off gives the text, tracing on the stack, a newline and the text; MessageThroughWraps and StringErrorText state it through the wrapping layers |
| GoErrors.TraceSwitch.constructor | errors/errors.go:14 | tracing starts on (the flag is 1) |
| GoErrors.TraceSwitch.SwitchTrace | errors/errors.go:17-23 | the flag becomes 1 when switched on and 0 when switched off |
| GoErrors.TraceSwitch.ErrorText | errors/errors.go:35-40 | Error() follows the current switch; with tracing off a wrapped error gives the bare text of the error it wraps |
| Validator.Calls | flag/validator/validator.go:24-31 | Validate calls at most as many validators as the list holds |
| Validator.BoolValidatorRule | flag/validator/validator.go:51-56 | a boolean validator fails exactly when its value is false, and then with its message |
| Validator.FirstErrorRules | flag/validator/validator.go:24-31 | the list passes exactly when every validator passes, and then all are called; otherwise the error is that of the last validator called, and every validator before it passed |
| Validator.FirstErrorSnoc | flag/validator/validator.go:34-43 | appending a validator to a passing list makes the list's result the new validator's; appending to a failing list changes nothing |
| Validator.ValidatorList.constructor | flag/validator/validator.go:19-22 | NewSet is an empty list |
| Validator.ValidatorList.Validate | flag/validator/validator.go:24-31 | the loop returns the first error in list order, after calling exactly the validators up to that one; nil for an empty or passing list |
| Validator.ValidatorList.AndRequire | flag/validator/validator.go:34-37 | appends exactly one boolean validator at the end and returns the same list |
| Validator.ValidatorList.And | flag/validator/validator.go:40-43 | appends exactly the given validator at the end and returns the same list |
| Validator.Require | flag/validator/validator.go:59-62 | a new list holding exactly the one boolean validator |
| Validator.ChainOfRequirements | flag/validator/validator.go:24-62 | an empty list passes and calls nothing; a chain of two requirements fails with the first false one's message after calling up to it, and passes when both hold |
| Config.OneColon | config/config.go:76-82 | with exactly one ':' the format is the text before it (json when that is empty) and the file the text after it |
| Config.NoColon | config/config.go:83-88 | without ':' the file is the whole spec and the format is the text after the last '.' unless that dot is first or last |
| Config.ManyColons | config/config.go:70-88 | with two or more ':' the format stays json and the file is the whole spec |
| Config.ExplicitFormatExample | config/config.go:76-82 | "xml:a" writes xml to file "a" |
| Config.EmptyFormatExample | config/config.go:76-82 | ":a" writes json to file "a" |
| Config.ExtensionExamples | config/config.go:83-88 | "c.xml" gives format xml; ".xml" and "a." give json; the file is the whole spec |
| Config.InitRules | config/config.go:37-107 | a read failure returns "read config from <source>: <error>" and writes nothing; after a good read or none, an empty output returns nil and any other goes to the output step; Init exits only when an output is named |
| Config.Init | config/config.go:37-107 | Init reads from the source, then writes the output, an empty field skipping its step; InitRules states the outcome |
| Config.OutputRules | config/config.go:89-105 | a format other than json or xml is refused with "unsupported output format" before marshalling; exit happens exactly when marshalling and writing both succeed, with status 2 and the spec's file |
| Config.OutputTarget | config/config.go:76-88 | the format is never empty (json by default), and a spec without exactly one ':' is the file name as a whole |
| Config.SourceKinds | config/config.go:43 | only an "http://" or "https://" prefix, case-sensitive, makes a source an HTTP one |
| HttpUtil.GetProxy | netutil/httputil/httputil.go:28-33 | no entries for an empty header; otherwise at least one entry, none holding ',', joined back with ',' giving the header |
| HttpUtil.Before | netutil/httputil/httputil.go:14-19 | the result is the prefix of the text up to its first separator, and holds no separator |
| HttpUtil.FirstPiece | netutil/httputil/httputil.go:14-19 | the first piece of a split is the text before the first separator |
| HttpUtil.IPRules | netutil/httputil/httputil.go:11-26 | a non-empty first forwarded entry gives its text before ':'; otherwise RemoteAddr's host, with a host of exactly "[" read as 127.0.0.1; the result holds no ':' unless it is the loopback address |
| HttpUtil.IP | netutil/httputil/httputil.go:11-26 | the address holds no ':' unless it is the loopback address |
| HttpUtil.RemoteAddrExample | netutil/httputil/httputil.go:19-22 | without a header "10.0.0.1:80" gives "10.0.0.1" |
| HttpUtil.LoopbackExample | netutil/httputil/httputil.go:19-25 | "[::1]:80" gives 127.0.0.1 |
| HttpUtil.UntrimmedExample | netutil/httputil/httputil.go:12-16 | a forwarded entry " 1.2.3.4" comes back untrimmed |
| HttpUtil.LeadingCommaExample | netutil/httputil/httputil.go:12-22 | a header ",5.6.7.8" has an empty first entry, so RemoteAddr's host is used |
| HttpUtil.BracketExample | netutil/httputil/httputil.go:19-23 | "[fe80::1]:80" gives "[fe80", not the loopback address |
| OptVar.MissingRequiredVar | optvar/errors.go:17-19 | the error is a MissingRequiredVarError carrying the variable's name |
| OptVar.Message | optvar/errors.go:13-15 | each error's Error() text; MissingMessageRoundTrip states the "missing required `name`" format and MissingMessagesDiffer that names are kept apart |
| OptVar.GetError | optvar/errors.go:21-28 | a non-nil source's own error is returned whatever required says; without a source a required variable gives MissingRequiredVarError(name) and an optional one nil |
| OptVar.MissingMessageRoundTrip | optvar/errors.go:11-15 | the message is "missing required `" + name + "`", and the name can be read back out of it |
| OptVar.MissingMessagesDiffer | optvar/errors.go:13-15 | different names give different messages |
| OptVar.MissingOnlyWithoutSource | optvar/errors.go:21-28 | when the source does not itself report a missing variable, the missing-variable error arises exactly for a required variable without source |
| IsError.Box.constructor | is/error.go:7-9 | NewBox holds no error |
| IsError.Box.Err | is/error.go:11-13 | Err() is the error the box holds |
| IsError.Nil | is/error.go:15-18 | Nil stores the error in the box and returns whether it is nil |
| IsError.Err | is/error.go:20-23 | Err stores the error in the box and returns whether it is not nil |
| IsError.NilAndErrDisagree | is/error.go:15-23 | for the same error Nil and Err return opposite answers, and the box then gives that error back |
| IsError.NewBoxIsEmpty | is/error.go:7-13 | NewBox().Err() is nil |

## Left out

- The jsonx parser (`parser.go`, `decode.go`): not part of this model. `Read` takes the parser's result as a parameter, and the parser's error messages are not modelled.
- `text/scanner` tokenization: the comment collector runs over an abstract token stream of kind, position and text.
- `strconv.Quote`, `Unquote`, `UnquoteChar`, `ParseInt` and `ParseFloat`: function-typed parameters, because their code is not part of this model.
- `fmt` formatting: only `%-Ns` padding (`PadRight`) and decimal integers are modelled; `%f`, `%v` of arbitrary values and floats are not.
- Floating point: FloatNode values, `Var.Float()` and the float arithmetic of `expr` are left out, as are `expr.go`, `eval.go` and `pool.go`.
- jsonx nodes are values (datatypes), not shared `*objectNode` references: `addChild`, `setDoc` and `setComment` return the updated node instead of changing it in place, so aliasing between nodes is not captured.
- io.Writer errors: the writer only collects text and never fails, so the error returns of the output methods and of `WriteTable` are not modelled.
- TextTable.WriteTable: it prints views with the corrected `TableView.Get` of the Findings row, reading at the view's origin. The code as written offsets by the view's size; TextTable.ViewGetFinding exhibits the difference.
- TextTable.TableText: it is the text of the corrected reading, as for TextTable.WriteTable. Tables without views read the same either way.
- TextTable.ColumnWidths: widths count characters. Go's `len` counts bytes, so the two agree only on ASCII cells; cells are taken to be ASCII.
- `ShuffleSlice` (reflection), `cryptoSource` and time seeding of the random package: reflection and the operating system's randomness have no counterpart here.
- The random generators: a source is an abstract stream of non-negative 63-bit numbers, and math/rand's `rand.Intn` an abstract stream of answers in range; their algorithms are not modelled.
- Random.ShuffleInts, Random.ShuffleFloats and Random.ShuffleStrings are not modelled separately from Algorithm.ShuffleInts, Algorithm.ShuffleFloats and Algorithm.ShuffleStrings, which are the same one-line wrappers around the same countdown.
- Random.Shuffle: the `SwapableSlice` interface is modelled by an array whose `Swap` exchanges two elements.
- `Landlord3.Start` and `game/poker/landlord.go`: they call `Deal` with a signature that does not exist in `poker.go`.
- Landlord players are abstract: a player's callback is represented by its reply (an error or none, and the player's state afterwards). `HandsOfPokers` is the stub it is in the source, which refuses every play. The atomic counters are plain fields.
- Landlord3: the model takes `player.Pos()` to be the player's index in the player list. That holds because `Start` calls `SetPos(i)` on player i (game/poker/landlord/landlord3.go:90), and `Start` is left out.
- Landlord3.Landlord3.OnDouble: it runs the corrected repeat check of the Findings row, on the recorded position `PlayerIndex(pos)`. The code as written checks `int8(pos)` and is modelled by Landlord3.DoubleAsWrittenRepeats.
- Poker.Deal: a negative count (a Go slice panic) is excluded by typing the counts as natural numbers.
- Poker.Deal: the hands are sorted with Poker.SortBy, an insertion sort, which is stable, so cards of equal Value keep their dealt order. Go's `sort.Sort` is not stable and does not promise that order. Poker.DealtHand states the hands for any sort that permutes and sorts by Value.
- Poker.JokerOrders: the jokers' orders truncate to 5 and 6; the model keeps this as written, with no corrected version, because the intended value is not evident from the code.
- Smtpd: `Start`, the network loop, the connection, `prevCommand`, `buff` (both unused) and the debug log are left out; the session is fed lines.
- PacketReader: read timeouts and logging are left out; the connection is a sequence of read results.
- TestingEx.Common.LogCalldepth: only string operands of `fmt.Sprintln` are modelled, and the mutex around the output is left out.
- GoErrors: `debug.Stack` is a parameter, and the atomic trace flag is a plain field. A nil wrapped error, on which the Go code panics, is excluded by the precondition Complete.
- Validator: a `ValidatorFunc` is represented by the error it returns, and a nested `ValidatorList` is a value, so later appends to a nested list are not seen.
- Config: HTTP requests, file reading and writing, JSON/XML marshalling and `os.Exit` are parameters (`Services`); only the choice of source kind, format and file is modelled.
- HttpUtil: `JSONResponse` and `BlobResponse` are left out (HTTP response writing). A request is represented by its X-Forwarded-For value and its RemoteAddr.
- BoolSlice.BoolSlice.Truncate: requires `to <= Len()` when `from > 0`. With a larger `to` and `from > 0`, the Go loop reads bits past the length (stale or missing bytes), and that behaviour is not modelled. A result length below -8, where Go's slice cut panics, is excluded too.
- TextTable.TableText: requires `Complete(t)`. A StringMatrix with a row shorter than its first row, or a header with fewer cells than the table has columns, makes Go's width loop (textutil/table.go:30-31) index out of range and panic, and that panic is not modelled.
- TextTable.WriteTable: requires `Complete(t)`, for the same reason as TextTable.TableText: the incomplete tables on which Go's width loop panics are excluded.
- Encoding: a comment text of one byte makes the Go code panic when it slices the text; the WellFormed precondition excludes it.
- `container/*` interfaces, `redisorm`, `netutil/session.go`, `gateway`, `osutil`, `prompt`, `build` and `static`: outside the modelled core (interfaces, reflection, concurrency, system calls).

## Findings

| source | as written | input that shows it | evidently intended | confidence | as-written member | corrected member |
|---|---|---|---|---|---|---|
| encoding/jsonx/node.go:137-147 | `addChild` makes `indexMap` but never records a key in it, so `ByKey` returns nil for every key and a repeated key is appended again | an object built from members ("a", x) and ("a", y): ByKey("a") is nil and there are two children | a new key is recorded with its index, and ByKey finds the last value added under it | not executed | JsonxNode.BuildObjectAppends | JsonxNode.BuildObjectIndexedByKey |
| textutil/table.go:91-93 | `TableView.Get(i, j)` reads `table.Get(rowCount+i, colCount+j)`, offsetting by the view's size, not its origin | the 2 x 2 matrix [["a","b"],["c","d"]] clipped at (0, 0) to 1 x 1: Get(0, 0) gives "d" | `table.Get(rowIndex+i, colIndex+j)`, the cell at the view's origin plus (i, j) | not executed | TextTable.ViewGetFinding | TextTable.ClipTableCells |
| container/boolslice/boolslice.go:12-14 | `NewWithCap(size)` sets the length to size but allocates no bytes | size = 1: Len() is 1 and Get(0) indexes an empty byte slice | allocate (size>>3)+1 zero bytes, so that every element reads false | not executed | BoolSlice.NewWithCapAsWritten | BoolSlice.BoolSlice.NewWithCap |
| game/poker/landlord/landlord3.go:209-269 | `OnDouble` looks for `int8(pos)` in Doubled but records `player.Pos()`, which is pos mod 3 | OnDouble(0, 1), OnDouble(3, 1), OnDouble(6, 1): all three succeed for player 0 and the stage becomes Play | the repeat check looks for the position that is recorded, so each player doubles once | not executed | Landlord3.DoubleAsWrittenRepeats | Landlord3.DoubleRules |
