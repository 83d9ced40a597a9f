/** The comment collector of encoding/encoding.go: comments and comment
    groups, and the Parser that scans a token stream and decides which comment
    group is the previous token's line comment and which is the next token's
    lead comment. The scanner (text/scanner) is modelled by the token stream
    it produces. */
module Encoding {
  import opened Wrappers
  import GoStrings

  /** text/scanner.Position */
  datatype Position = Position(filename: string, offset: int, line: int, column: int)

  /** Position.String(): the file name ("<input>" when empty), then
      ":line:column" when the position is valid (line > 0). */
  function PositionString(p: Position): (r: string)
    ensures GoStrings.HasPrefix(r, if p.filename == "" then "<input>" else p.filename)
    ensures p.line <= 0 ==> r == (if p.filename == "" then "<input>" else p.filename)
    ensures p.line > 0 ==>
      r == (if p.filename == "" then "<input>" else p.filename) + ":"
        + GoStrings.IntToString(p.line) + ":" + GoStrings.IntToString(p.column)
  {
    var name := if p.filename == "" then "<input>" else p.filename;
    if p.line > 0 then
      name + ":" + GoStrings.IntToString(p.line) + ":" + GoStrings.IntToString(p.column)
    else name
  }

  /** The kinds of tokens text/scanner returns: its negative token runes, or a
      single other character. */
  datatype TokenKind = EOF | Ident | Int | Float | Char | String | RawString | CommentTok | Punct(c: char)

  /** One scanned token: its kind, the position the scanner reports for it
      (Scanner.Pos(), the position just after the token) and its text. */
  datatype Token = Token(kind: TokenKind, pos: Position, text: string)

  /** What the scanner produces: `tokens`, then EOF at `end` for ever. */
  datatype Stream = Stream(tokens: seq<Token>, end: Position)

  /** The k-th token the scanner returns. */
  function At(st: Stream, k: nat): (t: Token)
    ensures t.kind == CommentTok ==> k < |st.tokens|
  {
    if k < |st.tokens| then st.tokens[k] else Token(EOF, st.end, "")
  }

  /** consumeComment indexes the second byte of a non-empty comment text;
      text/scanner only produces comments of at least two bytes. */
  predicate WellFormed(st: Stream) {
    forall k :: 0 <= k < |st.tokens| && st.tokens[k].kind == CommentTok ==> |st.tokens[k].text| != 1
  }

  datatype Comment = Comment(slash: Position, text: string)

  datatype CommentGroup = CommentGroup(list: seq<Comment>)

  /** Comment.Pos() */
  function CommentPos(c: Comment): Position {
    c.slash
  }

  /** CommentGroup.Pos(): the position of the first comment; it panics on an
      empty group. */
  function GroupPos(g: CommentGroup): Position
    requires |g.list| > 0
  {
    CommentPos(g.list[0])
  }

  /** The text CommentGroup.Text() accumulates in its buffer: each comment's
      text, preceded by '\n' whenever the buffer already holds something. */
  function BufferText(cs: seq<Comment>): string
  {
    if |cs| == 0 then ""
    else
      var acc := BufferText(cs[..|cs| - 1]);
      if |acc| > 0 then acc + "\n" + cs[|cs| - 1].text else cs[|cs| - 1].text
  }

  /** CommentGroup.Text() as a value: "" for a nil group. */
  function GroupText(g: Option<CommentGroup>): string
  {
    if g.None? then "" else BufferText(g.value.list)
  }

  function Texts(cs: seq<Comment>): (r: seq<string>)
    ensures |r| == |cs| && forall i :: 0 <= i < |cs| ==> r[i] == cs[i].text
  {
    if |cs| == 0 then [] else Texts(cs[..|cs| - 1]) + [cs[|cs| - 1].text]
  }

  /** For comments with non-empty texts (all comments the scanner produces),
      the group text is the member texts joined with newlines. */
  lemma {:induction false} TextJoinsLines(cs: seq<Comment>)
    requires forall i :: 0 <= i < |cs| ==> |cs[i].text| > 0
    ensures BufferText(cs) == GoStrings.Join(Texts(cs), "\n")
    ensures |cs| > 0 ==> |BufferText(cs)| > 0
  {
    if |cs| > 0 {
      var init := cs[..|cs| - 1];
      TextJoinsLines(init);
      if |init| > 0 {
        GoStrings.JoinSnoc(Texts(init), cs[|cs| - 1].text, "\n");
      }
    }
  }

  /** CommentGroup.Text(), writing into a buffer in a loop. */
  method Text(g: Option<CommentGroup>) returns (s: string)
    ensures s == GroupText(g)
  {
    if g.None? || |g.value.list| == 0 {
      return "";
    }
    var list := g.value.list;
    var buf := "";
    for i := 0 to |list|
      invariant buf == BufferText(list[..i])
    {
      assert list[..i + 1][..i] == list[..i];
      if |buf| > 0 {
        buf := buf + "\n";
      }
      buf := buf + list[i].text;
    }
    assert list[..|list|] == list;
    s := buf;
  }

  /** The line a comment ends on, as consumeComment computes it: the reported
      line, plus the number of newlines for a block comment (one whose second character is a star). */
  function EndLine(t: Token): int
  {
    if |t.text| > 1 && t.text[1] == '*' then t.pos.line + GoStrings.Count(t.text, '\n')
    else t.pos.line
  }

  function CommentOf(t: Token): Comment {
    Comment(t.pos, t.text)
  }

  /** The comments carried by tokens a, ..., b - 1. */
  function CommentsBetween(st: Stream, a: nat, b: nat): (r: seq<Comment>)
    requires a <= b
    ensures |r| == b - a
    decreases b - a
  {
    if a == b then [] else [CommentOf(At(st, a))] + CommentsBetween(st, a + 1, b)
  }

  /** The result of consumeCommentGroup: the comments taken, the end line of
      the last one, and the index of the token that is current afterwards. */
  datatype GroupScan = GroupScan(list: seq<Comment>, endline: int, cur: nat)

  /** The loop of consumeCommentGroup(n), started on the token At(st, k) with
      `endline` as the end line so far: it takes comments while each starts on
      a line no later than the previous end line + n. */
  function ConsumeGroup(st: Stream, k: nat, endline: int, n: int): (r: GroupScan)
    ensures k <= r.cur && |r.list| == r.cur - k
    ensures r.cur == k ==> r.endline == endline
    ensures r.cur > k ==> r.endline == EndLine(At(st, r.cur - 1))
    decreases |st.tokens| - k
  {
    var t := At(st, k);
    if t.kind == CommentTok && t.pos.line <= endline + n then
      var r := ConsumeGroup(st, k + 1, EndLine(t), n);
      GroupScan([CommentOf(t)] + r.list, r.endline, r.cur)
    else GroupScan([], endline, k)
  }

  /** The tokens a group takes are all comments, each starts no later than
      n lines after the previous one ends, and the token that stops the group
      is not a comment or starts later than that. */
  lemma {:induction false} ConsumeGroupSpec(st: Stream, k: nat, endline: int, n: int)
    ensures var r := ConsumeGroup(st, k, endline, n);
      r.list == CommentsBetween(st, k, r.cur) &&
      (forall j :: k <= j < r.cur ==> At(st, j).kind == CommentTok) &&
      (r.cur > k ==> At(st, k).pos.line <= endline + n) &&
      (forall j :: k < j < r.cur ==> At(st, j).pos.line <= EndLine(At(st, j - 1)) + n) &&
      (At(st, r.cur).kind != CommentTok || At(st, r.cur).pos.line > r.endline + n)
    decreases |st.tokens| - k
  {
    var t := At(st, k);
    if t.kind == CommentTok && t.pos.line <= endline + n {
      ConsumeGroupSpec(st, k + 1, EndLine(t), n);
    }
  }

  /** consumeCommentGroup(n) on the current token At(st, k): the loop starts
      with the current token's line as end line. */
  function Group(st: Stream, k: nat, n: int): GroupScan
  {
    ConsumeGroup(st, k, At(st, k).pos.line, n)
  }

  /** A group started on a comment with n >= 0 takes at least that comment. */
  lemma GroupTakesFirst(st: Stream, k: nat, n: int)
    requires At(st, k).kind == CommentTok && n >= 0
    ensures Group(st, k, n).cur > k
    ensures GroupPos(CommentGroup(Group(st, k, n).list)) == At(st, k).pos
  {
  }

  /** The result of the lead-comment loop of Next. */
  datatype LeadScan = LeadScan(groups: seq<CommentGroup>, last: Option<CommentGroup>, endline: int, cur: nat)

  /** The loop `for p.Tok == scanner.Comment { comment, endline =
      p.consumeCommentGroup(1) }`, entered on token At(st, k) with the
      variables `comment` and `endline` holding `last` and `endline`. */
  function LeadPhase(st: Stream, k: nat, last: Option<CommentGroup>, endline: int): (r: LeadScan)
    ensures k <= r.cur
    ensures At(st, r.cur).kind != CommentTok
    decreases |st.tokens| - k
  {
    if At(st, k).kind == CommentTok then
      var g := Group(st, k, 1);
      GroupTakesFirst(st, k, 1);
      var r := LeadPhase(st, g.cur, Some(CommentGroup(g.list)), g.endline);
      LeadScan([CommentGroup(g.list)] + r.groups, r.last, r.endline, r.cur)
    else LeadScan([], last, endline, k)
  }

  /** A lead loop that runs leaves the last group it took in `comment` and
      the end line of that group's last comment in `endline`; one that does
      not run leaves both as they were. */
  lemma {:induction false} LeadPhaseSpec(st: Stream, k: nat, last: Option<CommentGroup>, endline: int)
    ensures var r := LeadPhase(st, k, last, endline);
      (r.cur == k ==> r.groups == [] && r.last == last && r.endline == endline) &&
      (r.cur > k ==>
        |r.groups| > 0 && r.last == Some(r.groups[|r.groups| - 1]) && r.endline == EndLine(At(st, r.cur - 1)))
    decreases |st.tokens| - k
  {
    if At(st, k).kind == CommentTok {
      var g := Group(st, k, 1);
      GroupTakesFirst(st, k, 1);
      LeadPhaseSpec(st, g.cur, Some(CommentGroup(g.list)), g.endline);
    }
  }

  /** One turn of the lead-comment loop. */
  lemma LeadPhaseStep(st: Stream, k: nat, last: Option<CommentGroup>, endline: int)
    requires At(st, k).kind == CommentTok
    ensures var g := Group(st, k, 1);
      var r := LeadPhase(st, g.cur, Some(CommentGroup(g.list)), g.endline);
      LeadPhase(st, k, last, endline) == LeadScan([CommentGroup(g.list)] + r.groups, r.last, r.endline, r.cur)
  {
  }

  /** The result of the line-comment step of Next. */
  datatype LineScan = LineScan(group: Option<CommentGroup>, line: Option<CommentGroup>, cur: nat)

  /** The step `if p.Pos.Line == prev.Line { comment, endline =
      p.consumeCommentGroup(0); if p.Pos.Line != endline { p.LineComment =
      comment } }` of Next, on the comment At(st, k). */
  function LinePhase(st: Stream, prevLine: int, k: nat): (r: LineScan)
    ensures k <= r.cur
  {
    if At(st, k).pos.line == prevLine then
      var g := Group(st, k, 0);
      LineScan(Some(CommentGroup(g.list)), if At(st, g.cur).pos.line != g.endline then Some(CommentGroup(g.list)) else None, g.cur)
    else LineScan(None, None, k)
  }

  function OptionToSeq<T>(o: Option<T>): seq<T> {
    if o.None? then [] else [o.value]
  }

  /** What one call of Parser.Next decides. */
  datatype NextResult = NextResult(
    lead: Option<CommentGroup>, line: Option<CommentGroup>, groups: seq<CommentGroup>, cur: nat)

  /** Parser.Next, when the previous token ended on line `prevLine` and the
      scanner's next token is At(st, k). */
  function NextSpec(st: Stream, prevLine: int, k: nat): (r: NextResult)
    ensures k <= r.cur
    ensures At(st, r.cur).kind != CommentTok
  {
    if At(st, k).kind != CommentTok then NextResult(None, None, [], k)
    else
      var l := LinePhase(st, prevLine, k);
      var lp := LeadPhase(st, l.cur, l.group, -1);
      var lead := if lp.endline + 1 == At(st, lp.cur).pos.line then lp.last else None;
      NextResult(lead, l.line, OptionToSeq(l.group) + lp.groups, lp.cur)
  }

  /** The comments of the groups, in order. */
  function Flatten(gs: seq<CommentGroup>): seq<Comment>
  {
    if |gs| == 0 then [] else gs[0].list + Flatten(gs[1..])
  }

  lemma {:induction false} CommentsBetweenSplit(st: Stream, a: nat, b: nat, c: nat)
    requires a <= b <= c
    ensures CommentsBetween(st, a, c) == CommentsBetween(st, a, b) + CommentsBetween(st, b, c)
    decreases b - a
  {
    if a < b {
      CommentsBetweenSplit(st, a + 1, b, c);
    }
  }

  /** Every comment the lead loop skips over lands in exactly one of its
      groups, in scan order, and every group is non-empty. */
  lemma {:induction false} LeadPhaseCovers(st: Stream, k: nat, last: Option<CommentGroup>, endline: int)
    ensures Flatten(LeadPhase(st, k, last, endline).groups) == CommentsBetween(st, k, LeadPhase(st, k, last, endline).cur)
    ensures forall i :: 0 <= i < |LeadPhase(st, k, last, endline).groups| ==> |LeadPhase(st, k, last, endline).groups[i].list| > 0
    decreases |st.tokens| - k
  {
    if At(st, k).kind == CommentTok {
      var g := Group(st, k, 1);
      GroupTakesFirst(st, k, 1);
      ConsumeGroupSpec(st, k, At(st, k).pos.line, 1);
      var r := LeadPhase(st, g.cur, Some(CommentGroup(g.list)), g.endline);
      LeadPhaseCovers(st, g.cur, Some(CommentGroup(g.list)), g.endline);
      var gs := [CommentGroup(g.list)] + r.groups;
      assert gs[1..] == r.groups;
      CommentsBetweenSplit(st, k, g.cur, r.cur);
    }
  }

  /** Next: the groups it appends hold exactly the comments between the
      previous token and the new current token, in scan order. */
  lemma NextGroupsCoverComments(st: Stream, prevLine: int, k: nat)
    ensures Flatten(NextSpec(st, prevLine, k).groups) == CommentsBetween(st, k, NextSpec(st, prevLine, k).cur)
    ensures forall i :: 0 <= i < |NextSpec(st, prevLine, k).groups| ==> |NextSpec(st, prevLine, k).groups[i].list| > 0
  {
    if At(st, k).kind == CommentTok {
      if At(st, k).pos.line == prevLine {
        LineRunCovers(st, k);
      } else {
        LeadPhaseCovers(st, k, None, -1);
        assert [] + LeadPhase(st, k, None, -1).groups == LeadPhase(st, k, None, -1).groups;
      }
    }
  }

  lemma LineRunCovers(st: Stream, k: nat)
    requires At(st, k).kind == CommentTok
    ensures var g := Group(st, k, 0);
      var lp := LeadPhase(st, g.cur, Some(CommentGroup(g.list)), -1);
      Flatten([CommentGroup(g.list)] + lp.groups) == CommentsBetween(st, k, lp.cur) &&
      forall i :: 0 <= i < |[CommentGroup(g.list)] + lp.groups| ==> |([CommentGroup(g.list)] + lp.groups)[i].list| > 0
  {
    var g := Group(st, k, 0);
    GroupTakesFirst(st, k, 0);
    ConsumeGroupSpec(st, k, At(st, k).pos.line, 0);
    var lp := LeadPhase(st, g.cur, Some(CommentGroup(g.list)), -1);
    LeadPhaseCovers(st, g.cur, Some(CommentGroup(g.list)), -1);
    var gs := [CommentGroup(g.list)] + lp.groups;
    assert gs[1..] == lp.groups;
    CommentsBetweenSplit(st, k, g.cur, lp.cur);
  }

  /** The line comment: set exactly when the first comment is on the previous
      token's line and the token after that group is not on the group's end
      line; it is then that group, whose comments lie within one line. */
  lemma NextLineComment(st: Stream, prevLine: int, k: nat)
    ensures NextSpec(st, prevLine, k).line.Some? <==>
      At(st, k).kind == CommentTok && At(st, k).pos.line == prevLine &&
      At(st, Group(st, k, 0).cur).pos.line != Group(st, k, 0).endline
    ensures NextSpec(st, prevLine, k).line.Some? ==>
      NextSpec(st, prevLine, k).line.value.list == Group(st, k, 0).list &&
      NextSpec(st, prevLine, k).groups[0] == NextSpec(st, prevLine, k).line.value
  {
  }

  /** The lead comment: when set, it is the last group appended, and the new
      current token starts on the line right after that group's end. With
      1-based lines, no lead comment comes out of a call that ran no lead
      phase. */
  lemma NextLeadComment(st: Stream, prevLine: int, k: nat)
    requires At(st, NextSpec(st, prevLine, k).cur).pos.line >= 1
    ensures var r := NextSpec(st, prevLine, k);
      r.lead.Some? ==>
        |r.groups| > 0 && r.lead.value == r.groups[|r.groups| - 1] &&
        r.cur > k && EndLine(At(st, r.cur - 1)) + 1 == At(st, r.cur).pos.line
    ensures var r := NextSpec(st, prevLine, k);
      (At(st, k).kind == CommentTok && At(st, k).pos.line == prevLine && At(st, Group(st, k, 0).cur).kind != CommentTok) ==>
        r.lead.None?
  {
    var r := NextSpec(st, prevLine, k);
    if At(st, k).kind == CommentTok {
      var l := LinePhase(st, prevLine, k);
      LeadPhaseSpec(st, l.cur, l.group, -1);
      var lp := LeadPhase(st, l.cur, l.group, -1);
      assert r.groups == OptionToSeq(l.group) + lp.groups;
    }
  }

  /** The Parser of encoding.go over a scanner modelled by `stream`: `next`
      counts the tokens the scanner has returned, and Pos, Tok and Lit hold
      the current one. */
  class Parser {
    const stream: Stream
    var next: nat

    var pos: Position
    var tok: TokenKind
    var lit: string

    var comments: seq<CommentGroup>
    var leadComment: Option<CommentGroup>
    var lineComment: Option<CommentGroup>

    ghost predicate Valid()
      reads this
    {
      WellFormed(stream) && (next > 0 ==> Token(tok, pos, lit) == At(stream, next - 1))
    }

    /** A new Parser after Init(s): every other field holds its zero value. */
    constructor Init(s: Stream)
      requires WellFormed(s)
      ensures Valid() && stream == s && next == 0
      ensures pos == Position("", 0, 0, 0) && tok == Punct('\U{0}') && lit == ""
      ensures comments == [] && leadComment == None && lineComment == None
    {
      stream := s;
      next := 0;
      pos, tok, lit := Position("", 0, 0, 0), Punct('\U{0}'), "";
      comments, leadComment, lineComment := [], None, None;
    }

    /** next0: scan one token and make it current. */
    method Next0()
      requires Valid()
      modifies this
      ensures Valid() && next == old(next) + 1
      ensures Token(tok, pos, lit) == At(stream, old(next))
      ensures comments == old(comments) && leadComment == old(leadComment) && lineComment == old(lineComment)
    {
      var t := At(stream, next);
      tok, pos, lit := t.kind, t.pos, t.text;
      next := next + 1;
    }

    /** consumeComment: take the current comment, compute its end line, and
        scan the next token. */
    method ConsumeComment() returns (comment: Comment, endline: int)
      requires Valid() && next > 0 && tok == CommentTok
      modifies this
      ensures Valid() && next == old(next) + 1
      ensures comment == CommentOf(At(stream, old(next) - 1))
      ensures endline == EndLine(At(stream, old(next) - 1))
      ensures comments == old(comments) && leadComment == old(leadComment) && lineComment == old(lineComment)
    {
      assert |lit| != 1;
      endline := pos.line;
      if |lit| > 0 && lit[1] == '*' {
        var newlines := CountNewlines(lit);
        endline := endline + newlines;
      }
      comment := Comment(pos, lit);
      Next0();
    }

    /** consumeCommentGroup(n): take comments while each starts on a line no
        later than the previous end line + n, and append the group to
        Comments. */
    method ConsumeCommentGroup(n: int) returns (group: CommentGroup, endline: int)
      requires Valid() && next > 0
      modifies this
      ensures Valid()
      ensures var g := Group(stream, old(next) - 1, n);
        group == CommentGroup(g.list) && endline == g.endline && next == g.cur + 1
      ensures comments == old(comments) + [group]
      ensures leadComment == old(leadComment) && lineComment == old(lineComment)
    {
      ghost var g := Group(stream, next - 1, n);
      var list: seq<Comment> := [];
      endline := pos.line;
      while tok == CommentTok && pos.line <= endline + n
        invariant Valid() && next > 0
        invariant var r := ConsumeGroup(stream, next - 1, endline, n);
          g == GroupScan(list + r.list, r.endline, r.cur)
        invariant comments == old(comments) && leadComment == old(leadComment) && lineComment == old(lineComment)
        decreases |stream.tokens| - next
      {
        ghost var j, e0 := next - 1, endline;
        var comment;
        comment, endline := ConsumeComment();
        ghost var r := ConsumeGroup(stream, next - 1, endline, n);
        assert ConsumeGroup(stream, j, e0, n) == GroupScan([comment] + r.list, r.endline, r.cur);
        GoStrings.AppendAssoc(list, [comment], r.list);
        list := list + [comment];
      }
      assert list + [] == list;
      group := CommentGroup(list);
      comments := comments + [group];
    }

    /** Next: scan to the next non-comment token, grouping the comments on the
        way and setting LineComment and LeadComment. */
    method Next()
      requires Valid()
      modifies this
      ensures Valid()
      ensures var r := NextSpec(stream, old(pos).line, old(next));
        leadComment == r.lead && lineComment == r.line &&
        comments == old(comments) + r.groups && next == r.cur + 1
      ensures tok != CommentTok
    {
      leadComment := None;
      lineComment := None;
      var prev := pos;
      ghost var k := next;
      Next0();
      if tok == CommentTok {
        ghost var l := LinePhase(stream, prev.line, k);
        var comment, endline;
        comment := ConsumeLineGroup(prev.line);
        ghost var c1 := comments;
        ghost var lp := LeadPhase(stream, l.cur, l.group, -1);
        comment, endline := ConsumeLeadGroups(comment);
        assert next == lp.cur + 1 && comments == c1 + lp.groups;
        assert c1 == old(comments) + OptionToSeq(l.group);
        GoStrings.AppendAssoc(old(comments), OptionToSeq(l.group), lp.groups);
        if endline + 1 == pos.line {
          leadComment := comment;
        }
      } else {
        assert comments == old(comments) + [];
      }
    }

    /** The first step of Next: when the comment is on the previous token's
        line, take a group with n = 0 and make it the line comment unless the
        next token follows on the group's end line. */
    method ConsumeLineGroup(prevLine: int) returns (comment: Option<CommentGroup>)
      requires Valid() && next > 0
      modifies this
      ensures Valid()
      ensures var l := LinePhase(stream, prevLine, old(next) - 1);
        comment == l.group && next == l.cur + 1 && comments == old(comments) + OptionToSeq(l.group) &&
        lineComment == (if l.line.Some? then l.line else old(lineComment))
      ensures leadComment == old(leadComment)
    {
      comment := None;
      if pos.line == prevLine {
        var group, endline := ConsumeCommentGroup(0);
        comment := Some(group);
        if pos.line != endline {
          lineComment := comment;
        }
      }
    }

    /** The second loop of Next: `endline = -1; for p.Tok == scanner.Comment
        { comment, endline = p.consumeCommentGroup(1) }`. */
    method ConsumeLeadGroups(comment0: Option<CommentGroup>) returns (comment: Option<CommentGroup>, endline: int)
      requires Valid() && next > 0
      modifies this
      ensures Valid()
      ensures var lp := LeadPhase(stream, old(next) - 1, comment0, -1);
        comment == lp.last && endline == lp.endline && next == lp.cur + 1 &&
        comments == old(comments) + lp.groups
      ensures tok != CommentTok && leadComment == old(leadComment) && lineComment == old(lineComment)
    {
      ghost var lp := LeadPhase(stream, next - 1, comment0, -1);
      comment, endline := comment0, -1;
      ghost var taken: seq<CommentGroup> := [];
      while tok == CommentTok
        invariant Valid() && next > 0
        invariant var r := LeadPhase(stream, next - 1, comment, endline);
          lp == LeadScan(taken + r.groups, r.last, r.endline, r.cur)
        invariant comments == old(comments) + taken
        invariant leadComment == old(leadComment) && lineComment == old(lineComment)
        decreases |stream.tokens| - next
      {
        ghost var j, c0, e0 := next - 1, comment, endline;
        ghost var g := Group(stream, j, 1);
        var group;
        group, endline := ConsumeCommentGroup(1);
        assert group == CommentGroup(g.list) && endline == g.endline && next - 1 == g.cur;
        comment := Some(group);
        ghost var r := LeadPhase(stream, next - 1, comment, endline);
        LeadPhaseStep(stream, j, c0, e0);
        GoStrings.AppendAssoc(taken, [group], r.groups);
        GoStrings.AppendAssoc(old(comments), taken, [group]);
        taken := taken + [group];
      }
      assert LeadPhase(stream, next - 1, comment, endline) == LeadScan([], comment, endline, next - 1);
      assert taken + [] == taken;
    }
  }

  /** The newline count of consumeComment's loop. */
  method CountNewlines(text: string) returns (count: nat)
    ensures count == GoStrings.Count(text, '\n')
  {
    count := 0;
    for i := 0 to |text|
      invariant count == GoStrings.Count(text[..i], '\n')
    {
      GoStrings.CountAppend(text[..i], [text[i]], '\n');
      assert text[..i + 1] == text[..i] + [text[i]];
      if text[i] == '\n' {
        count := count + 1;
      }
    }
    assert text[..|text|] == text;
  }
}
