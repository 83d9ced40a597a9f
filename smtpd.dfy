/**
 * The SMTP session's command dispatcher. The connection is a sequence of
 * received lines followed by a read error; the replies the session sends
 * are collected, in order, in the session's output.
 */
module Smtpd {
  import GoStrings

  const ServiceName := "Service ready"

  /** The reply codes the session sends (section 4.2.3 of RFC 5321). */
  const CodeServiceReady: nat := 220
  const CodeServiceClosing: nat := 221
  const CodeOK: nat := 250
  const CodeSyntaxError: nat := 500
  const CodePermanentCommandNotImplemented: nat := 502

  const Greeting := "220 " + ServiceName
  const ReplyOK := "250 OK"
  const ReplyNotImplemented := "502 command not implemented"
  const ReplySyntaxError := "500 syntax error"
  const ReplyBye := "221 bye"

  /** The verb of a line is the text before its first space, the arguments the text after it. */
  datatype Command = Command(verb: string, args: string)

  /** strings.SplitN(line, " ", 2), then the verb and the arguments ("" when there is no space). */
  function SplitCommand(line: string): (c: Command)
    ensures ' ' !in c.verb
    ensures ' ' in line ==> line == c.verb + " " + c.args
    ensures ' ' !in line ==> c.verb == line && c.args == ""
  {
    var i := GoStrings.IndexOf(line, ' ');
    if i < 0 then Command(line, "")
    else
      assert line == line[..i] + " " + line[i + 1..];
      assert forall k :: 0 <= k < i ==> line[..i][k] == line[k];
      Command(line[..i], line[i + 1..])
  }

  /** dispatch's reply to one command: verbs are matched exactly, with their case. */
  function Reply(c: Command): string
  {
    match c.verb
    case "NOOP" => ReplyOK
    case "HELO" => if |c.args| > 0 then ReplyOK else ReplySyntaxError
    case "EHLO" => if |c.args| > 0 then ReplyOK else ReplySyntaxError
    case "QUIT" => ReplyBye
    case _ => ReplyNotImplemented
  }

  predicate IsHello(c: Command)
  {
    c.verb == "HELO" || c.verb == "EHLO"
  }

  predicate IsQuit(c: Command)
  {
    c.verb == "QUIT"
  }

  /**
   * A reply line in the form of section 4.2 of RFC 5321: three digits, the
   * first of them 2 to 5, then a space and the text.
   */
  predicate WellFormedReply(r: string)
  {
    |r| >= 4 && '2' <= r[0] <= '5' && GoStrings.IsDigit(r[1]) && GoStrings.IsDigit(r[2]) && r[3] == ' '
  }

  /** The reply code of a well-formed reply line. */
  function ReplyCode(r: string): nat
    requires WellFormedReply(r)
  {
    (r[0] as nat - '0' as nat) * 100 + (r[1] as nat - '0' as nat) * 10 + (r[2] as nat - '0' as nat)
  }

  /** The reply to one received line. */
  function Answer(line: string): string
  {
    Reply(SplitCommand(line))
  }

  /** Whether a received line ends the session. */
  predicate Ends(line: string)
  {
    IsQuit(SplitCommand(line))
  }

  /** Whether a received line greets. */
  predicate Greets(line: string)
  {
    IsHello(SplitCommand(line))
  }

  /** How the session treats one received line: its reply, whether it ends the session, whether it greets. */
  datatype LineRules = LineRules(answer: string -> string, ends: string -> bool, greets: string -> bool)

  /** The session's own rules for a line. */
  const Rules := LineRules(Answer, Ends, Greets)

  /**
   * The replies to a sequence of lines: one per line, up to and including
   * the first that ends the session, after which nothing more is read.
   */
  function Transcript(lines: seq<string>, r: LineRules): seq<string>
    decreases |lines|
  {
    if |lines| == 0 then []
    else
      [r.answer(lines[0])] + (if r.ends(lines[0]) then [] else Transcript(lines[1..], r))
  }

  /** Whether a greeting has been seen once the lines have been dispatched. */
  function HelloAfter(didHello: bool, lines: seq<string>, r: LineRules): bool
    decreases |lines|
  {
    if |lines| == 0 then didHello
    else
      var d := didHello || r.greets(lines[0]);
      if r.ends(lines[0]) then d else HelloAfter(d, lines[1..], r)
  }

  /** The reply to each of the lines, one for one. */
  function Answers(lines: seq<string>, r: LineRules): seq<string>
  {
    seq(|lines|, k requires 0 <= k < |lines| => r.answer(lines[k]))
  }

  /** Some line greets. */
  predicate AnyGreets(lines: seq<string>, r: LineRules)
  {
    exists k :: 0 <= k < |lines| && r.greets(lines[k])
  }

  /** None of the lines ends the session. */
  predicate NoneEnds(lines: seq<string>, r: LineRules)
  {
    forall k :: 0 <= k < |lines| ==> !r.ends(lines[k])
  }

  /** Lines that do not end the session are all answered, and a greeting among them is seen. */
  lemma {:induction false} NoQuitAnswersAll(lines: seq<string>, didHello: bool, r: LineRules)
    requires NoneEnds(lines, r)
    ensures Transcript(lines, r) == Answers(lines, r)
    ensures HelloAfter(didHello, lines, r) == (didHello || AnyGreets(lines, r))
    decreases |lines|
  {
    if |lines| > 0 {
      var rest := lines[1..];
      assert forall k :: 0 <= k < |rest| ==> rest[k] == lines[k + 1];
      NoQuitAnswersAll(rest, didHello || r.greets(lines[0]), r);
      assert Answers(lines, r) == [r.answer(lines[0])] + Answers(rest, r);
      if AnyGreets(lines, r) && !r.greets(lines[0]) {
        var k :| 0 <= k < |lines| && r.greets(lines[k]);
        assert r.greets(rest[k - 1]);
      }
      if AnyGreets(rest, r) {
        var k :| 0 <= k < |rest| && r.greets(rest[k]);
        assert r.greets(lines[k + 1]);
      }
      if r.greets(lines[0]) {
        assert AnyGreets(lines, r);
      }
    }
  }

  /**
   * Only the first line that ends the session does: the lines up to and
   * including it are answered, and nothing after it is read.
   */
  lemma {:induction false} FirstQuitEndsSession(lines: seq<string>, n: nat, didHello: bool, r: LineRules)
    requires n < |lines| && r.ends(lines[n])
    requires NoneEnds(lines[..n], r)
    ensures Transcript(lines, r) == Answers(lines[..n + 1], r)
    ensures HelloAfter(didHello, lines, r) == (didHello || AnyGreets(lines[..n + 1], r))
    decreases n
  {
    var upto := lines[..n + 1];
    if n == 0 {
      assert Answers(upto, r) == [r.answer(lines[0])];
      if r.greets(lines[0]) {
        assert upto[0] == lines[0];
      }
    } else {
      var rest := lines[1..];
      assert forall j :: 0 <= j < |rest| ==> rest[j] == lines[j + 1];
      assert forall j :: 0 <= j < n ==> lines[..n][j] == lines[j];
      var before := rest[..n - 1];
      assert forall j :: 0 <= j < n - 1 ==> before[j] == lines[j + 1];
      FirstQuitEndsSession(rest, n - 1, didHello || r.greets(lines[0]), r);
      var tail := rest[..n];
      assert forall j :: 0 <= j < n ==> tail[j] == upto[j + 1];
      assert Answers(upto, r) == [r.answer(lines[0])] + Answers(tail, r);
      if AnyGreets(upto, r) && !r.greets(lines[0]) {
        var k :| 0 <= k < |upto| && r.greets(upto[k]);
        assert r.greets(tail[k - 1]);
      }
      if AnyGreets(tail, r) {
        var k :| 0 <= k < |tail| && r.greets(tail[k]);
        assert r.greets(upto[k + 1]);
      }
      if r.greets(lines[0]) {
        assert r.greets(upto[0]);
      }
    }
  }

  /** Answering one more line extends the answers by its reply. */
  lemma AnswersSnoc(lines: seq<string>, i: nat, r: LineRules)
    requires i < |lines|
    ensures Answers(lines[..i + 1], r) == Answers(lines[..i], r) + [r.answer(lines[i])]
    ensures AnyGreets(lines[..i + 1], r) == (AnyGreets(lines[..i], r) || r.greets(lines[i]))
    ensures NoneEnds(lines[..i + 1], r) == (NoneEnds(lines[..i], r) && !r.ends(lines[i]))
  {
    var a, b := lines[..i + 1], lines[..i];
    assert forall k :: 0 <= k < i ==> a[k] == b[k];
    assert a[i] == lines[i];
    if AnyGreets(a, r) && !r.greets(lines[i]) {
      var k :| 0 <= k < |a| && r.greets(a[k]);
      assert r.greets(b[k]);
    }
    if AnyGreets(b, r) {
      var k :| 0 <= k < |b| && r.greets(b[k]);
      assert r.greets(a[k]);
    }
    if r.greets(lines[i]) {
      assert r.greets(a[i]);
    }
  }

  /** The transcript from line i on starts with the reply to line i, and stops there if that line ends the session. */
  lemma TranscriptUnfold(lines: seq<string>, i: nat, didHello: bool, r: LineRules)
    requires i < |lines|
    ensures Transcript(lines[i..], r) ==
      [r.answer(lines[i])] + (if r.ends(lines[i]) then [] else Transcript(lines[i + 1..], r))
    ensures HelloAfter(didHello, lines[i..], r) ==
      var d := didHello || r.greets(lines[i]);
      if r.ends(lines[i]) then d else HelloAfter(d, lines[i + 1..], r)
  {
    assert lines[i..][1..] == lines[i + 1..];
  }

  class Session {
    var didHello: bool
    /** The reply lines written to the connection, in order. */
    var output: seq<string>
    var closed: bool

    /** newSession */
    constructor()
      ensures !didHello && output == [] && !closed
    {
      didHello := false;
      output := [];
      closed := false;
    }

    method ResponseOK()
      modifies this
      ensures output == old(output) + [ReplyOK]
      ensures didHello == old(didHello) && closed == old(closed)
    {
      output := output + [ReplyOK];
    }

    method CommandNotImplemented(cmd: string)
      modifies this
      ensures output == old(output) + [ReplyNotImplemented]
      ensures didHello == old(didHello) && closed == old(closed)
    {
      output := output + [ReplyNotImplemented];
    }

    /** onHello: the greeting is recorded whether or not it carries an argument. */
    method OnHello(arg: string)
      modifies this
      ensures didHello
      ensures output == old(output) + [if |arg| > 0 then ReplyOK else ReplySyntaxError]
      ensures closed == old(closed)
    {
      didHello := true;
      if |arg| > 0 {
        ResponseOK();
      } else {
        output := output + [ReplySyntaxError];
      }
    }

    method OnQuit() returns (quit: bool)
      modifies this
      ensures quit
      ensures output == old(output) + [ReplyBye]
      ensures didHello == old(didHello) && closed == old(closed)
    {
      output := output + [ReplyBye];
      return true;
    }

    /** dispatch: one reply per command; only QUIT asks to end the session. */
    method Dispatch(cmd: string, args: string) returns (quit: bool)
      modifies this
      ensures output == old(output) + [Reply(Command(cmd, args))]
      ensures quit == IsQuit(Command(cmd, args))
      ensures didHello == (old(didHello) || IsHello(Command(cmd, args)))
      ensures closed == old(closed)
    {
      quit := false;
      if cmd == "NOOP" {
        ResponseOK();
      } else if cmd == "HELP" || cmd == "EXPN" || cmd == "VRFY" || cmd == "RSET" {
        CommandNotImplemented(cmd);
      } else if cmd == "HELO" || cmd == "EHLO" {
        OnHello(args);
      } else if cmd == "QUIT" {
        quit := OnQuit();
      } else {
        CommandNotImplemented(cmd);
      }
    }

    /** One turn of run: split the received line into verb and arguments, then dispatch it. */
    method HandleLine(line: string) returns (quit: bool)
      modifies this
      ensures output == old(output) + [Rules.answer(line)]
      ensures quit == Rules.ends(line)
      ensures didHello == (old(didHello) || Rules.greets(line))
      ensures closed == old(closed)
    {
      var c := SplitCommand(line);
      quit := Dispatch(c.verb, c.args);
    }

    /**
     * run: greet, then dispatch each received line until QUIT or until the
     * lines run out (the read error), and close the connection.
     */
    method Run(lines: seq<string>)
      modifies this
      ensures output == old(output) + [Greeting] + Transcript(lines, Rules)
      ensures didHello == HelloAfter(old(didHello), lines, Rules)
      ensures closed
    {
      output := output + [Greeting];
      ghost var start := output;
      var i := 0;
      assert lines[i..] == lines;
      while i < |lines|
        invariant 0 <= i <= |lines|
        invariant output + Transcript(lines[i..], Rules) == start + Transcript(lines, Rules)
        invariant HelloAfter(didHello, lines[i..], Rules) == HelloAfter(old(didHello), lines, Rules)
      {
        TranscriptUnfold(lines, i, didHello, Rules);
        GoStrings.AppendAssoc(output, [Rules.answer(lines[i])], Transcript(lines[i + 1..], Rules));
        ghost var before := output;
        var quit := HandleLine(lines[i]);
        if quit {
          assert Transcript(lines[i..], Rules) == [Rules.answer(lines[i])] + [];
          assert output == before + ([Rules.answer(lines[i])] + []);
          closed := true;
          return;
        }
        i := i + 1;
      }
      assert lines[i..] == [] && output + [] == output;
      closed := true;
    }
  }

  /** Every reply the session sends, the greeting included, is a well-formed reply line with its code. */
  lemma RepliesWellFormed(c: Command)
    ensures WellFormedReply(Greeting) && ReplyCode(Greeting) == CodeServiceReady
    ensures WellFormedReply(Reply(c))
    ensures ReplyCode(Reply(c)) in {CodeOK, CodeSyntaxError, CodeServiceClosing, CodePermanentCommandNotImplemented}
  {
    assert Greeting[0] == '2' && Greeting[1] == '2' && Greeting[2] == '0' && Greeting[3] == ' ';
  }

  /**
   * The reply to each verb: NOOP and a greeting with an argument get 250, a
   * bare greeting 500, QUIT 221, and every other verb, RFC 5321's HELP,
   * EXPN, VRFY and RSET included, 502.
   */
  lemma ReplyByVerb(c: Command)
    ensures c.verb == "NOOP" ==> ReplyCode(Reply(c)) == CodeOK
    ensures IsHello(c) ==> ReplyCode(Reply(c)) == (if c.args != "" then CodeOK else CodeSyntaxError)
    ensures IsQuit(c) <==> ReplyCode(Reply(c)) == CodeServiceClosing
    ensures c.verb !in {"NOOP", "HELO", "EHLO", "QUIT"} <==> ReplyCode(Reply(c)) == CodePermanentCommandNotImplemented
  {
    RepliesWellFormed(c);
  }

  /**
   * Verbs are case-sensitive: a lower-case noop or quit is not recognised,
   * so it gets 502 and the session goes on, although section 2.4 of
   * RFC 5321 says verbs are case-insensitive.
   */
  lemma VerbsAreCaseSensitive()
    ensures Reply(SplitCommand("noop")) == ReplyNotImplemented
    ensures !IsQuit(SplitCommand("quit")) && Reply(SplitCommand("quit")) == ReplyNotImplemented
  {
    assert ' ' !in "noop" && ' ' !in "quit";
    var n, q := SplitCommand("noop"), SplitCommand("quit");
    assert n.verb[0] == 'n' && q.verb[0] == 'q';
  }
}
