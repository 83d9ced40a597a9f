/**
 * Package game/poker/landlord: the state machine of a three-player game of
 * landlord. A game moves through the stages Bid (the players bid for the
 * landlord in turn), Double (each player may double the stakes once) and
 * Play (cards are played in turn, each play beating the last one).
 *
 * The players are abstract: what a player's callback answers (BidLandlord,
 * Double, RevealCards, PlayCards), together with the player's state after
 * the call, is an argument of the command that calls it.
 */
module Landlord3 {
  import opened Wrappers
  import opened GoMath
  import Poker

  const NumPlayer: nat := 3

  /** The stages the code refers to, Ready being the zero value of the enumeration. */
  datatype Stage = Ready | Bid | Double | Play

  datatype Category = Bomb | Rocket | Other(code: int)

  /** A classified play: is it a legal hand, of which category and value, and its cards. */
  datatype Hands = Hands(valid: bool, category: Category, value: int, lastPokers: seq<Poker.Poker>)

  /** Hands{}: the zero value, which is not valid. */
  const NoHands := Hands(false, Other(0), 0, [])

  /** The per-player state; pos is an int8 and multiple an int32. */
  datatype PlayerState = PlayerState(id: int, pos: int, multiple: int, pokers: seq<Poker.Poker>)

  /** The errors of package game and of this package; PlayerError is what a player's callback returned. */
  datatype Error =
    | ErrState | ErrTurn | ErrCommandRepeated | ErrGameover | ErrUnexpectedGameover
    | ErrEmptyPokers | ErrInvalidCategory | PlayerError(reason: string)

  /** A player's callback: its error (None for nil) and the player's state after the call. */
  datatype Reply = Reply(failure: Option<string>, after: PlayerState)

  /** BidLandlord also reports whether bidding is over. */
  datatype BidReply = BidReply(over: bool, failure: Option<string>, after: PlayerState)

  function Failed(failure: Option<string>): (err: Option<Error>)
    ensures err.None? <==> failure.None?
  {
    if failure.Some? then Some(PlayerError(failure.value)) else None
  }

  // ----- Positions and turns -----

  /** GetPlayer: pos modulo the number of players, moved up by it when Go's remainder is negative. */
  function PlayerIndex(pos: int): (p: nat)
    ensures p < NumPlayer
  {
    var r := Rem(pos, NumPlayer);
    if r < 0 then r + NumPlayer else r
  }

  /** The code's correction makes GetPlayer Euclidean: any pos works, and pos+1, pos-1 are the neighbours. */
  lemma PlayerIndexMod(pos: int)
    ensures PlayerIndex(pos) == pos % 3
    ensures PlayerIndex(pos + 1) == (PlayerIndex(pos) + 1) % 3
    ensures PlayerIndex(pos - 1) == (PlayerIndex(pos) + 2) % 3
    ensures PlayerIndex(PlayerIndex(pos + 1) - 1) == PlayerIndex(pos)
  {
    PlayerIndexIsMod(pos);
    PlayerIndexIsMod(pos + 1);
    PlayerIndexIsMod(pos - 1);
    PlayerIndexIsMod(PlayerIndex(pos + 1) - 1);
  }

  /** GetPlayer's index is the Euclidean remainder of pos by three. */
  lemma PlayerIndexIsMod(pos: int)
    ensures PlayerIndex(pos) == pos % 3
  {
    var r := Rem(pos, NumPlayer);
    assert (pos - r) % 3 == 0;
  }

  /** nextTurn: Turn = (Turn + 1) % 3, in int8 arithmetic. */
  function NextTurnOf(turn: int): (t: int)
    ensures -0x80 <= turn < 0x80 ==> -(NumPlayer as int) < t < NumPlayer
  {
    Rem(Int8(turn + 1), Int8(NumPlayer))
  }

  /** From a valid turn, the turn goes round the three players and is back after three steps. */
  lemma TurnCycles(turn: int)
    requires 0 <= turn < NumPlayer
    ensures NextTurnOf(turn) == (turn + 1) % 3
    ensures NextTurnOf(turn) != turn
    ensures NextTurnOf(NextTurnOf(NextTurnOf(turn))) == turn
  {
    assert NextTurnOf(0) == 1 && NextTurnOf(1) == 2 && NextTurnOf(2) == 0;
  }

  // ----- The whole state -----

  datatype GameState = GameState(
    stage: Stage,
    turn: int,
    landlord: int,
    doubled: seq<int>,
    lastPos: int,
    lastHands: Hands,
    players: seq<PlayerState>,
    playing: int)

  /** What a command leaves behind: the new state and the error it returns. */
  datatype Outcome = Outcome(state: GameState, err: Option<Error>)

  /** Player positions in range, one state per player, and Playing is 0 or 1. */
  predicate ValidState(s: GameState)
  {
    |s.players| == NumPlayer
    && 0 <= s.turn < NumPlayer && 0 <= s.landlord < NumPlayer && 0 <= s.lastPos < NumPlayer
    && (forall i :: 0 <= i < |s.doubled| ==> 0 <= s.doubled[i] < NumPlayer)
    && (s.playing == 0 || s.playing == 1)
  }

  // ----- setPlaying, gameover and beforeGameover -----

  /** atomic.CompareAndSwapInt32(&Playing, 0, 1) for on, (1, 0) otherwise: does it swap. */
  predicate Swaps(playing: int, on: bool)
  {
    if on then playing == 0 else playing == 1
  }

  lemma SetPlayingToggles(playing: int)
    requires playing == 0 || playing == 1
    ensures Swaps(playing, true) != Swaps(playing, false)
    ensures Swaps(playing, true) ==> Swaps(1, false)
    ensures Swaps(playing, false) ==> Swaps(0, true)
  {
  }

  predicate HasEmptyHand(players: seq<PlayerState>)
  {
    exists i :: 0 <= i < |players| && |players[i].pokers| == 0
  }

  /** beforeGameover's winner: the last position whose hand is empty, or -1. */
  function Winner(players: seq<PlayerState>): (w: int)
    ensures -1 <= w < |players|
  {
    if |players| == 0 then -1
    else if |players[|players| - 1].pokers| == 0 then |players| - 1
    else Winner(players[..|players| - 1])
  }

  /** The winner exists exactly when some hand is empty; it is the last empty one. */
  lemma {:induction false} WinnerIsLastEmpty(players: seq<PlayerState>)
    ensures Winner(players) == -1 <==> !HasEmptyHand(players)
    ensures Winner(players) >= 0 ==> |players[Winner(players)].pokers| == 0
    ensures forall j :: Winner(players) < j < |players| ==> |players[j].pokers| > 0
  {
    if |players| > 0 {
      var init := players[..|players| - 1];
      WinnerIsLastEmpty(init);
      if |players[|players| - 1].pokers| != 0 {
        if HasEmptyHand(players) {
          var i :| 0 <= i < |players| && |players[i].pokers| == 0;
          assert init[i] == players[i];
        }
        if HasEmptyHand(init) {
          var i :| 0 <= i < |init| && |init[i].pokers| == 0;
          assert players[i] == init[i];
        }
      }
    }
  }

  /** beforeGameover(force). Its OnGameover calls go to Winner(players) when the result is nil and not forced. */
  function GameoverStep(s: GameState, force: bool): Outcome
  {
    if !Swaps(s.playing, false) then Outcome(s, Some(ErrGameover))
    else
      var t := s.(playing := 0);
      if !force && Winner(s.players) == -1 then Outcome(t, Some(ErrUnexpectedGameover))
      else Outcome(t, None)
  }

  /** beforeGameover ends a running game, whatever its end; only a game not running reports ErrGameover. */
  lemma GameoverEnds(s: GameState, force: bool)
    requires ValidState(s)
    ensures ValidState(GameoverStep(s, force).state)
    ensures GameoverStep(s, force).state.playing == 0
    ensures GameoverStep(s, force).err == Some(ErrGameover) <==> s.playing == 0
    ensures GameoverStep(s, force).err == Some(ErrUnexpectedGameover)
      <==> s.playing == 1 && !force && !HasEmptyHand(s.players)
    ensures GameoverStep(s, force).state == s.(playing := 0)
  {
    WinnerIsLastEmpty(s.players);
  }

  // ----- double -----

  /** double(m): every Multiple times int32(m), wrapping as int32 does. */
  function MultiplyAll(players: seq<PlayerState>, m: int): (r: seq<PlayerState>)
    ensures |r| == |players|
  {
    seq(|players|, i requires 0 <= i < |players| => players[i].(multiple := Int32(players[i].multiple * Int32(m))))
  }

  /** double touches only the multiples; without overflow each one is multiplied exactly. */
  lemma MultiplyAllOnlyMultiplies(players: seq<PlayerState>, m: int, i: int)
    requires 0 <= i < |players|
    ensures MultiplyAll(players, m)[i].id == players[i].id
    ensures MultiplyAll(players, m)[i].pos == players[i].pos
    ensures MultiplyAll(players, m)[i].pokers == players[i].pokers
    ensures -0x8000_0000 <= m < 0x8000_0000 && -0x8000_0000 <= players[i].multiple * m < 0x8000_0000
      ==> MultiplyAll(players, m)[i].multiple == players[i].multiple * m
  {
  }

  // ----- OnBidLandlord -----

  /** OnBidLandlord(pos, score), with the player's answer to BidLandlord. */
  function BidStep(s: GameState, pos: int, reply: BidReply): (o: Outcome)
    requires |s.players| == NumPlayer
    ensures |o.state.players| == NumPlayer && o.state.doubled == s.doubled && o.state.playing == s.playing
    ensures o.state.lastPos == s.lastPos && o.state.lastHands == s.lastHands
    ensures o.state.stage == s.stage || (o.err.None? && s.stage == Bid && o.state.stage == Double)
  {
    if s.stage != Bid then Outcome(s, Some(ErrState))
    else if s.turn != Int8(pos) then Outcome(s, Some(ErrTurn))
    else
      var t := s.(players := s.players[PlayerIndex(pos) := reply.after]);
      if reply.failure.Some? then Outcome(t, Failed(reply.failure))
      else if !reply.over then Outcome(t.(turn := NextTurnOf(s.turn)), None)
      else Outcome(t.(landlord := s.turn, stage := Double), None)
  }

  /**
   * Out of the Bid stage or out of turn, nothing changes; otherwise the bid
   * either passes the turn on or, once bidding is over, makes the player on
   * turn the landlord and opens the Double stage.
   */
  lemma BidRules(s: GameState, pos: int, reply: BidReply)
    requires ValidState(s)
    ensures var o := BidStep(s, pos, reply);
      ValidState(o.state)
      && (o.err == Some(ErrState) <==> s.stage != Bid)
      && (o.err == Some(ErrTurn) <==> s.stage == Bid && s.turn != Int8(pos))
      && (o.err in {Some(ErrState), Some(ErrTurn)} ==> o.state == s)
      && (o.err.None? <==> s.stage == Bid && s.turn == Int8(pos) && reply.failure.None?)
      && (s.stage == Bid && s.turn == Int8(pos) ==> o.state.players[PlayerIndex(pos)] == reply.after)
      && (o.err.None? && reply.over ==> o.state.stage == Double && o.state.landlord == s.turn)
      && (o.err.None? && !reply.over ==> o.state.stage == Bid && o.state.turn == (s.turn + 1) % 3)
      && (o.state.stage == Double ==> s.stage == Double || (o.err.None? && o.state.landlord == s.turn))
  {
    TurnCycles(s.turn);
  }

  // ----- OnDouble -----

  /** OnDouble(pos, multiple) as the code reads: the repeat check looks for int8(pos), the record is the player's Pos(). */
  function DoubleStepAsWritten(s: GameState, pos: int, multiple: int, reply: Reply): Outcome
    requires |s.players| == NumPlayer
  {
    if s.stage != Double then Outcome(s, Some(ErrState))
    else if Int8(pos) in s.doubled then Outcome(s, Some(ErrCommandRepeated))
    else DoubleRecord(s, PlayerIndex(pos), multiple, reply)
  }

  /** OnDouble with the repeat check on the position that is recorded. */
  function DoubleStep(s: GameState, pos: int, multiple: int, reply: Reply): Outcome
    requires |s.players| == NumPlayer
  {
    if s.stage != Double then Outcome(s, Some(ErrState))
    else if PlayerIndex(pos) in s.doubled then Outcome(s, Some(ErrCommandRepeated))
    else DoubleRecord(s, PlayerIndex(pos), multiple, reply)
  }

  /** The part after the checks: record p, ask the player to double when multiple > 1, then Play once all three are in. */
  function DoubleRecord(s: GameState, p: nat, multiple: int, reply: Reply): Outcome
    requires |s.players| == NumPlayer && p < NumPlayer
  {
    var t := s.(doubled := s.doubled + [p]);
    if multiple > 1 && reply.failure.Some? then Outcome(t.(players := t.players[p := reply.after]), Failed(reply.failure))
    else
      var u := if multiple > 1 then t.(players := t.players[p := reply.after]) else t;
      Outcome(if |u.doubled| == NumPlayer then u.(stage := Play) else u, None)
  }

  /** Three calls for the same player, with positions 0, 3 and 6, all pass the repeat check. */
  lemma DoubleAsWrittenRepeats(s: GameState, reply: Reply)
    requires |s.players| == NumPlayer && s.stage == Double && s.doubled == []
    ensures var o1 := DoubleStepAsWritten(s, 0, 1, reply);
      var o2 := DoubleStepAsWritten(o1.state, 3, 1, reply);
      var o3 := DoubleStepAsWritten(o2.state, 6, 1, reply);
      o1.err.None? && o2.err.None? && o3.err.None?
      && o3.state.doubled == [0, 0, 0] && o3.state.stage == Play
  {
    assert PlayerIndex(0) == 0 && PlayerIndex(3) == 0 && PlayerIndex(6) == 0;
  }

  predicate NoRepeats(d: seq<int>)
  {
    forall i, j :: 0 <= i < j < |d| ==> d[i] != d[j]
  }

  /** Three distinct positions out of 0..2 are all of them. */
  lemma AllDoubled(d: seq<int>)
    requires NoRepeats(d) && |d| == NumPlayer
    requires forall i :: 0 <= i < |d| ==> 0 <= d[i] < NumPlayer
    ensures forall p :: 0 <= p < NumPlayer ==> p in d
  {
    assert d[0] != d[1] && d[0] != d[2] && d[1] != d[2];
  }

  /**
   * Each player doubles at most once and errors of the checks change
   * nothing. A player that passes the checks is recorded, even when its
   * callback fails; a successful double opens the Play stage exactly when
   * it is the third record, and only then are all three players recorded.
   */
  lemma DoubleRules(s: GameState, pos: int, multiple: int, reply: Reply)
    requires ValidState(s) && NoRepeats(s.doubled)
    ensures var o := DoubleStep(s, pos, multiple, reply);
      ValidState(o.state) && NoRepeats(o.state.doubled)
      && (o.err == Some(ErrState) <==> s.stage != Double)
      && (o.err == Some(ErrCommandRepeated) <==> s.stage == Double && PlayerIndex(pos) in s.doubled)
      && (o.err in {Some(ErrState), Some(ErrCommandRepeated)} ==> o.state == s)
      && (s.stage == Double && PlayerIndex(pos) !in s.doubled ==> o.state.doubled == s.doubled + [PlayerIndex(pos)])
      && (o.err.None? ==> s.stage == Double && (o.state.stage == Play <==> |o.state.doubled| == NumPlayer))
      && (o.err.None? && multiple > 1 ==> o.state.players[PlayerIndex(pos)] == reply.after)
      && (o.err.None? && multiple <= 1 ==> o.state.players == s.players)
      && (s.stage == Double && o.state.stage == Play ==> forall p :: 0 <= p < NumPlayer ==> p in o.state.doubled)
  {
    var o := DoubleStep(s, pos, multiple, reply);
    if s.stage == Double && PlayerIndex(pos) !in s.doubled {
      var d := s.doubled + [PlayerIndex(pos)];
      assert o.state.doubled == d;
      assert NoRepeats(d) by {
        forall i, j | 0 <= i < j < |d|
          ensures d[i] != d[j]
        {
          if j == |d| - 1 {
            assert d[i] == s.doubled[i];
          }
        }
      }
      if o.state.stage == Play {
        AllDoubled(d);
      }
    }
  }

  /** A failing Double callback for the third player records it, yet leaves the stage at Double. */
  lemma DoubleFailureStaysInDouble(s: GameState, pos: int, multiple: int, reply: Reply)
    requires ValidState(s) && s.stage == Double && |s.doubled| == 2 && PlayerIndex(pos) !in s.doubled
    requires multiple > 1 && reply.failure.Some?
    ensures |DoubleStep(s, pos, multiple, reply).state.doubled| == NumPlayer
    ensures DoubleStep(s, pos, multiple, reply).state.stage == Double
    ensures DoubleStep(s, pos, multiple, reply).err.Some?
  {
  }

  // ----- playCards -----

  predicate IsBomb(h: Hands)
  {
    h.category == Bomb || h.category == Rocket
  }

  /** The beat rule: a bomb or rocket beats any other play and a lower bomb; otherwise same category, higher value. */
  predicate Beats(h: Hands, last: Hands)
  {
    if IsBomb(h) then !IsBomb(last) || h.value > last.value
    else !IsBomb(last) && h.category == last.category && h.value > last.value
  }

  /** The beat rule is a strict order: nothing beats itself or what it is beaten by; a bomb beats any plain play and a lower bomb; plain plays never beat bombs. */
  lemma BeatRule(a: Hands, b: Hands, c: Hands)
    ensures !Beats(a, a)
    ensures Beats(a, b) ==> !Beats(b, a)
    ensures Beats(a, b) && Beats(b, c) ==> Beats(a, c)
    ensures IsBomb(a) && !IsBomb(b) ==> Beats(a, b) && !Beats(b, a)
    ensures IsBomb(a) && IsBomb(b) ==> (Beats(a, b) <==> a.value > b.value)
    ensures !IsBomb(a) && !IsBomb(b) ==> (Beats(a, b) <==> a.category == b.category && a.value > b.value)
  {
  }

  /** HandsOfPokers is a stub: it classifies every play as the zero Hands, which is not valid. */
  function HandsOfPokers(pokers: seq<Poker.Poker>): (h: Hands)
    ensures !h.valid
  {
    NoHands
  }

  /**
   * playCards(pos, pokers), with hands for the classification of pokers
   * and the player's answer to PlayCards.
   */
  function PlayStep(s: GameState, pos: int, pokers: seq<Poker.Poker>, hands: Hands, reply: Reply): (o: Outcome)
    requires |s.players| == NumPlayer
    ensures |o.state.players| == NumPlayer && o.state.stage == s.stage
    ensures o.state.doubled == s.doubled && o.state.landlord == s.landlord
  {
    var p := PlayerIndex(pos);
    if s.stage != Play then Outcome(s, Some(ErrState))
    else if s.turn != Int8(p) then Outcome(s, Some(ErrTurn))
    else if !hands.valid then Outcome(s, Some(ErrInvalidCategory))
    else if Int8(p) != s.lastPos && s.lastHands.valid && !Beats(hands, s.lastHands) then Outcome(s, Some(ErrInvalidCategory))
    else
      var t := s.(players := s.players[p := reply.after]);
      if reply.failure.Some? then Outcome(t, Failed(reply.failure))
      else AcceptStep(t, p, pokers, hands)
  }

  /** An accepted play of player p: it becomes the last play, then the game ends or the turn passes. */
  function AcceptStep(t: GameState, p: nat, pokers: seq<Poker.Poker>, hands: Hands): Outcome
    requires |t.players| == NumPlayer
  {
    var u := t.(lastPos := Int8(p), lastHands := hands.(lastPokers := pokers));
    if HasEmptyHand(u.players) then GameoverStep(u, false)
    else Outcome(u.(turn := NextTurnOf(u.turn)), None)
  }

  /**
   * A play out of stage, out of turn, unclassified or not beating the
   * other player's last play changes nothing. An accepted play becomes the
   * last play, with its cards; the turn passes on unless a hand is now
   * empty, in which case the game ends with a winner.
   */
  lemma PlayRules(s: GameState, pos: int, pokers: seq<Poker.Poker>, hands: Hands, reply: Reply)
    requires ValidState(s)
    ensures var o := PlayStep(s, pos, pokers, hands, reply);
      var p := PlayerIndex(pos);
      ValidState(o.state)
      && (o.err in {Some(ErrState), Some(ErrTurn), Some(ErrInvalidCategory)} ==> o.state == s)
      && (o.err == Some(ErrInvalidCategory) <==>
            (s.stage == Play && s.turn == p
             && (!hands.valid || (p != s.lastPos && s.lastHands.valid && !Beats(hands, s.lastHands)))))
      && (o.err.None? || o.err == Some(ErrGameover) ==>
            o.state.lastPos == p && o.state.lastHands == hands.(lastPokers := pokers)
            && o.state.players[p] == reply.after)
      && (o.err.None? && !HasEmptyHand(o.state.players) ==> o.state.turn == (s.turn + 1) % 3)
      && (o.err.None? && HasEmptyHand(o.state.players) ==> o.state.playing == 0 && o.state.turn == s.turn)
      && o.err != Some(ErrUnexpectedGameover)
  {
    TurnCycles(s.turn);
    var p := PlayerIndex(pos);
    var u := s.(players := s.players[p := reply.after], lastPos := p, lastHands := hands.(lastPokers := pokers));
    WinnerIsLastEmpty(u.players);
  }

  /** With the stub classification every play and every pass is refused. */
  lemma StubRefusesEveryPlay(s: GameState, pos: int, pokers: seq<Poker.Poker>, reply: Reply)
    requires ValidState(s)
    ensures PlayStep(s, pos, pokers, HandsOfPokers(pokers), reply).err.Some?
    ensures PlayStep(s, pos, pokers, HandsOfPokers(pokers), reply).state == s
  {
  }

  // ----- Stages -----

  function Rank(stage: Stage): nat
  {
    match stage
    case Ready => 0
    case Bid => 1
    case Double => 2
    case Play => 3
  }

  /** No command takes the game back to an earlier stage. */
  lemma StagesMoveForward(s: GameState, pos: int, multiple: int, pokers: seq<Poker.Poker>, hands: Hands,
                          reply: Reply, bid: BidReply, force: bool)
    requires |s.players| == NumPlayer
    ensures Rank(BidStep(s, pos, bid).state.stage) >= Rank(s.stage)
    ensures Rank(DoubleStep(s, pos, multiple, reply).state.stage) >= Rank(s.stage)
    ensures Rank(PlayStep(s, pos, pokers, hands, reply).state.stage) >= Rank(s.stage)
    ensures Rank(GameoverStep(s, force).state.stage) == Rank(s.stage)
  {
  }

  // ----- The game object -----

  class Landlord3 {
    const uuid: string
    var stage: Stage
    var turn: int
    var landlord: int
    var doubled: seq<int>
    var lastPos: int
    var lastHands: Hands
    var players: seq<PlayerState>
    var playing: int

    function State(): GameState
      reads this
    {
      GameState(stage, turn, landlord, doubled, lastPos, lastHands, players, playing)
    }

    predicate Valid()
      reads this
    {
      ValidState(State()) && NoRepeats(doubled)
    }

    /** NewLandlord3: exactly three players (otherwise it panics), at positions 0..2 with multiple 1. */
    constructor (uuid: string, ids: seq<int>)
      requires |ids| == NumPlayer
      ensures this.uuid == uuid
      ensures State() == GameState(Ready, 0, 0, [], 0, NoHands,
        [PlayerState(ids[0], 0, 1, []), PlayerState(ids[1], 1, 1, []), PlayerState(ids[2], 2, 1, [])], 0)
      ensures Valid()
    {
      this.uuid := uuid;
      stage, turn, landlord, doubled, lastPos, lastHands, playing := Ready, 0, 0, [], 0, NoHands, 0;
      var ps: seq<PlayerState> := [];
      var i := 0;
      while i < |ids|
        invariant 0 <= i <= |ids|
        invariant |ps| == i
        invariant forall k :: 0 <= k < i ==> ps[k] == PlayerState(ids[k], Int8(k), 1, [])
      {
        ps := ps + [PlayerState(ids[i], Int8(i), 1, [])];
        i := i + 1;
      }
      players := ps;
    }

    method SetPlaying(on: bool) returns (ok: bool)
      modifies this
      ensures ok == Swaps(old(playing), on)
      ensures State() == old(State()).(playing := if ok then (if on then 1 else 0) else old(playing))
    {
      if on {
        ok := playing == 0;
        if ok { playing := 1; }
      } else {
        ok := playing == 1;
        if ok { playing := 0; }
      }
    }

    method Gameover() returns (over: bool)
      ensures over == HasEmptyHand(players)
    {
      var i := 0;
      while i < |players|
        invariant 0 <= i <= |players|
        invariant forall k :: 0 <= k < i ==> |players[k].pokers| > 0
      {
        if |players[i].pokers| == 0 {
          return true;
        }
        i := i + 1;
      }
      return false;
    }

    /** beforeGameover(force); winner is the position every player's OnGameover is told, -1 when none is told. */
    method BeforeGameover(force: bool) returns (err: Option<Error>, winner: int)
      modifies this
      ensures Outcome(State(), err) == GameoverStep(old(State()), force)
      ensures winner == (if err.None? && !force then Winner(old(players)) else -1)
    {
      winner := -1;
      var ok := SetPlaying(false);
      if !ok {
        return Some(ErrGameover), -1;
      }
      if !force {
        var w := -1;
        var i := 0;
        while i < |players|
          invariant 0 <= i <= |players|
          invariant w == Winner(players[..i])
        {
          assert players[..i + 1][..i] == players[..i];
          if |players[i].pokers| == 0 {
            w := i;
          }
          i := i + 1;
        }
        assert players[..i] == players;
        if w == -1 {
          return Some(ErrUnexpectedGameover), -1;
        }
        winner := w;
      }
      err := None;
    }

    method Shutdown() returns (err: Option<Error>)
      modifies this
      ensures Outcome(State(), err) == GameoverStep(old(State()), true)
    {
      var w;
      err, w := BeforeGameover(true);
    }

    method Double(multiple: int)
      modifies this
      ensures State() == old(State()).(players := MultiplyAll(old(players), multiple))
    {
      var i := 0;
      while i < |players|
        invariant 0 <= i <= |players| == |old(players)|
        invariant players[..i] == MultiplyAll(old(players), multiple)[..i]
        invariant players[i..] == old(players)[i..]
        invariant State() == old(State()).(players := players)
      {
        players := players[i := players[i].(multiple := Int32(players[i].multiple * Int32(multiple)))];
        i := i + 1;
      }
      assert players == players[..i];
    }

    method IsDoubled(pos: int) returns (b: bool)
      ensures b <==> Int8(pos) in doubled
    {
      var i := 0;
      while i < |doubled|
        invariant 0 <= i <= |doubled|
        invariant Int8(pos) !in doubled[..i]
      {
        if doubled[i] == Int8(pos) {
          return true;
        }
        assert doubled[..i + 1] == doubled[..i] + [doubled[i]];
        i := i + 1;
      }
      assert doubled[..i] == doubled;
      return false;
    }

    method ExpectStages(stages: seq<Stage>) returns (err: Option<Error>)
      ensures err == if stage in stages then None else Some(ErrState)
    {
      var i := 0;
      while i < |stages|
        invariant 0 <= i <= |stages|
        invariant stage !in stages[..i]
      {
        if stages[i] == stage {
          return None;
        }
        assert stages[..i + 1] == stages[..i] + [stages[i]];
        i := i + 1;
      }
      assert stages[..i] == stages;
      return Some(ErrState);
    }

    method ExpectTurn(pos: int) returns (err: Option<Error>)
      ensures err.None? <==> turn == Int8(pos)
      ensures err.Some? ==> err == Some(ErrTurn)
    {
      if turn != Int8(pos) {
        return Some(ErrTurn);
      }
      return None;
    }

    method NextTurn() returns (t: int)
      modifies this
      ensures State() == old(State()).(turn := NextTurnOf(old(turn)))
      ensures t == turn
    {
      turn := NextTurnOf(turn);
      t := turn;
    }

    method SelectLandlord()
      modifies this
      ensures State() == old(State()).(landlord := old(turn), stage := Stage.Double)
    {
      landlord := turn;
      stage := Stage.Double;
    }

    /** storeLastPokers: grow the buffer when it is too short, cut it to size, copy the cards in. */
    method StoreLastPokers(pokers: seq<Poker.Poker>)
      modifies this
      ensures State() == old(State()).(lastHands := old(lastHands).(lastPokers := pokers))
    {
      var size := |pokers|;
      var buf := lastHands.lastPokers;
      if |buf| < size {
        buf := seq(size, _ => 0);
      }
      buf := buf[..size];
      var i := 0;
      while i < size
        invariant 0 <= i <= size == |buf|
        invariant buf[..i] == pokers[..i]
      {
        buf := buf[i := pokers[i]];
        i := i + 1;
      }
      assert buf == pokers;
      lastHands := lastHands.(lastPokers := buf);
    }

    method OnBidLandlord(pos: int, score: int, reply: BidReply) returns (err: Option<Error>)
      requires Valid()
      modifies this
      ensures Outcome(State(), err) == BidStep(old(State()), pos, reply)
      ensures Valid()
    {
      BidRules(State(), pos, reply);
      var p := PlayerIndex(pos);
      err := ExpectStages([Bid]);
      if err.Some? {
        return;
      }
      err := ExpectTurn(pos);
      if err.Some? {
        return;
      }
      players := players[p := reply.after];
      if reply.failure.Some? {
        return Failed(reply.failure);
      }
      if !reply.over {
        var t := NextTurn();
      } else {
        SelectLandlord();
      }
    }

    method OnDouble(pos: int, multiple: int, reply: Reply) returns (err: Option<Error>)
      requires Valid()
      modifies this
      ensures Outcome(State(), err) == DoubleStep(old(State()), pos, multiple, reply)
      ensures Valid()
    {
      DoubleRules(State(), pos, multiple, reply);
      err := ExpectStages([Stage.Double]);
      if err.Some? {
        return;
      }
      var p := PlayerIndex(pos);
      var repeated := IsDoubled(p);
      if repeated {
        return Some(ErrCommandRepeated);
      }
      doubled := doubled + [p];
      if multiple > 1 {
        players := players[p := reply.after];
        if reply.failure.Some? {
          return Failed(reply.failure);
        }
      }
      if |doubled| == NumPlayer {
        stage := Play;
      }
    }

    method OnRevealCards(pos: int, reply: Reply) returns (err: Option<Error>)
      requires Valid()
      modifies this
      ensures old(stage) != Play || |old(lastHands).lastPokers| > 0 ==> err == Some(ErrState) && State() == old(State())
      ensures old(stage) == Play && |old(lastHands).lastPokers| == 0 ==>
        err == Failed(reply.failure) && State() == old(State()).(players := old(players)[PlayerIndex(pos) := reply.after])
      ensures Valid()
    {
      err := ExpectStages([Play]);
      if err.Some? {
        return;
      }
      if |lastHands.lastPokers| > 0 {
        return Some(ErrState);
      }
      players := players[PlayerIndex(pos) := reply.after];
      err := Failed(reply.failure);
    }

    /** playCards, with hands for what HandsOfPokers makes of the cards. */
    method PlayCards(pos: int, pokers: seq<Poker.Poker>, hands: Hands, reply: Reply) returns (err: Option<Error>)
      requires Valid()
      modifies this
      ensures Outcome(State(), err) == PlayStep(old(State()), pos, pokers, hands, reply)
      ensures Valid()
    {
      PlayRules(State(), pos, pokers, hands, reply);
      var p := PlayerIndex(pos);
      err := ExpectStages([Play]);
      if err.Some? {
        return;
      }
      err := ExpectTurn(p);
      if err.Some? {
        return;
      }
      if !hands.valid {
        return Some(ErrInvalidCategory);
      }
      if Int8(p) != lastPos && lastHands.valid && !Beats(hands, lastHands) {
        return Some(ErrInvalidCategory);
      }
      players := players[p := reply.after];
      if reply.failure.Some? {
        return Failed(reply.failure);
      }
      err := AcceptPlay(p, pokers, hands);
    }

    /** The tail of playCards once the player has accepted the play. */
    method AcceptPlay(p: nat, pokers: seq<Poker.Poker>, hands: Hands) returns (err: Option<Error>)
      requires Valid()
      modifies this
      ensures Outcome(State(), err) == AcceptStep(old(State()), p, pokers, hands)
    {
      lastPos := Int8(p);
      lastHands := hands;
      StoreLastPokers(pokers);
      var over := Gameover();
      if over {
        var w;
        err, w := BeforeGameover(false);
        return;
      }
      var t := NextTurn();
      err := None;
    }

    /** OnPlayCards refuses an empty play; otherwise it is playCards with the stub classification. */
    method OnPlayCards(pos: int, pokers: seq<Poker.Poker>, reply: Reply) returns (err: Option<Error>)
      requires Valid()
      modifies this
      ensures |pokers| == 0 ==> err == Some(ErrEmptyPokers) && State() == old(State())
      ensures |pokers| > 0 ==> Outcome(State(), err) == PlayStep(old(State()), pos, pokers, HandsOfPokers(pokers), reply)
      ensures Valid()
    {
      if |pokers| == 0 {
        return Some(ErrEmptyPokers);
      }
      err := PlayCards(pos, pokers, HandsOfPokers(pokers), reply);
    }

    /** OnPass plays no cards. */
    method OnPass(pos: int, reply: Reply) returns (err: Option<Error>)
      requires Valid()
      modifies this
      ensures Outcome(State(), err) == PlayStep(old(State()), pos, [], HandsOfPokers([]), reply)
      ensures Valid()
    {
      err := PlayCards(pos, [], HandsOfPokers([]), reply);
    }
  }
}
