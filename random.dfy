/**
 * Package math/random: numbers, booleans and random strings drawn from an
 * abstract random source, plus its own copy of the Fisher-Yates shuffle.
 */
module Random {
  import opened RandSource
  import opened GoMath
  import Algorithm

  const Digits: string := "0123456789"
  const LowercaseChars: string := "abcdefghijklmnopqrstuvwxyz"
  const UppercaseChars: string := "ABCDEFGHIJKLMNOPQRSTUVWXYZ"
  const SpecialChars: string := "~!@#$%^&*"

  const ODigit: bv8 := 1
  const OLowerChar: bv8 := 2
  const OUpperChar: bv8 := 4
  const OSpecialChar: bv8 := 8

  /** The next number of the source, or of the default source when none is given. */
  method Int63(source: Source?, default: Source) returns (r: Int63)
    modifies Choose(source, default)
    ensures r == Choose(source, default).draw(old(Choose(source, default).next))
    ensures Choose(source, default).next == old(Choose(source, default).next) + 1
  {
    var src := Choose(source, default);
    r := src.Int63();
  }

  /** Intn's result for the drawn number x: Go's remainder, never negative here. */
  function IntnOf(x: Int63, n: int): (r: int)
    requires n != 0
    ensures 0 <= r < Abs(n)
    ensures n > 0 ==> r < n
    ensures r == x % Abs(n)
    ensures n > 0 ==> r == x % n
  {
    Rem(x, n)
  }

  /** Go panics on a zero divisor; that is the precondition here. */
  method Intn(n: int, source: Source?, default: Source) returns (r: int)
    requires n != 0
    modifies Choose(source, default)
    ensures r == IntnOf(Choose(source, default).draw(old(Choose(source, default).next)), n)
    ensures Choose(source, default).next == old(Choose(source, default).next) + 1
  {
    var x := Int63(source, default);
    r := Rem(x, n);
  }

  function BoolOf(x: Int63): (b: bool)
    ensures b <==> x % 2 == 1
  {
    IntnOf(x, 2) == 1
  }

  method Bool(source: Source?, default: Source) returns (b: bool)
    modifies Choose(source, default)
    ensures b == BoolOf(Choose(source, default).draw(old(Choose(source, default).next)))
    ensures Choose(source, default).next == old(Choose(source, default).next) + 1
  {
    var i := Intn(2, source, default);
    b := i == 1;
  }

  // ----- String -----

  /** The low four bits of a Go int (the only ones String looks at), two's complement. */
  function LowBits(m: int): (f: bv8)
    ensures f < 16
  {
    (m % 16) as bv8
  }

  /** The low four bits of the OR of all modes. */
  function Flags(modes: seq<int>): (f: bv8)
    ensures f < 16
  {
    if |modes| == 0 then 0 else Flags(modes[..|modes| - 1]) | LowBits(modes[|modes| - 1])
  }

  /** The effective mode: the OR of the modes, or lower|upper when no known flag is set. */
  function Mode(modes: seq<int>): (mode: bv8)
    ensures mode != 0 && mode < 16
    ensures Flags(modes) != 0 ==> mode == Flags(modes)
    ensures Flags(modes) == 0 ==> mode == OLowerChar | OUpperChar
  {
    var f := Flags(modes);
    if f & (ODigit | OLowerChar | OUpperChar | OSpecialChar) == 0 then OLowerChar | OUpperChar else f
  }

  /** Charset number k (digits, lower, upper, special) and its flag. */
  function Charset(k: nat): (cs: string)
    requires k < 4
    ensures |cs| > 0
  {
    [Digits, LowercaseChars, UppercaseChars, SpecialChars][k]
  }

  function Flag(k: nat): (f: bv8)
    requires k < 4
    ensures f != 0 && f & 15 == f
  {
    [ODigit, OLowerChar, OUpperChar, OSpecialChar][k]
  }

  /** The enabled charsets from number k on, concatenated in the fixed order. */
  function Alphabet(mode: bv8, k: nat): string
    requires k <= 4
    decreases 4 - k
  {
    if k == 4 then ""
    else (if mode & Flag(k) != 0 then Charset(k) else "") + Alphabet(mode, k + 1)
  }

  /** The code's sum of the enabled charsets' sizes. */
  function Size(mode: bv8): (n: int)
    ensures 0 <= n <= |Digits| + |LowercaseChars| + |UppercaseChars| + |SpecialChars|
    ensures mode & (ODigit | OLowerChar | OUpperChar | OSpecialChar) != 0 ==> n > 0
  {
    (if mode & ODigit != 0 then |Digits| else 0)
    + (if mode & OLowerChar != 0 then |LowercaseChars| else 0)
    + (if mode & OUpperChar != 0 then |UppercaseChars| else 0)
    + (if mode & OSpecialChar != 0 then |SpecialChars| else 0)
  }

  /**
   * The code's cascade: try each enabled charset in turn, subtracting its
   * size from index when the index lies beyond it; '-' when all are passed.
   * It indexes the concatenation of the enabled charsets, and gives '-'
   * only past its end.
   */
  function Cascade(mode: bv8, k: nat, index: nat): (c: char)
    requires k <= 4
    ensures index < |Alphabet(mode, k)| ==> c == Alphabet(mode, k)[index]
    ensures index >= |Alphabet(mode, k)| ==> c == '-'
    decreases 4 - k
  {
    if k == 4 then '-'
    else
      var cs, rest := Charset(k), Alphabet(mode, k + 1);
      if mode & Flag(k) != 0 then
        assert Alphabet(mode, k) == cs + rest;
        if index < |cs| then cs[index] else Cascade(mode, k + 1, index - |cs|)
      else
        assert Alphabet(mode, k) == rest;
        Cascade(mode, k + 1, index)
  }

  lemma SizeIsAlphabetLength(mode: bv8)
    requires mode != 0 && mode < 16
    ensures Size(mode) == |Alphabet(mode, 0)| > 0
  {
    assert Flag(0) == ODigit && Flag(1) == OLowerChar && Flag(2) == OUpperChar && Flag(3) == OSpecialChar;
    assert mode & ODigit != 0 || mode & OLowerChar != 0 || mode & OUpperChar != 0 || mode & OSpecialChar != 0;
  }

  /** The string of n bytes drawn from start on: byte i is the entry of the
      enabled alphabet at the i-th number modulo the alphabet's length. */
  function RandomText(mode: bv8, draw: nat -> Int63, start: nat, n: nat): (s: string)
    requires mode != 0 && mode < 16
    ensures |s| == n
  {
    SizeIsAlphabetLength(mode);
    var alphabet := Alphabet(mode, 0);
    if n == 0 then "" else RandomText(mode, draw, start, n - 1) + [alphabet[draw(start + n - 1) % |alphabet|]]
  }

  /** Byte i of s is the alphabet's entry at the i-th draw modulo the alphabet's length. */
  predicate Drawn(s: string, alphabet: string, draw: nat -> Int63, start: nat)
  {
    |alphabet| > 0 && forall i :: 0 <= i < |s| ==> s[i] == alphabet[draw(start + i) % |alphabet|]
  }

  /** A random string has the requested length and every byte comes from the enabled charsets. */
  lemma {:induction false} RandomTextFromAlphabet(mode: bv8, draw: nat -> Int63, start: nat, n: nat)
    requires mode != 0 && mode < 16
    ensures |RandomText(mode, draw, start, n)| == n
    ensures Drawn(RandomText(mode, draw, start, n), Alphabet(mode, 0), draw, start)
  {
    SizeIsAlphabetLength(mode);
    if n > 0 {
      var m := n - 1;
      RandomTextFromAlphabet(mode, draw, start, m);
      var alphabet, prefix := Alphabet(mode, 0), RandomText(mode, draw, start, m);
      RandomTextNext(mode, draw, start, m);
      DrawnSnoc(prefix, alphabet[draw(start + m) % |alphabet|], alphabet, draw, start, m);
    }
  }

  /** One more draw at the end keeps a string drawn from the alphabet. */
  lemma DrawnSnoc(s: string, c: char, alphabet: string, draw: nat -> Int63, start: nat, n: nat)
    requires Drawn(s, alphabet, draw, start) && |s| == n
    requires c == alphabet[draw(start + n) % |alphabet|]
    ensures Drawn(s + [c], alphabet, draw, start)
  {
  }

  /** Lengths of zero or less give "" and draw nothing. */
  method String(length: int, source: Source?, default: Source, modes: seq<int>) returns (s: string)
    modifies Choose(source, default)
    ensures length <= 0 ==> s == "" && Choose(source, default).next == old(Choose(source, default).next)
    ensures length > 0 ==>
      s == RandomText(Mode(modes), Choose(source, default).draw, old(Choose(source, default).next), length)
      && Choose(source, default).next == old(Choose(source, default).next) + length
  {
    if length <= 0 {
      return "";
    }
    var mode := Mode(modes);
    s := Draw(mode, Choose(source, default), length);
  }

  /** The loop of String: one cascade lookup per drawn number. */
  method Draw(mode: bv8, src: Source, length: nat) returns (s: string)
    requires mode != 0 && mode < 16
    modifies src
    ensures s == RandomText(mode, src.draw, old(src.next), length)
    ensures src.next == old(src.next) + length
  {
    ghost var start := src.next;
    s := "";
    var i := 0;
    while i < length
      invariant 0 <= i <= length
      invariant s == RandomText(mode, src.draw, start, i)
      invariant src.next == start + i
    {
      s := DrawNext(mode, src, s, start, i);
      i := i + 1;
    }
  }

  /** One turn of String's loop: the string drawn so far gains one byte. */
  method DrawNext(mode: bv8, src: Source, s: string, ghost start: nat, ghost i: nat) returns (t: string)
    requires mode != 0 && mode < 16
    requires s == RandomText(mode, src.draw, start, i) && src.next == start + i
    modifies src
    ensures t == RandomText(mode, src.draw, start, i + 1)
    ensures src.next == old(src.next) + 1
  {
    var c := DrawByte(mode, src);
    RandomTextSnoc(mode, src.draw, start, i, s, c);
    t := s + [c];
  }

  /** One round of String's loop: a number modulo Size, looked up by the
      cascade, which picks the entry of the enabled alphabet at that index. */
  method DrawByte(mode: bv8, src: Source) returns (c: char)
    requires mode != 0 && mode < 16
    modifies src
    ensures Size(mode) == |Alphabet(mode, 0)| > 0
    ensures c == Alphabet(mode, 0)[src.draw(old(src.next)) % Size(mode)]
    ensures src.next == old(src.next) + 1
  {
    var size := Size(mode);
    SizeIsAlphabetLength(mode);
    var x := src.Int63();
    c := Cascade(mode, 0, x % size);
  }

  /** The drawn string followed by the byte of the next draw is the next drawn string. */
  lemma RandomTextSnoc(mode: bv8, draw: nat -> Int63, start: nat, i: nat, s: string, c: char)
    requires mode != 0 && mode < 16 && s == RandomText(mode, draw, start, i)
    requires Size(mode) == |Alphabet(mode, 0)| > 0 && c == Alphabet(mode, 0)[draw(start + i) % Size(mode)]
    ensures s + [c] == RandomText(mode, draw, start, i + 1)
  {
  }

  lemma RandomTextNext(mode: bv8, draw: nat -> Int63, start: nat, n: nat)
    requires mode != 0 && mode < 16
    ensures Size(mode) == |Alphabet(mode, 0)| > 0
    ensures RandomText(mode, draw, start, n + 1)
         == RandomText(mode, draw, start, n) + [Alphabet(mode, 0)[draw(start + n) % Size(mode)]]
  {
    SizeIsAlphabetLength(mode);
  }

  /**
   * random.Shuffle has the same body as algorithm.Shuffle: a nil source
   * means math/rand's rand.Intn, not DefaultSource.
   */
  method Shuffle<T>(orders: array<T>, source: Source?, global: GlobalRand)
    modifies orders, source, global
    ensures orders[..] == Algorithm.Shuffled(old(orders[..]), old(Algorithm.DrawsOf(source, global)))
    ensures multiset(orders[..]) == multiset(old(orders[..]))
    ensures Algorithm.Taken(source, global) == old(Algorithm.Taken(source, global)) + orders.Length
    ensures source != null ==> global.calls == old(global.calls)
  {
    Algorithm.Shuffle(orders, source, global);
    Algorithm.ShuffledPermutation(old(orders[..]), old(Algorithm.DrawsOf(source, global)));
  }
}
