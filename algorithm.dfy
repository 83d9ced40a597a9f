/** The Fisher-Yates shuffle of package algorithm, over abstract random draws. */
module Algorithm {
  import opened RandSource

  /** The swap partner of index i for a drawn number x: always in [0, i]. */
  function Partner(i: nat, x: Int63): (j: nat)
    ensures j <= i
  {
    x % (i + 1)
  }

  /**
   * Where the swap partners come from: the numbers a given source hands out
   * from its start-th on, or the answers of math/rand's rand.Intn from its
   * start-th call on (for a nil source).
   */
  datatype Draws =
    | FromSource(draw: nat -> Int63, start: nat)
    | FromGlobal(intn: IntnStream, start: nat)

  /** The partner of index i in the r-th round (counting from 0). */
  function PartnerAt(d: Draws, r: nat, i: nat): (j: nat)
    ensures j <= i
  {
    match d
    case FromSource(draw, start) => Partner(i, draw(start + r))
    case FromGlobal(intn, start) => intn(start + r, i + 1)
  }

  function Swap<T>(s: seq<T>, i: nat, j: nat): (r: seq<T>)
    requires i < |s| && j < |s|
    ensures |r| == |s|
  {
    s[i := s[j]][j := s[i]]
  }

  lemma SwapPermutation<T>(s: seq<T>, i: nat, j: nat)
    requires i < |s| && j < |s|
    ensures multiset(Swap(s, i, j)) == multiset(s)
  {
  }

  /**
   * The slice after the first k rounds of the countdown: round k (counting
   * from 1) swaps index |s|-k with its partner in round k-1.
   */
  function Steps<T>(s: seq<T>, d: Draws, k: nat): (r: seq<T>)
    requires k <= |s|
    ensures |r| == |s|
  {
    if k == 0 then s
    else
      var i := |s| - k;
      Swap(Steps(s, d, k - 1), i, PartnerAt(d, k - 1, i))
  }

  lemma StepsNext<T>(s: seq<T>, d: Draws, k: nat)
    requires k < |s|
    ensures Steps(s, d, k + 1) == Swap(Steps(s, d, k), |s| - 1 - k, PartnerAt(d, k, |s| - 1 - k))
  {
  }

  /** The whole shuffle: one round for each index from |s|-1 down to 0. */
  function Shuffled<T>(s: seq<T>, d: Draws): seq<T>
  {
    Steps(s, d, |s|)
  }

  lemma {:induction false} StepsPermutation<T>(s: seq<T>, d: Draws, k: nat)
    requires k <= |s|
    ensures multiset(Steps(s, d, k)) == multiset(s)
  {
    if k > 0 {
      StepsPermutation(s, d, k - 1);
      var t, i := Steps(s, d, k - 1), |s| - k;
      var j := PartnerAt(d, k - 1, i);
      assert Steps(s, d, k) == Swap(t, i, j);
      SwapPermutation(t, i, j);
      assert multiset(Steps(s, d, k)) == multiset(Swap(t, i, j));
      assert multiset(t) == multiset(s);
    }
  }

  /** Shuffling only reorders: the multiset of elements is unchanged. */
  lemma ShuffledPermutation<T>(s: seq<T>, d: Draws)
    ensures |Shuffled(s, d)| == |s|
    ensures multiset(Shuffled(s, d)) == multiset(s)
  {
    StepsPermutation(s, d, |s|);
  }

  /** The draws a shuffle uses: those of the source when there is one, else those of rand.Intn. */
  function DrawsOf(source: Source?, global: GlobalRand): (d: Draws)
    reads source, global
    ensures source != null ==> d == FromSource(source.draw, source.next)
    ensures source == null ==> d == FromGlobal(global.intn, global.calls)
  {
    if source != null then FromSource(source.draw, source.next) else FromGlobal(global.intn, global.calls)
  }

  /** The elements at i and j trade places. */
  method SwapElements<T>(a: array<T>, i: nat, j: nat)
    requires i < a.Length && j < a.Length
    modifies a
    ensures a[..] == Swap(old(a[..]), i, j)
  {
    a[i], a[j] := a[j], a[i];
  }

  /** The number of draws taken so far, from whichever generator is in use. */
  function Taken(source: Source?, global: GlobalRand): nat
    reads source, global
  {
    if source != null then source.next else global.calls
  }

  /** One round of the countdown: index i trades places with its partner for the next draw. */
  method Round<T>(orders: array<T>, source: Source?, global: GlobalRand, i: nat, ghost s0: seq<T>, ghost d: Draws)
    requires i < orders.Length == |s0|
    requires source != null ==> d.FromSource? && d.draw == source.draw
    requires source == null ==> d.FromGlobal? && d.intn == global.intn
    requires Taken(source, global) == d.start + (orders.Length - 1 - i)
    requires orders[..] == Steps(s0, d, orders.Length - 1 - i)
    modifies orders, source, global
    ensures orders[..] == Steps(s0, d, orders.Length - i)
    ensures Taken(source, global) == old(Taken(source, global)) + 1
    ensures source != null ==> global.calls == old(global.calls)
  {
    ghost var n := orders.Length - 1 - i;
    var j;
    if source == null {
      j := global.Intn(i + 1);
    } else {
      var x := source.Int63();
      j := Partner(i, x);
    }
    assert j == PartnerAt(d, n, i);
    StepsNext(s0, d, n);
    SwapElements(orders, i, j);
  }

  /**
   * Shuffle in place, one draw per index from the last index down to 0:
   * from the source, or from rand.Intn when the source is nil.
   */
  method Shuffle<T>(orders: array<T>, source: Source?, global: GlobalRand)
    modifies orders, source, global
    ensures orders[..] == Shuffled(old(orders[..]), old(DrawsOf(source, global)))
    ensures Taken(source, global) == old(Taken(source, global)) + orders.Length
    ensures source != null ==> global.calls == old(global.calls)
  {
    ghost var s0 := orders[..];
    ghost var d := DrawsOf(source, global);
    var i := orders.Length - 1;
    while i >= 0
      invariant -1 <= i < orders.Length
      invariant orders[..] == Steps(s0, d, orders.Length - 1 - i)
      invariant Taken(source, global) == d.start + (orders.Length - 1 - i)
      invariant source != null ==> source.draw == d.draw && global.calls == old(global.calls)
      invariant source == null ==> global.intn == d.intn
    {
      Round(orders, source, global, i, s0, d);
      i := i - 1;
    }
  }

  method ShuffleInts(orders: array<int>, source: Source?, global: GlobalRand)
    modifies orders, source, global
    ensures orders[..] == Shuffled(old(orders[..]), old(DrawsOf(source, global)))
    ensures multiset(orders[..]) == multiset(old(orders[..]))
    ensures Taken(source, global) == old(Taken(source, global)) + orders.Length
    ensures source != null ==> global.calls == old(global.calls)
  {
    Shuffle(orders, source, global);
    ShuffledPermutation(old(orders[..]), old(DrawsOf(source, global)));
  }

  /** ShuffleFloats: float64 values are modelled as reals, which the shuffle only moves. */
  method ShuffleFloats(orders: array<real>, source: Source?, global: GlobalRand)
    modifies orders, source, global
    ensures orders[..] == Shuffled(old(orders[..]), old(DrawsOf(source, global)))
    ensures multiset(orders[..]) == multiset(old(orders[..]))
    ensures Taken(source, global) == old(Taken(source, global)) + orders.Length
    ensures source != null ==> global.calls == old(global.calls)
  {
    Shuffle(orders, source, global);
    ShuffledPermutation(old(orders[..]), old(DrawsOf(source, global)));
  }

  method ShuffleStrings(orders: array<string>, source: Source?, global: GlobalRand)
    modifies orders, source, global
    ensures orders[..] == Shuffled(old(orders[..]), old(DrawsOf(source, global)))
    ensures multiset(orders[..]) == multiset(old(orders[..]))
    ensures Taken(source, global) == old(Taken(source, global)) + orders.Length
    ensures source != null ==> global.calls == old(global.calls)
  {
    Shuffle(orders, source, global);
    ShuffledPermutation(old(orders[..]), old(DrawsOf(source, global)));
  }
}
