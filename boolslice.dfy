/** container/boolslice: a slice of booleans packed eight to a byte, bit
    index & 7 of byte index >> 3 holding element index. */
module BoolSlice {

  /** The mask of bit j of a byte. */
  function Mask(j: nat): bv8
    requires j < 8
  {
    (1 as bv8) << j
  }

  /** Bit k of the packed bytes (Get, for k >= 0: k >> 3 is k / 8 and k & 7
      is k % 8). */
  function Bit(data: seq<bv8>, k: nat): bool
    requires k / 8 < |data|
  {
    data[k / 8] & Mask(k % 8) != 0
  }

  /** b |= 1 << j */
  function SetBit(b: bv8, j: nat): bv8
    requires j < 8
  {
    b | Mask(j)
  }

  /** b &= ^(1 << j) */
  function ClearBit(b: bv8, j: nat): bv8
    requires j < 8
  {
    b & !Mask(j)
  }

  /** The bytes after Set(k, v). */
  function WithBit(data: seq<bv8>, k: nat, v: bool): (r: seq<bv8>)
    requires k / 8 < |data|
    ensures |r| == |data|
  {
    var b := data[k / 8];
    data[k / 8 := if v then SetBit(b, k % 8) else ClearBit(b, k % 8)]
  }

  /** Setting one bit of a byte leaves the other seven alone. */
  lemma ByteBit(b: bv8, j: nat, m: nat, v: bool)
    requires j < 8 && m < 8
    ensures ((if v then SetBit(b, j) else ClearBit(b, j)) & Mask(m) != 0) == (if m == j then v else b & Mask(m) != 0)
  {
    assert Mask(0) == 1 && Mask(1) == 2 && Mask(2) == 4 && Mask(3) == 8;
    assert Mask(4) == 16 && Mask(5) == 32 && Mask(6) == 64 && Mask(7) == 128;
  }

  /** Set(k, v) makes bit k equal to v and changes no other bit. */
  lemma WithBitSpec(data: seq<bv8>, k: nat, v: bool, m: nat)
    requires k / 8 < |data| && m / 8 < |data|
    ensures Bit(WithBit(data, k, v), m) == if m == k then v else Bit(data, m)
  {
    if m / 8 == k / 8 {
      ByteBit(data[k / 8], k % 8, m % 8, v);
      assert m == k <==> m % 8 == k % 8;
    }
  }

  /** The first n bits, as booleans. */
  function Bits(data: seq<bv8>, n: nat): (r: seq<bool>)
    requires n <= 8 * |data|
    ensures |r| == n && forall k :: 0 <= k < n ==> r[k] == Bit(data, k)
  {
    if n == 0 then [] else Bits(data, n - 1) + [Bit(data, n - 1)]
  }

  /** The storage invariant: enough bytes for every element. */
  predicate Stored(data: seq<bv8>, length: int) {
    0 <= length <= 8 * |data|
  }

  /** NewWithCap(size) keeps the length but allocates no byte: for any
      size > 0 the storage invariant fails, and Get(0) and Push index past
      the bytes. */
  lemma NewWithCapAsWritten(size: int)
    requires size > 0
    ensures !Stored([], size)
  {
  }

  /** The bytes the corrected NewWithCap starts with: (size >> 3) + 1 zero
      bytes, so that every one of its size elements is false. */
  function NewWithCapData(size: nat): (data: seq<bv8>)
    ensures Stored(data, size) && Bits(data, size) == seq(size, _ => false)
  {
    var data := seq(size / 8 + 1, _ => 0 as bv8);
    assert forall k :: 0 <= k < size ==> !Bit(data, k);
    data
  }

  /** The length Truncate(from, to) leaves on a slice of length len: to - from
      for from > 0 (where to <= len), and otherwise the smaller of to and len. */
  function TruncatedLength(from: int, to: int, len: int): int
  {
    if from > 0 then to - from else if to < len then to else len
  }

  class BoolSlice {
    var data: seq<bv8>
    var length: int

    ghost predicate Valid()
      reads this
    {
      Stored(data, length)
    }

    /** The elements 0 .. Len()-1. */
    ghost function Contents(): seq<bool>
      reads this
      requires Valid()
    {
      Bits(data, length)
    }

    /** New() */
    constructor New()
      ensures Valid() && Contents() == [] && data == []
    {
      data := [];
      length := 0;
    }

    /** NewWithCap(size), with the bytes allocated. */
    constructor NewWithCap(size: nat)
      ensures Valid() && length == size && Contents() == seq(size, _ => false)
    {
      data := NewWithCapData(size);
      length := size;
    }

    /** Len() */
    function Len(): (n: int)
      reads this
      ensures Valid() ==> n == |Contents()|
    {
      length
    }

    /** Get(index): it reads any bit of the bytes, within the length or not;
        an index past the bytes panics. */
    function Get(index: int): (b: bool)
      reads this
      requires 0 <= index && index / 8 < |data|
      ensures Valid() && index < length ==> b == Contents()[index]
    {
      Bit(data, index)
    }

    /** Set(index, value) */
    method Set(index: int, value: bool)
      requires 0 <= index && index / 8 < |data|
      modifies this
      ensures data == WithBit(old(data), index, value) && length == old(length)
    {
      var i := index / 8;
      var j := index % 8;
      if value {
        data := data[i := SetBit(data[i], j)];
      } else {
        data := data[i := ClearBit(data[i], j)];
      }
    }

    /** Push(value) */
    method Push(value: bool)
      requires Valid()
      modifies this
      ensures Valid() && Contents() == old(Contents()) + [value]
      ensures |data| == if old(length) / 8 < old(|data|) then old(|data|) else old(|data|) + 1
    {
      var i := length / 8;
      if i >= |data| {
        data := data + [0];
      }
      ghost var d := data;
      Set(length, value);
      forall k | 0 <= k < length + 1
        ensures Bit(data, k) == (old(Contents()) + [value])[k]
      {
        WithBitSpec(d, length, value, k);
        if k < length {
          assert Bit(d, k) == Bit(old(data), k);
        }
      }
      length := length + 1;
    }

    /** Pop(): panics on an empty slice; cuts the bytes to (Len >> 3) + 1
        when there are more. */
    method Pop() returns (value: bool)
      requires Valid() && length > 0
      modifies this
      ensures Valid() && value == old(Contents())[old(length) - 1]
      ensures Contents() == old(Contents())[..old(length) - 1]
      ensures |data| == if length / 8 + 1 < old(|data|) then length / 8 + 1 else old(|data|)
    {
      length := length - 1;
      value := Get(length);
      var n := length / 8 + 1;
      if n < |data| {
        ghost var d := data;
        data := data[..n];
        assert forall k :: 0 <= k < length ==> Bit(data, k) == Bit(d, k);
      }
    }

    /** The cut Pop and Truncate make after shortening: the bytes are cut to
        (Len >> 3) + 1 when there are more. With a length of -8 .. -1 (which
        Truncate can leave behind) that is no byte at all; a lower length
        would make the bound negative. */
    method Shrink()
      requires Valid() || -8 <= length < 0
      modifies this
      ensures old(Valid()) ==> Valid() && Contents() == old(Contents())
      ensures length == old(length)
      ensures |data| == if length / 8 + 1 < old(|data|) then length / 8 + 1 else old(|data|)
    {
      var n := length / 8 + 1;
      if n < |data| {
        ghost var d := data;
        data := data[..n];
        assert forall k :: 0 <= k < length ==> Bit(data, k) == Bit(d, k);
      }
    }

    /** Truncate(from, to): keep the elements from .. to-1, moved to the
        front by a copy loop of Set and Get. A from of 0 or less only cuts
        the length to `to`, and a `to` at or past the length then changes
        nothing. When from > to, or to < 0, the length becomes negative and
        no byte is left; below -8 the cut of the bytes panics. */
    method Truncate(from: int, to: int)
      requires Valid() && (from > 0 ==> to <= length) && TruncatedLength(from, to, length) >= -8
      modifies this
      ensures length == TruncatedLength(from, to, old(length))
      ensures length >= 0 ==> Valid()
      ensures length >= 0 ==>
        Contents() == old(Contents())[(if from > 0 then from else 0)..(if from > 0 then from else 0) + length]
      ensures length < 0 ==> data == []
      ensures from <= 0 && to >= old(length) ==> length == old(length) && data == old(data)
    {
      CutLength(to);
      if from > 0 {
        MoveFront(from, to);
      }
    }

    /** The first step of Truncate: a shorter `to` becomes the length, and
        any other `to` leaves the slice as it is. */
    method CutLength(to: int)
      requires Valid() && -8 <= to
      modifies this
      ensures length == if to < old(length) then to else old(length)
      ensures length >= 0 ==> Valid() && Contents() == old(Contents())[..length]
      ensures length < 0 ==> data == []
      ensures to >= old(length) ==> data == old(data)
    {
      if to < length {
        length := to;
        Shrink();
      }
    }

    /** The second step of Truncate, for from > 0: elements from .. to-1
        moved to the front, and the length set to to - from. */
    method MoveFront(from: int, to: int)
      requires 0 < from && length == to && to - from >= -8
      requires to >= 0 ==> Valid()
      requires to < 0 ==> data == []
      modifies this
      ensures length == to - from
      ensures length >= 0 ==> Valid() && Contents() == old(Contents())[from..to]
      ensures length < 0 ==> data == []
    {
      var l := to - from;
      ghost var d := data;
      if l > 0 {
        // Go's loop runs no turn for l <= 0
        MoveDown(from, l);
      }
      length := l;
      assert forall k :: 0 <= k < l ==> Bit(data, k) == Bit(d, k + from);
      Shrink();
    }

    /** Truncate's copy loop: Set(i, Get(i + from)) for i from 0 up to l. */
    method MoveDown(from: int, l: int)
      requires 0 < from && 0 <= l && from + l <= 8 * |data|
      modifies this
      ensures |data| == old(|data|) && length == old(length)
      ensures forall k :: 0 <= k < l ==> Bit(data, k) == Bit(old(data), k + from)
    {
      for i := 0 to l
        invariant |data| == old(|data|) && length == old(length)
        invariant forall k :: 0 <= k < i ==> Bit(data, k) == Bit(old(data), k + from)
        invariant forall k :: i <= k < 8 * |data| ==> Bit(data, k) == Bit(old(data), k)
      {
        ghost var before := data;
        var b := Get(i + from);
        assert b == Bit(old(data), i + from);
        Set(i, b);
        forall k | 0 <= k < 8 * |data|
          ensures Bit(data, k) == if k == i then b else Bit(before, k)
        {
          WithBitSpec(before, i, b, k);
        }
      }
    }
  }

  /** Push(v) then Pop() gives v back and restores the contents and the
      length. */
  method PushThenPop(s: BoolSlice, v: bool) returns (value: bool)
    requires s.Valid()
    modifies s
    ensures s.Valid() && value == v && s.Contents() == old(s.Contents()) && s.length == old(s.length)
  {
    s.Push(v);
    value := s.Pop();
  }
}
