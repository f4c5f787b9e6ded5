/**
 The growing byte queue: one array, a begin and an end cursor. Every public
 method runs under the buffer's mutex, so each is one atomic step here.
 */
module AutoGrowBuffer {
  import opened Bytes
  import opened BufferSpec

  class AutoGrowBuffer {
    var trueBuf: array<byte>
    var trueLen: nat
    var begin: nat
    var end: nat
    ghost var copied: nat  // bytes copied by reallocations so far

    ghost predicate Valid()
      reads this
    {
      begin <= end <= trueLen && trueBuf.Length == trueLen
    }

    /** The live bytes, oldest first. */
    ghost function Contents(): (s: seq<byte>)
      reads this, trueBuf
      requires Valid()
      ensures |s| == end - begin
    {
      trueBuf[begin..end]
    }

    ghost function Layout(): (v: View)
      reads this, trueBuf
      requires Valid()
      ensures v.Valid() && v.live == Contents()
    {
      View(Contents(), begin, trueLen, copied)
    }

    constructor (defaultLen: nat)
      ensures Valid() && fresh(trueBuf)
      ensures Layout() == Initial(defaultLen)
      ensures Contents() == [] && begin == 0
      ensures trueLen == if defaultLen <= 4096 then 4096 else if defaultLen >= 1048576 then 1048576 else defaultLen
    {
      var n := if defaultLen > MIN_LEN then defaultLen else MIN_LEN;
      n := if n < MAX_LEN then n else MAX_LEN;
      trueLen := n;
      begin, end := 0, 0;
      copied := 0;
      trueBuf := new byte[n];
    }

    /** A reallocation for `data` would have a size the shift can compute. */
    ghost predicate CanAppend(data: seq<byte>)
      reads this, trueBuf
      requires Valid()
    {
      Reallocates(Layout(), data) ==> |Contents()| + |data| < INT_SHIFT_LIMIT
    }

    /**
     Append `data`. The shift that sizes a reallocation is an `int`, so a call
     that reallocates must stay below 2^30 bytes.
     */
    method AddTailData(data: seq<byte>) returns (r: int)
      requires Valid() && CanAppend(data)
      modifies this, trueBuf
      ensures Valid()
      ensures r == AppendResult(data)
      ensures Layout() == Append(old(Layout()), data)
      ensures Contents() == old(Contents()) + Accepted(data)
      ensures if old(Reallocates(Layout(), data)) then fresh(trueBuf) else trueBuf == old(trueBuf)
      ensures r == if |data| > 1048576 then -1 else |data|
      ensures r < 0 ==> Layout() == old(Layout())
      ensures r >= 0 ==> Contents() == old(Contents()) + data
      ensures r > 0 ==> (fresh(trueBuf) <==> |Contents()| > old(trueLen))
      ensures trueBuf == old(trueBuf) ==> trueLen == old(trueLen)
      ensures trueBuf == old(trueBuf) && r > 0 ==>
        begin == if old(end) + |data| <= old(trueLen) then old(begin) else 0
      ensures trueBuf != old(trueBuf) ==> IsPow2(trueLen) && |Contents()| < trueLen <= 2 * |Contents()| && begin == 0
    {
      if data == [] {
        return 0;
      }
      if |data| > MAX_LEN {
        return -1;
      }
      if end + |data| <= trueLen {
      } else if trueLen - end + begin >= |data| {
        MoveToFront();
      } else {
        Grow(|data|);
      }
      CopyToTail(data);
      return |data|;
    }

    method CopyToTail(data: seq<byte>)
      requires Valid() && end + |data| <= trueLen
      modifies this`end, trueBuf
      ensures Valid() && Contents() == old(Contents()) + data
    {
      forall i | 0 <= i < |data| {
        trueBuf[end + i] := data[i];
      }
      end := end + |data|;
    }

    /** Compaction: the live bytes move to the front, over themselves if they must. */
    method MoveToFront()
      requires Valid()
      modifies this`begin, this`end, trueBuf
      ensures Valid() && begin == 0 && Contents() == old(Contents())
    {
      var n := end - begin;
      forall i | 0 <= i < n {
        trueBuf[i] := trueBuf[begin + i];
      }
      end := n;
      begin := 0;
    }

    /** Reallocation for `len` more bytes than are live. */
    method Grow(len: nat)
      requires Valid()
      requires 0 < end - begin + len < INT_SHIFT_LIMIT
      modifies this
      ensures Valid() && fresh(trueBuf)
      ensures Contents() == old(Contents())
      ensures begin == 0 && end + len < trueLen == ReallocLen(|Contents()| + len)
      ensures IsPow2(trueLen) && trueLen <= 2 * (|Contents()| + len)
      ensures copied == old(copied) + |Contents()|
    {
      var currentLen := end - begin;
      var newLen := GetReallocLen(currentLen + len);
      ReallocLenBrackets(currentLen + len);
      var newBuf := new byte[newLen];
      forall i | 0 <= i < currentLen {
        newBuf[i] := trueBuf[begin + i];
      }
      copied := copied + currentLen;
      trueBuf := newBuf;
      trueLen := newLen;
      begin, end := 0, currentLen;
    }

    /**
     Offer every live byte to `popData`, then drop the prefix it says it took.
     A negative or too large answer drops nothing.
     */
    method PopHeadData(popData: seq<byte> -> int) returns (r: int)
      requires Valid()
      modifies this`begin
      ensures Valid()
      ensures r == PopResult(old(Contents()), popData(old(Contents())))
      ensures Layout() == Pop(old(Layout()), popData(old(Contents())))
      ensures r < 0 ==> Contents() == old(Contents())
      ensures r >= 0 ==> old(Contents()) == old(Contents())[..r] + Contents()
      ensures var answer := popData(old(Contents()));
        r == if 0 <= answer <= |old(Contents())| then answer else -1
    {
      var popLenExpert := end - begin;
      var popLen := popData(trueBuf[begin..end]);
      if popLen < 0 || popLen > popLenExpert {
        return -1;
      }
      ghost var live := Contents();
      begin := begin + popLen;
      assert Contents() == live[popLen..];
      return popLen;
    }

    method GetSize() returns (n: nat)
      requires Valid()
      ensures n == |Contents()|
    {
      n := end - begin;
    }

    /** The least power of two strictly above `len`; always a positive `int`. */
    static method GetReallocLen(len: nat) returns (r: nat)
      requires len < INT_SHIFT_LIMIT
      ensures r == ReallocLen(len)
      ensures IsPow2(r) && len < r <= 0x7FFF_FFFF
      ensures forall p :: IsPow2(p) && len < p ==> r <= p
    {
      var sizePow := 0;
      var n := len;
      while n > 0
        invariant BitLength(len) == sizePow + BitLength(n)
      {
        n := n / 2;
        sizePow := sizePow + 1;
      }
      r := Pow2(sizePow);
      ReallocLenBrackets(len);
      ReallocLenFitsInt(len);
      forall p | IsPow2(p) && len < p ensures r <= p {
        ReallocLenIsLeast(len, p);
      }
    }
  }
}
