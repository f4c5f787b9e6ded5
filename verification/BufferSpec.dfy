/**
 What an AutoGrowBuffer does to its bytes and to its layout, as functions on
 values, and the properties of whole runs of appends and pops.
 */
module BufferSpec {
  import opened Bytes

  const MAX_LEN: nat := 1024 * 1024
  const MIN_LEN: nat := 4 * 1024

  /** First capacity whose realloc size no longer fits the C++ `int` it is computed in. */
  const INT_SHIFT_LIMIT: nat := 0x4000_0000

  // ---------------------------------------------------------------- powers of two

  function Pow2(k: nat): (p: nat)
    ensures p > 0
  {
    if k == 0 then 1 else 2 * Pow2(k - 1)
  }

  function BitLength(n: nat): nat {
    if n == 0 then 0 else 1 + BitLength(n / 2)
  }

  ghost predicate IsPow2(n: nat) {
    exists k: nat :: n == Pow2(k)
  }

  /** The capacity a reallocation for `n` bytes asks for. */
  function ReallocLen(n: nat): nat {
    Pow2(BitLength(n))
  }

  lemma {:induction false} Pow2Monotone(j: nat, k: nat)
    requires j <= k
    ensures Pow2(j) <= Pow2(k)
    decreases k
  {
    if j < k {
      Pow2Monotone(j, k - 1);
    }
  }

  lemma {:induction false} ReallocLenBrackets(n: nat)
    ensures n < ReallocLen(n)
    ensures n > 0 ==> ReallocLen(n) <= 2 * n
  {
    if n > 0 {
      ReallocLenBrackets(n / 2);
      assert ReallocLen(n) == 2 * ReallocLen(n / 2);
      assert n == 1 ==> ReallocLen(n / 2) == 1;
    }
  }

  /** `ReallocLen(n)` is the least power of two strictly above `n`. */
  lemma ReallocLenIsLeast(n: nat, p: nat)
    requires IsPow2(p) && n < p
    ensures IsPow2(ReallocLen(n)) && n < ReallocLen(n) <= p
  {
    ReallocLenBrackets(n);
    var k: nat :| p == Pow2(k);
    if k < BitLength(n) {
      Pow2Monotone(k, BitLength(n) - 1);
    } else {
      Pow2Monotone(BitLength(n), k);
    }
  }

  /** The shift `1 << size_pow` stays a positive 32-bit `int` exactly below 2^30. */
  lemma ReallocLenFitsInt(n: nat)
    ensures ReallocLen(n) <= 0x7FFF_FFFF <==> n < INT_SHIFT_LIMIT
  {
    assert Pow2(10) == 1024;
    assert Pow2(20) == 1024 * 1024 by { assert Pow2(15) == 32768; }
    assert Pow2(30) == INT_SHIFT_LIMIT by { assert Pow2(25) == 32 * 1024 * 1024; }
    if n < INT_SHIFT_LIMIT {
      ReallocLenIsLeast(n, Pow2(30));
    } else {
      ReallocLenBrackets(n);
      if BitLength(n) <= 30 {
        Pow2Monotone(BitLength(n), 30);
      } else {
        Pow2Monotone(31, BitLength(n));
      }
    }
  }

  lemma DoublesAbove(cap: nat, n: nat)
    requires IsPow2(cap) && cap < ReallocLen(n)
    ensures 2 * cap <= ReallocLen(n)
  {
    var k: nat :| cap == Pow2(k);
    if BitLength(n) <= k {
      Pow2Monotone(BitLength(n), k);
    }
    Pow2Monotone(k + 1, BitLength(n));
  }

  lemma HalfOfPow2(n: nat)
    requires n > 0 && IsPow2(2 * n)
    ensures IsPow2(n)
  {
    var k: nat :| 2 * n == Pow2(k);
    assert n == Pow2(k - 1);
  }

  // ---------------------------------------------------------------- one operation

  /**
   The buffer as seen from outside its array: the live bytes, where they start,
   the capacity, and how many bytes reallocations have copied so far.
   */
  datatype View = View(live: seq<byte>, begin: nat, cap: nat, copied: nat) {
    ghost predicate Valid() {
      begin + |live| <= cap
    }
  }

  function Initial(defaultLen: nat): (v: View)
    ensures v.Valid() && MIN_LEN <= v.cap <= MAX_LEN && v.live == []
  {
    var atLeast := if defaultLen > MIN_LEN then defaultLen else MIN_LEN;
    View([], 0, if atLeast < MAX_LEN then atLeast else MAX_LEN, 0)
  }

  predicate Rejected(data: seq<byte>) {
    |data| > MAX_LEN
  }

  function AppendResult(data: seq<byte>): int {
    if Rejected(data) then -1 else |data|
  }

  /** The bytes an append call really adds. */
  function Accepted(data: seq<byte>): seq<byte> {
    if Rejected(data) then [] else data
  }

  predicate Reallocates(v: View, data: seq<byte>) {
    data != [] && !Rejected(data) && |v.live| + |data| > v.cap
  }

  function Append(v: View, data: seq<byte>): (w: View)
    requires v.Valid()
    ensures w.Valid()
  {
    ReallocLenBrackets(|v.live| + |data|);
    if data == [] || Rejected(data) then v
    else if v.begin + |v.live| + |data| <= v.cap then v.(live := v.live + data)
    else if !Reallocates(v, data) then v.(live := v.live + data, begin := 0)
    else View(v.live + data, 0, ReallocLen(|v.live| + |data|), v.copied + |v.live|)
  }

  /** What a pop returns when its callback, offered all live bytes, returned `ret`. */
  function PopResult(live: seq<byte>, ret: int): (n: int)
    ensures -1 <= n <= |live|
  {
    if ret < 0 || ret > |live| then -1 else ret
  }

  /** How many bytes that pop removes. */
  function PopCount(live: seq<byte>, ret: int): (n: nat)
    ensures n <= |live|
  {
    if ret < 0 || ret > |live| then 0 else ret
  }

  function Pop(v: View, ret: int): (w: View)
    requires v.Valid()
    ensures w.Valid()
  {
    var n := PopCount(v.live, ret);
    v.(live := v.live[n..], begin := v.begin + n)
  }

  // ---------------------------------------------------------------- whole runs

  datatype Op = AddTail(data: seq<byte>) | PopHead(ret: int)

  function Apply(v: View, op: Op): (w: View)
    requires v.Valid()
    ensures w.Valid()
  {
    match op
    case AddTail(data) => Append(v, data)
    case PopHead(ret) => Pop(v, ret)
  }

  function Run(v: View, ops: seq<Op>): (w: View)
    requires v.Valid()
    ensures w.Valid()
    decreases |ops|
  {
    if ops == [] then v else Run(Apply(v, ops[0]), ops[1..])
  }

  function OpIn(op: Op): seq<byte> {
    if op.AddTail? then Accepted(op.data) else []
  }

  function OpOut(v: View, op: Op): seq<byte>
    requires v.Valid()
  {
    if op.PopHead? then v.live[..PopCount(v.live, op.ret)] else []
  }

  /** All bytes accepted by the appends of a run. */
  function BytesIn(ops: seq<Op>): seq<byte> {
    if ops == [] then [] else OpIn(ops[0]) + BytesIn(ops[1..])
  }

  /** All bytes removed by the pops of a run. */
  function BytesOut(v: View, ops: seq<Op>): seq<byte>
    requires v.Valid()
    decreases |ops|
  {
    if ops == [] then [] else OpOut(v, ops[0]) + BytesOut(Apply(v, ops[0]), ops[1..])
  }

  lemma StepIsFifo(v: View, op: Op)
    requires v.Valid()
    ensures OpOut(v, op) + Apply(v, op).live == v.live + OpIn(op)
  {
  }

  lemma Regroup(out: seq<byte>, outs: seq<byte>, end: seq<byte>, next: seq<byte>,
                ins: seq<byte>, start: seq<byte>, into: seq<byte>)
    requires out + next == start + into
    requires outs + end == next + ins
    ensures (out + outs) + end == start + (into + ins)
  {
    assert (out + outs) + end == out + (outs + end);
    assert out + (next + ins) == (out + next) + ins;
    assert (start + into) + ins == start + (into + ins);
  }

  /**
   Over any interleaving the buffer is a FIFO queue: what came out, followed by
   what is still inside, is what was inside at first followed by what went in.
   */
  lemma {:induction false} RunIsFifo(v: View, ops: seq<Op>)
    requires v.Valid()
    ensures BytesOut(v, ops) + Run(v, ops).live == v.live + BytesIn(ops)
    decreases |ops|
  {
    if ops == [] {
    } else {
      var w, rest := Apply(v, ops[0]), ops[1..];
      RunIsFifo(w, rest);
      StepIsFifo(v, ops[0]);
      Regroup(OpOut(v, ops[0]), BytesOut(w, rest), Run(w, rest).live, w.live,
              BytesIn(rest), v.live, OpIn(ops[0]));
    }
  }

  /** The most bytes the buffer was ever asked to hold at once. */
  function Peak(v: View, ops: seq<Op>): nat
    requires v.Valid()
    decreases |ops|
  {
    if ops == [] then 0
    else
      var here := if ops[0].AddTail? then |v.live| + |Accepted(ops[0].data)| else 0;
      var later := Peak(Apply(v, ops[0]), ops[1..]);
      if here > later then here else later
  }

  /**
   Capacity never shrinks, and never exceeds the larger of what it was and
   twice the peak demand.
   */
  lemma {:induction false} RunCapacity(v: View, ops: seq<Op>)
    requires v.Valid()
    ensures v.cap <= Run(v, ops).cap
    ensures Run(v, ops).cap <= v.cap || Run(v, ops).cap <= 2 * Peak(v, ops)
    decreases |ops|
  {
    if ops == [] {
    } else {
      RunCapacity(Apply(v, ops[0]), ops[1..]);
      if ops[0].AddTail? {
        ReallocLenBrackets(|v.live| + |ops[0].data|);
      }
    }
  }

  /** Capacities from which every later reallocation at least doubles. */
  ghost predicate Doubling(cap: nat) {
    IsPow2(cap) || IsPow2(cap + 1)
  }

  lemma AppendCopies(v: View, data: seq<byte>)
    requires v.Valid() && Doubling(v.cap)
    ensures Doubling(Append(v, data).cap)
    ensures Append(v, data).copied - v.copied <= Append(v, data).cap - v.cap
  {
    if Reallocates(v, data) {
      var n := |v.live| + |data|;
      ReallocLenBrackets(n);
      if IsPow2(v.cap) {
        DoublesAbove(v.cap, n);
      } else {
        DoublesAbove(v.cap + 1, n);
      }
    }
  }

  /** From such a capacity, copying is paid for by growth over every run. */
  lemma {:induction false} RunCopies(v: View, ops: seq<Op>)
    requires v.Valid() && Doubling(v.cap)
    ensures Run(v, ops).copied - v.copied <= Run(v, ops).cap - v.cap
    decreases |ops|
  {
    if ops == [] {
    } else {
      if ops[0].AddTail? {
        AppendCopies(v, ops[0].data);
      }
      RunCopies(Apply(v, ops[0]), ops[1..]);
    }
  }

  ghost predicate CopyingIsPaidFor(defaultLen: nat, ops: seq<Op>) {
    var v := Initial(defaultLen);
    Run(v, ops).copied <= Run(v, ops).cap - v.cap
  }

  function Zeros(n: nat): seq<byte> {
    seq(n, i => 0)
  }

  /** Fill the buffer to the brim, then add one byte. */
  function Overfill(cap: nat): seq<Op> {
    [AddTail(Zeros(cap)), AddTail([0])]
  }

  lemma OverfillCopies(defaultLen: nat)
    ensures var v := Initial(defaultLen); var w := Run(v, Overfill(v.cap));
      w.copied == v.cap && w.cap == ReallocLen(v.cap + 1)
  {
    var v := Initial(defaultLen);
    var ops := Overfill(v.cap);
    var filled := Apply(v, ops[0]);
    assert filled.live == Zeros(v.cap);
    assert filled == View(Zeros(v.cap), 0, v.cap, 0);
    var full := Apply(filled, AddTail([0]));
    assert full.copied == v.cap && full.cap == ReallocLen(v.cap + 1);
    assert ops[1..] == [AddTail([0])];
    assert ops[1..][1..] == [];
    assert Run(full, []) == full;
    assert Run(filled, ops[1..]) == Run(full, []);
  }

  /**
   The amortised bound holds for every run exactly when the initial capacity is
   a power of two or one less.
   */
  lemma AmortisedCopying(defaultLen: nat)
    ensures (forall ops :: CopyingIsPaidFor(defaultLen, ops)) <==> Doubling(Initial(defaultLen).cap)
  {
    var v := Initial(defaultLen);
    if Doubling(v.cap) {
      forall ops ensures CopyingIsPaidFor(defaultLen, ops) {
        RunCopies(v, ops);
      }
    } else {
      OverfillCopies(defaultLen);
      var c := v.cap;
      ReallocLenBrackets(c);
      // the realloc size is the power of two just above c, which is below 2c
      assert IsPow2(ReallocLen(c));
      ReallocLenIsLeast(c + 1, ReallocLen(c));
      if ReallocLen(c) == 2 * c {
        HalfOfPow2(c);
        assert false;
      }
      assert !CopyingIsPaidFor(defaultLen, Overfill(c));
    }
  }
}
