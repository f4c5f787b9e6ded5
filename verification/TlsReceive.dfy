/**
 The receive side of the TLS transmission: ciphertext goes into a growing
 buffer, and the TLS library pulls exact amounts out of it.
 */
module TlsReceive {
  import opened Bytes
  import opened BufferSpec
  import opened AutoGrowBuffer

  /** The library's "call again when there is more to read". */
  const WANT_READ: int := -0x6900  // MBEDTLS_ERR_SSL_WANT_READ

  const TLS_READ_LEN: nat := 16384

  /** The buffer starts at a power of two, so its reallocations are paid for by growth. */
  lemma BufferCopiesLittle(ops: seq<BufferSpec.Op>)
    ensures CopyingIsPaidFor(TLS_READ_LEN, ops)
  {
    assert Initial(TLS_READ_LEN).cap == Pow2(14) by { assert Pow2(7) == 128; }
    AmortisedCopying(TLS_READ_LEN);
  }

  class TlsReceive {
    var init: bool
    var readTempLen: nat
    const tlsRead: AutoGrowBuffer

    ghost predicate Valid()
      reads this, tlsRead
    {
      tlsRead.Valid()
    }

    ghost function Pending(): seq<byte>
      reads this, tlsRead, tlsRead.trueBuf
      requires Valid()
    {
      tlsRead.Contents()
    }

    constructor (init: bool)
      ensures Valid() && Pending() == [] && this.init == init
      ensures fresh(tlsRead) && fresh(tlsRead.trueBuf)
    {
      this.init := init;
      readTempLen := 0;
      tlsRead := new AutoGrowBuffer(TLS_READ_LEN);
    }

    /** The part of OnRead before the library runs. */
    method Feed(data: seq<byte>) returns (r: int)
      requires Valid() && tlsRead.CanAppend(data)
      modifies tlsRead, tlsRead.trueBuf
      ensures Valid() && (tlsRead.trueBuf == old(tlsRead.trueBuf) || fresh(tlsRead.trueBuf))
      ensures Pending() == Fed(init, old(Pending()), data)
      ensures r == if init && |data| <= 1048576 then |data| else -1
      ensures r < 0 ==> Pending() == old(Pending())
      ensures r >= 0 ==> Pending() == old(Pending()) + data
    {
      if !init {
        return -1;
      }
      var added := tlsRead.AddTailData(data);
      if added < 0 {
        return -1;
      }
      return |data|;
    }

    /** The library's receive callback: all `len` bytes, or none. */
    method NetRecv(buf: array<byte>, len: nat) returns (ret: int)
      requires Valid() && buf != tlsRead.trueBuf && len <= buf.Length && len <= 0x7FFF_FFFF
      modifies this`readTempLen, tlsRead`begin, buf
      ensures Valid()
      ensures ret == WANT_READ <==> |old(Pending())| < len
      ensures ret != WANT_READ ==> ret == len && |Pending()| == |old(Pending())| - len
      ensures match Pull(old(Pending()), len)
        case None => ret == WANT_READ && Pending() == old(Pending()) && buf[..] == old(buf[..])
        case Some(bytes) => ret == len && buf[..len] == bytes && bytes + Pending() == old(Pending())
                            && buf[len..] == old(buf[len..])
    {
      var size := tlsRead.GetSize();
      if size < len {
        return WANT_READ;
      }
      readTempLen := len;
      var offered := tlsRead.trueBuf[tlsRead.begin..tlsRead.end];
      var copyLen := PopData(offered, readTempLen);
      forall k | 0 <= k < copyLen {
        buf[k] := offered[k];
      }
      var tempLen := readTempLen;
      ret := tlsRead.PopHeadData((data: seq<byte>) => PopData(data, tempLen));
      if ret < 0 {
        return -1;
      }
    }
  }

  function PopData(data: seq<byte>, tempLen: nat): nat {
    if tempLen > |data| then |data| else tempLen
  }

  // ---------------------------------------------------------------- whole runs

  function Fed(init: bool, pending: seq<byte>, data: seq<byte>): seq<byte> {
    if init then pending + Accepted(data) else pending
  }

  /** What one receive call delivers. */
  function Pull(pending: seq<byte>, len: nat): Option<seq<byte>> {
    if |pending| < len then None else Some(pending[..len])
  }

  datatype Op = Arrive(data: seq<byte>) | Recv(len: nat)

  datatype Feeder = Feeder(pending: seq<byte>, received: seq<byte>, delivered: seq<seq<byte>>)

  function Apply(f: Feeder, op: Op): Feeder {
    match op
    case Arrive(data) => f.(pending := Fed(true, f.pending, data), received := f.received + Accepted(data))
    case Recv(len) =>
      match Pull(f.pending, len)
      case None => f
      case Some(bytes) => f.(pending := f.pending[len..], delivered := f.delivered + [bytes])
  }

  function Run(f: Feeder, ops: seq<Op>): Feeder
    decreases |ops|
  {
    if ops == [] then f else Run(Apply(f, ops[0]), ops[1..])
  }

  function Concat(parts: seq<seq<byte>>): seq<byte> {
    if parts == [] then [] else Concat(parts[..|parts| - 1]) + parts[|parts| - 1]
  }

  ghost predicate Conserved(f: Feeder) {
    Concat(f.delivered) + f.pending == f.received
  }

  lemma ApplyConserves(f: Feeder, op: Op)
    requires Conserved(f)
    ensures Conserved(Apply(f, op))
  {
    match op {
      case Arrive(data) =>
        assert Concat(f.delivered) + (f.pending + Accepted(data)) == (Concat(f.delivered) + f.pending) + Accepted(data);
      case Recv(len) =>
        if len <= |f.pending| {
          var bytes, rest := f.pending[..len], f.pending[len..];
          assert (f.delivered + [bytes])[..|f.delivered|] == f.delivered;
          assert (Concat(f.delivered) + bytes) + rest == Concat(f.delivered) + (bytes + rest);
          assert bytes + rest == f.pending;
        }
    }
  }

  /** A receive call delivers exactly the asked-for bytes when so many are pending, and nothing otherwise. */
  lemma RecvDelivers(f: Feeder, len: nat)
    ensures var after := Apply(f, Recv(len));
      && (len <= |f.pending| ==>
            after.delivered == f.delivered + [f.pending[..len]] && f.pending == f.pending[..len] + after.pending)
      && (len > |f.pending| ==> after == f)
  {
  }

  /** What a handshake asks for over a run of receive calls. */
  function Asked(lens: seq<nat>): nat {
    if lens == [] then 0 else lens[0] + Asked(lens[1..])
  }

  function Recvs(lens: seq<nat>): seq<Op> {
    seq(|lens|, k requires 0 <= k < |lens| => Recv(lens[k]))
  }

  /** Receive calls are all served exactly as long as enough is pending, whatever the sizes. */
  lemma {:induction false} EnoughServesAll(f: Feeder, lens: seq<nat>)
    ensures |Run(f, Recvs(lens)).delivered| <= |f.delivered| + |lens|
    ensures |Run(f, Recvs(lens)).delivered| == |f.delivered| + |lens| <==> Asked(lens) <= |f.pending|
    decreases |lens|
  {
    if lens != [] {
      var next := Apply(f, Recv(lens[0]));
      assert Recvs(lens)[0] == Recv(lens[0]) && Recvs(lens)[1..] == Recvs(lens[1..]);
      EnoughServesAll(next, lens[1..]);
      RecvDelivers(f, lens[0]);
    }
  }

  /** What the library was given, piece by piece, then what is pending, is all that was received. */
  lemma {:induction false} RunConserves(f: Feeder, ops: seq<Op>)
    requires Conserved(f)
    ensures Conserved(Run(f, ops))
    decreases |ops|
  {
    if ops == [] {
    } else {
      ApplyConserves(f, ops[0]);
      RunConserves(Apply(f, ops[0]), ops[1..]);
    }
  }
}
