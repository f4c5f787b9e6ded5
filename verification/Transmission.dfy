/**
 The transmission socket: status, descriptor, one growing buffer per direction.
 It is the Socket base class and the Transmission subclass in one, so the
 virtual hooks are direct calls. Every method is proved against its function
 in SocketSpec.
 */
module Transmission {
  import opened Bytes
  import opened BufferSpec
  import opened AutoGrowBuffer
  import Spec = SocketSpec

  const SEND_BUF_LEN: nat := 64 * 1024
  const READ_BUF_LEN: nat := 64 * 1024

  /** Both buffers start at a power of two, so their reallocations are paid for by growth. */
  lemma BuffersCopyLittle(ops: seq<Op>)
    ensures CopyingIsPaidFor(SEND_BUF_LEN, ops) && CopyingIsPaidFor(READ_BUF_LEN, ops)
  {
    assert Initial(SEND_BUF_LEN).cap == Pow2(16) by { assert Pow2(8) == 256; }
    AmortisedCopying(SEND_BUF_LEN);
  }

  class Transmission {
    var status: Spec.Status
    var fd: int
    var timeoutCheck: bool
    var timeoutMs: nat
    const send: AutoGrowBuffer
    const read: AutoGrowBuffer
    ghost var hooks: seq<Spec.Hook>
    ghost var closed: seq<int>  // descriptors given back

    ghost function Repr(): set<object>
      reads this, send, read
    {
      {this, send, read, send.trueBuf, read.trueBuf}
    }

    ghost predicate Valid()
      reads this, send, read
    {
      send != read && send.trueBuf != read.trueBuf && send.Valid() && read.Valid()
    }

    /** Each buffer has the array it had, or a new one. */
    twostate predicate KeptOrFresh()
      reads this, send, read
    {
      && (send.trueBuf == old(send.trueBuf) || fresh(send.trueBuf))
      && (read.trueBuf == old(read.trueBuf) || fresh(read.trueBuf))
    }

    /** The connection this object is. */
    ghost function Abs(): Spec.Conn
      reads this, send, read, Repr()
      requires Valid()
    {
      var deadline := if timeoutCheck then Some(timeoutMs) else None;
      Spec.Conn(status, deadline, fd, closed, send.Contents(), read.Contents(), hooks)
    }

    constructor ()
      ensures Valid() && fresh(Repr())
      ensures Abs() == Spec.FRESH
    {
      status := Spec.Init;
      fd := 0;
      timeoutCheck := false;
      timeoutMs := 0;
      hooks := [];
      closed := [];
      send := new AutoGrowBuffer(SEND_BUF_LEN);
      read := new AutoGrowBuffer(READ_BUF_LEN);
    }

    // -------------------------------------------------------------- user calls

    method Connect(ipValid: bool, timeout: nat, now: nat)
      requires Valid()
      modifies this`status, this`timeoutCheck, this`timeoutMs
      ensures Valid() && Abs() == Spec.Connect(old(Abs()), ipValid, timeout, now)
    {
      if !ipValid {
        return;
      }
      if timeout > 0 {
        timeoutCheck := true;
        timeoutMs := now + timeout;
      } else {
        timeoutCheck := false;
      }
      if status == Spec.Init {
        status := Spec.StartConnect;
      }
    }

    method Close()
      requires Valid()
      modifies this`status
      ensures Valid() && Abs() == Spec.Close(old(Abs()))
    {
      status := Spec.Disconnected;
    }

    method Send(data: seq<byte>) returns (r: int)
      requires Valid() && send.CanAppend(data)
      modifies send, send.trueBuf
      ensures Valid() && KeptOrFresh()
      ensures r == AppendResult(data)
      ensures Abs() == Spec.Send(old(Abs()), data)
    {
      r := send.AddTailData(data);
    }

    /** There is room for everything the sends of a callback queue. */
    ghost predicate CanSend(queued: seq<byte>)
      reads this, send, send.trueBuf, read
      requires Valid()
    {
      |send.Contents()| + |queued| < INT_SHIFT_LIMIT
    }

    /** A handler callback that queues bytes, send by send, and perhaps closes. */
    method Perform(e: Spec.Effect)
      requires Valid() && CanSend(Spec.AcceptedAll(e.sends))
      modifies this`status, send, send.trueBuf
      ensures Valid() && KeptOrFresh()
      ensures Abs() == Spec.Perform(old(Abs()), e)
    {
      SendAll(e.sends);
      if e.close {
        Close();
      }
    }

    /** The sends of one callback. */
    method SendAll(sends: seq<seq<byte>>)
      requires Valid() && CanSend(Spec.AcceptedAll(sends))
      modifies send, send.trueBuf
      ensures Valid() && (send.trueBuf == old(send.trueBuf) || fresh(send.trueBuf))
      ensures send.Contents() == old(send.Contents()) + Spec.AcceptedAll(sends)
      decreases |sends|
    {
      if sends != [] {
        assert |Spec.AcceptedAll(sends)| == |Spec.AcceptedAll(sends[..|sends| - 1])| + |Accepted(sends[|sends| - 1])|;
        SendAll(sends[..|sends| - 1]);
        var _ := send.AddTailData(sends[|sends| - 1]);
      }
    }

    // -------------------------------------------------------------- hooks

    method OnRead(data: seq<byte>, finish: bool, onData: seq<byte> -> Spec.Reply) returns (r: int)
      requires Valid() && read.CanAppend(data)
      requires finish ==> CanSend(Spec.AcceptedAll(onData(read.Contents() + data).effect.sends))
      modifies this`status, this`hooks, read, read.trueBuf, send, send.trueBuf
      ensures Valid() && KeptOrFresh()
      ensures r == AppendResult(data)
      ensures Abs() == if Rejected(data) then Spec.Call(old(Abs()), Spec.OnRead(data, finish))
                       else Spec.Chunk(old(Abs()), data, finish, onData)
      ensures !finish ==> send.trueBuf == old(send.trueBuf)
    {
      hooks := hooks + [Spec.OnRead(data, finish)];
      var added := read.AddTailData(data);
      if added < 0 {
        return -1;
      }
      if finish {
        OfferRead(onData);
      }
      return |data|;
    }

    /** Offer the whole read buffer to the handler, which may also send and close. */
    method OfferRead(onData: seq<byte> -> Spec.Reply)
      requires Valid() && CanSend(Spec.AcceptedAll(onData(read.Contents()).effect.sends))
      modifies this`status, this`hooks, read`begin, send, send.trueBuf
      ensures Valid() && KeptOrFresh()
      ensures read.trueBuf == old(read.trueBuf)
      ensures Abs() == Spec.Offer(old(Abs()), onData)
    {
      var reply := PopTaken(onData);
      Perform(reply.effect);
    }

    /** The handler is called and what it takes is popped; `reply` is its answer. */
    method PopTaken(onData: seq<byte> -> Spec.Reply) returns (reply: Spec.Reply)
      requires Valid()
      modifies this`hooks, read`begin
      ensures Valid() && reply == onData(old(read.Contents()))
      ensures Abs() == Spec.Taken(old(Abs()), onData)
    {
      var queue := read.trueBuf[read.begin..read.end];
      reply := onData(queue);
      hooks := hooks + [Spec.OnData(queue)];
      PopAnswered(onData, queue, reply.taken);
    }

    method PopAnswered(onData: seq<byte> -> Spec.Reply, ghost queue: seq<byte>, ghost taken: int)
      requires Valid() && queue == read.Contents() && taken == onData(queue).taken
      modifies read`begin
      ensures Valid() && Abs() == old(Abs()).(readQ := queue[PopCount(queue, taken)..])
    {
      var _ := read.PopHeadData((offered: seq<byte>) => onData(offered).taken);
    }

    /** Socket::send: nothing to do for no bytes, otherwise one `write`. */
    function SendNow(data: seq<byte>, written: int): int {
      if data == [] then 0 else if written <= 0 then -1 else written
    }

    method OnWrite(written: int, onWrite: Spec.Effect) returns (r: int)
      requires Valid() && CanSend(Spec.AcceptedAll(onWrite.sends))
      modifies this`status, this`hooks, send, send.trueBuf
      ensures Valid() && KeptOrFresh()
      ensures r < 0 <==> old(send.Contents()) != [] && Spec.WriteCount(old(send.Contents()), written) == 0
      ensures (if r < 0 then Spec.Close(Abs()) else Abs()) == Spec.WriteOut(old(Abs()), written, onWrite)
      ensures r < 0 ==> status == old(status)
    {
      var size := send.GetSize();
      if size > 0 {
        r := WriteQueued(written);
      } else {
        Perform(onWrite);
        r := 0;
      }
      hooks := hooks + [Spec.OnWrite];
    }

    /** One write of everything queued; a failed write takes nothing. */
    method WriteQueued(written: int) returns (r: int)
      requires Valid() && send.Contents() != []
      modifies send`begin
      ensures Valid()
      ensures send.Contents() == old(send.Contents())[Spec.WriteCount(old(send.Contents()), written)..]
      ensures r < 0 <==> Spec.WriteCount(old(send.Contents()), written) == 0
    {
      r := send.PopHeadData((data: seq<byte>) => SendNow(data, written));
    }

    // -------------------------------------------------------------- engine calls

    method RealConnect(newFd: int, nonBlocking: bool, connecting: bool)
      requires Valid()
      modifies this`status, this`fd
      ensures Valid() && Abs() == Spec.RealConnect(old(Abs()), newFd, nonBlocking, connecting)
    {
      if status != Spec.StartConnect {
        status := Spec.Disconnected;
      }
      fd := newFd;
      if fd < 0 {
        status := Spec.Disconnected;
        return;
      }
      if !nonBlocking {
        status := Spec.Disconnected;
        return;
      }
      if !connecting {
        status := Spec.Disconnected;
        return;
      }
      status := Spec.Connecting;
    }

    method RealDisconnect()
      requires Valid()
      modifies this`hooks, this`closed
      ensures Valid() && Abs() == Spec.RealDisconnect(old(Abs()))
    {
      hooks := hooks + [Spec.OnDisconnect];
      if fd != 0 {
        closed := closed + [fd];
      }
    }

    /** `script` is what the kernel answers, read after read; after its end it would block. */
    method RealRead(script: seq<Spec.ReadResult>, onData: seq<byte> -> Spec.Reply)
      requires Valid() && Spec.Room(Abs(), script, onData)
      modifies this`status, this`hooks, read, read.trueBuf, send, send.trueBuf
      ensures Valid() && KeptOrFresh()
      ensures Abs() == Spec.RealRead(old(Abs()), script, onData)
    {
      if Spec.Idle(status) {
        status := Spec.Disconnected;
        return;
      }
      if status == Spec.Connecting {
        return;
      }
      ReadAll(script, onData);
    }

    /** Read until a short chunk, an error, or nothing to read. */
    method ReadAll(script: seq<Spec.ReadResult>, onData: seq<byte> -> Spec.Reply)
      requires Valid() && Spec.Room(Abs(), script, onData)
      modifies this`status, this`hooks, read, read.trueBuf, send, send.trueBuf
      ensures Valid() && KeptOrFresh()
      ensures Abs() == Spec.ReadLoop(old(Abs()), script, onData)
    {
      ghost var goal := Spec.ReadLoop(Abs(), script, onData);
      var flag := true;
      var k := 0;
      ghost var rest := script;
      while flag
        invariant Valid() && KeptOrFresh()
        invariant 0 <= k <= |script| && rest == script[k..]
        invariant flag ==> goal == Spec.ReadLoop(Abs(), rest, onData) && Spec.Room(Abs(), rest, onData)
        invariant !flag ==> Abs() == goal
        decreases |script| - k, flag
      {
        if k == |script| || script[k] == Spec.WouldBlock {
          return;
        }
        if script[k] == Spec.ReadError || script[k].data == [] || |script[k].data| > Spec.RECV_CACHE {
          status := Spec.Disconnected;
          return;
        }
        if |script[k].data| < Spec.RECV_CACHE {
          flag := false;
        }
        HandOver(script[k].data, onData, rest);
        k, rest := k + 1, rest[1..];
      }
    }

    /** Hand a chunk, the first of `script`, to OnRead; the rest of the loop goes on from there. */
    method HandOver(data: seq<byte>, onData: seq<byte> -> Spec.Reply, ghost script: seq<Spec.ReadResult>)
      requires Valid() && Spec.Room(Abs(), script, onData)
      requires script != [] && script[0] == Spec.Got(data) && Spec.Usable(data)
      modifies this`status, this`hooks, read, read.trueBuf, send, send.trueBuf
      ensures Valid() && KeptOrFresh()
      ensures |data| < Spec.RECV_CACHE ==> Abs() == Spec.ReadLoop(old(Abs()), script, onData)
      ensures |data| == Spec.RECV_CACHE ==>
        && Spec.ReadLoop(Abs(), script[1..], onData) == Spec.ReadLoop(old(Abs()), script, onData)
        && Spec.Room(Abs(), script[1..], onData)
    {
      Spec.ReadLoopChunk(Abs(), script, onData);
      var r := OnRead(data, |data| < Spec.RECV_CACHE, onData);
      assert r >= 0;  // the error branch is dead: a chunk is below the append limit
    }

    /** The connection attempt has succeeded: tell the handler. */
    method Establish(onConnect: Spec.Effect)
      requires Valid() && CanSend(Spec.AcceptedAll(onConnect.sends))
      modifies this`status, this`hooks, send, send.trueBuf
      ensures Valid() && KeptOrFresh()
      ensures Abs() == Spec.Established(old(Abs()), onConnect)
    {
      status := Spec.Connected;
      hooks := hooks + [Spec.OnConnect];
      Perform(onConnect);
    }

    method RealWrite(finished: int, written: int, onConnect: Spec.Effect, onWrite: Spec.Effect)
      requires Valid() && CanSend(Spec.AcceptedAll(onConnect.sends) + Spec.AcceptedAll(onWrite.sends))
      modifies this`status, this`hooks, send, send.trueBuf
      ensures Valid() && KeptOrFresh()
      ensures Abs() == Spec.RealWrite(old(Abs()), finished, written, onConnect, onWrite)
    {
      if Spec.Idle(status) {
        status := Spec.Disconnected;
        return;
      }
      if status == Spec.Connecting {
        if finished < 0 {
          status := Spec.Disconnected;
          return;
        }
        if finished == 0 {
          return;
        }
        Establish(onConnect);
      }
      WriteOut(written, onWrite);
    }

    /** One attempt to write; a failed one closes. */
    method WriteOut(written: int, onWrite: Spec.Effect)
      requires Valid() && CanSend(Spec.AcceptedAll(onWrite.sends))
      modifies this`status, this`hooks, send, send.trueBuf
      ensures Valid() && KeptOrFresh()
      ensures Abs() == Spec.WriteOut(old(Abs()), written, onWrite)
    {
      var r := OnWrite(written, onWrite);
      if r < 0 {
        status := Spec.Disconnected;
      }
    }
  }
}
