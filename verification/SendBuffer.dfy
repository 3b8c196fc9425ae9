/**
 Partial sends: a buffer is handed to the system with one overlapped send, the system may take fewer bytes
 than it was offered, and handle_send posts the rest until everything has gone out.
 */
module SendBuffer {
  import opened Prelude
  import opened IocpModel

  /** What an overlapped send was asked to transmit. */
  datatype Chunk = Chunk(offset: nat, len: nat)

  class Sender {
    var ctx: Ctx
    var inFlight: Option<Chunk>   // the pending WSASend
    var wire: Bytes               // history: what the system has transmitted
    var closed: bool              // disconnect was called

    /** All of the first TotalBytes of the buffer is offered, nothing has been sent. */
    constructor (buffer: Bytes, totalBytes: nat)
      requires 0 < totalBytes <= |buffer|
      ensures Sending() && ctx.buffer == buffer && ctx.totalBytes == totalBytes && ctx.sentBytes == 0 && wire == []
    {
      ctx := Ctx(None, IOSend, None, buffer, totalBytes, 0);
      inFlight := Some(Chunk(0, totalBytes));
      wire := [];
      closed := false;
    }

    predicate Sending()
      reads this
    {
      && !closed
      && ctx.sentBytes < ctx.totalBytes <= |ctx.buffer|
      && inFlight == Some(Chunk(ctx.sentBytes, ctx.totalBytes - ctx.sentBytes))
      && wire == ctx.buffer[..ctx.sentBytes]
    }

    predicate Finished()
      reads this
    {
      && !closed
      && ctx.totalBytes <= |ctx.buffer|
      && inFlight == None
      && wire == ctx.buffer[..ctx.totalBytes]
      && ctx.sentBytes == 0
      && ctx.tag == IOReceive
    }

    /** handle_send, after `ioSize` bytes of the pending chunk have gone out; `ok` tells whether WSASend succeeds. */
    method HandleSend(ioSize: nat, ok: bool)
      modifies this
      ensures ctx.buffer == old(ctx.buffer) && ctx.totalBytes == old(ctx.totalBytes) && wire == old(wire)
      ensures old(ctx.sentBytes) + ioSize < ctx.totalBytes ==>
        && ctx.sentBytes == old(ctx.sentBytes) + ioSize && ctx.tag == IOSend
        && (ok ==> inFlight == Some(Chunk(ctx.sentBytes, ctx.totalBytes - ctx.sentBytes)) && closed == old(closed))
        && (!ok ==> inFlight == old(inFlight) && closed)
      ensures old(ctx.sentBytes) + ioSize >= ctx.totalBytes ==>
        ctx.sentBytes == 0 && ctx.tag == IOReceive && inFlight == old(inFlight) && closed == old(closed)
    {
      ctx := ctx.(tag := IOSend, sentBytes := ctx.sentBytes + ioSize);
      if ctx.sentBytes < ctx.totalBytes {
        if ok {
          inFlight := Some(Chunk(ctx.sentBytes, ctx.totalBytes - ctx.sentBytes));
        } else {
          closed := true;
        }
      } else {
        ctx := ctx.(tag := IOReceive, sentBytes := 0);
      }
    }

    /** The pending send completes with `size` bytes, and the worker handles the packet. */
    method Complete(size: nat, ok: bool)
      requires Sending() && size <= inFlight.value.len
      modifies this
      ensures ctx.buffer == old(ctx.buffer) && ctx.totalBytes == old(ctx.totalBytes)
      ensures wire == old(wire) + ctx.buffer[old(ctx.sentBytes)..old(ctx.sentBytes) + size]
      ensures closed <==> size == 0 || (old(ctx.sentBytes) + size < ctx.totalBytes && !ok)
      ensures !closed ==>
        if old(ctx.sentBytes) + size < ctx.totalBytes then Sending() && ctx.sentBytes == old(ctx.sentBytes) + size
        else Finished()
    {
      wire := wire + ctx.buffer[inFlight.value.offset..inFlight.value.offset + size];
      assert wire == ctx.buffer[..ctx.sentBytes + size];
      inFlight := None;
      if size == 0 {
        closed := true;   // the worker takes an empty completion for a client that went away
      } else {
        HandleSend(size, ok);
      }
    }

    /**
     Any sequence of completions, none of them empty, each at most what is pending: the chunks add up to
     exactly the first TotalBytes of the buffer, and there are at most TotalBytes of them.
     */
    method SendAll(sizes: seq<nat>) returns (used: nat)
      requires Sending() && ctx.sentBytes == 0
      requires forall k :: 0 <= k < |sizes| ==> sizes[k] > 0
      modifies this
      ensures ctx.buffer == old(ctx.buffer) && ctx.totalBytes == old(ctx.totalBytes)
      ensures used <= |sizes| && used <= ctx.totalBytes
      ensures Sending() || Finished()
      ensures Sum(sizes[..used], Id) <= ctx.totalBytes && wire == ctx.buffer[..Sum(sizes[..used], Id)]
      ensures Finished() <==> Sum(sizes[..used], Id) == ctx.totalBytes
      ensures used < |sizes| ==> Finished() || Sum(sizes[..used + 1], Id) > ctx.totalBytes
    {
      used := 0;
      while used < |sizes| && inFlight.Some? && sizes[used] <= inFlight.value.len
        invariant used <= |sizes|
        invariant ctx.buffer == old(ctx.buffer) && ctx.totalBytes == old(ctx.totalBytes) <= |ctx.buffer|
        invariant used <= Sum(sizes[..used], Id) <= ctx.totalBytes
        invariant wire == ctx.buffer[..Sum(sizes[..used], Id)]
        invariant if Sum(sizes[..used], Id) < ctx.totalBytes then Sending() && ctx.sentBytes == Sum(sizes[..used], Id)
                  else Finished()
        decreases |sizes| - used
      {
        SumNext(sizes, used);
        Complete(sizes[used], true);
        used := used + 1;
      }
      if used < |sizes| {
        SumNext(sizes, used);
      }
    }
  }

  function Id(n: nat): nat {
    n
  }

  lemma SumNext(sizes: seq<nat>, k: nat)
    requires k < |sizes|
    ensures Sum(sizes[..k + 1], Id) == Sum(sizes[..k], Id) + sizes[k]
  {
    assert sizes[..k + 1] == sizes[..k] + [sizes[k]];
    SumConcat(sizes[..k], [sizes[k]], Id);
  }
}
