/** The one buffer behind a fiber's source, which every reply overwrites, and the collecting loop that must
    copy each reply out of it before it waits for the next. */
module Payload {
  import opened Base
  import opened Machine
  import opened Outcomes
  import opened Runs
  import opened Collecting
  import opened Gathering

  /** `coseq_src_t` with its backing store: `size` bytes of `buf` are the current message. */
  class SourceBuf {
    var buf: array<Byte>
    var size: nat
    var thread: nat
    var seqIdx: nat
    var id: nat
    var result: ResultCode
    var client: nat

    ghost predicate Valid()
      reads this
    {
      size <= buf.Length
    }

    /** What the sequence can read through the source. */
    ghost function Seen(): Source
      reads this, buf
      requires Valid()
    {
      Source(thread, seqIdx, id, result, client, buf[..size])
    }

    constructor ()
      ensures Valid() && fresh(buf) && buf.Length == 0 && size == 0
    {
      buf := new Byte[0];
      size, thread, seqIdx, id, result, client := 0, 0, 0, 0, Ignore, 0;
    }

    /** The part of `set_src` that makes room: capacity never shrinks, and what was stored stays. */
    method Reserve(n: nat)
      requires Valid()
      modifies this`buf
      ensures n <= buf.Length && buf.Length == if n > old(buf.Length) then n else old(buf.Length)
      ensures if n > old(buf.Length) then fresh(buf) else buf == old(buf)
      ensures buf[..old(buf.Length)] == old(buf[..])
    {
      if n > buf.Length {
        var nb := new Byte[n];
        var i := 0;
        while i < buf.Length
          invariant i <= buf.Length && buf == old(buf) && nb.Length == n && nb[..i] == buf[..i]
        {
          nb[i] := buf[i];
          i := i + 1;
        }
        buf := nb;
      }
    }

    /** `set_src`: the exact bytes, in the old buffer if they fit; the bytes behind them are left. */
    method Set(s: Source)
      requires Valid()
      modifies this, buf
      ensures Valid() && Seen() == s
      ensures buf.Length == if |s.msg| > old(buf.Length) then |s.msg| else old(buf.Length)
      ensures if |s.msg| > old(buf.Length) then fresh(buf) else buf == old(buf)
      ensures |s.msg| < old(buf.Length) ==> buf[|s.msg|..] == old(buf[|s.msg|..])
    {
      Reserve(|s.msg|);
      var i := 0;
      while i < |s.msg|
        invariant i <= |s.msg| <= buf.Length && buf[..i] == s.msg[..i]
        invariant |s.msg| < old(buf.Length) ==> buf[|s.msg|..] == old(buf[|s.msg|..])
        modifies buf
      {
        buf[i] := s.msg[i];
        i := i + 1;
      }
      size, id, result := |s.msg|, s.id, s.result;
      thread, seqIdx, client := s.thread, s.seqIdx, s.client;
    }
  }

  /** An element of the vector that `gather_all` returns. */
  class ReplyCopy {
    const id: nat
    const result: ResultCode
    const msg: array<Byte>

    ghost function Seen(): Arrival
      reads msg
    {
      Arrival(id, result, msg[..])
    }

    /** A copy of what the source shows now. */
    constructor (src: SourceBuf)
      requires src.Valid()
      ensures fresh(msg) && Seen() == SeenAs(src.Seen())
    {
      id, result := src.id, src.result;
      msg := new Byte[src.size];
      new;
      var i := 0;
      while i < src.size
        invariant i <= src.size == msg.Length && msg[..i] == src.buf[..i] && src.Valid() && fresh(msg)
        modifies msg
      {
        msg[i] := src.buf[i];
        i := i + 1;
      }
      assert msg[..] == src.buf[..src.size];
    }
  }

  /** `gather_all`, where `replies` is what the waits show one after the other: every wait overwrites the
      source, and still each element returned has its own reply's id, result and bytes, in the order in
      which the replies were collected. */
  method GatherAll(src: SourceBuf, replies: seq<Source>) returns (out: seq<ReplyCopy>)
    requires src.Valid()
    modifies src, src.buf
    ensures src.Valid() && |out| == |replies|
    ensures forall i :: 0 <= i < |out| ==> out[i].Seen() == SeenAs(replies[i])
    ensures forall i :: 0 <= i < |out| ==> fresh(out[i].msg) && out[i].msg != src.buf
    ensures forall i, j :: 0 <= i < j < |out| ==> out[i].msg != out[j].msg
    ensures replies != [] ==> src.Seen() == replies[|replies| - 1]
    ensures src.buf.Length >= old(src.buf.Length)
  {
    out := [];
    var k := 0;
    while k < |replies|
      invariant src.Valid() && k == |out| <= |replies| && src.buf.Length >= old(src.buf.Length)
      invariant src.buf == old(src.buf) || fresh(src.buf)
      invariant forall i :: 0 <= i < k ==>
                  fresh(out[i].msg) && out[i].msg != src.buf && out[i].Seen() == SeenAs(replies[i])
      invariant forall i, j :: 0 <= i < j < k ==> out[i].msg != out[j].msg
      invariant k > 0 ==> src.Seen() == replies[k - 1]
    {
      src.Set(replies[k]);
      var copy := new ReplyCopy(src);
      out := out + [copy];
      k := k + 1;
    }
  }

  /** `gather_all` called by `f` in state `m` of some run, whose waits come to an end in state `m'`. `replies`
      is what these waits returned. The vector has one copy for each request that was outstanding at the
      call, under its id and with the first reply handled for it, in handling order. */
  method GatherAllInRun(src: SourceBuf, replies: seq<Source>, ghost m: Mod, ghost m': Mod, ghost f: nat)
    returns (out: seq<ReplyCopy>)
    requires src.Valid() && f in m.fib && f in m'.fib
    requires GatherRun(m, m', f) && replies == Gathered(m, m', f)
    modifies src, src.buf
    ensures |out| == |replies| == m.fib[f].outstanding && QueuedIds(SeenAll(replies)) == Outstanding(m, f)
    ensures forall a, b :: 0 <= a < b < |out| ==> out[a].id != out[b].id
    ensures forall k :: 0 <= k < |out| ==> out[k].Seen() == SeenAll(replies)[k] && FirstSeen(m'.hist, out[k].Seen())
    ensures HandledInOrder(SeenAll(replies), m'.q.consumed)
  {
    hide GatherRun, Outstanding, Gathered, HandledInOrder, FirstSeen;
    GatherRunReturns(m, m', f);
    out := GatherAll(src, replies);
    forall a, b | 0 <= a < b < |out| ensures out[a].id != out[b].id {
      assert out[a].Seen() == SeenAs(replies[a]) && out[b].Seen() == SeenAs(replies[b]);
    }
  }
}
