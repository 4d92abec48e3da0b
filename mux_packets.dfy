/**
 * Values of the channel multiplexer in remoting/protocol/channel_multiplexer.cc:
 * the wire packet, the inbound PendingPacket with its read cursor, the events by
 * which closures are observed, and the specification of the channel's read loop.
 */
module MuxPackets {
  import opened Wrappers

  type byte = bv8

  /** Identity of a closure handed to the multiplexer (a done_task or a completion callback). */
  type Token = nat

  /** Receive id of a channel whose id has not been learned yet. */
  const kChannelIdUnknown: int := -1
  /** Largest payload one MuxSocket::Write puts in a packet. */
  const kMaxPacketSize: int := 1024

  /** net::ERR_IO_PENDING and net::ERR_FAILED. */
  const ERR_IO_PENDING: int := -1
  const ERR_FAILED: int := -2

  /** A MultiplexPacket: optional channel id, optional channel name and the payload. */
  datatype MultiplexPacket = MultiplexPacket(channelId: Option<int>, channelName: Option<string>, data: seq<byte>)

  /**
   * A received payload that a channel has not finished handing to its reader:
   * the packet, its done_task and the read cursor `pos`.
   */
  datatype PendingPacket = PendingPacket(packet: MultiplexPacket, doneTask: Token, pos: nat)
  {
    predicate Valid() { pos <= |packet.data| }

    /** The bytes that are still to be read. */
    function Unread(): seq<byte>
      requires Valid()
    {
      packet.data[pos..]
    }

    /** is_empty(): the cursor has reached the end of the payload. */
    function IsEmpty(): (r: bool)
      requires Valid()
      ensures r <==> Unread() == []
    {
      pos >= |packet.data|
    }

    /**
     * Read(buffer, size): copies min(size, remaining) bytes from the cursor and
     * advances the cursor by that amount. Returns the advanced packet and the bytes.
     */
    function Read(size: nat): (r: (PendingPacket, seq<byte>))
      requires Valid()
      ensures r.0.Valid()
      ensures |r.1| == Min(size, |Unread()|)
      ensures r.0.pos == pos + |r.1|
      ensures r.0.packet == packet && r.0.doneTask == doneTask
      ensures r.0.IsEmpty() <==> size >= |Unread()|
    {
      var n := Min(size, |packet.data| - pos);
      (this.(pos := pos + n), packet.data[pos..pos + n])
    }
  }

  /** Every queued packet has a valid cursor and something left to read. */
  predicate QueueValid(queue: seq<PendingPacket>)
  {
    forall i :: 0 <= i < |queue| ==> queue[i].Valid() && !queue[i].IsEmpty()
  }

  /** Read hands out the front of what was unread and keeps the remainder. */
  lemma ReadSplitsUnread(p: PendingPacket, size: nat)
    requires p.Valid()
    ensures p.Read(size).1 + p.Read(size).0.Unread() == p.Unread()
  {
    var n := Min(size, |p.packet.data| - p.pos);
    assert p.packet.data[p.pos..] == p.packet.data[p.pos..p.pos + n] + p.packet.data[p.pos + n..];
  }

  /** All bytes still buffered in a queue, front first. */
  function QueueUnread(queue: seq<PendingPacket>): seq<byte>
    requires QueueValid(queue)
  {
    if queue == [] then [] else queue[0].Unread() + QueueUnread(queue[1..])
  }

  /** The done_tasks of a queue, front first. */
  function DoneTasks(queue: seq<PendingPacket>): (r: seq<Token>)
    ensures |r| == |queue|
    ensures forall i :: 0 <= i < |queue| ==> r[i] == queue[i].doneTask
  {
    if queue == [] then [] else [queue[0].doneTask] + DoneTasks(queue[1..])
  }

  /**
   * What one run of MuxChannel::DoRead produces: the bytes copied into the
   * buffer, the queue left behind and the done_tasks of the packets it deleted,
   * in deletion order.
   */
  datatype Drain = Drain(copied: seq<byte>, rest: seq<PendingPacket>, released: seq<Token>)

  /**
   * The loop of MuxChannel::DoRead from a state with `pos` bytes already copied
   * and `bufferLen` the loop's buffer_len variable. As in the source, each round
   * subtracts the cumulative `pos`, not the round's own count, from buffer_len.
   */
  function ReadLoop(queue: seq<PendingPacket>, bufferLen: int, pos: nat): Drain
    requires QueueValid(queue)
    decreases |queue|, if bufferLen > 0 then 1 else 0
  {
    if bufferLen <= 0 || queue == [] then Drain([], queue, [])
    else
      var r := queue[0].Read(bufferLen);
      var front, bytes := r.0, r.1;
      var pos' := pos + |bytes|;
      var bufferLen' := bufferLen - pos';
      if front.IsEmpty() then
        var d := ReadLoop(queue[1..], bufferLen', pos');
        Drain(bytes + d.copied, d.rest, [queue[0].doneTask] + d.released)
      else
        var d := ReadLoop([front] + queue[1..], bufferLen', pos');
        Drain(bytes + d.copied, d.rest, d.released)
  }

  /**
   * The same loop with the bytes copied so far and the done_tasks run so far
   * carried along, round by round, as the method does.
   */
  function ReadLoopAcc(queue: seq<PendingPacket>, bufferLen: int, pos: nat,
                       copied: seq<byte>, released: seq<Token>): Drain
    requires QueueValid(queue)
    decreases |queue|, if bufferLen > 0 then 1 else 0
  {
    if bufferLen <= 0 || queue == [] then Drain(copied, queue, released)
    else
      var r := queue[0].Read(bufferLen);
      var pos' := pos + |r.1|;
      if r.0.IsEmpty() then
        ReadLoopAcc(queue[1..], bufferLen - pos', pos', copied + r.1, released + [queue[0].doneTask])
      else
        ReadLoopAcc([r.0] + queue[1..], bufferLen - pos', pos', copied + r.1, released)
  }

  /** MuxChannel::DoRead(buffer, buffer_len) on a queue. */
  function DoReadSpec(queue: seq<PendingPacket>, bufferLen: int): Drain
    requires QueueValid(queue)
  {
    ReadLoop(queue, bufferLen, 0)
  }

  /**
   * The queue left by a read is the input queue with its first `k` packets
   * deleted (their done_tasks run, in order) and, possibly, the next packet kept
   * at the front with its cursor advanced.
   */
  predicate FrontConsumed(queue: seq<PendingPacket>, d: Drain, k: nat)
  {
    && k <= |queue|
    && d.released == DoneTasks(queue[..k])
    && (|| d.rest == queue[k..]
        || (&& k < |queue|
            && |d.rest| == |queue| - k
            && d.rest[1..] == queue[k + 1..]
            && d.rest[0].packet == queue[k].packet
            && d.rest[0].doneTask == queue[k].doneTask
            && d.rest[0].pos > queue[k].pos))
  }

  lemma AppendAssoc<T>(a: seq<T>, b: seq<T>, c: seq<T>)
    ensures a + (b + c) == (a + b) + c
  {
  }

  /** A round of the DoRead loop that empties the front packet: it is copied whole and deleted. */
  lemma ReadLoopUnfoldPop(queue: seq<PendingPacket>, bufferLen: int, pos: nat)
    requires QueueValid(queue) && bufferLen > 0 && queue != []
    requires queue[0].Read(bufferLen).0.IsEmpty()
    ensures QueueValid(queue[1..])
    ensures var bytes := queue[0].Read(bufferLen).1;
      var d := ReadLoop(queue[1..], bufferLen - (pos + |bytes|), pos + |bytes|);
      && bytes == queue[0].Unread()
      && ReadLoop(queue, bufferLen, pos) == Drain(bytes + d.copied, d.rest, [queue[0].doneTask] + d.released)
  {
    var r := queue[0].Read(bufferLen);
    assert r.1 + [] == r.1;
  }

  /**
   * A round of the DoRead loop that leaves the front packet partly read: the
   * buffer was smaller than the packet, so buffer_len drops to 0 or below and the
   * loop stops with that packet first.
   */
  lemma ReadLoopUnfoldKeep(queue: seq<PendingPacket>, bufferLen: int, pos: nat)
    requires QueueValid(queue) && bufferLen > 0 && queue != []
    requires !queue[0].Read(bufferLen).0.IsEmpty()
    ensures var r := queue[0].Read(bufferLen);
      var q' := [r.0] + queue[1..];
      && QueueValid(q')
      && bufferLen - (pos + |r.1|) <= 0
      && ReadLoop(q', bufferLen - (pos + |r.1|), pos + |r.1|) == Drain([], q', [])
      && ReadLoop(queue, bufferLen, pos) == Drain(r.1, q', [])
  {
    var r := queue[0].Read(bufferLen);
    var q' := [r.0] + queue[1..];
    assert ReadLoop(q', bufferLen - (pos + |r.1|), pos + |r.1|) == Drain([], q', []);
    assert r.1 + [] == r.1;
  }

  /** A round of the DoRead loop that empties the front packet: it is deleted. */
  lemma ReadLoopStepPop(queue: seq<PendingPacket>, bufferLen: int, pos: nat, data: seq<byte>, released: seq<Token>)
    requires QueueValid(queue) && bufferLen > 0 && queue != []
    requires queue[0].Read(bufferLen).0.IsEmpty()
    ensures var bytes := queue[0].Read(bufferLen).1;
      var d := ReadLoop(queue, bufferLen, pos);
      var d' := ReadLoop(queue[1..], bufferLen - (pos + |bytes|), pos + |bytes|);
      && QueueValid(queue[1..])
      && Drain(data + d.copied, d.rest, released + d.released)
         == Drain((data + bytes) + d'.copied, d'.rest, (released + [queue[0].doneTask]) + d'.released)
  {
    ReadLoopUnfoldPop(queue, bufferLen, pos);
    var bytes := queue[0].Read(bufferLen).1;
    var d' := ReadLoop(queue[1..], bufferLen - (pos + |bytes|), pos + |bytes|);
    AppendAssoc(data, bytes, d'.copied);
    AppendAssoc(released, [queue[0].doneTask], d'.released);
  }

  /** A round of the DoRead loop that leaves the front packet partly read: it stays first. */
  lemma ReadLoopStepKeep(queue: seq<PendingPacket>, bufferLen: int, pos: nat, data: seq<byte>, released: seq<Token>)
    requires QueueValid(queue) && bufferLen > 0 && queue != []
    requires !queue[0].Read(bufferLen).0.IsEmpty()
    ensures var r := queue[0].Read(bufferLen);
      var d := ReadLoop(queue, bufferLen, pos);
      var d' := ReadLoop([r.0] + queue[1..], bufferLen - (pos + |r.1|), pos + |r.1|);
      && QueueValid([r.0] + queue[1..])
      && bufferLen - (pos + |r.1|) <= 0
      && Drain(data + d.copied, d.rest, released + d.released)
         == Drain((data + r.1) + d'.copied, d'.rest, released + d'.released)
  {
    ReadLoopUnfoldKeep(queue, bufferLen, pos);
    var r := queue[0].Read(bufferLen);
    var d' := ReadLoop([r.0] + queue[1..], bufferLen - (pos + |r.1|), pos + |r.1|);
    AppendAssoc(data, r.1, d'.copied);
  }

  /** Carrying the results along gives the same answer as collecting them on the way back. */
  lemma {:induction false} ReadLoopAccIsReadLoop(queue: seq<PendingPacket>, bufferLen: int, pos: nat,
                                                 copied: seq<byte>, released: seq<Token>)
    requires QueueValid(queue)
    ensures var d := ReadLoop(queue, bufferLen, pos);
      ReadLoopAcc(queue, bufferLen, pos, copied, released) == Drain(copied + d.copied, d.rest, released + d.released)
    decreases |queue|, if bufferLen > 0 then 1 else 0
  {
    if bufferLen <= 0 || queue == [] {
      assert copied + [] == copied && released + [] == released;
    } else {
      var r := queue[0].Read(bufferLen);
      var pos' := pos + |r.1|;
      if r.0.IsEmpty() {
        ReadLoopStepPop(queue, bufferLen, pos, copied, released);
        ReadLoopAccIsReadLoop(queue[1..], bufferLen - pos', pos', copied + r.1, released + [queue[0].doneTask]);
      } else {
        ReadLoopStepKeep(queue, bufferLen, pos, copied, released);
        ReadLoopAccIsReadLoop([r.0] + queue[1..], bufferLen - pos', pos', copied + r.1, released);
      }
    }
  }

  /** DoReadSpec in the accumulating form. */
  lemma DoReadSpecAcc(queue: seq<PendingPacket>, bufferLen: int)
    requires QueueValid(queue)
    ensures ReadLoopAcc(queue, bufferLen, 0, [], []) == DoReadSpec(queue, bufferLen)
  {
    var d := ReadLoop(queue, bufferLen, 0);
    ReadLoopAccIsReadLoop(queue, bufferLen, 0, [], []);
    assert [] + d.copied == d.copied && [] + d.released == d.released;
  }

  /** The accumulating loop hands back what it carries once it stops. */
  lemma ReadLoopAccStops(queue: seq<PendingPacket>, bufferLen: int, pos: nat,
                         copied: seq<byte>, released: seq<Token>)
    requires QueueValid(queue) && (bufferLen <= 0 || queue == [])
    ensures ReadLoopAcc(queue, bufferLen, pos, copied, released) == Drain(copied, queue, released)
  {
  }

  /** Queueing a packet that is not empty appends its bytes to what the channel has buffered. */
  lemma {:induction false} QueueUnreadAppend(queue: seq<PendingPacket>, p: PendingPacket)
    requires QueueValid(queue) && p.Valid() && !p.IsEmpty()
    ensures QueueValid(queue + [p])
    ensures QueueUnread(queue + [p]) == QueueUnread(queue) + p.Unread()
  {
    if queue == [] {
      assert [] + [p] == [p] && [p][1..] == [];
    } else {
      assert (queue + [p])[1..] == queue[1..] + [p];
      QueueUnreadAppend(queue[1..], p);
      AppendAssoc(queue[0].Unread(), QueueUnread(queue[1..]), p.Unread());
    }
  }

  /** The queue DoRead leaves behind still holds only packets with something left to read. */
  lemma {:induction false} ReadLoopKeepsQueueValid(queue: seq<PendingPacket>, bufferLen: int, pos: nat)
    requires QueueValid(queue)
    ensures QueueValid(ReadLoop(queue, bufferLen, pos).rest)
    decreases |queue|, if bufferLen > 0 then 1 else 0
  {
    if bufferLen > 0 && queue != [] {
      var r := queue[0].Read(bufferLen);
      var pos' := pos + |r.1|;
      if r.0.IsEmpty() {
        ReadLoopKeepsQueueValid(queue[1..], bufferLen - pos', pos');
      } else {
        assert ReadLoop([r.0] + queue[1..], bufferLen - pos', pos').rest == [r.0] + queue[1..];
      }
    }
  }

  /** DoRead hands out exactly the buffered bytes it removes: nothing is lost or invented. */
  lemma {:induction false} ReadLoopConserves(queue: seq<PendingPacket>, bufferLen: int, pos: nat)
    requires QueueValid(queue)
    ensures QueueValid(ReadLoop(queue, bufferLen, pos).rest)
    ensures ReadLoop(queue, bufferLen, pos).copied + QueueUnread(ReadLoop(queue, bufferLen, pos).rest)
            == QueueUnread(queue)
    decreases |queue|, if bufferLen > 0 then 1 else 0
  {
    if bufferLen > 0 && queue != [] {
      var r := queue[0].Read(bufferLen);
      if r.0.IsEmpty() {
        ReadLoopUnfoldPop(queue, bufferLen, pos);
        var d := ReadLoop(queue[1..], bufferLen - (pos + |r.1|), pos + |r.1|);
        ReadLoopConserves(queue[1..], bufferLen - (pos + |r.1|), pos + |r.1|);
        UnreadPop(queue, d.copied, d.rest);
        assert ReadLoop(queue, bufferLen, pos) == Drain(queue[0].Unread() + d.copied, d.rest, [queue[0].doneTask] + d.released);
      } else {
        ReadLoopUnfoldKeep(queue, bufferLen, pos);
        UnreadKeep(queue, bufferLen);
        assert ReadLoop(queue, bufferLen, pos) == Drain(r.1, [r.0] + queue[1..], []);
      }
    }
  }

  /** Deleting a fully read front packet: its bytes and what the rest hands out make up the queue's bytes. */
  lemma UnreadPop(queue: seq<PendingPacket>, copied: seq<byte>, rest: seq<PendingPacket>)
    requires QueueValid(queue) && queue != [] && QueueValid(rest)
    requires copied + QueueUnread(rest) == QueueUnread(queue[1..])
    ensures (queue[0].Unread() + copied) + QueueUnread(rest) == QueueUnread(queue)
  {
    AppendAssoc(queue[0].Unread(), copied, QueueUnread(rest));
  }

  /** Reading part of the front packet: the bytes read and the queue left make up the queue's bytes. */
  lemma UnreadKeep(queue: seq<PendingPacket>, size: nat)
    requires QueueValid(queue) && queue != []
    requires !queue[0].Read(size).0.IsEmpty()
    ensures var r := queue[0].Read(size);
      && QueueValid([r.0] + queue[1..])
      && r.1 + QueueUnread([r.0] + queue[1..]) == QueueUnread(queue)
  {
    var r := queue[0].Read(size);
    var q' := [r.0] + queue[1..];
    assert q'[1..] == queue[1..];
    ReadSplitsUnread(queue[0], size);
    AppendAssoc(r.1, r.0.Unread(), QueueUnread(queue[1..]));
  }

  /** DoRead never copies more than buffer_len bytes (and nothing for buffer_len <= 0). */
  lemma {:induction false} ReadLoopNeverOverReads(queue: seq<PendingPacket>, bufferLen: int, pos: nat)
    requires QueueValid(queue)
    ensures |ReadLoop(queue, bufferLen, pos).copied| <= if bufferLen > 0 then bufferLen else 0
    decreases |queue|, if bufferLen > 0 then 1 else 0
  {
    if bufferLen > 0 && queue != [] {
      var r := queue[0].Read(bufferLen);
      var pos' := pos + |r.1|;
      if r.0.IsEmpty() {
        ReadLoopNeverOverReads(queue[1..], bufferLen - pos', pos');
      } else {
        ReadLoopNeverOverReads([r.0] + queue[1..], bufferLen - pos', pos');
      }
    }
  }

  /** DoRead yields 0 exactly when the buffer has no room or nothing is buffered. */
  lemma ReadLoopYieldsNothingIff(queue: seq<PendingPacket>, bufferLen: int, pos: nat)
    requires QueueValid(queue)
    ensures ReadLoop(queue, bufferLen, pos).copied == [] <==> bufferLen <= 0 || queue == []
  {
    if bufferLen > 0 && queue != [] {
      assert |queue[0].Read(bufferLen).1| > 0;
    }
  }

  lemma DoneTasksPrefix(queue: seq<PendingPacket>, k: nat)
    requires k < |queue|
    ensures DoneTasks(queue[..k + 1]) == [queue[0].doneTask] + DoneTasks(queue[1..][..k])
  {
    assert queue[..k + 1][1..] == queue[1..][..k];
  }

  /** DoRead deletes packets only from the front; a partly read packet stays first with its cursor advanced. */
  lemma {:induction false} ReadLoopConsumesFront(queue: seq<PendingPacket>, bufferLen: int, pos: nat)
    requires QueueValid(queue)
    ensures exists k: nat :: FrontConsumed(queue, ReadLoop(queue, bufferLen, pos), k)
    decreases |queue|, if bufferLen > 0 then 1 else 0
  {
    var d := ReadLoop(queue, bufferLen, pos);
    if bufferLen <= 0 || queue == [] {
      assert queue[..0] == [] && queue[0..] == queue;
      assert FrontConsumed(queue, d, 0);
    } else {
      var r := queue[0].Read(bufferLen);
      if r.0.IsEmpty() {
        ReadLoopUnfoldPop(queue, bufferLen, pos);
        var d' := ReadLoop(queue[1..], bufferLen - (pos + |r.1|), pos + |r.1|);
        assert d == Drain(r.1 + d'.copied, d'.rest, [queue[0].doneTask] + d'.released);
        ReadLoopConsumesFront(queue[1..], bufferLen - (pos + |r.1|), pos + |r.1|);
        var k: nat :| FrontConsumed(queue[1..], d', k);
        FrontConsumedPop(queue, d', k);
        assert FrontConsumed(queue, d, k + 1);
      } else {
        ReadLoopUnfoldKeep(queue, bufferLen, pos);
        assert d == Drain(r.1, [r.0] + queue[1..], []);
        FrontConsumedKeep(queue, bufferLen);
        assert FrontConsumed(queue, d, 0);
      }
    }
  }

  /** Deleting the front packet before a read that consumed k packets consumes k + 1. */
  lemma FrontConsumedPop(queue: seq<PendingPacket>, d: Drain, k: nat)
    requires queue != [] && FrontConsumed(queue[1..], d, k)
    ensures FrontConsumed(queue, Drain(d.copied, d.rest, [queue[0].doneTask] + d.released), k + 1)
  {
    DoneTasksPrefix(queue, k);
    assert queue[1..][k..] == queue[k + 1..];
    assert k < |queue[1..]| ==> queue[1..][k + 1..] == queue[k + 2..];
  }

  /** A round that only advances the front packet's cursor consumes no packet. */
  lemma FrontConsumedKeep(queue: seq<PendingPacket>, size: nat)
    requires QueueValid(queue) && queue != [] && !queue[0].Read(size).0.IsEmpty()
    ensures var r := queue[0].Read(size);
      FrontConsumed(queue, Drain(r.1, [r.0] + queue[1..], []), 0)
  {
    var r := queue[0].Read(size);
    var q' := [r.0] + queue[1..];
    assert queue[..0] == [] && q'[1..] == queue[1..];
  }


  /**
   * Because buffer_len is reduced by the cumulative count, DoRead can stop before
   * the buffer is full although data is still buffered: a 4-byte read over packets
   * of 1, 1 and 5 bytes copies only 3 bytes.
   */
  lemma ReadLoopCanStopEarly(a: byte, b: byte, c: seq<byte>)
    requires |c| == 5
    ensures var queue := [PendingPacket(MultiplexPacket(None, None, [a]), 0, 0),
                          PendingPacket(MultiplexPacket(None, None, [b]), 1, 0),
                          PendingPacket(MultiplexPacket(None, None, c), 2, 0)];
      var d := DoReadSpec(queue, 4);
      |d.copied| == 3 && d.rest == [PendingPacket(MultiplexPacket(None, None, c), 2, 1)]
  {
    var p0 := PendingPacket(MultiplexPacket(None, None, [a]), 0, 0);
    var p1 := PendingPacket(MultiplexPacket(None, None, [b]), 1, 0);
    var p2 := PendingPacket(MultiplexPacket(None, None, c), 2, 0);
    StopEarlyThirdRound(p2);
    StopEarlySecondRound(p1, p2);
    StopEarlyFirstRound(p0, p1, p2);
  }

  /** First round of ReadLoopCanStopEarly: 1 byte copied, buffer_len 4 - 1. */
  lemma StopEarlyFirstRound(p0: PendingPacket, p1: PendingPacket, p2: PendingPacket)
    requires QueueValid([p0, p1, p2]) && p0.pos == 0 && |p0.packet.data| == 1
    ensures QueueValid([p1, p2])
    ensures var d := ReadLoop([p1, p2], 3, 1);
      ReadLoop([p0, p1, p2], 4, 0) == Drain(p0.packet.data + d.copied, d.rest, [p0.doneTask] + d.released)
  {
    ReadLoopUnfoldPop([p0, p1, p2], 4, 0);
    assert [p0, p1, p2][1..] == [p1, p2];
  }

  /** Second round: 1 more byte, so pos is 2 and buffer_len drops from 3 to 1. */
  lemma StopEarlySecondRound(p1: PendingPacket, p2: PendingPacket)
    requires QueueValid([p1, p2]) && p1.pos == 0 && |p1.packet.data| == 1
    ensures QueueValid([p2])
    ensures var d := ReadLoop([p2], 1, 2);
      ReadLoop([p1, p2], 3, 1) == Drain(p1.packet.data + d.copied, d.rest, [p1.doneTask] + d.released)
  {
    ReadLoopUnfoldPop([p1, p2], 3, 1);
    assert [p1, p2][1..] == [p2];
  }

  /** Third round: 1 byte of the last packet, after which buffer_len is 1 - 3 and the loop stops. */
  lemma StopEarlyThirdRound(p2: PendingPacket)
    requires p2.pos == 0 && |p2.packet.data| == 5
    ensures QueueValid([p2])
    ensures ReadLoop([p2], 1, 2) == Drain(p2.packet.data[..1], [p2.(pos := 1)], [])
  {
    ReadLoopUnfoldKeep([p2], 1, 2);
    assert [p2.(pos := 1)] + [p2][1..] == [p2.(pos := 1)];
  }
}
