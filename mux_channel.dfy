/**
 * MuxChannel and MuxSocket of remoting/protocol/channel_multiplexer.cc, with the
 * shared packet writer they write through and the log on which closures that
 * have been run are recorded.
 */
module MuxChannels {
  import opened Wrappers
  import opened MuxPackets

  /** A closure of the multiplexer being run, with its arguments. */
  datatype Event =
    | DoneTaskRan(task: Token)
    | ReadCallbackRan(callback: Token, result: int, data: seq<byte>)
    | WriteCallbackRan(callback: Token, result: int)
    | ChannelCreatedCallbackRan(callback: Token, socket: MuxSocket?)
    | BaseChannelRequested(name: string)

  /** The events of running the given done_tasks, in order. */
  function DoneTasksRan(tasks: seq<Token>): (r: seq<Event>)
    ensures |r| == |tasks|
    ensures forall i :: 0 <= i < |tasks| ==> r[i] == DoneTaskRan(tasks[i])
  {
    if tasks == [] then [] else [DoneTaskRan(tasks[0])] + DoneTasksRan(tasks[1..])
  }

  lemma DoneTasksRanAppend(tasks: seq<Token>, t: Token)
    ensures DoneTasksRan(tasks + [t]) == DoneTasksRan(tasks) + [DoneTaskRan(t)]
  {
  }

  /**
   * What MuxChannel::OnIncomingPacket does to a channel's queue and to the log,
   * given the queue, the socket's pending read and the log before it: an empty
   * payload changes nothing; otherwise the packet is queued and, if a read was
   * waiting, that read is completed from it at once with at least one byte.
   */
  ghost predicate Delivered(packet: MultiplexPacket, doneTask: Token,
                            pending0: seq<PendingPacket>, read0: Option<Token>, readSize0: int,
                            events0: seq<Event>, pending1: seq<PendingPacket>, events1: seq<Event>)
  {
    if packet.data == [] then
      pending1 == pending0 && events1 == events0
    else if read0.None? then
      pending1 == pending0 + [PendingPacket(packet, doneTask, 0)] && events1 == events0
    else
      var d := DoReadSpec([PendingPacket(packet, doneTask, 0)], readSize0);
      && d.copied != []
      && pending1 == d.rest
      && events1 == events0 + DoneTasksRan(d.released) + [ReadCallbackRan(read0.value, |d.copied|, d.copied)]
  }

  /**
   * Everything a channel and its socket, if any, hold: what an operation aimed
   * at another channel must leave as it was.
   */
  datatype ChannelSnap = ChannelSnap(
    pending: seq<PendingPacket>, socket: MuxSocket?, idSent: bool, receiveId: int,
    readCallback: Option<Token>, readBufferSize: int,
    writePending: bool, writeCallback: Option<Token>, writeResult: int)

  /** The current ChannelSnap of `c`; the socket fields are those of a socketless channel when it has none. */
  function Snap(c: MuxChannel): ChannelSnap
    reads c, c.socket
  {
    if c.socket == null then
      ChannelSnap(c.pendingPackets, null, c.idSent, c.receiveId, None, 0, false, None, 0)
    else
      var s := c.socket;
      ChannelSnap(c.pendingPackets, s, c.idSent, c.receiveId, s.readCallback, s.readBufferSize,
                  s.writePending, s.writeCallback, s.writeResult)
  }

  /** The sequence of closures run so far, shared by a multiplexer and everything it creates. */
  class CallbackLog {
    var events: seq<Event>

    constructor ()
      ensures events == []
    {
      events := [];
    }
  }

  /**
   * The multiplexer's writer_: it accepts packets once it has been initialised on
   * the base channel and until it has failed. It is an external component; only
   * the packets handed to it and whether it accepts them are modelled.
   */
  class PacketWriter {
    var initialized: bool
    var failed: bool
    var written: seq<MultiplexPacket>

    constructor ()
      ensures !initialized && !failed && written == []
    {
      initialized, failed, written := false, false, [];
    }

    /** Init(base_channel, on_write_failed). */
    method Init()
      modifies this
      ensures initialized && failed == old(failed) && written == old(written)
    {
      initialized := true;
    }

    /** The base channel reports a write error; later writes are refused. */
    method Fail()
      modifies this
      ensures failed && initialized == old(initialized) && written == old(written)
    {
      failed := true;
    }

    /** Write(packet, done_task): returns whether the packet was taken. */
    method Write(packet: MultiplexPacket) returns (accepted: bool)
      modifies this
      ensures accepted == (old(initialized) && !old(failed))
      ensures written == if accepted then old(written) + [packet] else old(written)
      ensures initialized == old(initialized) && failed == old(failed)
    {
      accepted := initialized && !failed;
      if accepted {
        written := written + [packet];
      }
    }
  }

  /**
   * Every packet a channel has handed to the writer carries the channel's send id,
   * and only the first one carries its name.
   */
  ghost predicate NamedOnlyFirst(sent: seq<MultiplexPacket>, sendId: int, name: string)
  {
    forall i :: 0 <= i < |sent| ==>
      sent[i].channelId == Some(sendId) && sent[i].channelName == (if i == 0 then Some(name) else None)
  }

  class MuxChannel {
    const name: string
    const sendId: int
    const writer: PacketWriter
    const log: CallbackLog
    var idSent: bool
    var receiveId: int
    var socket: MuxSocket?
    var pendingPackets: seq<PendingPacket>
    /** The packets this channel has handed to the writer, accepted or not. */
    ghost var sent: seq<MultiplexPacket>

    ghost predicate Valid()
      reads this, socket
    {
      && QueueValid(pendingPackets)
      && NamedOnlyFirst(sent, sendId, name)
      && (idSent <==> sent != [])
      && (socket != null ==>
            && socket.channel == this
            && (socket.readCallback.Some? ==> pendingPackets == [] && socket.readBufferSize > 0))
    }

    constructor (name: string, sendId: int, writer: PacketWriter, log: CallbackLog)
      ensures Valid()
      ensures this.name == name && this.sendId == sendId && this.writer == writer && this.log == log
      ensures !idSent && receiveId == kChannelIdUnknown && socket == null && pendingPackets == [] && sent == []
    {
      this.name, this.sendId, this.writer, this.log := name, sendId, writer, log;
      idSent, receiveId, socket, pendingPackets := false, kChannelIdUnknown, null, [];
      sent := [];
    }

    /** set_receive_id(id): the id the other end sends this channel's packets under. */
    method SetReceiveId(id: int)
      requires Valid()
      modifies this
      ensures Valid() && receiveId == id && sent == old(sent)
      ensures Snap(this) == old(Snap(this)).(receiveId := id)
    {
      receiveId := id;
    }

    /** CreateSocket(): only one socket per channel at a time. */
    method CreateSocket() returns (s: MuxSocket)
      requires Valid() && socket == null
      modifies this
      ensures Valid() && fresh(s)
      ensures socket == s && s.channel == this && s.Idle()
      ensures pendingPackets == old(pendingPackets) && idSent == old(idSent) && receiveId == old(receiveId)
      ensures sent == old(sent)
    {
      s := new MuxSocket(this);
      socket := s;
    }

    /** The callback of the read the socket, if any, is waiting to complete. */
    function PendingRead(): Option<Token>
      reads this, socket
    {
      if socket == null then None else socket.readCallback
    }

    /** The buffer size of that read. */
    function PendingReadSize(): int
      reads this, socket
    {
      if socket == null then 0 else socket.readBufferSize
    }

    /**
     * OnIncomingPacket(packet, done_task): a non-empty payload is queued and the
     * socket, if any, is told. An empty payload is neither queued nor is its
     * done_task run.
     */
    method OnIncomingPacket(packet: MultiplexPacket, doneTask: Token)
      requires Valid()
      modifies this, socket, log
      ensures Valid() && socket == old(socket)
      ensures idSent == old(idSent) && receiveId == old(receiveId) && sent == old(sent)
      ensures Delivered(packet, doneTask, old(pendingPackets), old(PendingRead()), old(PendingReadSize()),
                        old(log.events), pendingPackets, log.events)
      ensures PendingRead() == (if packet.data == [] then old(PendingRead()) else None)
      ensures PendingReadSize() == old(PendingReadSize())
      ensures socket != null ==>
        (socket.writePending, socket.writeCallback, socket.writeResult)
        == old((socket.writePending, socket.writeCallback, socket.writeResult))
    {
      if |packet.data| > 0 {
        pendingPackets := pendingPackets + [PendingPacket(packet, doneTask, 0)];
        assert socket != null && socket.readCallback.Some? ==> pendingPackets == [PendingPacket(packet, doneTask, 0)];
        if socket != null {
          socket.OnPacketReceived();
        }
      }
    }

    /** OnWriteFailed(): forwarded to the socket, if there is one. */
    method OnWriteFailed()
      requires Valid()
      modifies socket, log
      ensures Valid()
      ensures Snap(this) == old(Snap(this)).(writeCallback := None)
      ensures socket != null ==> socket.WriteFailedFrom(old(socket.writeCallback), old(log.events), log.events)
      ensures socket == null ==> log.events == old(log.events)
      ensures PendingRead() == old(PendingRead()) && PendingReadSize() == old(PendingReadSize())
    {
      if socket != null {
        socket.OnWriteFailed();
      }
    }

    /** OnSocketDestroyed(): the channel outlives its socket. */
    method OnSocketDestroyed()
      requires socket != null
      modifies this
      ensures socket == null
      ensures pendingPackets == old(pendingPackets) && idSent == old(idSent) && receiveId == old(receiveId)
      ensures sent == old(sent)
    {
      socket := null;
    }

    /**
     * DoWrite(packet, done_task): stamps the send id on every packet and the
     * channel name on the first one only, then hands the packet to the writer.
     */
    method DoWrite(packet: MultiplexPacket) returns (accepted: bool)
      requires Valid() && packet.channelId.None? && packet.channelName.None?
      modifies this, writer
      ensures Valid() && idSent && socket == old(socket)
      ensures pendingPackets == old(pendingPackets) && receiveId == old(receiveId)
      ensures var stamped := packet.(channelId := Some(sendId),
                                     channelName := if old(idSent) then None else Some(name));
        && sent == old(sent) + [stamped]
        && accepted == (old(writer.initialized) && !old(writer.failed))
        && writer.written == (if accepted then old(writer.written) + [stamped] else old(writer.written))
      ensures writer.initialized == old(writer.initialized) && writer.failed == old(writer.failed)
    {
      var p := packet.(channelId := Some(sendId));
      if !idSent {
        p := p.(channelName := Some(name));
        idSent := true;
      }
      sent := sent + [p];
      accepted := writer.Write(p);
    }

    /**
     * DoRead(buffer, buffer_len): copies buffered bytes from the front of the
     * queue, deleting (and so running the done_task of) every packet it empties.
     */
    method DoRead(bufferLen: int) returns (result: int, data: seq<byte>)
      requires QueueValid(pendingPackets)
      modifies this`pendingPackets, log
      ensures var d := DoReadSpec(old(pendingPackets), bufferLen);
        && data == d.copied && result == |data|
        && pendingPackets == d.rest
        && log.events == old(log.events) + DoneTasksRan(d.released)
    {
      ghost var whole := ReadLoopAcc(pendingPackets, bufferLen, 0, [], []);
      ghost var d := DoReadSpec(pendingPackets, bufferLen);
      DoReadSpecAcc(pendingPackets, bufferLen);
      ghost var events0 := log.events;
      ghost var released: seq<Token> := [];
      var pos := 0;
      var len := bufferLen;
      data := [];
      while len > 0 && pendingPackets != []
        invariant QueueValid(pendingPackets)
        invariant pos == |data|
        invariant whole == ReadLoopAcc(pendingPackets, len, pos, data, released)
        invariant log.events == events0 + DoneTasksRan(released)
        decreases |pendingPackets|, if len > 0 then 1 else 0
      {
        var bytes;
        bytes, released := ReadFront(len, pos, data, released, events0);
        data := data + bytes;
        pos := pos + |bytes|;
        len := len - pos;
      }
      ReadLoopAccStops(pendingPackets, len, pos, data, released);
      result := pos;
    }

    /** One round of the DoRead loop: reads from the front packet, popping it once empty. */
    method ReadFront(len: int, pos: nat, ghost copied: seq<byte>, ghost released: seq<Token>,
                     ghost events0: seq<Event>)
      returns (bytes: seq<byte>, ghost released': seq<Token>)
      requires len > 0 && pendingPackets != [] && QueueValid(pendingPackets)
      requires log.events == events0 + DoneTasksRan(released)
      modifies this`pendingPackets, log
      ensures QueueValid(pendingPackets)
      ensures |pendingPackets| < |old(pendingPackets)|
        || (|pendingPackets| == |old(pendingPackets)| && len - (pos + |bytes|) <= 0)
      ensures ReadLoopAcc(old(pendingPackets), len, pos, copied, released)
        == ReadLoopAcc(pendingPackets, len - (pos + |bytes|), pos + |bytes|, copied + bytes, released')
      ensures log.events == events0 + DoneTasksRan(released')
    {
      var front := pendingPackets[0];
      var r := front.Read(len);
      bytes := r.1;
      if r.0.IsEmpty() {
        DoneTasksRanAppend(released, front.doneTask);
        log.events := log.events + [DoneTaskRan(front.doneTask)];
        released' := released + [front.doneTask];
        pendingPackets := pendingPackets[1..];
      } else {
        released' := released;
        pendingPackets := [r.0] + pendingPackets[1..];
      }
    }
  }

  class MuxSocket {
    const channel: MuxChannel
    var readCallback: Option<Token>
    var readBufferSize: int
    var writePending: bool
    var writeResult: int
    var writeCallback: Option<Token>

    /** No read or write is outstanding. */
    predicate Idle()
      reads this
    {
      readCallback.None? && !writePending && writeCallback.None?
    }

    /** The socket is alive: its channel still points back at it. */
    ghost predicate Valid()
      reads this, channel, channel.socket
    {
      channel.socket == this && channel.Valid()
    }

    /**
     * The effect of OnWriteFailed() on the log: a pending write callback is run
     * with ERR_FAILED; nothing else happens.
     */
    ghost predicate WriteFailedFrom(before: Option<Token>, eventsBefore: seq<Event>, eventsAfter: seq<Event>)
      reads this
    {
      && writeCallback.None?
      && eventsAfter == eventsBefore + (if before.Some? then [WriteCallbackRan(before.value, ERR_FAILED)] else [])
    }

    constructor (channel: MuxChannel)
      ensures this.channel == channel && Idle() && readBufferSize == 0 && writeResult == 0
    {
      this.channel := channel;
      readCallback, readBufferSize := None, 0;
      writePending, writeResult, writeCallback := false, 0, None;
    }

    /**
     * Read(buffer, buffer_len, callback): returns the bytes buffered now, or
     * ERR_IO_PENDING, keeping the buffer and callback, when there are none.
     */
    method Read(bufferLen: int, callback: Token) returns (result: int, data: seq<byte>)
      requires Valid() && readCallback.None? && bufferLen > 0
      modifies this, channel`pendingPackets, channel.log
      ensures Valid()
      ensures result == ERR_IO_PENDING <==> old(channel.pendingPackets) == []
      ensures var d := DoReadSpec(old(channel.pendingPackets), bufferLen);
        && data == d.copied
        && channel.pendingPackets == d.rest
        && channel.log.events == old(channel.log.events) + DoneTasksRan(d.released)
        && (if d.copied == [] then result == ERR_IO_PENDING && readCallback == Some(callback) && readBufferSize == bufferLen
            else result == |d.copied| && readCallback.None?)
      ensures writePending == old(writePending) && writeCallback == old(writeCallback) && writeResult == old(writeResult)
    {
      ReadLoopYieldsNothingIff(channel.pendingPackets, bufferLen, 0);
      ReadLoopKeepsQueueValid(channel.pendingPackets, bufferLen, 0);
      result, data := channel.DoRead(bufferLen);
      if result == 0 {
        readBufferSize := bufferLen;
        readCallback := Some(callback);
        result := ERR_IO_PENDING;
      }
    }

    /**
     * Write(buffer, buffer_len, callback): sends at most kMaxPacketSize bytes in one
     * packet. `completesInline` says whether the writer finishes the packet before
     * it returns, in which case OnWriteComplete() runs inside the call.
     */
    method Write(data: seq<byte>, callback: Token, completesInline: bool) returns (result: int)
      requires Valid() && writeCallback.None?
      modifies this, channel, channel.writer, channel.log
      ensures Valid()
      ensures var size := Min(kMaxPacketSize, |data|);
        var accepted := old(channel.writer.initialized) && !old(channel.writer.failed);
        && channel.sent == old(channel.sent) + [MultiplexPacket(Some(channel.sendId),
                                                 if old(channel.idSent) then None else Some(channel.name),
                                                 data[..size])]
        && channel.writer.written == (if accepted then old(channel.writer.written) + [Last(channel.sent)]
                                      else old(channel.writer.written))
        && (!accepted ==> result == ERR_FAILED && writePending && writeCallback.None?)
        && (accepted && completesInline ==> result == size && !writePending && writeCallback.None?)
        && (accepted && !completesInline ==>
              result == ERR_IO_PENDING && writePending && writeCallback == Some(callback) && writeResult == size)
      ensures channel.log.events == old(channel.log.events)
      ensures channel.pendingPackets == old(channel.pendingPackets) && channel.receiveId == old(channel.receiveId)
      ensures readCallback == old(readCallback) && readBufferSize == old(readBufferSize)
      ensures channel.writer.initialized == old(channel.writer.initialized)
      ensures channel.writer.failed == old(channel.writer.failed)
    {
      var size := Min(kMaxPacketSize, |data|);
      var packet := MultiplexPacket(None, None, data[..size]);
      writePending := true;
      var accepted := channel.DoWrite(packet);
      if accepted && completesInline {
        OnWriteComplete();
      }
      if !accepted {
        return ERR_FAILED;
      }
      if writePending {
        writeCallback := Some(callback);
        writeResult := size;
        return ERR_IO_PENDING;
      }
      return size;
    }

    /** OnWriteComplete(): the writer finished the packet; a stored callback gets the size. */
    method OnWriteComplete()
      modifies this, channel.log
      ensures !writePending && writeCallback.None?
      ensures channel.log.events == old(channel.log.events)
        + (if old(writeCallback).Some? then [WriteCallbackRan(old(writeCallback).value, old(writeResult))] else [])
      ensures readCallback == old(readCallback) && readBufferSize == old(readBufferSize)
      ensures writeResult == old(writeResult)
    {
      writePending := false;
      if writeCallback.Some? {
        var cb := writeCallback.value;
        writeCallback := None;
        channel.log.events := channel.log.events + [WriteCallbackRan(cb, writeResult)];
      }
    }

    /**
     * OnWriteFailed(): a pending write callback gets ERR_FAILED. A pending read is
     * left waiting and write_pending_ is left as it was.
     */
    method OnWriteFailed()
      modifies this, channel.log
      ensures WriteFailedFrom(old(writeCallback), old(channel.log.events), channel.log.events)
      ensures readCallback == old(readCallback) && readBufferSize == old(readBufferSize)
      ensures writePending == old(writePending) && writeResult == old(writeResult)
    {
      if writeCallback.Some? {
        var cb := writeCallback.value;
        writeCallback := None;
        channel.log.events := channel.log.events + [WriteCallbackRan(cb, ERR_FAILED)];
      }
    }

    /** OnPacketReceived(): a pending read is retried and its callback run with the bytes. */
    method OnPacketReceived()
      requires channel.socket == this && QueueValid(channel.pendingPackets)
      requires readCallback.Some? ==> readBufferSize > 0 && channel.pendingPackets != []
      modifies this, channel`pendingPackets, channel.log
      ensures readCallback.None? && readBufferSize == old(readBufferSize)
      ensures old(readCallback).None? ==>
        unchanged(this) && channel.pendingPackets == old(channel.pendingPackets)
        && channel.log.events == old(channel.log.events)
      ensures old(readCallback).Some? ==>
        var d := DoReadSpec(old(channel.pendingPackets), old(readBufferSize));
        && d.copied != []
        && channel.pendingPackets == d.rest
        && channel.log.events == old(channel.log.events) + DoneTasksRan(d.released)
                                 + [ReadCallbackRan(old(readCallback).value, |d.copied|, d.copied)]
      ensures QueueValid(channel.pendingPackets)
      ensures writePending == old(writePending) && writeCallback == old(writeCallback) && writeResult == old(writeResult)
    {
      if readCallback.Some? {
        ReadLoopYieldsNothingIff(channel.pendingPackets, readBufferSize, 0);
        ReadLoopKeepsQueueValid(channel.pendingPackets, readBufferSize, 0);
        var result, data := channel.DoRead(readBufferSize);
        assert result > 0;
        var cb := readCallback.value;
        readCallback := None;
        channel.log.events := channel.log.events + [ReadCallbackRan(cb, result, data)];
      }
    }

    /** ~MuxSocket(): tells the channel, which may later get a new socket. */
    method Destroy()
      requires Valid()
      modifies channel
      ensures channel.socket == null && channel.Valid()
      ensures channel.pendingPackets == old(channel.pendingPackets) && channel.idSent == old(channel.idSent)
      ensures channel.receiveId == old(channel.receiveId) && channel.sent == old(channel.sent)
    {
      channel.OnSocketDestroyed();
    }
  }

  function Last<T>(s: seq<T>): T
    requires s != []
  {
    s[|s| - 1]
  }
}
