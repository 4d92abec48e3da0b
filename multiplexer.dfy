/**
 * ChannelMultiplexer of remoting/protocol/channel_multiplexer.cc: the channels by
 * name and by receive id, the queue of CreateChannel requests that wait for the
 * base channel, and the tasks the multiplexer posts to its own thread.
 */
module Multiplexer {
  import opened Wrappers
  import opened MuxPackets
  import opened MuxChannels

  /** A CreateChannel request waiting for the base channel. */
  datatype PendingChannel = PendingChannel(name: string, callback: Token)

  /** A task posted to the multiplexer's thread; RunPostedTask runs the oldest. */
  datatype PostedTask = CreatePendingChannels | NotifyWriteFailed(name: string)

  /** The position of the first request for `name` in `queue`; |queue| when there is none. */
  function FirstIndex(queue: seq<PendingChannel>, name: string): (i: nat)
    ensures i <= |queue| && NoneNamedBefore(queue, name, i)
    ensures i < |queue| ==> queue[i].name == name
  {
    if queue == [] || queue[0].name == name then 0
    else
      var j := FirstIndex(queue[1..], name);
      assert forall k :: 1 <= k < 1 + j ==> queue[k] == queue[1..][k - 1];
      1 + j
  }

  /** No request before position `i` is for `name`. */
  predicate NoneNamedBefore(queue: seq<PendingChannel>, name: string, i: int)
    requires 0 <= i <= |queue|
  {
    forall j :: 0 <= j < i ==> queue[j].name != name
  }

  /** `queue` without its first request for `name`; unchanged when there is none. */
  function RemoveFirst(queue: seq<PendingChannel>, name: string): seq<PendingChannel>
  {
    var i := FirstIndex(queue, name);
    if i == |queue| then queue else queue[..i] + queue[i + 1..]
  }

  /**
   * CancelChannelCreation drops exactly one request, the first for `name`, and
   * keeps the others in order; with no request for `name` it drops none.
   */
  lemma RemoveFirstDropsOne(queue: seq<PendingChannel>, name: string)
    ensures var i := FirstIndex(queue, name);
      var r := RemoveFirst(queue, name);
      && (i < |queue| <==> exists k :: 0 <= k < |queue| && queue[k].name == name)
      && (i < |queue| ==>
            && queue[i].name == name
            && |r| == |queue| - 1
            && r == queue[..i] + queue[i + 1..]
            && multiset(r) + multiset{queue[i]} == multiset(queue))
      && (i == |queue| ==> r == queue)
  {
    var i := FirstIndex(queue, name);
    if i < |queue| {
      assert queue == queue[..i] + [queue[i]] + queue[i + 1..];
      assert multiset(queue) == multiset(queue[..i]) + multiset{queue[i]} + multiset(queue[i + 1..]);
    }
  }

  /** The NotifyWriteFailed tasks for the given channel names, in order. */
  function NotifyTasks(names: seq<string>): (r: seq<PostedTask>)
    ensures |r| == |names|
    ensures forall i :: 0 <= i < |names| ==> r[i] == NotifyWriteFailed(names[i])
  {
    if names == [] then [] else [NotifyWriteFailed(names[0])] + NotifyTasks(names[1..])
  }

  /** The sockets of the given channels that have one. */
  ghost function SocketsOf(channels: map<string, MuxChannel>): set<MuxSocket>
    reads channels.Values
  {
    set n | n in channels && channels[n].socket != null :: channels[n].socket
  }

  /**
   * Every channel is valid, is filed under its own name and writes through the
   * multiplexer's writer onto its log; send ids are below next_channel_id_ and
   * each belongs to one name only (`nameBySendId`, so they are distinct); the receive-id map points only at known channels, and every
   * channel with a receive id is found under it.
   */
  ghost predicate ChannelsWellFormed(channels: map<string, MuxChannel>, byReceiveId: map<int, MuxChannel>,
                                     nameBySendId: map<int, string>, nextChannelId: int,
                                     writer: PacketWriter, log: CallbackLog)
    reads channels.Values, SocketsOf(channels)
  {
    && (forall n | n in channels ::
          && channels[n].name == n && channels[n].writer == writer && channels[n].log == log
          && channels[n].Valid() && 0 <= channels[n].sendId < nextChannelId
          && channels[n].sendId in nameBySendId && nameBySendId[channels[n].sendId] == n)
    && (forall id | id in byReceiveId :: byReceiveId[id].name in channels && channels[byReceiveId[id].name] == byReceiveId[id])
    && (forall n | n in channels && channels[n].receiveId != kChannelIdUnknown ::
          channels[n].receiveId in byReceiveId && byReceiveId[channels[n].receiveId] == channels[n])
    && 0 <= nextChannelId
  }

  class ChannelMultiplexer {
    const baseChannelName: string
    const log: CallbackLog
    const writer: PacketWriter
    /** base_channel_factory_ is still set: the base channel has not been reported yet. */
    var hasFactory: bool
    /** base_channel_ is set: the base channel was created successfully. */
    var hasBaseChannel: bool
    var nextChannelId: int
    var channels: map<string, MuxChannel>
    var channelsByReceiveId: map<int, MuxChannel>
    var pendingChannels: seq<PendingChannel>
    var tasks: seq<PostedTask>
    /** The name each send id handed out so far was given to. */
    ghost var nameBySendId: map<int, string>

    /** The sockets of the channels that have one. */
    ghost function Sockets(): set<MuxSocket>
      reads this, channels.Values
    {
      SocketsOf(channels)
    }

    /** The channel maps are well formed; channels exist only once the base channel does. */
    ghost predicate ChannelsValid()
      reads this, channels.Values, Sockets(), writer
    {
      && ChannelsWellFormed(channels, channelsByReceiveId, nameBySendId, nextChannelId, writer, log)
      && (hasBaseChannel <==> writer.initialized)
      && (hasBaseChannel ==> !hasFactory)
      && (!hasBaseChannel ==> channels == map[])
    }

    /**
     * ChannelsValid, and no request is left behind: once the factory is gone a
     * non-empty request queue always has a DoCreatePendingChannels task posted.
     */
    ghost predicate Valid()
      reads this, channels.Values, Sockets(), writer
    {
      && ChannelsValid()
      && (CreatePendingChannels in tasks ==> !hasFactory)
      && (!hasFactory && pendingChannels != [] ==> CreatePendingChannels in tasks)
    }

    /** The front request may be given a socket: DCHECK(!socket_) in CreateSocket. */
    ghost predicate FrontCreatable()
      reads this, channels.Values
    {
      pendingChannels != [] && hasBaseChannel && pendingChannels[0].name in channels ==>
        channels[pendingChannels[0].name].socket == null
    }

    /** Where OnIncomingPacket delivers `packet`: by receive id, else by name, else nowhere. */
    function Route(packet: MultiplexPacket): Option<string>
      reads this
    {
      if packet.channelId.None? then None
      else if packet.channelId.value in channelsByReceiveId then Some(channelsByReceiveId[packet.channelId.value].name)
      else packet.channelName
    }

    /** The pending packets of the channel called `n`; none if there is no such channel. */
    ghost function PendingOf(n: string): seq<PendingPacket>
      reads this, channels.Values
    {
      if n in channels then channels[n].pendingPackets else []
    }

    /** The read the socket of the channel called `n` is waiting on, and its buffer size. */
    ghost function ReadOf(n: string): (Option<Token>, int)
      reads this, channels.Values, Sockets()
    {
      if n in channels then (channels[n].PendingRead(), channels[n].PendingReadSize()) else (None, 0)
    }

    constructor (baseChannelName: string)
      ensures Valid() && fresh(log) && fresh(writer)
      ensures this.baseChannelName == baseChannelName
      ensures hasFactory && !hasBaseChannel && nextChannelId == 0
      ensures channels == map[] && channelsByReceiveId == map[] && pendingChannels == [] && tasks == []
      ensures log.events == [] && writer.written == []
    {
      this.baseChannelName := baseChannelName;
      log := new CallbackLog();
      writer := new PacketWriter();
      hasFactory, hasBaseChannel, nextChannelId := true, false, 0;
      channels, channelsByReceiveId, pendingChannels, tasks := map[], map[], [], [];
      nameBySendId := map[];
    }

    /**
     * GetOrCreateChannel(name): the channel called `name`, created with the next
     * send id if there is none yet.
     */
    method GetOrCreateChannel(name: string) returns (c: MuxChannel)
      requires ChannelsValid() && hasBaseChannel
      modifies this
      ensures ChannelsValid()
      ensures GotOrCreated(old(channels), old(nextChannelId), channels, nextChannelId, name) && c == channels[name]
      ensures name !in old(channels) ==>
        && fresh(c) && c.socket == null && c.receiveId == kChannelIdUnknown && c.pendingPackets == [] && !c.idSent
      ensures hasFactory == old(hasFactory) && hasBaseChannel == old(hasBaseChannel)
      ensures channelsByReceiveId == old(channelsByReceiveId)
      ensures pendingChannels == old(pendingChannels) && tasks == old(tasks)
    {
      if name in channels {
        return channels[name];
      }
      c := new MuxChannel(name, nextChannelId, writer, log);
      nameBySendId := nameBySendId[nextChannelId := name];
      nextChannelId := nextChannelId + 1;
      channels := channels[name := c];
    }

    /**
     * CreateChannel(name, callback): a socket at once when the base channel is up,
     * null at once when it failed, and otherwise a queued request, the first of
     * which asks the factory for the base channel.
     */
    method CreateChannel(name: string, callback: Token)
      requires Valid()
      requires hasBaseChannel && name in channels ==> channels[name].socket == null
      modifies this, channels.Values, log
      ensures Valid()
      ensures hasFactory == old(hasFactory) && hasBaseChannel == old(hasBaseChannel) && tasks == old(tasks)
      ensures channelsByReceiveId == old(channelsByReceiveId)
      ensures old(hasBaseChannel) ==>
        && name in channels && channels[name].socket != null && fresh(channels[name].socket)
        && channels[name].socket.Idle()
        && log.events == old(log.events) + [ChannelCreatedCallbackRan(callback, channels[name].socket)]
        && pendingChannels == old(pendingChannels)
        && GotOrCreated(old(channels), old(nextChannelId), channels, nextChannelId, name)
      ensures !old(hasBaseChannel) && !old(hasFactory) ==>
        && log.events == old(log.events) + [ChannelCreatedCallbackRan(callback, null)]
        && pendingChannels == old(pendingChannels)
      ensures !old(hasBaseChannel) && old(hasFactory) ==>
        && pendingChannels == old(pendingChannels) + [PendingChannel(name, callback)]
        && log.events == old(log.events) + (if old(pendingChannels) == [] then [BaseChannelRequested(baseChannelName)] else [])
      ensures !old(hasBaseChannel) ==> channels == old(channels) && nextChannelId == old(nextChannelId)
      ensures forall n | n in old(channels) && n != name :: Snap(channels[n]) == old(Snap(channels[n]))
    {
      if hasBaseChannel {
        var s := OpenSocket(name, callback);
      } else if !hasFactory {
        log.events := log.events + [ChannelCreatedCallbackRan(callback, null)];
      } else {
        pendingChannels := pendingChannels + [PendingChannel(name, callback)];
        if |pendingChannels| == 1 {
          log.events := log.events + [BaseChannelRequested(baseChannelName)];
        }
      }
    }

    /** CancelChannelCreation(name): drops the first queued request for `name`, if any. */
    method CancelChannelCreation(name: string)
      requires Valid()
      modifies this
      ensures Valid()
      ensures pendingChannels == RemoveFirst(old(pendingChannels), name)
      ensures hasFactory == old(hasFactory) && hasBaseChannel == old(hasBaseChannel) && tasks == old(tasks)
      ensures channels == old(channels) && channelsByReceiveId == old(channelsByReceiveId)
      ensures nextChannelId == old(nextChannelId)
    {
      var queue := pendingChannels;
      var i := 0;
      while i < |queue|
        invariant 0 <= i <= |queue|
        invariant NoneNamedBefore(queue, name, i)
      {
        if queue[i].name == name {
          pendingChannels := queue[..i] + queue[i + 1..];
          return;
        }
        i := i + 1;
      }
    }

    /**
     * OnBaseChannelReady(socket): the factory is forgotten, the writer starts on a
     * base channel that was created, and the queued requests start to be served.
     */
    method OnBaseChannelReady(created: bool)
      requires Valid() && hasFactory
      modifies this, writer, log
      ensures Valid()
      ensures !hasFactory && hasBaseChannel == created
      ensures writer.initialized == created && writer.failed == old(writer.failed) && writer.written == old(writer.written)
      ensures channelsByReceiveId == old(channelsByReceiveId)
      ensures old(pendingChannels) == [] ==>
        pendingChannels == [] && tasks == old(tasks) && log.events == old(log.events) && channels == map[]
      ensures old(pendingChannels) != [] ==>
        var c := old(pendingChannels)[0];
        && pendingChannels == old(pendingChannels)[1..]
        && tasks == old(tasks) + [CreatePendingChannels]
        && (created ==>
              && channels.Keys == {c.name} && channels[c.name].sendId == old(nextChannelId)
              && channels[c.name].socket != null && fresh(channels[c.name].socket)
              && log.events == old(log.events) + [ChannelCreatedCallbackRan(c.callback, channels[c.name].socket)])
        && (!created ==> channels == map[] && log.events == old(log.events) + [ChannelCreatedCallbackRan(c.callback, null)])
    {
      hasFactory := false;
      hasBaseChannel := created;
      if created {
        writer.Init();
      }
      DoCreatePendingChannels();
    }

    /**
     * DoCreatePendingChannels(): serves the oldest queued request, with a socket
     * if the base channel is up and with null otherwise, after posting itself
     * again for the rest of the queue.
     */
    method DoCreatePendingChannels()
      requires ChannelsValid() && !hasFactory && FrontCreatable()
      modifies this, channels.Values, log
      ensures Valid()
      ensures hasFactory == old(hasFactory) && hasBaseChannel == old(hasBaseChannel)
      ensures channelsByReceiveId == old(channelsByReceiveId)
      ensures old(pendingChannels) == [] ==>
        pendingChannels == [] && tasks == old(tasks) && log.events == old(log.events)
        && channels == old(channels) && nextChannelId == old(nextChannelId)
      ensures old(pendingChannels) != [] ==>
        var c := old(pendingChannels)[0];
        && pendingChannels == old(pendingChannels)[1..]
        && tasks == old(tasks) + [CreatePendingChannels]
        && (hasBaseChannel ==>
              && c.name in channels && channels[c.name].socket != null && fresh(channels[c.name].socket)
              && channels[c.name].socket.Idle()
              && log.events == old(log.events) + [ChannelCreatedCallbackRan(c.callback, channels[c.name].socket)]
              && GotOrCreated(old(channels), old(nextChannelId), channels, nextChannelId, c.name))
        && (!hasBaseChannel ==>
              channels == old(channels) && log.events == old(log.events) + [ChannelCreatedCallbackRan(c.callback, null)])
      ensures forall n | n in old(channels) && (old(pendingChannels) == [] || n != old(pendingChannels)[0].name) ::
        Snap(channels[n]) == old(Snap(channels[n]))
    {
      if pendingChannels == [] {
        return;
      }
      tasks := tasks + [CreatePendingChannels];
      var c := pendingChannels[0];
      pendingChannels := pendingChannels[1..];
      ServeRequest(c);
    }

    /**
     * Runs the callback of one queued request with a socket on its channel if the
     * base channel is up, and with null otherwise.
     */
    method ServeRequest(c: PendingChannel)
      requires ChannelsValid() && !hasFactory
      requires hasBaseChannel ==> c.name !in channels || channels[c.name].socket == null
      modifies this, channels.Values, log
      ensures ChannelsValid()
      ensures hasFactory == old(hasFactory) && hasBaseChannel == old(hasBaseChannel)
      ensures channelsByReceiveId == old(channelsByReceiveId)
      ensures pendingChannels == old(pendingChannels) && tasks == old(tasks)
      ensures hasBaseChannel ==>
        && c.name in channels && channels[c.name].socket != null && fresh(channels[c.name].socket)
        && channels[c.name].socket.Idle()
        && log.events == old(log.events) + [ChannelCreatedCallbackRan(c.callback, channels[c.name].socket)]
        && GotOrCreated(old(channels), old(nextChannelId), channels, nextChannelId, c.name)
      ensures !hasBaseChannel ==>
        channels == old(channels) && nextChannelId == old(nextChannelId)
        && log.events == old(log.events) + [ChannelCreatedCallbackRan(c.callback, null)]
      ensures forall n | n in old(channels) && n != c.name :: Snap(channels[n]) == old(Snap(channels[n]))
    {
      if hasBaseChannel {
        var socket := OpenSocket(c.name, c.callback);
      } else {
        log.events := log.events + [ChannelCreatedCallbackRan(c.callback, null)];
      }
    }

    /** NotifyWriteFailed(name): the channel called `name`, if any, fails its pending write. */
    method NotifyWriteFailed(name: string)
      requires ChannelsValid()
      modifies Sockets(), log
      ensures ChannelsValid()
      ensures name in channels && channels[name].socket != null ==>
        channels[name].socket.WriteFailedFrom(old(channels[name].socket.writeCallback), old(log.events), log.events)
      ensures !(name in channels && channels[name].socket != null) ==> log.events == old(log.events)
      ensures name in channels ==> Snap(channels[name]) == old(Snap(channels[name])).(writeCallback := None)
      ensures forall n | n in channels && n != name :: Snap(channels[n]) == old(Snap(channels[n]))
    {
      if name in channels {
        channels[name].OnWriteFailed();
      }
    }

    /**
     * OnWriteFailed(error): posts one NotifyWriteFailed task per channel, in the
     * map's iteration order (see Enumerate), which is given back as `order`.
     */
    method OnWriteFailed() returns (ghost order: seq<string>)
      requires Valid()
      modifies this, writer
      ensures Valid()
      ensures writer.failed && writer.initialized == old(writer.initialized) && writer.written == old(writer.written)
      ensures tasks == old(tasks) + NotifyTasks(order)
      ensures |order| == |channels| && (forall n :: n in order <==> n in channels)
      ensures channels == old(channels) && channelsByReceiveId == old(channelsByReceiveId)
      ensures pendingChannels == old(pendingChannels)
      ensures hasFactory == old(hasFactory) && hasBaseChannel == old(hasBaseChannel)
      ensures nextChannelId == old(nextChannelId)
    {
      writer.Fail();
      var names := Enumerate(channels.Keys);
      tasks := tasks + NotifyTasks(names);
      order := names;
    }

    /**
     * Runs the oldest posted task. The multiplexer is alive throughout, so the
     * weak pointer each task was bound to is always valid.
     */
    method RunPostedTask()
      requires Valid() && tasks != []
      requires tasks[0] == CreatePendingChannels ==> FrontCreatable()
      modifies this, channels.Values, Sockets(), log
      ensures Valid()
      ensures old(tasks[0]).CreatePendingChannels? ==>
        && pendingChannels == (if old(pendingChannels) == [] then [] else old(pendingChannels)[1..])
        && tasks == old(tasks[1..]) + (if old(pendingChannels) == [] then [] else [CreatePendingChannels])
      ensures old(tasks[0]).CreatePendingChannels? && old(pendingChannels) == [] ==>
        channels == old(channels) && log.events == old(log.events)
      ensures old(tasks[0]).CreatePendingChannels? && old(pendingChannels) != [] ==>
        var c := old(pendingChannels)[0];
        && (hasBaseChannel ==>
              && c.name in channels && channels[c.name].socket != null && fresh(channels[c.name].socket)
              && log.events == old(log.events) + [ChannelCreatedCallbackRan(c.callback, channels[c.name].socket)]
              && GotOrCreated(old(channels), old(nextChannelId), channels, nextChannelId, c.name))
        && (!hasBaseChannel ==>
              channels == old(channels) && log.events == old(log.events) + [ChannelCreatedCallbackRan(c.callback, null)])
      ensures old(tasks[0]).CreatePendingChannels? ==>
        forall n | n in old(channels) && (old(pendingChannels) == [] || n != old(pendingChannels)[0].name) ::
          Snap(channels[n]) == old(Snap(channels[n]))
      ensures old(tasks[0]).NotifyWriteFailed? ==>
        && tasks == old(tasks[1..]) && pendingChannels == old(pendingChannels) && channels == old(channels)
      ensures old(tasks[0]).NotifyWriteFailed? ==>
        var name := old(tasks[0]).name;
        && (name in channels ==> Snap(channels[name]) == old(Snap(channels[name])).(writeCallback := None))
        && (name in channels && old(channels[name].socket) != null ==>
              channels[name].socket.WriteFailedFrom(old(channels[name].socket.writeCallback), old(log.events), log.events))
        && (!(name in channels && old(channels[name].socket) != null) ==> log.events == old(log.events))
        && (forall n | n in channels && n != name :: Snap(channels[n]) == old(Snap(channels[n])))
      ensures channelsByReceiveId == old(channelsByReceiveId)
      ensures hasFactory == old(hasFactory) && hasBaseChannel == old(hasBaseChannel)
    {
      match tasks[0] {
        case CreatePendingChannels =>
          RunCreatePendingChannels();
        case NotifyWriteFailed(n) =>
          RunNotifyWriteFailed(n);
      }
    }

    /** Runs a posted DoCreatePendingChannels task. */
    method RunCreatePendingChannels()
      requires Valid() && tasks != [] && tasks[0] == CreatePendingChannels && FrontCreatable()
      modifies this, channels.Values, log
      ensures Valid()
      ensures pendingChannels == (if old(pendingChannels) == [] then [] else old(pendingChannels)[1..])
      ensures tasks == old(tasks[1..]) + (if old(pendingChannels) == [] then [] else [CreatePendingChannels])
      ensures old(pendingChannels) == [] ==> channels == old(channels) && log.events == old(log.events)
      ensures old(pendingChannels) != [] ==>
        var c := old(pendingChannels)[0];
        && (hasBaseChannel ==>
              && c.name in channels && channels[c.name].socket != null && fresh(channels[c.name].socket)
              && log.events == old(log.events) + [ChannelCreatedCallbackRan(c.callback, channels[c.name].socket)]
              && GotOrCreated(old(channels), old(nextChannelId), channels, nextChannelId, c.name))
        && (!hasBaseChannel ==>
              channels == old(channels) && log.events == old(log.events) + [ChannelCreatedCallbackRan(c.callback, null)])
      ensures forall n | n in old(channels) && (old(pendingChannels) == [] || n != old(pendingChannels)[0].name) ::
        Snap(channels[n]) == old(Snap(channels[n]))
      ensures channelsByReceiveId == old(channelsByReceiveId)
      ensures hasFactory == old(hasFactory) && hasBaseChannel == old(hasBaseChannel)
    {
      tasks := tasks[1..];
      DoCreatePendingChannels();
    }

    /** Runs a posted NotifyWriteFailed(name) task. */
    method RunNotifyWriteFailed(name: string)
      requires Valid() && tasks != [] && tasks[0] == PostedTask.NotifyWriteFailed(name)
      modifies this, Sockets(), log
      ensures Valid()
      ensures tasks == old(tasks[1..]) && pendingChannels == old(pendingChannels) && channels == old(channels)
      ensures name in channels ==> Snap(channels[name]) == old(Snap(channels[name])).(writeCallback := None)
      ensures name in channels && old(channels[name].socket) != null ==>
        channels[name].socket.WriteFailedFrom(old(channels[name].socket.writeCallback), old(log.events), log.events)
      ensures !(name in channels && old(channels[name].socket) != null) ==> log.events == old(log.events)
      ensures forall n | n in channels && n != name :: Snap(channels[n]) == old(Snap(channels[n]))
      ensures channelsByReceiveId == old(channelsByReceiveId)
      ensures hasFactory == old(hasFactory) && hasBaseChannel == old(hasBaseChannel)
    {
      tasks := tasks[1..];
      NotifyWriteFailed(name);
    }

    /**
     * OnIncomingPacket(packet, done_task): a packet without a channel id, or with
     * an unknown one and no channel name, is dropped and its done_task run.
     * Otherwise the packet goes to the channel known under its receive id or, the
     * first time, to the channel called by its name, which is then filed under
     * that receive id.
     */
    method OnIncomingPacket(packet: MultiplexPacket, doneTask: Token)
      requires Valid() && hasBaseChannel
      modifies this, channels.Values, Sockets(), log
      ensures Valid()
      ensures old(Route(packet)).None? ==>
        && log.events == old(log.events) + [DoneTaskRan(doneTask)]
        && channels == old(channels) && channelsByReceiveId == old(channelsByReceiveId)
      ensures old(Route(packet)).Some? ==>
        var n := old(Route(packet)).value;
        var id := packet.channelId.value;
        && n in channels
        && Delivered(packet, doneTask, old(PendingOf(n)), old(ReadOf(n)).0, old(ReadOf(n)).1,
                     old(log.events), channels[n].pendingPackets, log.events)
        && GotOrCreated(old(channels), old(nextChannelId), channels, nextChannelId, n)
        && (id in old(channelsByReceiveId) ==> channelsByReceiveId == old(channelsByReceiveId))
        && (id !in old(channelsByReceiveId) ==>
              channelsByReceiveId == old(channelsByReceiveId)[id := channels[n]] && channels[n].receiveId == id)
      ensures pendingChannels == old(pendingChannels) && tasks == old(tasks)
      ensures hasFactory == old(hasFactory) && hasBaseChannel == old(hasBaseChannel)
      ensures forall n | n in old(channels) && Some(n) != old(Route(packet)) :: Snap(channels[n]) == old(Snap(channels[n]))
    {
      if packet.channelId.None? {
        log.events := log.events + [DoneTaskRan(doneTask)];
        return;
      }
      var id := packet.channelId.value;
      var name: string;
      if id in channelsByReceiveId {
        name := channelsByReceiveId[id].name;
      } else {
        if packet.channelName.None? {
          log.events := log.events + [DoneTaskRan(doneTask)];
          return;
        }
        name := packet.channelName.value;
      }
      Receive(id, name, packet, doneTask);
    }

    /**
     * The routed half of OnIncomingPacket: the channel called `name` is filed
     * under the receive id `id` if that id is new, then handed the packet.
     */
    method Receive(id: int, name: string, packet: MultiplexPacket, doneTask: Token)
      requires Valid() && hasBaseChannel
      requires id in channelsByReceiveId ==> channelsByReceiveId[id].name == name
      modifies this, channels.Values, Sockets(), log
      ensures Valid() && name in channels
      ensures Delivered(packet, doneTask, old(PendingOf(name)), old(ReadOf(name)).0, old(ReadOf(name)).1,
                        old(log.events), channels[name].pendingPackets, log.events)
      ensures GotOrCreated(old(channels), old(nextChannelId), channels, nextChannelId, name)
      ensures id in old(channelsByReceiveId) ==> channelsByReceiveId == old(channelsByReceiveId)
      ensures id !in old(channelsByReceiveId) ==>
        channelsByReceiveId == old(channelsByReceiveId)[id := channels[name]] && channels[name].receiveId == id
      ensures pendingChannels == old(pendingChannels) && tasks == old(tasks)
      ensures hasFactory == old(hasFactory) && hasBaseChannel == old(hasBaseChannel)
      ensures forall n | n in old(channels) && n != name :: Snap(channels[n]) == old(Snap(channels[n]))
    {
      if id !in channelsByReceiveId {
        BindReceiveId(id, name);
      }
      assert channels[name].socket == null || channels[name].socket in old(Sockets());
      assert channels[name] in old(channels.Values) || fresh(channels[name]);
      DeliverTo(name, packet, doneTask);
    }

    /** callback.Run(GetOrCreateChannel(name)->CreateSocket()). */
    method OpenSocket(name: string, callback: Token) returns (s: MuxSocket)
      requires ChannelsValid() && hasBaseChannel
      requires name in channels ==> channels[name].socket == null
      modifies this, channels.Values, log
      ensures ChannelsValid()
      ensures name in channels && channels[name].socket == s && fresh(s) && s.Idle()
      ensures log.events == old(log.events) + [ChannelCreatedCallbackRan(callback, s)]
      ensures GotOrCreated(old(channels), old(nextChannelId), channels, nextChannelId, name)
      ensures forall n | n in old(channels) && n != name :: Snap(channels[n]) == old(Snap(channels[n]))
      ensures hasFactory == old(hasFactory) && hasBaseChannel == old(hasBaseChannel)
      ensures channelsByReceiveId == old(channelsByReceiveId)
      ensures pendingChannels == old(pendingChannels) && tasks == old(tasks)
    {
      var c := GetOrCreateChannel(name);
      s := CreateSocketOn(name, callback);
    }

    /** callback.Run(CreateSocket()) on the channel called `name`. */
    method CreateSocketOn(name: string, callback: Token) returns (s: MuxSocket)
      requires ChannelsValid() && name in channels && channels[name].socket == null
      modifies channels[name], log
      ensures ChannelsValid() && fresh(s) && channels[name].socket == s && s.Idle()
      ensures log.events == old(log.events) + [ChannelCreatedCallbackRan(callback, s)]
      ensures forall n | n in channels && n != name :: Snap(channels[n]) == old(Snap(channels[n]))
    {
      forall n | n in channels && n != name {
        ChannelsApart(this, n, name);
      }
      s := channels[name].CreateSocket();
      log.events := log.events + [ChannelCreatedCallbackRan(callback, s)];
    }

    /**
     * The channel called `name`, found or created, is filed under the receive id
     * `id` it has just been seen with.
     */
    method BindReceiveId(id: int, name: string)
      requires ChannelsValid() && hasBaseChannel && id !in channelsByReceiveId
      modifies this, channels.Values
      ensures ChannelsValid() && name in channels
      ensures channels[name].receiveId == id && channelsByReceiveId == old(channelsByReceiveId)[id := channels[name]]
      ensures GotOrCreated(old(channels), old(nextChannelId), channels, nextChannelId, name)
      ensures PendingOf(name) == old(PendingOf(name)) && ReadOf(name) == old(ReadOf(name))
      ensures name in old(channels) ==> channels[name].socket == old(channels[name].socket)
      ensures name !in old(channels) ==> channels[name].socket == null && fresh(channels[name])
      ensures hasFactory == old(hasFactory) && hasBaseChannel == old(hasBaseChannel)
      ensures pendingChannels == old(pendingChannels) && tasks == old(tasks)
      ensures forall n | n in old(channels) && n != name :: Snap(channels[n]) == old(Snap(channels[n]))
    {
      var channel := GetOrCreateChannel(name);
      FileUnderReceiveId(id, name);
    }

    /** set_receive_id(id) on the channel called `name`, which is filed under `id`. */
    method FileUnderReceiveId(id: int, name: string)
      requires ChannelsValid() && name in channels && id !in channelsByReceiveId
      modifies this, channels[name]
      ensures ChannelsValid()
      ensures channels == old(channels) && nextChannelId == old(nextChannelId)
      ensures channels[name].receiveId == id && channelsByReceiveId == old(channelsByReceiveId)[id := channels[name]]
      ensures PendingOf(name) == old(PendingOf(name)) && ReadOf(name) == old(ReadOf(name))
      ensures channels[name].socket == old(channels[name].socket)
      ensures hasFactory == old(hasFactory) && hasBaseChannel == old(hasBaseChannel)
      ensures pendingChannels == old(pendingChannels) && tasks == old(tasks)
      ensures forall n | n in channels && n != name :: Snap(channels[n]) == old(Snap(channels[n]))
    {
      forall n | n in channels && n != name {
        ChannelsApart(this, n, name);
      }
      channels[name].SetReceiveId(id);
      channelsByReceiveId := channelsByReceiveId[id := channels[name]];
    }

    /** MuxChannel::OnIncomingPacket on the channel called `name`. */
    method DeliverTo(name: string, packet: MultiplexPacket, doneTask: Token)
      requires ChannelsValid() && name in channels
      modifies channels[name], channels[name].socket, log
      ensures ChannelsValid()
      ensures Delivered(packet, doneTask, old(PendingOf(name)), old(ReadOf(name)).0, old(ReadOf(name)).1,
                        old(log.events), channels[name].pendingPackets, log.events)
      ensures channels[name].receiveId == old(channels[name].receiveId)
      ensures forall n | n in channels && n != name :: Snap(channels[n]) == old(Snap(channels[n]))
    {
      forall n | n in channels && n != name {
        ChannelsApart(this, n, name);
      }
      channels[name].OnIncomingPacket(packet, doneTask);
    }
  }

  /**
   * `after` is `before` once the channel called `name` has been looked up and,
   * if missing, created with the next send id.
   */
  ghost predicate GotOrCreated(before: map<string, MuxChannel>, nextBefore: int,
                               after: map<string, MuxChannel>, nextAfter: int, name: string)
  {
    && name in after && after == before[name := after[name]]
    && (name in before ==> after[name] == before[name] && nextAfter == nextBefore)
    && (name !in before ==> after[name].sendId == nextBefore && nextAfter == nextBefore + 1)
  }

  /** The keys of a std::map in its iteration order, which this model leaves open. */
  method Enumerate(keys: set<string>) returns (order: seq<string>)
    ensures |order| == |keys| && forall n :: n in order <==> n in keys
  {
    var rest := keys;
    ghost var done: set<string> := {};
    order := [];
    while rest != {}
      invariant rest !! done && rest + done == keys
      invariant |order| == |done| && forall n :: n in order <==> n in done
      decreases |rest|
    {
      var n :| n in rest;
      order := order + [n];
      done := done + {n};
      rest := rest - {n};
    }
  }

  /** No two channels share a send id. */
  lemma SendIdsDistinct(m: ChannelMultiplexer, n1: string, n2: string)
    requires m.ChannelsValid() && n1 in m.channels && n2 in m.channels && n1 != n2
    ensures m.channels[n1].sendId != m.channels[n2].sendId
  {
  }

  /**
   * Two channels of a multiplexer are different objects with different sockets,
   * so an operation on one leaves the other alone.
   */
  lemma ChannelsApart(m: ChannelMultiplexer, a: string, b: string)
    requires m.ChannelsValid() && a in m.channels && b in m.channels && a != b
    ensures m.channels[a] != m.channels[b]
    ensures m.channels[a].socket == null || m.channels[a].socket != m.channels[b].socket
  {
  }

  lemma NotifyTasksAppend(names: seq<string>, n: string)
    ensures NotifyTasks(names + [n]) == NotifyTasks(names) + [NotifyWriteFailed(n)]
  {
  }
}
