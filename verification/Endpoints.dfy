/** The program's two endpoint classes. Their methods are proved to do what module Protocol prescribes, so
    the theorems about runs of a link hold of them. The socket is the list of packets written to it while it
    is connected; signals are the list of signals emitted. */
module Endpoints {
  import opened Bits
  import opened Numbers
  import opened Tracking
  import opened Protocol

  const RECONNECT_SCHEDULE_MS: seq<int> := [1000, 2000, 4000, 8000, 16000, 32000]
  const HEARTBEAT_TIMEOUT_MS: int := 15000

  /** The wait before the k-th reconnect attempt in a row. */
  function ReconnectDelayMs(attempt: nat): (ms: int)
    ensures 1000 <= ms <= 32000
  {
    RECONNECT_SCHEDULE_MS[Min(attempt, 5)]
  }

  /** The wait doubles with each attempt in a row until it reaches 32 s. */
  lemma {:induction false} ReconnectDelayDoubles(attempt: nat)
    ensures ReconnectDelayMs(0) == 1000
    ensures ReconnectDelayMs(attempt + 1) == Min(2 * ReconnectDelayMs(attempt), 32000)
  {
    assert attempt == 0 || attempt == 1 || attempt == 2 || attempt == 3 || attempt == 4 || attempt >= 5;
  }

  /** Client/networktransportstate.cpp. */
  class NetworkTransportState<B> {
    var buffer: seq<Byte>
    var trackedPackets: Table<Packet<B>>
    var nextOutgoingSeq: nat
    var lastIncomingSeq: nat
    var lastPongAtMs: int
    var manualDisconnect: bool
    var reconnectEnabled: bool
    var reconnectAttempt: nat

    constructor ()
      ensures State() == NewEndpoint() && buffer == [] && CanReconnect()
    {
      buffer, trackedPackets, nextOutgoingSeq, lastIncomingSeq := [], map[], 0, 0;
      lastPongAtMs, manualDisconnect, reconnectEnabled, reconnectAttempt := 0, false, true, 0;
    }

    function State(): Endpoint<B>
      reads this
    {
      Endpoint(nextOutgoingSeq, lastIncomingSeq, trackedPackets)
    }

    predicate CanReconnect()
      reads this
    {
      reconnectEnabled && !manualDisconnect
    }

    method StartConnection()
      modifies this
      ensures State() == NewEndpoint() && buffer == [] && lastPongAtMs == 0 && CanReconnect() && reconnectAttempt == 0
    {
      manualDisconnect := false;
      reconnectEnabled := true;
      reconnectAttempt := 0;
      buffer := [];
      trackedPackets := map[];
      nextOutgoingSeq := 0;
      lastIncomingSeq := 0;
      lastPongAtMs := 0;
    }

    /** Forgets what was pending but keeps both counters. */
    method PrepareDisconnect()
      modifies this
      ensures State() == old(State()).(tracked := map[]) && buffer == [] && manualDisconnect && !reconnectEnabled
      ensures reconnectAttempt == old(reconnectAttempt) && lastPongAtMs == old(lastPongAtMs)
    {
      manualDisconnect := true;
      reconnectEnabled := false;
      trackedPackets := map[];
      buffer := [];
    }

    method ConsumeManualDisconnect() returns (manual: bool)
      modifies this`manualDisconnect
      ensures manual == old(manualDisconnect) && !manualDisconnect
    {
      if !manualDisconnect {
        return false;
      }
      manualDisconnect := false;
      manual := true;
    }

    method ScheduleReconnect() returns (delayMs: int)
      modifies this`reconnectAttempt
      ensures old(CanReconnect()) ==>
        delayMs == ReconnectDelayMs(old(reconnectAttempt)) && reconnectAttempt == old(reconnectAttempt) + 1
      ensures !old(CanReconnect()) ==> delayMs == -1 && reconnectAttempt == old(reconnectAttempt)
    {
      if !CanReconnect() {
        return -1;
      }
      var index := Min(reconnectAttempt, |RECONNECT_SCHEDULE_MS| - 1);
      delayMs := RECONNECT_SCHEDULE_MS[index];
      reconnectAttempt := reconnectAttempt + 1;
    }

    method MarkConnected(nowMs: int)
      modifies this`reconnectAttempt, this`lastPongAtMs
      ensures reconnectAttempt == 0 && lastPongAtMs == nowMs
    {
      reconnectAttempt := 0;
      lastPongAtMs := nowMs;
    }

    method MarkPongReceived(nowMs: int)
      modifies this`lastPongAtMs
      ensures lastPongAtMs == nowMs
    {
      lastPongAtMs := nowMs;
    }

    predicate IsHeartbeatExpired(nowMs: int)
      reads this
    {
      lastPongAtMs > 0 && nowMs - lastPongAtMs > HEARTBEAT_TIMEOUT_MS
    }

    method NextOutgoingSequence() returns (num: nat)
      modifies this`nextOutgoingSeq
      ensures num == nextOutgoingSeq == NextSeq(old(nextOutgoingSeq))
    {
      nextOutgoingSeq := (nextOutgoingSeq + 1) % TWO_32;
      num := nextOutgoingSeq;
    }

    predicate IsDuplicateIncomingSequence(num: nat)
      reads this
    {
      num > 0 && num <= lastIncomingSeq
    }

    method MarkIncomingSequence(num: nat)
      modifies this`lastIncomingSeq
      ensures lastIncomingSeq == if num > old(lastIncomingSeq) then num else old(lastIncomingSeq)
    {
      if num > lastIncomingSeq {
        lastIncomingSeq := num;
      }
    }

    method TrackTrackedPacket(id: string, packet: Packet<B>, nowMs: int)
      modifies this`trackedPackets
      ensures trackedPackets == old(trackedPackets)[id := NewlyTracked(packet, nowMs)]
    {
      trackedPackets := trackedPackets[id := Tracked(packet, 0, nowMs + RETRY_SCHEDULE_MS[0])];
    }

    method AcknowledgeTrackedPacket(id: string)
      modifies this`trackedPackets
      ensures trackedPackets == old(trackedPackets) - {id}
    {
      trackedPackets := trackedPackets - {id};
    }

    method CollectTrackedRetryActions(nowMs: int)
      returns (resendPackets: seq<Packet<B>>, droppedMessageIds: seq<string>, ghost order: seq<string>)
      modifies this`trackedPackets
      ensures trackedPackets == Poll(old(trackedPackets), nowMs)
      ensures Enumerates(order, Resent(old(trackedPackets), nowMs))
      ensures Enumerates(droppedMessageIds, Dropped(old(trackedPackets), nowMs))
      ensures (forall id | id in order :: id in old(trackedPackets))
        && resendPackets == Payloads(old(trackedPackets), order)
    {
      trackedPackets, resendPackets, droppedMessageIds, order := CollectRetryActions(trackedPackets, nowMs);
    }

    function PendingTrackedCount(): nat
      reads this
    {
      |trackedPackets|
    }
  }

  /** Client/networkclient.cpp, without the connect and reconnect timers. */
  class NetworkClient<B> {
    const transportState: NetworkTransportState<B>
    var connected: bool
    var written: seq<Packet<B>>
    var dispatched: seq<Packet<B>>
    var droppedIds: seq<string>

    constructor ()
      ensures fresh(transportState) && transportState.State() == NewEndpoint()
      ensures connected && written == [] && dispatched == [] && droppedIds == []
    {
      transportState := new NetworkTransportState();
      connected, written, dispatched, droppedIds := true, [], [], [];
    }

    method SendPlain(packet: Packet<B>)
      modifies this`written
      ensures written == if connected then old(written) + [packet] else old(written)
    {
      if connected {
        written := written + [packet];
      }
    }

    /** `uuid` is the new id used when the packet has none. */
    method SendTracked(packetId: string, body: B, uuid: string, nowMs: int) returns (id: string)
      modifies this`written, transportState
      ensures id == if packetId == "" then uuid else packetId
      ensures transportState.State() == AfterSendTracked(old(transportState.State()), id, body, nowMs)
      ensures written == old(written) + if connected then [Stamped(old(transportState.State()), id, body)] else []
      ensures transportState.lastPongAtMs == old(transportState.lastPongAtMs)
    {
      id := packetId;
      if id == "" {
        id := uuid;
      }
      var num := transportState.NextOutgoingSequence();
      var packet := Data(id, num, body);
      transportState.TrackTrackedPacket(id, packet, nowMs);
      SendPlain(packet);
    }

    method SendAck(id: string, num: nat)
      modifies this`written
      ensures written == old(written) + if connected then AckFor(id, num) else []
    {
      if id == "" {
        return;
      }
      SendPlain(Ack(id, num));
    }

    method ProcessPacket(packet: Packet<B>, nowMs: int)
      modifies this`written, this`dispatched, transportState
      ensures var r := Receive(old(transportState.State()), packet);
        && transportState.State() == r.after
        && written == old(written) + (if connected then r.replies else [])
        && dispatched == old(dispatched) + r.dispatched
      ensures transportState.lastPongAtMs == if packet.Pong? then nowMs else old(transportState.lastPongAtMs)
    {
      if packet.Ack? {
        transportState.AcknowledgeTrackedPacket(packet.id);
        return;
      }
      if packet.Pong? {
        transportState.MarkPongReceived(nowMs);
        return;
      }
      if packet.Ping? {
        SendPlain(Pong);
        return;
      }
      var num := ReadSeq(packet.num);
      if num > 0 {
        var id := packet.id;
        if transportState.IsDuplicateIncomingSequence(num) {
          SendAck(id, num);
          return;
        }
        transportState.MarkIncomingSequence(num);
        SendAck(id, num);
      }
      dispatched := dispatched + [packet];
    }

    /** Resends what is due and gives up what was resent five times; the connection is dropped when no pong
        came for more than 15 s. */
    method RetryPendingMessages(nowMs: int) returns (ghost order: seq<string>, ghost drops: seq<string>)
      modifies this, transportState
      ensures var before := old(transportState.State());
        && Enumerates(order, Resent(before.tracked, nowMs))
        && transportState.State() == before.(tracked := Poll(before.tracked, nowMs))
        && written == old(written) + (if old(connected) then Payloads(before.tracked, order) else [])
      ensures Enumerates(drops, Dropped(old(transportState.trackedPackets), nowMs))
        && droppedIds == old(droppedIds) + drops
      ensures var lastPong := old(transportState.lastPongAtMs);
        connected <==> old(connected) && !(lastPong > 0 && nowMs - lastPong > 15000)
      ensures dispatched == old(dispatched)
    {
      hide Poll, Judge, Resent, Dropped, Enumerates, Payloads;
      var resendPackets, droppedMessageIds;
      resendPackets, droppedMessageIds, order := transportState.CollectTrackedRetryActions(nowMs);
      drops := droppedMessageIds;
      droppedIds := droppedIds + droppedMessageIds;
      for i := 0 to |resendPackets|
        modifies this`written
        invariant written == old(written) + if connected then resendPackets[..i] else []
      {
        SendPlain(resendPackets[i]);
      }
      assert resendPackets[..|resendPackets|] == resendPackets;
      if connected && transportState.IsHeartbeatExpired(nowMs) {
        connected := false;
      }
    }
  }

  datatype Signal<B> = PacketReceived(packet: Packet<B>) | TrackedPacketAcknowledged(packet: Packet<B>) | Closed

  function SignalsOf<B>(r: Reaction<B>): seq<Signal<B>> {
    Received(r.dispatched) + Acknowledged(r.acknowledged)
  }

  function Received<B>(ps: seq<Packet<B>>): seq<Signal<B>> {
    seq(|ps|, i requires 0 <= i < |ps| => PacketReceived(ps[i]))
  }

  function Acknowledged<B>(ps: seq<Packet<B>>): seq<Signal<B>> {
    seq(|ps|, i requires 0 <= i < |ps| => TrackedPacketAcknowledged(ps[i]))
  }

  /** Server/connection.cpp. */
  class Connection<B> {
    var connected: bool
    var trackedMessages: Table<Packet<B>>
    var nextOutgoingSeq: nat
    var lastIncomingSeq: nat
    var lastPongAtMs: int
    var closedNotified: bool
    var written: seq<Packet<B>>
    var emitted: seq<Signal<B>>

    constructor (nowMs: int)
      ensures State() == NewEndpoint() && connected && !closedNotified && written == [] && emitted == []
        && lastPongAtMs == nowMs
      ensures Valid()
    {
      connected, trackedMessages, nextOutgoingSeq, lastIncomingSeq := true, map[], 0, 0;
      lastPongAtMs, closedNotified, written, emitted := nowMs, false, [], [];
    }

    /** `closed` is emitted at most once, when `closedNotified` is set. */
    ghost predicate Valid()
      reads this
    {
      && (closedNotified <==> Closed in emitted)
      && forall i, j :: 0 <= i < j < |emitted| ==> emitted[i] != Closed || emitted[j] != Closed
    }

    function State(): Endpoint<B>
      reads this
    {
      Endpoint(nextOutgoingSeq, lastIncomingSeq, trackedMessages)
    }

    method SendPlain(packet: Packet<B>)
      modifies this`written
      ensures written == if connected then old(written) + [packet] else old(written)
    {
      if !connected {
        return;
      }
      written := written + [packet];
    }

    /** `uuid` is the new id used when the packet has none. */
    method SendTracked(packetId: string, body: B, uuid: string, nowMs: int)
      modifies this`written, this`nextOutgoingSeq, this`trackedMessages
      ensures var id := if packetId == "" then uuid else packetId;
        && State() == AfterSendTracked(old(State()), id, body, nowMs)
        && written == old(written) + if connected then [Stamped(old(State()), id, body)] else []
    {
      var messageId := packetId;
      if messageId == "" {
        messageId := uuid;
      }
      nextOutgoingSeq := (nextOutgoingSeq + 1) % TWO_32;
      var packet := Data(messageId, nextOutgoingSeq, body);
      trackedMessages := trackedMessages[messageId := Tracked(packet, 0, nowMs + RETRY_SCHEDULE_MS[0])];
      SendPlain(packet);
    }

    method SendAck(messageId: string, num: nat)
      modifies this`written
      ensures written == old(written) + if connected then AckFor(messageId, num) else []
    {
      if messageId == "" {
        return;
      }
      SendPlain(Ack(messageId, num));
    }

    method ProcessIncomingPacket(packet: Packet<B>, nowMs: int)
      requires Valid()
      modifies this`written, this`emitted, this`lastIncomingSeq, this`trackedMessages, this`lastPongAtMs
      ensures Valid()
      ensures var r := Receive(old(State()), packet);
        && State() == r.after
        && written == old(written) + (if connected then r.replies else [])
        && emitted == old(emitted) + SignalsOf(r)
      ensures lastPongAtMs == if packet.Pong? then nowMs else old(lastPongAtMs)
    {
      if packet.Ack? {
        if packet.id in trackedMessages {
          emitted := emitted + [TrackedPacketAcknowledged(trackedMessages[packet.id].payload)];
          trackedMessages := trackedMessages - {packet.id};
        }
        return;
      }
      if packet.Pong? {
        lastPongAtMs := nowMs;
        return;
      }
      if packet.Ping? {
        SendPlain(Pong);
        return;
      }
      var num := ReadSeq(packet.num);
      if num > 0 {
        var id := packet.id;
        if num <= lastIncomingSeq {
          SendAck(id, num);
          return;
        }
        lastIncomingSeq := num;
        SendAck(id, num);
      }
      emitted := emitted + [PacketReceived(packet)];
    }

    method NotifyClosedOnce()
      requires Valid()
      modifies this`closedNotified, this`emitted
      ensures Valid() && closedNotified
      ensures emitted == if old(closedNotified) then old(emitted) else old(emitted) + [Closed]
    {
      if closedNotified {
        return;
      }
      closedNotified := true;
      emitted := emitted + [Closed];
    }

    method CloseAndNotify()
      requires Valid()
      modifies this`connected, this`closedNotified, this`emitted
      ensures Valid() && closedNotified && !connected
      ensures emitted == if old(closedNotified) then old(emitted) else old(emitted) + [Closed]
    {
      connected := false;
      NotifyClosedOnce();
    }

    /** Resends what is due, gives up what was resent five times, and closes when no pong came for more than
        15 s. */
    method CheckPendingMessages(nowMs: int) returns (ghost order: seq<string>)
      requires Valid()
      modifies this
      ensures Valid()
      ensures Enumerates(order, Resent(old(trackedMessages), nowMs))
      ensures State() == old(State()).(tracked := Poll(old(trackedMessages), nowMs))
      ensures written == old(written) + if old(connected) then Payloads(old(trackedMessages), order) else []
      ensures lastPongAtMs == old(lastPongAtMs)
      ensures var expired := nowMs - old(lastPongAtMs) > 15000;
        && (connected <==> old(connected) && !expired)
        && (closedNotified <==> old(closedNotified) || expired)
        && emitted == old(emitted) + if expired && !old(closedNotified) then [Closed] else []
    {
      hide Poll, Judge, Resent, Dropped, Enumerates;
      var resendPackets, droppedMessageIds;
      trackedMessages, resendPackets, droppedMessageIds, order := CollectRetryActions(trackedMessages, nowMs);
      for i := 0 to |resendPackets|
        modifies this`written
        invariant written == old(written) + if connected then resendPackets[..i] else []
      {
        SendPlain(resendPackets[i]);
      }
      assert resendPackets[..|resendPackets|] == resendPackets;
      if nowMs - lastPongAtMs > HEARTBEAT_TIMEOUT_MS {
        CloseAndNotify();
      }
    }
  }
}
