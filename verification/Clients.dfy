/** Clients with their chat windows on top of the whole system: the windows show what their connections have
    dispatched, and send read receipts when a chat is opened (Client/chatwindow.cpp). So the restriction on receipts
    under which delivered messages have been received is derived from what the program does. */
module Clients {
  import opened IdOrder
  import opened MessageTable
  import opened Protocol
  import opened ServerLogic
  import opened ServerEffects
  import opened Delivery
  import opened Notices
  import opened Receipts
  import ChatState
  import ChatStore

  type ChatMessage = ChatState.ChatMessage

  type Window = ChatStore.Window

  /** The system, and the chat window of each connection's client. */
  datatype World = World(sys: System, windows: map<Conn, Window>)

  /** A step of the system, a program start or reconnect behind a connection, or an event in its window. */
  datatype Step =
    | Net(act: Action)
    | Starts(c: Conn, window: Window)
    | Does(c: Conn, event: ChatStore.Event)

  // ---- What a window shows ----

  function StatusText(s: Status): string {
    match s
    case Sending => "sending"
    case Delivered => "delivered"
    case Read => "read"
  }

  /** A record of a history, as `onHistoryReceived` shows it. */
  function FromHistory(chatUser: string, item: HistoryMessageRecord, username: string): ChatMessage {
    ChatState.ChatMessage(item.id, chatUser, item.sender, item.text, StatusText(item.status), item.sender == username,
                          item.createdAt)
  }

  /** The message comes from a packet the client has dispatched. A history is shown while one user is signed in on
      the connection, the one it was asked for. */
  predicate FromPacket(p: Peer, username: string, packet: Protocol.Packet<Body>, m: ChatMessage) {
    packet.Data? &&
    match packet.body
    case Private(sender, _, text, createdAt) =>
      m == ChatState.ChatMessage(packet.id, sender, sender, text, "delivered", false, createdAt)
    case Public(sender, text, createdAt) =>
      m == ChatState.ChatMessage(packet.id, ChatStore.BROADCAST, sender, text, "delivered", sender ==
        username, createdAt)
    case HistoryReply(chatUser, items) =>
      p.hosted <= {username} && exists i :: 0 <= i < |items| && m == FromHistory(chatUser, items[i], username)
    case _ => false
  }

  /** The message was written here, or comes from a packet. */
  predicate MayAppend(p: Peer, w: Window, m: ChatMessage) {
    || (m.outgoing && m.author == w.username)
    || exists k :: 0 <= k < |p.link.gotB| && FromPacket(p, w.username, p.link.gotB[k], m)
  }

  ghost predicate MayHappen(p: Peer, w: Window, e: ChatStore.Event) {
    && ChatStore.Possible(w, e)
    && match e
       case Appended(m, _) => MayAppend(p, w, m)
       case ChatOpened(key) => key != ""
       case _ => true
  }

  /** A first start, a restart on the store of an earlier client, or a reconnect of one. */
  predicate MayStart(windows: map<Conn, Window>, w: Window) {
    || (ChatStore.Starting(w) && w.receipts == [] && w.store == map[])
    || (exists d :: d in windows && ChatStore.Starting(w) && w.receipts == [] && w.store == windows[d].store)
    || (exists d :: d in windows && w == windows[d])
  }

  ghost predicate CanStep(world: World, step: Step) {
    match step
    case Net(act) =>
      && Can(world.sys, act)
      && (act.ClientSendsPlain? && IsReceipt(act.packet) ==>
            act.c in world.windows && (act.packet.body.recipient, act.packet.id) in world.windows[act.c].receipts)
    case Starts(c, w) => c in world.sys.peers && c !in world.windows && MayStart(world.windows, w)
    case Does(c, e) =>
      c in world.windows && c in world.sys.peers && ChatState.Resolves(world.windows[c].chats)
      && MayHappen(world.sys.peers[c], world.windows[c], e)
  }

  ghost function DoStep(world: World, step: Step): World
    requires CanStep(world, step)
  {
    match step
    case Net(act) => world.(sys := Do(world.sys, act))
    case Starts(c, w) => world.(windows := world.windows[c := w])
    case Does(c, e) => world.(windows := world.windows[c := ChatStore.Step(world.windows[c], e)])
  }

  // ---- Everything incoming has reached a client ----

  /** A message of another user in a private chat. */
  predicate IsIncoming(m: ChatMessage) { !m.outgoing && m.chatKey != ChatStore.BROADCAST }

  predicate MessagesHeld(peers: map<Conn, Peer>, ms: ChatState.Messages) {
    forall id | id in ms :: IsIncoming(ms[id]) ==> HeldSomewhere(peers, id)
  }

  predicate StoreHeld(peers: map<Conn, Peer>, t: ChatStore.Store) {
    forall id | id in t :: IsIncoming(t[id].message) ==> HeldSomewhere(peers, id)
  }

  predicate ReceiptsHeld(peers: map<Conn, Peer>, receipts: seq<(string, string)>) {
    forall i :: 0 <= i < |receipts| ==> HeldSomewhere(peers, receipts[i].1)
  }

  ghost predicate WindowGood(peers: map<Conn, Peer>, w: Window) {
    && ChatStore.Synced(w)
    && MessagesHeld(peers, w.chats.messages) && StoreHeld(peers, w.store) && ReceiptsHeld(peers, w.receipts)
  }

  lemma {:induction false} HeldStays(peers: map<Conn, Peer>, after: map<Conn, Peer>, id: string)
    requires Gains(peers, after) && HeldSomewhere(peers, id)
    ensures HeldSomewhere(after, id)
  {
    hide Brings;
    var c :| c in peers && HoldsMessage(peers[c], id);
    var k :| 0 <= k < |peers[c].link.gotB| && Brings(peers[c].link.gotB[k], id);
    assert after[c].link.gotB[k] == peers[c].link.gotB[k];
    assert HoldsMessage(after[c], id);
  }

  lemma {:induction false} WindowStaysGood(peers: map<Conn, Peer>, after: map<Conn, Peer>, w: Window)
    requires Gains(peers, after) && WindowGood(peers, w)
    ensures WindowGood(after, w)
  {
    hide Gains, HeldSomewhere, ChatStore.Synced, IsIncoming;
    forall id | HeldSomewhere(peers, id) ensures HeldSomewhere(after, id) {
      HeldStays(peers, after, id);
    }
  }

  // ---- Window events ----

  /** A message shown from a packet is held by this client, if it is incoming. */
  lemma {:induction false} ShownIsHeld(sys: System, c: Conn, w: Window, m: ChatMessage)
    requires c in sys.peers && MayAppend(sys.peers[c], w, m) && NoticesTrue(sys)
    ensures IsIncoming(m) ==> HeldSomewhere(sys.peers, m.id)
  {
    hide NoticeTrue, Brings, FromPacket;
    var p := sys.peers[c];
    if IsIncoming(m) {
      var k :| 0 <= k < |p.link.gotB| && FromPacket(p, w.username, p.link.gotB[k], m);
      assert ConnectionTrue(sys, c);
      FromPacketIsData(p, w.username, p.link.gotB[k], m);
      IncomingIsBrought(sys, p, w.username, p.link.gotB[k], m);
      assert HoldsMessage(p, m.id);
    }
  }

  lemma {:induction false} FromPacketIsData(p: Peer, username: string, packet: Protocol.Packet<Body>, m: ChatMessage)
    requires FromPacket(p, username, packet, m)
    ensures packet.Data?
  {
  }

  lemma {:induction false} IncomingIsBrought(
    sys: System, p: Peer, username: string, packet: Protocol.Packet<Body>, m: ChatMessage)
    requires FromPacket(p, username, packet, m) && IsIncoming(m)
    requires packet.Data? && NoticeTrue(sys, p.hosted, packet.id, packet.body)
    ensures Brings(packet, m.id)
  {
    hide Dispatched;
    if packet.body.HistoryReply? {
      var chatUser, items := packet.body.chatUser, packet.body.items;
      var i :| 0 <= i < |items| && m == FromHistory(chatUser, items[i], username);
      assert RecordTrue(sys.server, p.hosted, chatUser, items[i]);
    }
  }

  lemma {:induction false} AppendKeepsHeld(peers: map<Conn, Peer>, w: Window, m: ChatMessage, nowMs: int)
    requires ChatState.Resolves(w.chats) && WindowGood(peers, w)
    requires IsIncoming(m) ==> HeldSomewhere(peers, m.id)
    ensures var after := ChatStore.Append(w, m, true, nowMs);
      && MessagesHeld(peers, after.chats.messages) && StoreHeld(peers, after.store)
      && ReceiptsHeld(peers, after.receipts)
  {
    hide HeldSomewhere, ChatStore.Synced, ChatState.Upsert, ChatState.Resolves;
    ChatState.UpsertStores(w.chats, m, nowMs);
  }

  lemma {:induction false} StatusKeepsHeld(
    peers: map<Conn, Peer>, w: Window, id: string, status: string, createdAt: int)
    requires ChatState.Resolves(w.chats) && WindowGood(peers, w)
    ensures var after := ChatStore.SetStatus(w, id, status, createdAt);
      && MessagesHeld(peers, after.chats.messages) && StoreHeld(peers, after.store)
      && ReceiptsHeld(peers, after.receipts)
  {
    hide HeldSomewhere, ChatStore.Synced, StableSort;
  }

  /** The messages that opening a chat returns. */
  lemma {:induction false} NewlyReadAre(ms: ChatState.Messages, ids: seq<string>)
    requires IdOrder.Known(ChatState.TimesOf(ms), ids) && forall id | id in ms :: ms[id].id == id
    ensures forall m | m in ChatState.NewlyReadIn(ms, ids) ::
      m.id in ms && m.id in ids && ChatState.Unread(ms[m.id]) && m == ms[m.id].(status := "read")
  {
    if ids != [] {
      var n := |ids| - 1;
      NewlyReadAre(ms, ids[..n]);
      assert ids[n] in ChatState.TimesOf(ms);
    }
  }

  lemma {:induction false} SaveAllKeepsHeld(
    peers: map<Conn, Peer>, t: ChatStore.Store, owner: string, ms: seq<ChatMessage>)
    requires StoreHeld(peers, t) && forall m | m in ms :: IsIncoming(m) ==> HeldSomewhere(peers, m.id)
    ensures StoreHeld(peers, ChatStore.SaveAll(t, owner, ms))
  {
    hide HeldSomewhere, IsIncoming;
    if ms != [] {
      SaveAllKeepsHeld(peers, t, owner, ms[..|ms| - 1]);
      assert ms[|ms| - 1] in ms;
    }
  }

  /** Opening a private chat sends receipts for messages of the other user only. */
  lemma {:induction false} OpeningKeepsHeld(peers: map<Conn, Peer>, w: Window, key: string)
    requires ChatState.Resolves(w.chats) && WindowGood(peers, w) && key != ""
    ensures var after := ChatStore.MarkCurrentRead(w, key);
      && MessagesHeld(peers, after.chats.messages) && StoreHeld(peers, after.store)
      && ReceiptsHeld(peers, after.receipts)
  {
    hide HeldSomewhere, ChatStore.InStep, ChatState.NewlyReadIn;
    if w.onlineSession && !w.offlineMode && key != ChatStore.BROADCAST {
      var ms, ids, updated := w.chats.messages, ChatState.ListOf(w.chats.lists, key), ChatState.NewlyRead(w.chats, key);
      ChatStore.ListIsKnown(w.chats, key);
      NewlyReadAre(ms, ids);
      ListedAreIncoming(w, key);
      forall m | m in updated ensures HeldSomewhere(peers, m.id) {
        assert IsIncoming(ms[m.id]);
      }
      SaveAllKeepsHeld(peers, w.store, w.username, updated);
      forall i | 0 <= i < |updated| ensures HeldSomewhere(peers, updated[i].id) {
        assert updated[i] in updated;
      }
    }
  }

  lemma {:induction false} ListedAreIncoming(w: Window, key: string)
    requires ChatStore.Synced(w) && key != "" && key != ChatStore.BROADCAST
    ensures forall id | id in ChatState.ListOf(w.chats.lists, key) ::
      id in w.chats.messages && (ChatState.Unread(w.chats.messages[id]) ==> IsIncoming(w.chats.messages[id]))
  {
    hide ChatStore.InStep, Sorted, ChatState.Resolves;
    assert ChatState.Exact(w.chats, key);
    var ids := ChatState.ListOf(w.chats.lists, key);
    forall id | id in ids ensures id in ChatState.IdsOf(w.chats.messages, key) {
      assert id in Elements(ids);
    }
  }

  lemma {:induction false} ActivateKeepsHeld(
    peers: map<Conn, Peer>, w: Window, username: string, offline: bool, dialogs: seq<string>, nowMs: int)
    requires WindowGood(peers, w) && ChatStore.ListsDialogs(w.store, username, dialogs)
    ensures var after := ChatStore.Activate(w, username, offline, dialogs, nowMs);
      && MessagesHeld(peers, after.chats.messages) && StoreHeld(peers, after.store)
      && ReceiptsHeld(peers, after.receipts)
  {
    hide HeldSomewhere, ChatStore.LoadChats, ChatState.Indexed, ChatStore.ListsDialogs;
    ChatStore.LoadRebuilds(w.store, username, dialogs, nowMs);
  }

  lemma {:induction false} EventKeepsGood(sys: System, c: Conn, w: Window, e: ChatStore.Event)
    requires c in sys.peers && ChatState.Resolves(w.chats) && MayHappen(sys.peers[c], w, e)
    requires WindowGood(sys.peers, w) && NoticesTrue(sys)
    ensures WindowGood(sys.peers, ChatStore.Step(w, e))
  {
    ChatStore.StepKeepsSynced(w, e);
    hide ChatStore.Synced, NoticesTrue, HeldSomewhere, ChatStore.Append, ChatStore.SetStatus, ChatStore.MarkCurrentRead,
      ChatStore.Activate, MessagesHeld, ReceiptsHeld, ChatState.Resolves;
    match e {
      case Appended(m, nowMs) =>
        ShownIsHeld(sys, c, w, m);
        AppendKeepsHeld(sys.peers, w, m, nowMs);
      case StatusChanged(id, status, createdAt) => StatusKeepsHeld(sys.peers, w, id, status, createdAt);
      case ChatOpened(key) => OpeningKeepsHeld(sys.peers, w, key);
      case Activated(u, offline, dialogs, nowMs) => ActivateKeepsHeld(sys.peers, w, u, offline, dialogs, nowMs);
      case Deactivated => NothingIsHeld(sys.peers);
      case LoggedOut(u) => NothingIsHeld(sys.peers);
    }
  }

  lemma {:induction false} NothingIsHeld(peers: map<Conn, Peer>)
    ensures MessagesHeld(peers, map[])
  {
  }

  // ---- Whole runs ----

  ghost predicate WorldGood(world: World) {
    && Inv(world.sys) && NoticesTrue(world.sys) && ReceivedGood(world.sys)
    && forall c | c in world.windows :: WindowGood(world.sys.peers, world.windows[c])
  }

  lemma {:induction false} NetKeepsGood(world: World, act: Action)
    requires CanStep(world, Net(act)) && WorldGood(world)
    ensures WorldGood(DoStep(world, Net(act)))
  {
    hide Inv, Can, Do, NoticesTrue, ReceivedGood, ChatStore.Synced, MessagesHeld, StoreHeld, HeldSomewhere, Gains;
    ReceiptsAreHonest(world, act);
    DoKeepsInv(world.sys, act);
    DoKeepsTrue(world.sys, act);
    StepKeepsReceived(world.sys, act);
    StepGains(world.sys, act);
    forall c | c in world.windows ensures WindowGood(Do(world.sys, act).peers, world.windows[c]) {
      WindowStaysGood(world.sys.peers, Do(world.sys, act).peers, world.windows[c]);
    }
  }

  /** A receipt that a window has asked for is for a message that has reached a client. */
  lemma {:induction false} ReceiptsAreHonest(world: World, act: Action)
    requires CanStep(world, Net(act)) && WorldGood(world)
    ensures Honest(world.sys, act)
  {
    hide Inv, NoticesTrue, ReceivedGood, ChatStore.Synced, MessagesHeld, StoreHeld, HeldSomewhere, Can;
    if act.ClientSendsPlain? && IsReceipt(act.packet) {
      var w := world.windows[act.c];
      assert WindowGood(world.sys.peers, w);
      var i :| 0 <= i < |w.receipts| && w.receipts[i] == (act.packet.body.recipient, act.packet.id);
      assert HeldSomewhere(world.sys.peers, w.receipts[i].1);
    }
  }

  lemma {:induction false} StartingIsGood(peers: map<Conn, Peer>, w: Window)
    requires ChatStore.Starting(w) && w.receipts == [] && StoreHeld(peers, w.store)
    ensures WindowGood(peers, w)
  {
    ChatStore.EmptyIsIndexed();
    hide ChatState.Indexed, HeldSomewhere;
  }

  lemma {:induction false} StartKeepsGood(world: World, c: Conn, w: Window)
    requires CanStep(world, Starts(c, w)) && WorldGood(world)
    ensures WorldGood(DoStep(world, Starts(c, w)))
  {
    hide Inv, NoticesTrue, ReceivedGood, ChatStore.Synced, MessagesHeld, HeldSomewhere, ChatStore.Starting,
      ReceiptsHeld;
    if ChatStore.Starting(w) && w.receipts == []
      && (w.store == map[] || exists d :: d in world.windows && w.store == world.windows[d].store)
    {
      if w.store != map[] {
        var d :| d in world.windows && w.store == world.windows[d].store;
        assert WindowGood(world.sys.peers, world.windows[d]);
      }
      StartingIsGood(world.sys.peers, w);
    }
  }

  lemma {:induction false} EventKeepsWorldGood(world: World, c: Conn, e: ChatStore.Event)
    requires CanStep(world, Does(c, e)) && WorldGood(world)
    ensures WorldGood(DoStep(world, Does(c, e)))
  {
    hide Inv, NoticesTrue, ReceivedGood, WindowGood, ChatStore.Step, MayHappen, ChatState.Resolves;
    EventKeepsGood(world.sys, c, world.windows[c], e);
  }

  lemma {:induction false} StepKeepsGood(world: World, step: Step)
    requires CanStep(world, step) && WorldGood(world)
    ensures WorldGood(DoStep(world, step))
  {
    hide CanStep, DoStep, WorldGood;
    match step {
      case Net(act) => NetKeepsGood(world, act);
      case Starts(c, w) => StartKeepsGood(world, c, w);
      case Does(c, e) => EventKeepsWorldGood(world, c, e);
    }
  }

  ghost predicate CanGo(world: World, steps: seq<Step>)
    decreases |steps|
  {
    |steps| == 0 || (CanStep(world, steps[0]) && CanGo(DoStep(world, steps[0]), steps[1..]))
  }

  ghost function Go(world: World, steps: seq<Step>): World
    requires CanGo(world, steps)
    decreases |steps|
  {
    if |steps| == 0 then world else Go(DoStep(world, steps[0]), steps[1..])
  }

  lemma {:induction false} RunKeepsGood(world: World, steps: seq<Step>)
    requires CanGo(world, steps) && WorldGood(world)
    ensures WorldGood(Go(world, steps))
    decreases |steps|
  {
    if |steps| != 0 {
      hide WorldGood, CanStep, DoStep;
      StepKeepsGood(world, steps[0]);
      RunKeepsGood(DoStep(world, steps[0]), steps[1..]);
    }
  }

  /** In every run of clients that behave like the program's, whatever their users do, with any number of windows,
      restarts and reconnects: a message counts as delivered only when a client of its recipient has been told it,
      and a read notice is only of such a message, marked read. */
  lemma {:induction false} ClientsReceiptsMeanReceived(sys: System, steps: seq<Step>)
    requires Initial(sys) && CanGo(World(sys, map[]), steps)
    ensures var end := Go(World(sys, map[]), steps).sys;
      && (forall id | IsDelivered(end.server, id) :: Received(end, id))
      && (forall c | c in end.peers :: ReadNotesHold(end, end.peers[c].link.gotB))
  {
    InitialIsInv(sys);
    var world := World(sys, map[]);
    assert WorldGood(world);
    RunKeepsGood(world, steps);
    hide Go, CanGo, Inv, Received, AllReceiptsGood, NoticesTrue;
    var end := Go(world, steps).sys;
    forall c | c in end.peers ensures ReadNotesHold(end, end.peers[c].link.gotB) {
      NotesHoldOn(end, c);
    }
  }
}
