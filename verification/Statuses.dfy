/** What status a message has, in memory and on disk, over whole runs of the chat window, and for which messages read
    receipts are sent. */
module Statuses {
  import opened ChatState
  import opened ChatStore

  // ---- Receipts ----

  /** The chat is read: its incoming messages are marked and their receipts sent. */
  predicate Reads(w: Window, key: string) {
    w.onlineSession && !w.offlineMode && key != "Broadcast"
  }

  lemma {:induction false} ReceiptsForAre(key: string, ms: seq<ChatMessage>, x: string)
    ensures (key, x) in ReceiptsFor(key, ms) <==> IsAmong(ms, x)
  {
    var rs := ReceiptsFor(key, ms);
    if (key, x) in rs {
      var i :| 0 <= i < |rs| && rs[i] == (key, x);
      assert ms[i].id == x;
    }
    if IsAmong(ms, x) {
      var i :| 0 <= i < |ms| && ms[i].id == x;
      assert rs[i] == (key, x);
    }
  }

  /** Opening a private chat while online sends one receipt each for exactly those of its incoming messages that were
      not read, to the user of the chat, and then all of them are read. Opening any other, or while offline, does
      nothing. */
  lemma {:induction false} OpeningSendsReceipts(w: Window, key: string) returns (sent: seq<(string, string)>)
    requires Synced(w)
    ensures Resolves(w.chats)
    ensures MarkCurrentRead(w, key).receipts == w.receipts + sent
    ensures if !Reads(w, key) then MarkCurrentRead(w, key) == w
            else
              && (forall to, x :: (to, x) in sent <==>
                    to == key && x in ListOf(w.chats.lists, key) && IsUnread(w.chats.messages, x))
              && (forall i, j :: 0 <= i < j < |sent| ==> sent[i] != sent[j])
              && (forall x :: x in ListOf(w.chats.lists, key) ==>
                    !IsUnread(MarkCurrentRead(w, key).chats.messages, x))
  {
    hide InStep, Indexed, NewlyRead, MarkRead, SaveAll;
    IndexedResolves(w.chats);
    if !Reads(w, key) {
      sent := [];
      return;
    }
    ReadingMarksTheUnread(w.chats, key);
    var newly := NewlyRead(w.chats, key);
    sent := ReceiptsFor(key, newly);
    forall to, x
      ensures (to, x) in sent <==> to == key && x in ListOf(w.chats.lists, key) && IsUnread(w.chats.messages, x)
    {
      ReceiptsForAre(key, newly, x);
    }
  }

  // ---- The status of a message ----

  /** The event gives the message of this id this status: it is received or sent with it, an update for a message
      already known says so, or its chat is opened while online, which makes an incoming one read. */
  predicate Gives(w: Window, e: Event, id: string, status: string) {
    match e
    case Appended(m, _) => m.id == id && m.status == status
    case StatusChanged(x, given, _) => x == id && given == status && id in w.chats.messages
    case ChatOpened(key) =>
      && Reads(w, key) && status == "read"
      && id in w.chats.messages && !w.chats.messages[id].outgoing && id in ListOf(w.chats.lists, key)
    case _ => false
  }

  ghost predicate GivesNone(w: Window, e: Event, id: string) {
    forall status :: !Gives(w, e, id, status)
  }

  lemma {:induction false} GivesNoneIff(w: Window, e: Event, id: string)
    ensures GivesNone(w, e, id) <==>
      && !Gives(w, e, id, "read")
      && !(e.Appended? && e.message.id == id)
      && !(e.StatusChanged? && e.id == id && id in w.chats.messages)
  {
    if e.Appended? {
      assert e.message.id == id ==> Gives(w, e, id, e.message.status);
    } else if e.StatusChanged? {
      assert e.id == id && id in w.chats.messages ==> Gives(w, e, id, e.status);
    }
  }

  predicate HasStatus(w: Window, id: string, status: string) {
    id in w.chats.messages && w.chats.messages[id].status == status
  }

  /** The same user stays signed in. */
  predicate Keeps(e: Event, username: string) {
    !e.Deactivated? && !e.LoggedOut? && (e.Activated? ==> e.username == username)
  }

  lemma {:induction false} AppendGives(w: Window, e: Event, id: string, status: string)
    requires e.Appended? && Synced(w)
    ensures Resolves(w.chats)
    ensures HasStatus(Step(w, e), id, status) <==>
      Gives(w, e, id, status) || (HasStatus(w, id, status) && GivesNone(w, e, id))
  {
    GivesNoneIff(w, e, id);
    hide Upsert, Indexed, InStep;
    IndexedResolves(w.chats);
    UpsertStores(w.chats, e.message, e.nowMs);
    hide GivesNone;
  }

  lemma {:induction false} ChangeGives(w: Window, e: Event, id: string, status: string)
    requires e.StatusChanged? && Synced(w)
    ensures Resolves(w.chats)
    ensures HasStatus(Step(w, e), id, status) <==>
      Gives(w, e, id, status) || (HasStatus(w, id, status) && GivesNone(w, e, id))
  {
    GivesNoneIff(w, e, id);
    hide UpdateStatus, Indexed, InStep;
    IndexedResolves(w.chats);
    StatusIsSet(w.chats, e.id, e.status, e.createdAt);
    hide GivesNone;
  }

  lemma {:induction false} OpeningGives(w: Window, e: Event, id: string, status: string)
    requires e.ChatOpened? && Synced(w)
    ensures Resolves(w.chats)
    ensures HasStatus(Step(w, e), id, status) <==>
      Gives(w, e, id, status) || (HasStatus(w, id, status) && GivesNone(w, e, id))
  {
    GivesNoneIff(w, e, id);
    hide MarkRead, Indexed, InStep, SaveAll, NewlyRead;
    IndexedResolves(w.chats);
    ReadingMarksTheUnread(w.chats, e.key);
    hide GivesNone;
  }

  /** After an event that leaves the user signed in, a message has exactly the status the event gives it, or if it
      gives none the one it had. */
  lemma {:induction false} StepGives(w: Window, e: Event, id: string, status: string)
    requires Synced(w) && Keeps(e, w.username)
    ensures Resolves(w.chats) && Step(w, e).username == w.username
    ensures HasStatus(Step(w, e), id, status) <==>
      Gives(w, e, id, status) || (HasStatus(w, id, status) && GivesNone(w, e, id))
  {
    hide Append, SetStatus, MarkCurrentRead, Synced, Resolves, Reads, HasStatus;
    SyncedResolves(w);
    UserStays(w, e);
    match e {
      case Appended(_, _) => AppendGives(w, e, id, status);
      case StatusChanged(_, _, _) => ChangeGives(w, e, id, status);
      case ChatOpened(_) => OpeningGives(w, e, id, status);
      case Activated(_, _, _, _) => ActivationGivesNothing(w, e, id, status);
    }
  }

  lemma {:induction false} UserStays(w: Window, e: Event)
    requires Resolves(w.chats) && Keeps(e, w.username)
    ensures Step(w, e).username == w.username
  {
    hide Upsert, UpdateStatus, MarkRead, NewlyRead, SaveAll;
  }

  lemma {:induction false} ActivationGivesNothing(w: Window, e: Event, id: string, status: string)
    requires Resolves(w.chats) && e.Activated? && e.username == w.username
    ensures HasStatus(Step(w, e), id, status) <==> HasStatus(w, id, status)
  {
  }

  // ---- Whole runs ----

  ghost predicate AllKeep(es: seq<Event>, username: string) {
    forall i :: 0 <= i < |es| ==> Keeps(es[i], username)
  }

  lemma {:induction false} RunPrefix(w: Window, es: seq<Event>, n: nat)
    requires Resolves(w.chats) && CanRun(w, es) && n <= |es|
    ensures CanRun(w, es[..n])
    decreases |es|
  {
    if n > 0 {
      hide Step, Possible;
      assert es[..n][0] == es[0] && es[..n][1..] == es[1..][..n - 1];
      RunPrefix(Step(w, es[0]), es[1..], n - 1);
    }
  }

  /** The window in which the i-th event happens. */
  ghost function Before(w: Window, es: seq<Event>, i: nat): (r: Window)
    requires Resolves(w.chats) && CanRun(w, es) && i <= |es|
  {
    RunPrefix(w, es, i);
    Run(w, es[..i])
  }

  lemma {:induction false} LastStep(w: Window, es: seq<Event>)
    requires Resolves(w.chats) && CanRun(w, es) && es != []
    ensures var n := |es| - 1;
      && CanRun(w, es[..n]) && Resolves(Before(w, es, n).chats)
      && Possible(Before(w, es, n), es[n]) && Run(w, es) == Step(Before(w, es, n), es[n])
    decreases |es|
  {
    hide Step, Possible;
    var n := |es| - 1;
    RunPrefix(w, es, n);
    if n > 0 {
      var next := Step(w, es[0]);
      LastStep(next, es[1..]);
      assert es[..n][0] == es[0] && es[..n][1..] == es[1..][..n - 1] && es[1..][n - 1] == es[n];
    } else {
      assert es[..0] == [] && es == [es[0]] && es[1..] == [];
    }
  }

  /** The i-th event gave the status, and none has since given one. */
  ghost predicate GivenLast(w: Window, es: seq<Event>, id: string, status: string, i: nat)
    requires Resolves(w.chats) && CanRun(w, es)
  {
    && i < |es| && Gives(Before(w, es, i), es[i], id, status)
    && forall j | i < j < |es| :: GivesNone(Before(w, es, j), es[j], id)
  }

  /** The message had the status at the start, and no event has given it one. */
  ghost predicate NeverGiven(w: Window, es: seq<Event>, id: string, status: string)
    requires Resolves(w.chats) && CanRun(w, es)
  {
    HasStatus(w, id, status) && forall j | 0 <= j < |es| :: GivesNone(Before(w, es, j), es[j], id)
  }

  ghost predicate LastStatus(w: Window, es: seq<Event>, id: string, status: string)
    requires Resolves(w.chats) && CanRun(w, es)
  {
    NeverGiven(w, es, id, status) || exists i :: GivenLast(w, es, id, status, i)
  }

  lemma {:induction false} BeforePrefix(w: Window, es: seq<Event>, n: nat, i: nat)
    requires Resolves(w.chats) && CanRun(w, es) && i <= n <= |es|
    ensures CanRun(w, es[..n]) && Before(w, es[..n], i) == Before(w, es, i)
  {
    RunPrefix(w, es, n);
    assert es[..n][..i] == es[..i];
  }

  lemma {:induction false} LastOneMore(w: Window, es: seq<Event>, id: string, status: string)
    requires Resolves(w.chats) && CanRun(w, es) && es != []
    ensures var n := |es| - 1;
      && CanRun(w, es[..n])
      && (LastStatus(w, es, id, status) <==>
            || Gives(Before(w, es, n), es[n], id, status)
            || (LastStatus(w, es[..n], id, status) && GivesNone(Before(w, es, n), es[n], id)))
  {
    hide Gives, GivesNone, HasStatus, Before, CanRun, Resolves;
    var n := |es| - 1;
    BeforePrefix(w, es, n, 0);
    forall i: nat | i < n ensures Before(w, es[..n], i) == Before(w, es, i) {
      BeforePrefix(w, es, n, i);
    }
    assert NeverGiven(w, es, id, status) <==>
      NeverGiven(w, es[..n], id, status) && GivesNone(Before(w, es, n), es[n], id);
    if exists i :: GivenLast(w, es, id, status, i) {
      var i: nat :| GivenLast(w, es, id, status, i);
      if i < n {
        assert GivenLast(w, es[..n], id, status, i);
      }
    }
    if Gives(Before(w, es, n), es[n], id, status) {
      assert GivenLast(w, es, id, status, n);
    }
    if GivesNone(Before(w, es, n), es[n], id) && exists i :: GivenLast(w, es[..n], id, status, i) {
      var i: nat :| GivenLast(w, es[..n], id, status, i);
      assert GivenLast(w, es, id, status, i);
    }
  }

  lemma {:induction false} RunGives(w: Window, es: seq<Event>, id: string, status: string)
    requires Resolves(w.chats) && CanRun(w, es) && AllKeep(es, w.username)
    requires Synced(w)
    ensures Run(w, es).username == w.username
    ensures HasStatus(Run(w, es), id, status) <==> LastStatus(w, es, id, status)
    decreases |es|
  {
    if es != [] {
      var n := |es| - 1;
      LastStep(w, es);
      RunKeepsSynced(w, es[..n]);
      hide Synced, Step, Gives, GivesNone, HasStatus, LastStatus, Run, CanRun, Resolves, Keeps;
      RunGives(w, es[..n], id, status);
      StepGives(Before(w, es, n), es[n], id, status);
      LastOneMore(w, es, id, status);
    } else {
      hide Gives, GivesNone, HasStatus;
    }
  }

  /** The user's row of this id has this status. */
  predicate RowHasStatus(w: Window, id: string, status: string) {
    id in w.store && w.store[id].owner == w.username && w.store[id].message.status == status
  }

  /** In every run, from any moment at which a user is signed in and for as long as that user stays so, a message with
      an id has, in memory and on disk alike, exactly the status that the last event to give it one gave it, or if
      there is none the status it had at that moment. */
  lemma {:induction false} StatusIsTheLastGiven(w: Window, es: seq<Event>, more: seq<Event>, id: string, status: string)
    requires Starting(w) && CanRun(w, es) && Run(w, es).username != ""
    requires Resolves(Run(w, es).chats) && CanRun(Run(w, es), more) && AllKeep(more, Run(w, es).username) && id != ""
    ensures var now, end := Run(w, es), Run(Run(w, es), more);
      && (HasStatus(end, id, status) <==> LastStatus(now, more, id, status))
      && (RowHasStatus(end, id, status) <==> LastStatus(now, more, id, status))
  {
    hide Run, CanRun, LastStatus, Resolves, AllKeep;
    EmptyIsIndexed();
    assert Synced(w);
    RunKeepsSynced(w, es);
    var now := Run(w, es);
    RunKeepsSynced(now, more);
    RunGives(now, more, id, status);
    RowIsMemory(Run(now, more), id, status);
  }

  lemma {:induction false} RowIsMemory(w: Window, id: string, status: string)
    requires Synced(w) && w.username != "" && id != ""
    ensures RowHasStatus(w, id, status) <==> HasStatus(w, id, status)
  {
    hide Indexed;
    assert id in RowsOf(w.store, w.username) <==> id in Storable(w.chats.messages);
  }

  // ---- Who is signed in, and how ----

  predicate IsSession(e: Event) { e.Activated? || e.Deactivated? || e.LoggedOut? }

  /** What the session event leaves behind: after an activation its user is signed in, online unless it was an
      offline one; after leaving nobody is. */
  predicate Decided(w: Window, e: Event)
    requires IsSession(e)
  {
    if e.Activated? then
      w.username == e.username && w.onlineSession == !e.offline && w.offlineMode == e.offline
    else w.username == "" && !w.onlineSession && !w.offlineMode
  }

  lemma {:induction false} SessionEventDecides(w: Window, e: Event)
    requires Resolves(w.chats) && IsSession(e)
    ensures Decided(Step(w, e), e)
  {
    hide LoadChats;
  }

  /** In every run, who is signed in and how is decided by the last event that began or ended a session. */
  lemma {:induction false} LastSessionDecides(w: Window, es: seq<Event>, i: nat)
    requires Resolves(w.chats) && CanRun(w, es) && i < |es|
    requires IsSession(es[i]) && forall j :: i < j < |es| ==> !IsSession(es[j])
    ensures Decided(Run(w, es), es[i])
    decreases |es|
  {
    hide Resolves, CanRun, Run, Possible, Step, Before, Decided;
    var n := |es| - 1;
    LastStep(w, es);
    if i < n {
      LastSessionDecides(w, es[..n], i);
      BeforeIs(w, es, n);
      OthersKeepSession(Before(w, es, n), es[n], es[i]);
    } else {
      SessionEventDecides(Before(w, es, n), es[n]);
    }
  }

  lemma {:induction false} BeforeIs(w: Window, es: seq<Event>, n: nat)
    requires Resolves(w.chats) && CanRun(w, es) && n <= |es|
    ensures CanRun(w, es[..n]) && Before(w, es, n) == Run(w, es[..n])
  {
    RunPrefix(w, es, n);
  }

  lemma {:induction false} OthersKeepSession(w: Window, e: Event, begun: Event)
    requires Resolves(w.chats) && !IsSession(e) && IsSession(begun) && Decided(w, begun)
    ensures Decided(Step(w, e), begun)
  {
    hide Upsert, UpdateStatus, MarkRead, NewlyRead, SaveAll;
  }
}
