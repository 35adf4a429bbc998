/** Two endpoints joined by two lossless first-in first-out channels: one TCP connection whose client called
    `startConnection` and whose server side is a fresh `Connection`. Sends, retries in any order, and
    deliveries interleave arbitrarily. */
module Links {
  import opened Tracking
  import opened Protocol

  /** The endpoints `a` and `b`, the packets in flight each way, and three records: the tracked packets each
      side has sent, the packets it has dispatched, and the payloads acknowledged to it. */
  datatype Link<B> = Link(a: Endpoint<B>, b: Endpoint<B>, ab: seq<Packet<B>>, ba: seq<Packet<B>>,
                          sentA: seq<Packet<B>>, sentB: seq<Packet<B>>,
                          gotA: seq<Packet<B>>, gotB: seq<Packet<B>>,
                          confirmedA: seq<Packet<B>>, confirmedB: seq<Packet<B>>)

  function Fresh<B>(): Link<B> {
    Link(NewEndpoint(), NewEndpoint(), [], [], [], [], [], [], [], [])
  }

  /** The same link seen from the other end. */
  function Mirror<B>(l: Link<B>): Link<B> {
    Link(l.b, l.a, l.ba, l.ab, l.sentB, l.sentA, l.gotB, l.gotA, l.confirmedB, l.confirmedA)
  }

  /** What the endpoint `a` can do. */
  datatype Action<B> =
    | SendTracked(id: string, body: B, nowMs: int)
    | SendPlain(packet: Packet<B>)
    | Poll(order: seq<string>, nowMs: int)
    | Deliver

  /** Ids are never empty here: a missing one is replaced by a new UUID before sending. Sequence numbers stay
      below 2^31, the largest the receiver can read. A plain packet carries no sequence number. */
  ghost predicate Can<B>(l: Link<B>, act: Action<B>) {
    match act
    case SendTracked(id, _, _) => id != "" && l.a.nextOut + 1 < TWO_31
    case SendPlain(p) => p.Ping? || (p.Data? && p.num == 0)
    case Poll(order, nowMs) => Enumerates(order, Resent(l.a.tracked, nowMs))
    case Deliver => l.ba != []
  }

  ghost function Do<B>(l: Link<B>, act: Action<B>): Link<B>
    requires Can(l, act)
  {
    match act
    case SendTracked(id, body, nowMs) =>
      var p := Stamped(l.a, id, body);
      l.(a := AfterSendTracked(l.a, id, body, nowMs), ab := l.ab + [p], sentA := l.sentA + [p])
    case SendPlain(p) => l.(ab := l.ab + [p])
    case Poll(order, nowMs) =>
      l.(a := l.a.(tracked := Tracking.Poll(l.a.tracked, nowMs)), ab := l.ab + Payloads(l.a.tracked, order))
    case Deliver =>
      var r := Receive(l.a, l.ba[0]);
      l.(a := r.after, ba := l.ba[1..], ab := l.ab + r.replies, gotA := l.gotA + r.dispatched,
         confirmedA := l.confirmedA + r.acknowledged)
  }

  // ---- What one direction keeps: `a` sends, `b` receives and acknowledges ----

  /** The k-th tracked packet carries the number k. */
  ghost predicate SentInOrder<B>(sent: seq<Packet<B>>) {
    forall i :: 0 <= i < |sent| ==> sent[i].Data? && sent[i].num == i + 1 && sent[i].id != ""
  }

  ghost predicate WasSent<B>(sent: seq<Packet<B>>, p: Packet<B>) {
    p.Data? && 1 <= p.num <= |sent| && sent[p.num - 1] == p
  }

  ghost predicate TrackedWereSent<B>(sent: seq<Packet<B>>, tracked: Table<Packet<B>>) {
    forall id | id in tracked :: WasSent(sent, tracked[id].payload) && tracked[id].payload.id == id
  }

  /** Every packet in flight that is not a control packet was sent, or carries no number. */
  ghost predicate Genuine<B>(sent: seq<Packet<B>>, channel: seq<Packet<B>>) {
    forall i :: 0 <= i < |channel| && channel[i].Data? ==> channel[i].num == 0 || WasSent(sent, channel[i])
  }

  /** In front of each packet in flight come all smaller numbers not yet received. */
  predicate NoGaps<B>(channel: seq<Packet<B>>, h: nat) {
    if channel == [] then true
    else
      var n := |channel| - 1;
      Seq(channel[n]) <= High(channel[..n], h) + 1 && NoGaps(channel[..n], h)
  }

  ghost predicate AcksAreHonest<B>(sent: seq<Packet<B>>, channel: seq<Packet<B>>, lastIn: nat) {
    forall i :: 0 <= i < |channel| && channel[i].Ack? ==> IdDispatched(sent, lastIn, channel[i].id)
  }

  /** Among the first `lastIn` packets sent there is one with this id. */
  ghost predicate IdDispatched<B>(sent: seq<Packet<B>>, lastIn: nat, id: string) {
    exists i :: 0 <= i < lastIn && i < |sent| && sent[i].Data? && sent[i].id == id
  }

  ghost predicate ConfirmedWereDispatched<B>(sent: seq<Packet<B>>, confirmed: seq<Packet<B>>, lastIn: nat) {
    forall i :: 0 <= i < |confirmed| ==> WasSent(sent, confirmed[i]) && IdDispatched(sent, lastIn, confirmed[i].id)
  }

  ghost predicate OneWay<B>(l: Link<B>) {
    && |l.sentA| == l.a.nextOut < TWO_31
    && SentInOrder(l.sentA)
    && TrackedWereSent(l.sentA, l.a.tracked)
    && Genuine(l.sentA, l.ab)
    && NoGaps(l.ab, l.b.lastIn) && High(l.ab, l.b.lastIn) == l.a.nextOut
    && l.b.lastIn <= |l.sentA|
    && Numbered(l.gotB) == l.sentA[..l.b.lastIn]
    && AcksAreHonest(l.sentA, l.ba, l.b.lastIn)
    && ConfirmedWereDispatched(l.sentA, l.confirmedA, l.b.lastIn)
  }

  ghost predicate AckInFlight<B>(channel: seq<Packet<B>>, id: string) {
    exists i :: 0 <= i < |channel| && channel[i].Ack? && channel[i].id == id
  }

  /** Every packet still tracked is on its way, or its ack is. */
  ghost predicate Answered<B>(l: Link<B>) {
    forall id | id in l.a.tracked :: l.a.tracked[id].payload.Data? ==>
      l.a.tracked[id].payload.num > l.b.lastIn || AckInFlight(l.ba, id)
  }

  ghost predicate Sound<B>(l: Link<B>) {
    OneWay(l) && OneWay(Mirror(l)) && Answered(l) && Answered(Mirror(l))
  }

  // ---- Channels ----

  lemma {:induction false} AppendToChannel<B>(channel: seq<Packet<B>>, p: Packet<B>, h: nat)
    requires NoGaps(channel, h) && Seq(p) <= High(channel, h) + 1
    ensures NoGaps(channel + [p], h)
    ensures High(channel + [p], h) == if Seq(p) > High(channel, h) then Seq(p) else High(channel, h)
  {
    assert (channel + [p])[..|channel|] == channel;
  }

  lemma {:induction false} AppendOld<B>(channel: seq<Packet<B>>, ps: seq<Packet<B>>, h: nat)
    requires NoGaps(channel, h) && forall i :: 0 <= i < |ps| ==> Seq(ps[i]) <= High(channel, h)
    ensures NoGaps(channel + ps, h) && High(channel + ps, h) == High(channel, h)
    decreases |ps|
  {
    hide NoGaps, High;
    if ps == [] {
      assert channel + ps == channel;
    } else {
      var n := |ps| - 1;
      AppendOld(channel, ps[..n], h);
      AppendToChannel(channel + ps[..n], ps[n], h);
      assert channel + ps == channel + ps[..n] + [ps[n]];
    }
  }

  /** Taking the front packet off the channel moves the mark and nothing else. */
  lemma {:induction false} TakeFront<B>(channel: seq<Packet<B>>, h: nat)
    requires channel != [] && NoGaps(channel, h)
    ensures var h' := if Seq(channel[0]) > h then Seq(channel[0]) else h;
      h' <= h + 1 && NoGaps(channel[1..], h') && High(channel[1..], h') == High(channel, h)
    decreases |channel|
  {
    var n := |channel| - 1;
    if n == 0 {
      assert channel[..0] == [];
    } else {
      TakeFront(channel[..n], h);
      assert channel[..n][1..] == channel[1..][..n - 1];
      assert channel[..n][0] == channel[0];
      assert channel[1..][n - 1] == channel[n];
    }
  }

  lemma {:induction false} NumberIsSomewhere<B>(channel: seq<Packet<B>>, h: nat, num: nat) returns (i: nat)
    requires NoGaps(channel, h) && h < num <= High(channel, h)
    ensures i < |channel| && Seq(channel[i]) == num
    decreases |channel|
  {
    var n := |channel| - 1;
    if num <= High(channel[..n], h) {
      i := NumberIsSomewhere(channel[..n], h, num);
    } else {
      i := n;
    }
  }

  // ---- A longer list of sent packets, a higher mark, a shorter channel ----

  lemma {:induction false} IdDispatchedWidens<B>(s: seq<Packet<B>>, t: seq<Packet<B>>, h: nat, g: nat, id: string)
    requires s <= t && h <= g && IdDispatched(s, h, id)
    ensures IdDispatched(t, g, id)
  {
    var i :| 0 <= i < h && i < |s| && s[i].Data? && s[i].id == id;
    assert t[i] == s[i];
  }

  lemma {:induction false} AcksWiden<B>(s: seq<Packet<B>>, t: seq<Packet<B>>, channel: seq<Packet<B>>, h: nat, g: nat)
    requires s <= t && h <= g && AcksAreHonest(s, channel, h)
    ensures AcksAreHonest(t, channel, g)
  {
    hide IdDispatched;
    forall i | 0 <= i < |channel| && channel[i].Ack? ensures IdDispatched(t, g, channel[i].id) {
      IdDispatchedWidens(s, t, h, g, channel[i].id);
    }
  }

  lemma {:induction false} ConfirmedWiden<B>(
    s: seq<Packet<B>>, t: seq<Packet<B>>, confirmed: seq<Packet<B>>, h: nat, g: nat)
    requires s <= t && h <= g && ConfirmedWereDispatched(s, confirmed, h)
    ensures ConfirmedWereDispatched(t, confirmed, g)
  {
    hide IdDispatched;
    forall i | 0 <= i < |confirmed| ensures WasSent(t, confirmed[i]) && IdDispatched(t, g, confirmed[i].id) {
      assert WasSent(s, confirmed[i]);
      IdDispatchedWidens(s, t, h, g, confirmed[i].id);
    }
  }

  lemma {:induction false} SentWidens<B>(
    s: seq<Packet<B>>, t: seq<Packet<B>>, tracked: Table<Packet<B>>, channel: seq<Packet<B>>)
    requires s <= t && TrackedWereSent(s, tracked) && Genuine(s, channel)
    ensures TrackedWereSent(t, tracked) && Genuine(t, channel)
  {
    assert forall p | WasSent(s, p) :: WasSent(t, p);
  }

  lemma {:induction false} GenuineAppends<B>(sent: seq<Packet<B>>, channel: seq<Packet<B>>, ps: seq<Packet<B>>)
    requires Genuine(sent, channel)
    requires forall i :: 0 <= i < |ps| && ps[i].Data? ==> ps[i].num == 0 || WasSent(sent, ps[i])
    ensures Genuine(sent, channel + ps)
  {
    hide WasSent;
  }

  lemma {:induction false} AcksAppend<B>(sent: seq<Packet<B>>, channel: seq<Packet<B>>, ps: seq<Packet<B>>, h: nat)
    requires AcksAreHonest(sent, channel, h)
    requires forall i :: 0 <= i < |ps| && ps[i].Ack? ==> IdDispatched(sent, h, ps[i].id)
    ensures AcksAreHonest(sent, channel + ps, h)
  {
    hide IdDispatched;
  }

  lemma {:induction false} AcksTail<B>(sent: seq<Packet<B>>, channel: seq<Packet<B>>, h: nat)
    requires channel != [] && AcksAreHonest(sent, channel, h)
    ensures AcksAreHonest(sent, channel[1..], h)
  {
    hide IdDispatched;
    assert forall i :: 0 <= i < |channel| - 1 ==> channel[1..][i] == channel[i + 1];
  }

  lemma {:induction false} GenuineTail<B>(sent: seq<Packet<B>>, channel: seq<Packet<B>>)
    requires channel != [] && Genuine(sent, channel)
    ensures Genuine(sent, channel[1..])
  {
    hide WasSent;
    assert forall i :: 0 <= i < |channel| - 1 ==> channel[1..][i] == channel[i + 1];
  }

  // ---- Each action keeps both directions ----

  lemma {:induction false} SendTrackedKeepsOutgoing<B>(l: Link<B>, act: Action<B>)
    requires OneWay(l) && act.SendTracked? && Can(l, act)
    ensures OneWay(Do(l, act))
  {
    hide NoGaps, High, Numbered, Genuine, AcksAreHonest, ConfirmedWereDispatched;
    var p := Stamped(l.a, act.id, act.body);
    var m := Do(l, act);
    AppendToChannel(l.ab, p, l.b.lastIn);
    assert m.sentA[..l.b.lastIn] == l.sentA[..l.b.lastIn];
    assert WasSent(m.sentA, p);
    SentWidens(l.sentA, m.sentA, l.a.tracked, l.ab);
    AcksWiden(l.sentA, m.sentA, l.ba, l.b.lastIn, l.b.lastIn);
    ConfirmedWiden(l.sentA, m.sentA, l.confirmedA, l.b.lastIn, l.b.lastIn);
    GenuineAppends(m.sentA, l.ab, [p]);
  }

  lemma {:induction false} SendPlainKeepsOutgoing<B>(l: Link<B>, act: Action<B>)
    requires OneWay(l) && act.SendPlain? && Can(l, act)
    ensures OneWay(Do(l, act))
  {
    AppendToChannel(l.ab, act.packet, l.b.lastIn);
  }

  lemma {:induction false} PollKeepsOutgoing<B>(l: Link<B>, act: Action<B>)
    requires OneWay(l) && act.Poll? && Can(l, act)
    ensures OneWay(Do(l, act))
  {
    var resent := Payloads(l.a.tracked, act.order);
    forall i | 0 <= i < |resent| ensures WasSent(l.sentA, resent[i]) && Seq(resent[i]) <= l.a.nextOut {
      assert act.order[i] in act.order;
    }
    AppendOld(l.ab, resent, l.b.lastIn);
    PollPartitions(l.a.tracked, act.nowMs);
  }

  /** What arriving packets do to the sending side: an ack confirms what was tracked under its id. */
  lemma {:induction false} ReceiveConfirms<B>(l: Link<B>)
    requires l.ba != [] && TrackedWereSent(l.sentA, l.a.tracked)
    requires AcksAreHonest(l.sentA, l.ba, l.b.lastIn) && ConfirmedWereDispatched(l.sentA, l.confirmedA, l.b.lastIn)
    ensures var r := Receive(l.a, l.ba[0]);
      && r.after.nextOut == l.a.nextOut && TrackedWereSent(l.sentA, r.after.tracked)
      && ConfirmedWereDispatched(l.sentA, l.confirmedA + r.acknowledged, l.b.lastIn)
  {
    hide WasSent, IdDispatched;
    var p, r := l.ba[0], Receive(l.a, l.ba[0]);
    if p.Ack? && p.id in l.a.tracked {
      assert IdDispatched(l.sentA, l.b.lastIn, p.id);
    }
  }

  lemma {:induction false} RepliesCarryNoData<B>(e: Endpoint<B>, p: Packet<B>)
    ensures forall q | q in Receive(e, p).replies :: !q.Data? && Seq(q) == 0
  {
  }

  lemma {:induction false} DeliverKeepsOutgoing<B>(l: Link<B>, act: Action<B>)
    requires OneWay(l) && act.Deliver? && Can(l, act)
    ensures OneWay(Do(l, act))
  {
    var r := Receive(l.a, l.ba[0]);
    RepliesCarryNoData(l.a, l.ba[0]);
    hide NoGaps, High, Numbered, Genuine, AcksAreHonest, ConfirmedWereDispatched, TrackedWereSent, SentInOrder, Receive;
    assert forall i :: 0 <= i < |r.replies| ==> r.replies[i] in r.replies;
    ReceiveConfirms(l);
    AcksTail(l.sentA, l.ba, l.b.lastIn);
    GenuineAppends(l.sentA, l.ab, r.replies);
    AppendOld(l.ab, r.replies, l.b.lastIn);
  }

  lemma {:induction false} SendsKeepIncoming<B>(l: Link<B>, act: Action<B>)
    requires OneWay(Mirror(l)) && !act.Deliver? && Can(l, act)
    requires OneWay(l)
    ensures OneWay(Mirror(Do(l, act)))
  {
    if act.Poll? {
      forall i | 0 <= i < |act.order| ensures Payloads(l.a.tracked, act.order)[i].Data? {
        assert act.order[i] in act.order;
      }
    }
  }

  lemma {:induction false} UnnumberedKeepsIncoming<B>(l: Link<B>)
    requires OneWay(Mirror(l)) && l.ba != [] && Seq(l.ba[0]) == 0
    ensures OneWay(Mirror(Do(l, Deliver)))
  {
    hide NoGaps, High, Numbered, Genuine, AcksAreHonest, ConfirmedWereDispatched, TrackedWereSent, SentInOrder;
    var p, m := l.ba[0], Do(l, Deliver);
    TakeFront(l.ba, l.a.lastIn);
    GenuineTail(l.sentB, l.ba);
    AcksAppend(l.sentB, l.ab, Receive(l.a, p).replies, l.a.lastIn);
    if p.Data? {
      NumberedAppend(l.gotA, p);
    } else {
      assert m.gotA == l.gotA;
    }
  }

  lemma {:induction false} DuplicateKeepsIncoming<B>(l: Link<B>)
    requires OneWay(Mirror(l)) && l.ba != [] && IsDuplicate(l.a, Seq(l.ba[0]))
    ensures OneWay(Mirror(Do(l, Deliver)))
  {
    GenuineHead(l.sentB, l.ba);
    hide NoGaps, High, Numbered, Genuine, AcksAreHonest, ConfirmedWereDispatched, TrackedWereSent, SentInOrder;
    var p, m := l.ba[0], Do(l, Deliver);
    TakeFront(l.ba, l.a.lastIn);
    GenuineTail(l.sentB, l.ba);
    assert m.gotA == l.gotA;
    IdOfDispatched(l.sentB, l.a.lastIn, p);
    AcksAppend(l.sentB, l.ab, Receive(l.a, p).replies, l.a.lastIn);
  }

  lemma {:induction false} ReceiveNew<B>(e: Endpoint<B>, p: Packet<B>)
    requires Seq(p) > e.lastIn
    ensures Receive(e, p) == Reaction(e.(lastIn := Seq(p)), AckFor(p.id, Seq(p)), [p], [])
  {
  }

  lemma {:induction false} NextInOrder<B>(sent: seq<Packet<B>>, p: Packet<B>, h: nat)
    requires WasSent(sent, p) && |sent| < TWO_31 && Seq(p) == h + 1
    ensures h < |sent| && p.num == h + 1 && sent[..h + 1] == sent[..h] + [p]
  {
  }

  lemma {:induction false} NewKeepsIncoming<B>(l: Link<B>)
    requires OneWay(Mirror(l)) && l.ba != [] && Seq(l.ba[0]) > l.a.lastIn
    ensures OneWay(Mirror(Do(l, Deliver)))
  {
    hide NoGaps, High, Numbered, Genuine, AcksAreHonest, ConfirmedWereDispatched, TrackedWereSent, IdDispatched,
      SentInOrder, Receive, WasSent;
    var p, m := l.ba[0], Do(l, Deliver);
    ReceiveNew(l.a, p);
    GenuineHead(l.sentB, l.ba);
    TakeFront(l.ba, l.a.lastIn);
    GenuineTail(l.sentB, l.ba);
    NumberedAppend(l.gotA, p);
    NextInOrder(l.sentB, p, l.a.lastIn);
    IdOfDispatched(l.sentB, m.a.lastIn, p);
    AcksWiden(l.sentB, l.sentB, l.ab, l.a.lastIn, m.a.lastIn);
    ConfirmedWiden(l.sentB, l.sentB, l.confirmedB, l.a.lastIn, m.a.lastIn);
    AcksAppend(l.sentB, l.ab, AckFor(p.id, Seq(p)), m.a.lastIn);
  }

  lemma {:induction false} GenuineHead<B>(sent: seq<Packet<B>>, channel: seq<Packet<B>>)
    requires channel != [] && Genuine(sent, channel) && Seq(channel[0]) > 0
    ensures WasSent(sent, channel[0])
  {
  }

  lemma {:induction false} IdOfDispatched<B>(sent: seq<Packet<B>>, lastIn: nat, p: Packet<B>)
    requires WasSent(sent, p) && p.num <= lastIn
    ensures IdDispatched(sent, lastIn, p.id)
  {
    assert sent[p.num - 1].id == p.id;
  }

  lemma {:induction false} DeliverKeepsIncoming<B>(l: Link<B>, act: Action<B>)
    requires OneWay(Mirror(l)) && act.Deliver? && Can(l, act)
    ensures OneWay(Mirror(Do(l, act)))
  {
    hide OneWay, Do;
    if Seq(l.ba[0]) == 0 {
      UnnumberedKeepsIncoming(l);
    } else if IsDuplicate(l.a, Seq(l.ba[0])) {
      DuplicateKeepsIncoming(l);
    } else {
      NewKeepsIncoming(l);
    }
  }

  // ---- Nothing tracked is left without an answer ----

  lemma {:induction false} AckStaysInFlight<B>(channel: seq<Packet<B>>, more: seq<Packet<B>>, id: string)
    requires AckInFlight(channel, id)
    ensures AckInFlight(channel + more, id)
    ensures !(channel[0].Ack? && channel[0].id == id) ==> AckInFlight(channel[1..], id)
  {
    var i :| 0 <= i < |channel| && channel[i].Ack? && channel[i].id == id;
    assert (channel + more)[i] == channel[i];
    if i > 0 {
      assert channel[1..][i - 1] == channel[i];
    }
  }

  lemma {:induction false} ActorStaysAnswered<B>(l: Link<B>, act: Action<B>)
    requires OneWay(l) && Answered(l) && Can(l, act)
    ensures Answered(Do(l, act))
  {
    hide NoGaps, High, Numbered, AckInFlight, Genuine, AcksAreHonest, ConfirmedWereDispatched;
    var m := Do(l, act);
    forall id | id in m.a.tracked && m.a.tracked[id].payload.num <= l.b.lastIn ensures AckInFlight(m.ba, id) {
      if act.Deliver? && AckInFlight(l.ba, id) {
        AckStaysInFlight(l.ba, [], id);
      }
    }
  }

  lemma {:induction false} ReceiverAnswers<B>(l: Link<B>, act: Action<B>)
    requires OneWay(Mirror(l)) && Answered(Mirror(l)) && Can(l, act)
    ensures Answered(Mirror(Do(l, act)))
  {
    hide NoGaps, High, Numbered, AckInFlight, AcksAreHonest, ConfirmedWereDispatched;
    var m := Do(l, act);
    forall id | id in l.b.tracked && l.b.tracked[id].payload.num <= m.a.lastIn ensures AckInFlight(m.ab, id) {
      if l.b.tracked[id].payload.num <= l.a.lastIn {
        assert l.ab <= m.ab && m.ab == l.ab + m.ab[|l.ab|..];
        AckStaysInFlight(l.ab, m.ab[|l.ab|..], id);
      } else {
        NewIsAcked(l, id);
      }
    }
  }

  lemma {:induction false} NewIsAcked<B>(l: Link<B>, id: string)
    requires OneWay(Mirror(l)) && l.ba != [] && id in l.b.tracked
    requires l.a.lastIn < l.b.tracked[id].payload.num <= Do(l, Deliver).a.lastIn
    ensures AckInFlight(Do(l, Deliver).ab, id)
  {
    hide NoGaps, High, Numbered, Genuine, AcksAreHonest, ConfirmedWereDispatched, Receive;
    var p, t := l.ba[0], l.b.tracked[id].payload;
    MarkMovesOnlyForNew(l.a, p);
    ReceiveNew(l.a, p);
    GenuineHead(l.sentB, l.ba);
    TakeFront(l.ba, l.a.lastIn);
    assert t.num == p.num && t == p;
    assert Do(l, Deliver).ab[|l.ab|] == Ack(id, p.num);
  }

  lemma {:induction false} MarkMovesOnlyForNew<B>(e: Endpoint<B>, p: Packet<B>)
    ensures Receive(e, p).after.lastIn != e.lastIn ==> Seq(p) > e.lastIn
  {
  }

  /** Every action of either side keeps both directions sound. */
  lemma {:induction false} DoKeepsSound<B>(l: Link<B>, act: Action<B>)
    requires Sound(l) && Can(l, act)
    ensures Sound(Do(l, act))
  {
    hide OneWay, Do, Answered;
    ActorStaysAnswered(l, act);
    ReceiverAnswers(l, act);
    match act {
      case SendTracked(_, _, _) => SendTrackedKeepsOutgoing(l, act); SendsKeepIncoming(l, act);
      case SendPlain(_) => SendPlainKeepsOutgoing(l, act); SendsKeepIncoming(l, act);
      case Poll(_, _) => PollKeepsOutgoing(l, act); SendsKeepIncoming(l, act);
      case Deliver => DeliverKeepsOutgoing(l, act); DeliverKeepsIncoming(l, act);
    }
  }

  // ---- Whole runs ----

  datatype Move<B> = Move(byA: bool, act: Action<B>)

  ghost predicate CanMove<B>(l: Link<B>, m: Move<B>) {
    if m.byA then Can(l, m.act) else Can(Mirror(l), m.act)
  }

  ghost function MoveOnce<B>(l: Link<B>, m: Move<B>): Link<B>
    requires CanMove(l, m)
  {
    if m.byA then Do(l, m.act) else Mirror(Do(Mirror(l), m.act))
  }

  ghost predicate CanRun<B>(l: Link<B>, moves: seq<Move<B>>)
    decreases |moves|
  {
    moves == [] || (CanMove(l, moves[0]) && CanRun(MoveOnce(l, moves[0]), moves[1..]))
  }

  ghost function Run<B>(l: Link<B>, moves: seq<Move<B>>): Link<B>
    requires CanRun(l, moves)
    decreases |moves|
  {
    if moves == [] then l else Run(MoveOnce(l, moves[0]), moves[1..])
  }

  lemma {:induction false} RunKeepsSound<B>(l: Link<B>, moves: seq<Move<B>>)
    requires Sound(l) && CanRun(l, moves)
    ensures Sound(Run(l, moves))
    decreases |moves|
  {
    if moves != [] {
      hide OneWay, Do, Can;
      if moves[0].byA {
        DoKeepsSound(l, moves[0].act);
      } else {
        DoKeepsSound(Mirror(l), moves[0].act);
      }
      RunKeepsSound(MoveOnce(l, moves[0]), moves[1..]);
    }
  }

  lemma {:induction false} FreshIsSound<B>()
    ensures Sound<B>(Fresh())
  {
  }

  /** The tracked packets `b` has dispatched are exactly the first `lastIn` that `a` sent, with their
      contents, in order and each once; every other one is still in flight, so once no numbered packet is in
      flight `b` has dispatched them all. */
  ghost predicate DeliveredOnceInOrder<B>(l: Link<B>) {
    && l.b.lastIn <= |l.sentA|
    && Numbered(l.gotB) == l.sentA[..l.b.lastIn]
    && (forall n :: l.b.lastIn <= n < |l.sentA| ==> l.sentA[n] in l.ab)
    && (Numbered(l.ab) == [] ==> Numbered(l.gotB) == l.sentA)
  }

  lemma {:induction false} SoundDelivers<B>(l: Link<B>)
    requires OneWay(l)
    ensures DeliveredOnceInOrder(l)
  {
    forall n | l.b.lastIn <= n < |l.sentA| ensures l.sentA[n] in l.ab {
      InFlight(l, n);
    }
    if l.b.lastIn < |l.sentA| {
      InFlight(l, l.b.lastIn);
    } else {
      assert l.sentA[..l.b.lastIn] == l.sentA;
    }
  }

  lemma {:induction false} QuietMeansAcknowledged<B>(l: Link<B>)
    requires Sound(l) && l.ab == [] && l.ba == []
    ensures l.a.tracked == map[] && Numbered(l.gotB) == l.sentA
    ensures l.b.tracked == map[] && Numbered(l.gotA) == l.sentB
  {
    assert l.sentA[..l.b.lastIn] == l.sentA && l.sentB[..l.a.lastIn] == l.sentB;
  }

  /** In every run, once nothing is in flight nothing waits to be sent again: everything either side sent has
      been dispatched by the other, and acknowledged or given up. */
  lemma {:induction false} RunsSettle<B>(moves: seq<Move<B>>)
    requires CanRun(Fresh<B>(), moves) && Run(Fresh(), moves).ab == [] && Run(Fresh(), moves).ba == []
    ensures var l := Run(Fresh(), moves);
      && l.a.tracked == map[] && Numbered(l.gotB) == l.sentA
      && l.b.tracked == map[] && Numbered(l.gotA) == l.sentB
  {
    FreshIsSound<B>();
    RunKeepsSound(Fresh(), moves);
    QuietMeansAcknowledged(Run(Fresh(), moves));
  }

  /** How many deliveries a channel can still cause: a packet that calls for a reply counts twice. */
  function Weight<B>(channel: seq<Packet<B>>): nat {
    if channel == [] then 0 else (if channel[0].Data? || channel[0].Ping? then 2 else 1) + Weight(channel[1..])
  }

  lemma {:induction false} WeightConcat<B>(a: seq<Packet<B>>, b: seq<Packet<B>>)
    ensures Weight(a + b) == Weight(a) + Weight(b)
  {
    if a == [] {
      assert a + b == b;
    } else {
      assert (a + b)[1..] == a[1..] + b;
      WeightConcat(a[1..], b);
    }
  }

  predicate OnlyDeliveries<B>(moves: seq<Move<B>>) {
    forall i :: 0 <= i < |moves| ==> moves[i].act.Deliver?
  }

  lemma {:induction false} DeliveryLightens<B>(l: Link<B>)
    requires l.ba != []
    ensures var m := Do(l, Deliver); Weight(m.ab) + Weight(m.ba) < Weight(l.ab) + Weight(l.ba)
  {
    var replies := Receive(l.a, l.ba[0]).replies;
    WeightConcat(l.ab, replies);
    assert replies == [] || replies == [replies[0]];
    if replies != [] {
      assert replies[1..] == [];
    }
  }

  /** From every sound link, delivering what is in flight, and the replies to it, comes to an end, and then
      everything either side has sent is dispatched by the other, and acknowledged or given up. */
  lemma {:induction false} EveryLinkCanSettle<B>(l: Link<B>) returns (moves: seq<Move<B>>)
    requires Sound(l)
    ensures OnlyDeliveries(moves) && CanRun(l, moves)
    ensures var end := Run(l, moves);
      && end.ab == [] && end.ba == [] && end.sentA == l.sentA && end.sentB == l.sentB
      && end.a.tracked == map[] && Numbered(end.gotB) == l.sentA
      && end.b.tracked == map[] && Numbered(end.gotA) == l.sentB
    decreases Weight(l.ab) + Weight(l.ba)
  {
    if l.ab == [] && l.ba == [] {
      moves := [];
      QuietMeansAcknowledged(l);
    } else {
      hide OneWay, Answered;
      var first: Move<B> := Move(l.ba != [], Deliver);
      var next := MoveOnce(l, first);
      if l.ba != [] {
        DoKeepsSound(l, Deliver);
        DeliveryLightens(l);
      } else {
        DoKeepsSound(Mirror(l), Deliver);
        DeliveryLightens(Mirror(l));
      }
      var rest := EveryLinkCanSettle(next);
      moves := [first] + rest;
      assert moves[1..] == rest;
    }
  }

  /** Every run delivers tracked packets exactly once and in order, in both directions. */
  lemma {:induction false} ExactlyOnceInOrder<B>(moves: seq<Move<B>>)
    requires CanRun(Fresh<B>(), moves)
    ensures DeliveredOnceInOrder(Run(Fresh(), moves))
    ensures DeliveredOnceInOrder(Mirror(Run(Fresh(), moves)))
  {
    FreshIsSound<B>();
    RunKeepsSound(Fresh(), moves);
    SoundDelivers(Run(Fresh(), moves));
    SoundDelivers(Mirror(Run(Fresh(), moves)));
  }

  lemma {:induction false} InFlight<B>(l: Link<B>, n: nat)
    requires OneWay(l) && l.b.lastIn <= n < |l.sentA|
    ensures l.sentA[n] in l.ab && Numbered(l.ab) != []
  {
    var i := NumberIsSomewhere(l.ab, l.b.lastIn, n + 1);
    assert WasSent(l.sentA, l.ab[i]);
    NumberedFinds(l.ab, i);
  }

  lemma {:induction false} NumberedFinds<B>(ps: seq<Packet<B>>, i: nat)
    requires i < |ps| && Seq(ps[i]) > 0
    ensures ps[i] in Numbered(ps)
    decreases |ps|
  {
    if i < |ps| - 1 {
      NumberedFinds(ps[..|ps| - 1], i);
    }
  }

  predicate DistinctIds<B>(sent: seq<Packet<B>>) {
    forall i, j :: 0 <= i < j < |sent| && sent[i].Data? && sent[j].Data? ==> sent[i].id != sent[j].id
  }

  predicate SomeWithId<B>(ps: seq<Packet<B>>, id: string) {
    exists i :: 0 <= i < |ps| && ps[i].Data? && ps[i].id == id
  }

  /** Each payload `a` was told is acknowledged has an id that `b` has dispatched. If `a` never used an id
      twice, `b` has dispatched that very packet. */
  ghost predicate AckedWasDispatched<B>(l: Link<B>) {
    forall i :: 0 <= i < |l.confirmedA| ==>
      && l.confirmedA[i].Data?
      && SomeWithId(Numbered(l.gotB), l.confirmedA[i].id)
      && (DistinctIds(l.sentA) ==> l.confirmedA[i] in Numbered(l.gotB))
  }

  /** In every run, in both directions, an ack means dispatched. */
  lemma {:induction false} AcksAreTruthful<B>(moves: seq<Move<B>>)
    requires CanRun(Fresh<B>(), moves)
    ensures AckedWasDispatched(Run(Fresh(), moves))
    ensures AckedWasDispatched(Mirror(Run(Fresh(), moves)))
  {
    FreshIsSound<B>();
    RunKeepsSound(Fresh(), moves);
    var l: Link<B> := Run(Fresh(), moves);
    forall i | 0 <= i < |l.confirmedA|
      ensures && l.confirmedA[i].Data? && SomeWithId(Numbered(l.gotB), l.confirmedA[i].id)
              && (DistinctIds(l.sentA) ==> l.confirmedA[i] in Numbered(l.gotB))
    {
      ConfirmedPacket(l, i);
    }
    forall i | 0 <= i < |l.confirmedB|
      ensures && l.confirmedB[i].Data? && SomeWithId(Numbered(l.gotA), l.confirmedB[i].id)
              && (DistinctIds(l.sentB) ==> l.confirmedB[i] in Numbered(l.gotA))
    {
      ConfirmedPacket(Mirror(l), i);
    }
  }

  lemma {:induction false} ConfirmedPacket<B>(l: Link<B>, k: nat)
    requires OneWay(l) && k < |l.confirmedA|
    ensures var p := l.confirmedA[k];
      && p.Data?
      && SomeWithId(Numbered(l.gotB), p.id)
      && (DistinctIds(l.sentA) ==> p in Numbered(l.gotB))
  {
    var p := l.confirmedA[k];
    assert WasSent(l.sentA, p) && IdDispatched(l.sentA, l.b.lastIn, p.id);
    var i :| 0 <= i < l.b.lastIn && i < |l.sentA| && l.sentA[i].Data? && l.sentA[i].id == p.id;
    assert Numbered(l.gotB)[i] == l.sentA[i];
  }

  // ---- When exactly an ack is of the very packet ----

  /** Whatever else happens, once `a` has sent these packets each payload it was told is acknowledged is a
      packet that `b` has dispatched. */
  ghost predicate AcksAreExact<B(!new)>(sent: seq<Packet<B>>) {
    forall moves: seq<Move<B>> | CanRun(Fresh(), moves) && Run(Fresh(), moves).sentA == sent ::
      ConfirmedExactly(Run(Fresh(), moves))
  }

  ghost predicate ConfirmedExactly<B>(l: Link<B>) {
    forall i :: 0 <= i < |l.confirmedA| ==> IsAmong(Numbered(l.gotB), l.confirmedA[i])
  }

  ghost predicate IsAmong<B>(ps: seq<Packet<B>>, p: Packet<B>) {
    exists i :: 0 <= i < |ps| && ps[i] == p
  }

  ghost predicate Reachable<B(!new)>(l: Link<B>) {
    exists moves: seq<Move<B>> :: CanRun(Fresh(), moves) && Run(Fresh(), moves) == l
  }

  lemma {:induction false} RunAppend<B>(l: Link<B>, moves: seq<Move<B>>, m: Move<B>)
    requires CanRun(l, moves) && CanMove(Run(l, moves), m)
    ensures CanRun(l, moves + [m]) && Run(l, moves + [m]) == MoveOnce(Run(l, moves), m)
    decreases |moves|
  {
    hide CanMove, MoveOnce;
    var all := moves + [m];
    if moves == [] {
      assert all == [m] && all[1..] == [];
    } else {
      assert all[0] == moves[0] && all[1..] == moves[1..] + [m];
      RunAppend(MoveOnce(l, moves[0]), moves[1..], m);
    }
  }

  lemma {:induction false} ReachOneMore<B(!new)>(l: Link<B>, m: Move<B>)
    requires Reachable(l) && CanMove(l, m)
    ensures Reachable(MoveOnce(l, m))
  {
    hide CanMove, MoveOnce;
    var moves: seq<Move<B>> :| CanRun(Fresh(), moves) && Run(Fresh(), moves) == l;
    RunAppend(Fresh(), moves, m);
  }

  /** The tracking table after these sends: each id has the last packet sent under it. */
  function TrackedAfter<B>(sent: seq<Packet<B>>): Table<Packet<B>>
    requires forall i :: 0 <= i < |sent| ==> sent[i].Data?
  {
    if sent == [] then map[]
    else TrackedAfter(sent[..|sent| - 1])[sent[|sent| - 1].id := NewlyTracked(sent[|sent| - 1], 0)]
  }

  ghost function AllSent<B>(sent: seq<Packet<B>>): Link<B>
    requires SentInOrder(sent)
  {
    var l: Link<B> := Fresh();
    l.(a := Endpoint(|sent|, 0, TrackedAfter(sent)), ab := sent, sentA := sent)
  }

  lemma {:induction false} SendAll<B(!new)>(sent: seq<Packet<B>>)
    requires SentInOrder(sent) && |sent| < TWO_31
    ensures Reachable(AllSent(sent))
  {
    if sent == [] {
      assert CanRun<B>(Fresh(), []) && Run<B>(Fresh(), []) == AllSent(sent);
    } else {
      var n := |sent| - 1;
      SendAll(sent[..n]);
      var m := Move(true, SendTracked(sent[n].id, sent[n].body, 0));
      ReachOneMore(AllSent(sent[..n]), m);
      assert sent == sent[..n] + [sent[n]];
      assert MoveOnce(AllSent(sent[..n]), m) == AllSent(sent);
    }
  }

  function AcksOf<B>(sent: seq<Packet<B>>): seq<Packet<B>>
    requires forall i :: 0 <= i < |sent| ==> sent[i].Data?
  {
    seq(|sent|, i requires 0 <= i < |sent| => Ack(sent[i].id, i + 1))
  }

  /** `b` has received the first `d` of them and acknowledged each. */
  ghost function Received<B>(sent: seq<Packet<B>>, d: nat): Link<B>
    requires SentInOrder(sent) && d <= |sent|
  {
    var l := AllSent(sent);
    l.(b := l.b.(lastIn := d), ab := sent[d..], ba := AcksOf(sent[..d]), gotB := sent[..d])
  }

  lemma {:induction false} ReceiveSome<B(!new)>(sent: seq<Packet<B>>, d: nat)
    requires SentInOrder(sent) && |sent| < TWO_31 && d <= |sent|
    ensures Reachable(Received(sent, d))
  {
    if d == 0 {
      SendAll(sent);
      assert Received(sent, 0) == AllSent(sent);
    } else {
      var k := d - 1;
      ReceiveSome(sent, k);
      var before := Received(sent, k);
      var m: Move<B> := Move(false, Deliver);
      assert before.ab[0] == sent[k] && before.ab[1..] == sent[d..];
      ReachOneMore(before, m);
      assert sent[..d] == sent[..k] + [sent[k]];
      assert AcksOf(sent[..d]) == AcksOf(sent[..k]) + [Ack(sent[k].id, d)];
      assert MoveOnce(before, m) == Received(sent, d);
    }
  }

  /** `a` takes acks of packets with other ids, which leaves the packet tracked under `id` alone. */
  lemma {:induction false} TakeAcks<B(!new)>(sent: seq<Packet<B>>, d: nat, m: nat, id: string) returns (l: Link<B>)
    requires SentInOrder(sent) && |sent| < TWO_31 && m < d <= |sent|
    requires (forall i :: 0 <= i < m ==> sent[i].id != id) && id in TrackedAfter(sent)
    ensures Reachable(l) && l.sentA == sent && l.gotB == sent[..d] && l.ba == AcksOf(sent[..d])[m..]
    ensures id in l.a.tracked && l.a.tracked[id] == TrackedAfter(sent)[id]
  {
    if m == 0 {
      ReceiveSome(sent, d);
      l := Received(sent, d);
    } else {
      var before := TakeAcks(sent, d, m - 1, id);
      var acks := AcksOf(sent[..d]);
      assert before.ba[0] == acks[m - 1] && before.ba[1..] == acks[m..];
      ReachOneMore(before, Move(true, Deliver));
      l := MoveOnce(before, Move(true, Deliver));
    }
  }

  lemma {:induction false} TrackedIsLast<B>(sent: seq<Packet<B>>, j: nat)
    requires SentInOrder(sent) && j < |sent|
    ensures sent[j].id in TrackedAfter(sent)
    ensures var p := TrackedAfter(sent)[sent[j].id].payload; p.Data? && p.num > j
  {
    var n := |sent| - 1;
    if j < n {
      TrackedIsLast(sent[..n], j);
    }
  }

  lemma {:induction false} FirstWithId<B>(sent: seq<Packet<B>>, i: nat) returns (k: nat)
    requires SentInOrder(sent) && i < |sent|
    ensures k <= i && sent[k].id == sent[i].id && forall m :: 0 <= m < k ==> sent[m].id != sent[i].id
  {
    k := i;
    for n := i downto 0
      invariant n <= k <= i && sent[k].id == sent[i].id
      invariant forall m :: n <= m < k ==> sent[m].id != sent[i].id
    {
      if sent[n].id == sent[i].id {
        k := n;
      }
    }
  }

  /** With an id used twice, there is a run in which the ack of its first packet confirms its last, which `b`
      has not seen. */
  lemma {:induction false} ReusedIdIsConfirmedUnseen<B(!new)>(sent: seq<Packet<B>>, i: nat, j: nat) returns (l: Link<B>)
    requires SentInOrder(sent) && |sent| < TWO_31 && i < j < |sent| && sent[i].id == sent[j].id
    ensures Reachable(l) && l.sentA == sent && !ConfirmedExactly(l)
  {
    var k := FirstWithId(sent, i);
    var id := sent[i].id;
    TrackedIsLast(sent, j);
    var before := TakeAcks(sent, k + 1, k, id);
    assert before.ba[0] == AcksOf(sent[..k + 1])[k] == Ack(id, k + 1);
    ReachOneMore(before, Move(true, Deliver));
    l := MoveOnce(before, Move(true, Deliver));
    var p := TrackedAfter(sent)[id].payload;
    assert l.confirmedA[|l.confirmedA| - 1] == p;
    NumberedOfPrefix(sent, k + 1);
    assert !IsAmong(Numbered(l.gotB), p);
  }

  lemma {:induction false} NumberedOfPrefix<B>(sent: seq<Packet<B>>, d: nat)
    requires SentInOrder(sent) && |sent| < TWO_31 && d <= |sent|
    ensures Numbered(sent[..d]) == sent[..d]
  {
    if d > 0 {
      NumberedOfPrefix(sent, d - 1);
      assert sent[..d] == sent[..d - 1] + [sent[d - 1]];
      NumberedAppend(sent[..d - 1], sent[d - 1]);
    }
  }

  lemma {:induction false} DistinctIdsAreExact<B>(l: Link<B>)
    requires OneWay(l) && DistinctIds(l.sentA)
    ensures ConfirmedExactly(l)
  {
    forall i | 0 <= i < |l.confirmedA| ensures IsAmong(Numbered(l.gotB), l.confirmedA[i]) {
      ConfirmedPacket(l, i);
      assert l.confirmedA[i] in Numbered(l.gotB);
    }
  }

  /** Acks name only the id. Every ack is of a packet that was dispatched, in every run with these sends,
      exactly if no two of them have one id. */
  lemma {:induction false} AcksAreExactIff<B(!new)>(sent: seq<Packet<B>>)
    requires SentInOrder(sent) && |sent| < TWO_31
    ensures AcksAreExact(sent) <==> DistinctIds(sent)
  {
    hide OneWay, ConfirmedExactly, CanRun, Run, SentInOrder;
    if DistinctIds(sent) {
      forall moves: seq<Move<B>> | CanRun(Fresh(), moves) && Run(Fresh(), moves).sentA == sent
        ensures ConfirmedExactly(Run(Fresh(), moves))
      {
        FreshIsSound<B>();
        RunKeepsSound(Fresh(), moves);
        DistinctIdsAreExact(Run(Fresh(), moves));
      }
    } else {
      var i, j :| 0 <= i < j < |sent| && sent[i].Data? && sent[j].Data? && sent[i].id == sent[j].id;
      var l := ReusedIdIsConfirmedUnseen(sent, i, j);
    }
  }

  /** The shortest case: of two packets under one id the second is confirmed by the ack of the first. */
  lemma {:induction false} ReusedIdConfirmsTheUnseen<B>(id: string, first: B, second: B)
    requires id != "" && first != second
    ensures var moves := [Move(true, SendTracked(id, first, 0)), Move(true, SendTracked(id, second, 0)),
                          Move(false, Deliver), Move(true, Deliver)];
      && CanRun(Fresh(), moves)
      && Run(Fresh(), moves).confirmedA == [Data(id, 2, second)]
      && Run(Fresh(), moves).gotB == [Data(id, 1, first)]
  {
    var one, two := Data(id, 1, first), Data(id, 2, second);
    var l0: Link<B> := Fresh();
    var m0, m1 := Move(true, SendTracked(id, first, 0)), Move(true, SendTracked(id, second, 0));
    var m2: Move<B>, m3: Move<B> := Move(false, Deliver), Move(true, Deliver);
    var l1 := MoveOnce(l0, m0);
    var l2 := MoveOnce(l1, m1);
    assert l2.ab == [one, two];
    var l3 := MoveOnce(l2, m2);
    assert l3.ba == [Ack(id, 1)] && l3.gotB == [one];
    var l4 := MoveOnce(l3, m3);
    assert l4.confirmedA == [two] && l4.gotB == [one];
    assert [m3][1..] == [] && [m2, m3][1..] == [m3];
    assert [m1, m2, m3][1..] == [m2, m3] && [m0, m1, m2, m3][1..] == [m1, m2, m3];
    assert CanRun(l3, [m3]) && Run(l3, [m3]) == l4;
    assert CanRun(l2, [m2, m3]) && Run(l2, [m2, m3]) == l4;
    assert CanRun(l1, [m1, m2, m3]) && Run(l1, [m1, m2, m3]) == l4;
  }

  // ---- Every ping gets its pong ----

  /** The pings `a` sends in one move, and the pongs that reach it. */
  function PingsSentIn<B>(m: Move<B>): nat {
    if m.byA && m.act.SendPlain? && m.act.packet.Ping? then 1 else 0
  }

  function PongsReceivedIn<B>(l: Link<B>, m: Move<B>): nat {
    if m.byA && m.act.Deliver? && l.ba != [] && l.ba[0].Pong? then 1 else 0
  }

  function PingsSent<B>(moves: seq<Move<B>>): nat
    decreases |moves|
  {
    if moves == [] then 0 else PingsSentIn(moves[0]) + PingsSent(moves[1..])
  }

  ghost function PongsReceived<B>(l: Link<B>, moves: seq<Move<B>>): nat
    requires CanRun(l, moves)
    decreases |moves|
  {
    if moves == [] then 0 else PongsReceivedIn(l, moves[0]) + PongsReceived(MoveOnce(l, moves[0]), moves[1..])
  }

  /** The pings of `a` not yet answered: on their way, or their pongs are. */
  function OpenPings<B>(l: Link<B>): nat { Pings(l.ab) + Pongs(l.ba) }

  lemma {:induction false} ResentHoldNoPings<B>(l: Link<B>, order: seq<string>)
    requires TrackedWereSent(l.sentA, l.a.tracked) && forall id | id in order :: id in l.a.tracked
    ensures Pings(Payloads(l.a.tracked, order)) == Pongs(Payloads(l.a.tracked, order)) == 0
  {
    if order != [] {
      var ps := Payloads(l.a.tracked, order);
      assert order[0] in order && WasSent(l.sentA, ps[0]);
      assert ps[1..] == Payloads(l.a.tracked, order[1..]);
      ResentHoldNoPings(l, order[1..]);
    }
  }

  lemma {:induction false} OnePacket<B>(p: Packet<B>)
    ensures Pings([p]) == (if p.Ping? then 1 else 0) && Pongs([p]) == if p.Pong? then 1 else 0
  {
    assert [p][1..] == [];
  }

  /** What one action of `a` does to the pings of either side. */
  lemma {:induction false} ActingCountsPings<B>(l: Link<B>, act: Action<B>)
    requires Can(l, act) && TrackedWereSent(l.sentA, l.a.tracked)
    ensures var m := Do(l, act);
      && OpenPings(m) + PongsReceivedIn(l, Move(true, act)) == OpenPings(l) + PingsSentIn(Move(true, act))
      && OpenPings(Mirror(m)) == OpenPings(Mirror(l))
  {
    match act {
      case SendTracked(id, body, _) =>
        OnePacket(Stamped(l.a, id, body));
        PingsConcat(l.ab, [Stamped(l.a, id, body)]);
      case SendPlain(p) =>
        OnePacket(p);
        PingsConcat(l.ab, [p]);
      case Poll(order, _) =>
        assert forall id | id in order :: id in l.a.tracked;
        ResentHoldNoPings(l, order);
        PingsConcat(l.ab, Payloads(l.a.tracked, order));
      case Deliver =>
        OnePingAnswered(l.a, l.ba[0]);
        PingsConcat(l.ab, Receive(l.a, l.ba[0]).replies);
        hide Receive;
    }
  }

  lemma {:induction false} SoundTracksSent<B>(l: Link<B>)
    requires Sound(l)
    ensures TrackedWereSent(l.sentA, l.a.tracked) && TrackedWereSent(l.sentB, l.b.tracked)
  {
    hide NoGaps, High, Numbered, Genuine, AcksAreHonest, ConfirmedWereDispatched, SentInOrder, TrackedWereSent;
  }

  lemma {:induction false} MoveCountsPings<B>(l: Link<B>, m: Move<B>)
    requires CanMove(l, m) && Sound(l)
    ensures OpenPings(MoveOnce(l, m)) + PongsReceivedIn(l, m) == OpenPings(l) + PingsSentIn(m)
  {
    hide Sound, Can, Do, TrackedWereSent, OpenPings;
    SoundTracksSent(l);
    if m.byA {
      ActingCountsPings(l, m.act);
    } else {
      ActingCountsPings(Mirror(l), m.act);
    }
  }

  lemma {:induction false} RunCountsPings<B>(l: Link<B>, moves: seq<Move<B>>)
    requires CanRun(l, moves) && Sound(l)
    ensures OpenPings(Run(l, moves)) + PongsReceived(l, moves) == OpenPings(l) + PingsSent(moves)
    decreases |moves|
  {
    if moves != [] {
      hide Sound, CanMove, MoveOnce, OpenPings, PongsReceivedIn;
      MoveCountsPings(l, moves[0]);
      MoveKeepsSound(l, moves[0]);
      RunCountsPings(MoveOnce(l, moves[0]), moves[1..]);
    }
  }

  lemma {:induction false} MoveKeepsSound<B>(l: Link<B>, m: Move<B>)
    requires CanMove(l, m) && Sound(l)
    ensures Sound(MoveOnce(l, m))
  {
    hide OneWay, Do, Can, Answered;
    if m.byA {
      DoKeepsSound(l, m.act);
    } else {
      DoKeepsSound(Mirror(l), m.act);
    }
  }

  /** The same moves seen from the other end. */
  function Mirrored<B>(moves: seq<Move<B>>): (r: seq<Move<B>>)
    ensures |r| == |moves|
  {
    seq(|moves|, i requires 0 <= i < |moves| => Move(!moves[i].byA, moves[i].act))
  }

  lemma {:induction false} MirroredRun<B>(l: Link<B>, moves: seq<Move<B>>)
    requires CanRun(l, moves)
    ensures CanRun(Mirror(l), Mirrored(moves)) && Run(Mirror(l), Mirrored(moves)) == Mirror(Run(l, moves))
    decreases |moves|
  {
    if moves != [] {
      hide Do, Can;
      var rest := Mirrored(moves)[1..];
      assert rest == Mirrored(moves[1..]);
      assert MoveOnce(Mirror(l), Mirrored(moves)[0]) == Mirror(MoveOnce(l, moves[0]));
      MirroredRun(MoveOnce(l, moves[0]), moves[1..]);
    }
  }

  /** In every run, for either end: the pings it has sent are the pongs it has received and those still open. So
      once nothing is in flight every ping has had its pong. */
  lemma {:induction false} EveryPingGetsItsPong<B>(moves: seq<Move<B>>)
    requires CanRun(Fresh<B>(), moves)
    ensures var l := Run(Fresh(), moves);
      && PingsSent(moves) == PongsReceived(Fresh(), moves) + Pings(l.ab) + Pongs(l.ba)
      && CanRun(Mirror(Fresh<B>()), Mirrored(moves))
      && PingsSent(Mirrored(moves)) == PongsReceived(Mirror(Fresh()), Mirrored(moves)) + Pings(l.ba) + Pongs(l.ab)
      && (l.ab == [] && l.ba == [] ==>
            && PingsSent(moves) == PongsReceived(Fresh(), moves)
            && PingsSent(Mirrored(moves)) == PongsReceived(Mirror(Fresh()), Mirrored(moves)))
  {
    FreshIsSound<B>();
    RunCountsPings(Fresh<B>(), moves);
    MirroredRun(Fresh<B>(), moves);
    RunCountsPings(Mirror(Fresh<B>()), Mirrored(moves));
  }
}
