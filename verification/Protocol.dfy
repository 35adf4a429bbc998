/** Acknowledged delivery on top of one connection. The client (`processPacket`, `sendTracked` in
    Client/networkclient.cpp with Client/networktransportstate.cpp) and the server
    (`processIncomingPacket`, `sendTracked` in Server/connection.cpp) follow the same rules, given here
    as functions on one endpoint's state. */
module Protocol {
  import opened Bits
  import opened Numbers
  import opened Tracking

  const TWO_31: int := 0x8000_0000

  /** `Data` is every packet that is not an ack, a ping or a pong. A missing or non-integral "seq" field
      is read as 0. */
  datatype Packet<B> = Ack(id: string, num: int) | Ping | Pong | Data(id: string, num: int, body: B)

  /** `quint32 seq = value.toInt()`: a number outside the int range reads as 0, a negative one wraps. */
  function ReadSeq(num: int): (r: nat)
    ensures r < TWO_32
    ensures 0 <= num < TWO_31 ==> r == num
  {
    if num < -TWO_31 || num >= TWO_31 then 0
    else if num < 0 then num + TWO_32
    else num
  }

  /** The sequence number a receiver acts on; 0 for a packet that carries none. */
  function Seq<B>(p: Packet<B>): nat {
    if p.Data? then ReadSeq(p.num) else 0
  }

  datatype Endpoint<B> = Endpoint(nextOut: nat, lastIn: nat, tracked: Table<Packet<B>>)

  function NewEndpoint<B>(): Endpoint<B> { Endpoint(0, 0, map[]) }

  /** The counter is a quint32. */
  function NextSeq(n: nat): nat { (n + 1) % TWO_32 }

  /** The packet as it is put on the wire. */
  function Stamped<B>(e: Endpoint<B>, id: string, body: B): Packet<B> {
    Data(id, NextSeq(e.nextOut), body)
  }

  function AfterSendTracked<B>(e: Endpoint<B>, id: string, body: B, nowMs: int): Endpoint<B> {
    var p := Stamped(e, id, body);
    Endpoint(NextSeq(e.nextOut), e.lastIn, e.tracked[id := NewlyTracked(p, nowMs)])
  }

  /** The payloads of the listed packets, in the order listed. */
  function Payloads<B>(tracked: Table<Packet<B>>, order: seq<string>): (ps: seq<Packet<B>>)
    requires forall id | id in order :: id in tracked
    ensures |ps| == |order| && forall i :: 0 <= i < |order| ==> ps[i] == tracked[order[i]].payload
  {
    if order == [] then [] else [tracked[order[0]].payload] + Payloads(tracked, order[1..])
  }

  /** What one received packet makes an endpoint do. */
  datatype Reaction<B> = Reaction(after: Endpoint<B>, replies: seq<Packet<B>>, dispatched: seq<Packet<B>>,
                                  acknowledged: seq<Packet<B>>)

  function AckFor<B>(id: string, num: nat): seq<Packet<B>> {
    if id == "" then [] else [Ack(id, num)]
  }

  predicate IsDuplicate<B>(e: Endpoint<B>, num: nat) { 0 < num <= e.lastIn }

  function Receive<B>(e: Endpoint<B>, p: Packet<B>): Reaction<B> {
    match p
    case Ack(id, _) =>
      if id in e.tracked then Reaction(e.(tracked := e.tracked - {id}), [], [], [e.tracked[id].payload])
      else Reaction(e, [], [], [])
    case Pong => Reaction(e, [], [], [])
    case Ping => Reaction(e, [Pong], [], [])
    case Data(id, _, _) =>
      var num := Seq(p);
      if num == 0 then Reaction(e, [], [p], [])
      else if IsDuplicate(e, num) then Reaction(e, AckFor(id, num), [], [])
      else Reaction(e.(lastIn := num), AckFor(id, num), [p], [])
  }

  /** Everything a stream of packets makes an endpoint do. */
  function ReceiveAll<B>(e: Endpoint<B>, ps: seq<Packet<B>>): Reaction<B>
    decreases |ps|
  {
    if ps == [] then Reaction(e, [], [], [])
    else
      var first := Receive(e, ps[0]);
      var rest := ReceiveAll(first.after, ps[1..]);
      Reaction(rest.after, first.replies + rest.replies, first.dispatched + rest.dispatched,
               first.acknowledged + rest.acknowledged)
  }

  /** The packets of a list that carry a sequence number. */
  function Numbered<B>(ps: seq<Packet<B>>): seq<Packet<B>> {
    if ps == [] then []
    else if Seq(ps[|ps| - 1]) > 0 then Numbered(ps[..|ps| - 1]) + [ps[|ps| - 1]]
    else Numbered(ps[..|ps| - 1])
  }

  lemma {:induction false} NumberedConcat<B>(a: seq<Packet<B>>, b: seq<Packet<B>>)
    ensures Numbered(a + b) == Numbered(a) + Numbered(b)
  {
    if b == [] {
      assert a + b == a;
    } else {
      NumberedConcat(a, b[..|b| - 1]);
      assert (a + b)[..|a + b| - 1] == a + b[..|b| - 1];
    }
  }

  lemma {:induction false} NumberedAppend<B>(a: seq<Packet<B>>, p: Packet<B>)
    ensures Numbered(a + [p]) == if Seq(p) > 0 then Numbered(a) + [p] else Numbered(a)
  {
    assert (a + [p])[..|a|] == a;
  }

  // ---- What one receiver does with any stream at all ----

  predicate Increasing<B>(ps: seq<Packet<B>>) {
    forall i, j :: 0 <= i < j < |ps| ==> Seq(ps[i]) < Seq(ps[j])
  }

  /** The largest sequence number seen once `ps` has arrived at high-water mark `h`. */
  function High<B>(ps: seq<Packet<B>>, h: nat): (r: nat)
    ensures h <= r
  {
    if ps == [] then h
    else
      var n := |ps| - 1;
      var before := High(ps[..n], h);
      if Seq(ps[n]) > before then Seq(ps[n]) else before
  }

  lemma {:induction false} HighIsMaximum<B>(ps: seq<Packet<B>>, h: nat)
    ensures forall i :: 0 <= i < |ps| ==> Seq(ps[i]) <= High(ps, h)
    ensures High(ps, h) == h || exists i :: 0 <= i < |ps| && Seq(ps[i]) == High(ps, h)
  {
    if ps != [] {
      var n := |ps| - 1;
      HighIsMaximum(ps[..n], h);
      forall i | 0 <= i < n ensures Seq(ps[i]) <= High(ps, h) {
        assert ps[..n][i] == ps[i];
      }
      if High(ps, h) != h && High(ps, h) != Seq(ps[n]) {
        var i :| 0 <= i < n && Seq(ps[..n][i]) == High(ps, h);
        assert Seq(ps[i]) == High(ps, h);
      }
    }
  }

  /** Whether the i-th packet of a stream is new: it has no number, or a number above all before it. */
  predicate IsNew<B>(h: nat, ps: seq<Packet<B>>, i: nat)
    requires i < |ps|
  {
    ps[i].Data? && (Seq(ps[i]) == 0 || Seq(ps[i]) > High(ps[..i], h))
  }

  function NewOnes<B>(h: nat, ps: seq<Packet<B>>): seq<Packet<B>> {
    if ps == [] then []
    else
      var n := |ps| - 1;
      NewOnes(h, ps[..n]) + (if IsNew(h, ps, n) then [ps[n]] else [])
  }

  lemma {:induction false} ReceiveAllAppend<B>(e: Endpoint<B>, ps: seq<Packet<B>>, p: Packet<B>)
    ensures var r, s, t := ReceiveAll(e, ps), Receive(ReceiveAll(e, ps).after, p), ReceiveAll(e, ps + [p]);
      t == Reaction(s.after, r.replies + s.replies, r.dispatched + s.dispatched, r.acknowledged + s.acknowledged)
    decreases |ps|
  {
    hide Receive;
    if ps == [] {
      assert ps + [p] == [p] && [p][1..] == [];
      assert ReceiveAll(Receive(e, p).after, []) == Reaction(Receive(e, p).after, [], [], []);
    } else {
      assert (ps + [p])[1..] == ps[1..] + [p];
      ReceiveAllAppend(Receive(e, ps[0]).after, ps[1..], p);
    }
  }

  lemma {:induction false} DispatchesNewOnes<B>(e: Endpoint<B>, ps: seq<Packet<B>>)
    ensures ReceiveAll(e, ps).dispatched == NewOnes(e.lastIn, ps)
    ensures ReceiveAll(e, ps).after.lastIn == High(ps, e.lastIn)
    decreases |ps|
  {
    if ps != [] {
      var n := |ps| - 1;
      DispatchesNewOnes(e, ps[..n]);
      ReceiveAllAppend(e, ps[..n], ps[n]);
      assert ps[..n] + [ps[n]] == ps;
    }
  }

  predicate Within<B>(ps: seq<Packet<B>>, low: nat, high: nat) {
    forall i :: 0 <= i < |ps| ==> low < Seq(ps[i]) <= high
  }

  lemma {:induction false} IncreasingAppend<B>(ps: seq<Packet<B>>, p: Packet<B>, low: nat, high: nat)
    requires Increasing(ps) && Within(ps, low, high) && low <= high < Seq(p)
    ensures Increasing(ps + [p]) && Within(ps + [p], low, Seq(p))
  {
    hide Seq;
  }

  lemma {:induction false} WithinWider<B>(ps: seq<Packet<B>>, low: nat, high: nat, higher: nat)
    requires Within(ps, low, high) && high <= higher
    ensures Within(ps, low, higher)
  {
    hide Seq;
  }

  lemma {:induction false} HighAfterOneMore<B>(ps: seq<Packet<B>>, h: nat)
    requires ps != []
    ensures High(ps, h) == Max(High(ps[..|ps| - 1], h), Seq(ps[|ps| - 1]))
  {
  }

  lemma {:induction false} NewOnesIncrease<B>(h: nat, ps: seq<Packet<B>>)
    ensures Increasing(Numbered(NewOnes(h, ps)))
    ensures Within(Numbered(NewOnes(h, ps)), h, High(ps, h))
    decreases |ps|
  {
    if ps != [] {
      hide High, Seq, Increasing, Within, Numbered;
      var n := |ps| - 1;
      NewOnesIncrease(h, ps[..n]);
      HighAfterOneMore(ps, h);
      var before, now := NewOnes(h, ps[..n]), NewOnes(h, ps);
      if IsNew(h, ps, n) {
        NumberedAppend(before, ps[n]);
      } else {
        assert now == before;
      }
      if IsNew(h, ps, n) && Seq(ps[n]) > 0 {
        IncreasingAppend(Numbered(before), ps[n], h, High(ps[..n], h));
      } else {
        WithinWider(Numbered(before), h, High(ps[..n], h), High(ps, h));
      }
    }
  }

  /** With lost, repeated or reordered packets an endpoint dispatches exactly the packets that are new when
      they arrive, so the numbers it dispatches strictly increase: no tracked packet is dispatched twice. */
  lemma {:induction false} DispatchesExactlyTheNew<B>(e: Endpoint<B>, ps: seq<Packet<B>>)
    ensures var r := ReceiveAll(e, ps);
      && r.dispatched == NewOnes(e.lastIn, ps)
      && Increasing(Numbered(r.dispatched))
      && Within(Numbered(r.dispatched), e.lastIn, r.after.lastIn)
  {
    DispatchesNewOnes(e, ps);
    NewOnesIncrease(e.lastIn, ps);
  }

  /** The k-th reply to a stream of numbered packets is the ack of its k-th packet. */
  predicate AllNumberedWithIds<B>(ps: seq<Packet<B>>) {
    forall i :: 0 <= i < |ps| ==> ps[i].Data? && Seq(ps[i]) > 0 && ps[i].id != ""
  }

  lemma {:induction false} EveryNumberedPacketIsAcked<B>(e: Endpoint<B>, ps: seq<Packet<B>>)
    requires AllNumberedWithIds(ps)
    ensures var acks := ReceiveAll(e, ps).replies;
      |acks| == |ps| && forall i :: 0 <= i < |ps| ==> acks[i] == Ack(ps[i].id, Seq(ps[i]))
    decreases |ps|
  {
    if ps != [] {
      var n := |ps| - 1;
      ReceiveAllAppend(e, ps[..n], ps[n]);
      assert ps[..n] + [ps[n]] == ps;
      EveryNumberedPacketIsAcked(e, ps[..n]);
    }
  }

  /** Numbers above `h` only, each arriving for the first time after every smaller one that arrives. */
  predicate FirstArrivalsInOrder<B>(h: nat, ps: seq<Packet<B>>) {
    && (forall i :: 0 <= i < |ps| ==> Seq(ps[i]) > h)
    && (forall i, j :: 0 <= i < j < |ps| && Seq(ps[j]) < Seq(ps[i]) ==>
          exists k :: 0 <= k < i && Seq(ps[k]) == Seq(ps[j]))
  }

  predicate NumberDispatched<B>(h: nat, ps: seq<Packet<B>>, num: nat) {
    exists k :: 0 <= k < |ps| && IsNew(h, ps, k) && Seq(ps[k]) == num
  }

  /** The number of every packet acknowledged has been dispatched by then. */
  predicate AckImpliesDispatched<B>(h: nat, ps: seq<Packet<B>>) {
    forall i :: 0 <= i < |ps| ==> NumberDispatched(h, ps[..i + 1], Seq(ps[i]))
  }

  /** The first arrival of a number is not beaten by an earlier larger one, so it is new. */
  lemma {:induction false} FirstArrivalIsNew<B>(h: nat, ps: seq<Packet<B>>, i: nat) returns (k: nat)
    requires i < |ps| && AllNumberedWithIds(ps) && FirstArrivalsInOrder(h, ps)
    ensures k <= i && IsNew(h, ps, k) && Seq(ps[k]) == Seq(ps[i])
    decreases i
  {
    if IsNew(h, ps, i) {
      k := i;
    } else {
      var top := High(ps[..i], h);
      HighIsMaximum(ps[..i], h);
      var m :| 0 <= m < i && Seq(ps[..i][m]) == top;
      assert ps[m] == ps[..i][m];
      if Seq(ps[m]) == Seq(ps[i]) {
        k := FirstArrivalIsNew(h, ps, m);
      } else {
        var c :| 0 <= c < m && Seq(ps[c]) == Seq(ps[i]);
        k := FirstArrivalIsNew(h, ps, c);
      }
    }
  }

  lemma {:induction false} NewEarlierIsNew<B>(h: nat, ps: seq<Packet<B>>, n: nat, k: nat)
    requires k < n <= |ps|
    ensures IsNew(h, ps[..n], k) <==> IsNew(h, ps, k)
    ensures ps[..n][k] == ps[k]
  {
    assert ps[..n][..k] == ps[..k];
  }

  lemma {:induction false} OrderedArrivalsAckWhatIsDispatched<B>(h: nat, ps: seq<Packet<B>>, i: nat)
    requires AllNumberedWithIds(ps) && FirstArrivalsInOrder(h, ps) && i < |ps|
    ensures NumberDispatched(h, ps[..i + 1], Seq(ps[i]))
  {
    var k := FirstArrivalIsNew(h, ps, i);
    NewEarlierIsNew(h, ps, i + 1, k);
  }

  /** Nothing that arrived earlier is larger than a packet that is new. */
  lemma {:induction false} DispatchedWithin<B>(h: nat, ps: seq<Packet<B>>, n: nat, num: nat) returns (k: nat)
    requires 0 < num && n <= |ps| && NumberDispatched(h, ps[..n], num)
    ensures k < n && Seq(ps[k]) == num > h && forall i :: 0 <= i < k ==> Seq(ps[i]) < num
  {
    k :| 0 <= k < n && IsNew(h, ps[..n], k) && Seq(ps[..n][k]) == num;
    NewEarlierIsNew(h, ps, n, k);
    HighIsMaximum(ps[..k], h);
    forall i | 0 <= i < k ensures Seq(ps[i]) < num {
      assert ps[..k][i] == ps[i];
    }
  }

  lemma {:induction false} AcksOfDispatchedComeInOrder<B>(h: nat, ps: seq<Packet<B>>)
    requires AllNumberedWithIds(ps) && AckImpliesDispatched(h, ps)
    ensures FirstArrivalsInOrder(h, ps)
  {
    hide NumberDispatched, IsNew;
    forall i | 0 <= i < |ps| ensures Seq(ps[i]) > h {
      var k := DispatchedWithin(h, ps, i + 1, Seq(ps[i]));
    }
    forall i, j | 0 <= i < j < |ps| && Seq(ps[j]) < Seq(ps[i])
      ensures exists k :: 0 <= k < i && Seq(ps[k]) == Seq(ps[j])
    {
      var k := DispatchedWithin(h, ps, j + 1, Seq(ps[j]));
      assert k < i;
    }
  }

  lemma {:induction false} NumbersDispatchedIff<B>(h: nat, ps: seq<Packet<B>>)
    requires AllNumberedWithIds(ps)
    ensures AckImpliesDispatched(h, ps) <==> FirstArrivalsInOrder(h, ps)
  {
    hide NumberDispatched, IsNew;
    if FirstArrivalsInOrder(h, ps) {
      hide FirstArrivalsInOrder;
      forall i | 0 <= i < |ps| ensures NumberDispatched(h, ps[..i + 1], Seq(ps[i])) {
        OrderedArrivalsAckWhatIsDispatched(h, ps, i);
      }
    } else if AckImpliesDispatched(h, ps) {
      hide FirstArrivalsInOrder, AckImpliesDispatched;
      AcksOfDispatchedComeInOrder(h, ps);
    }
  }

  /** Every ack sent by now carries the number of a packet dispatched by now. */
  predicate AcksAreOfDispatched<B>(r: Reaction<B>) {
    forall i :: 0 <= i < |r.replies| && r.replies[i].Ack? ==> CarriesNumber(r.dispatched, r.replies[i].num)
  }

  predicate CarriesNumber<B>(ps: seq<Packet<B>>, num: int) {
    exists k :: 0 <= k < |ps| && Seq(ps[k]) == num
  }

  lemma {:induction false} NewOnesCarry<B>(h: nat, ps: seq<Packet<B>>, num: nat)
    ensures CarriesNumber(NewOnes(h, ps), num) <==> NumberDispatched(h, ps, num)
  {
    hide IsNew, Seq;
    if ps != [] {
      var n := |ps| - 1;
      NewOnesCarry(h, ps[..n], num);
      var before, all := NewOnes(h, ps[..n]), NewOnes(h, ps);
      if CarriesNumber(before, num) {
        var k :| 0 <= k < |before| && Seq(before[k]) == num;
        assert all[k] == before[k];
        var i :| 0 <= i < n && IsNew(h, ps[..n], i) && Seq(ps[..n][i]) == num;
        NewEarlierIsNew(h, ps, n, i);
      }
      if IsNew(h, ps, n) {
        assert all[|before|] == ps[n];
      }
      if NumberDispatched(h, ps, num) {
        var i :| 0 <= i < |ps| && IsNew(h, ps, i) && Seq(ps[i]) == num;
        if i < n {
          NewEarlierIsNew(h, ps, n, i);
        }
      }
    }
  }

  lemma {:induction false} AcksOfPrefix<B>(e: Endpoint<B>, ps: seq<Packet<B>>, n: nat)
    requires AllNumberedWithIds(ps) && n <= |ps|
    ensures AcksAreOfDispatched(ReceiveAll(e, ps[..n]))
       <==> forall i :: 0 <= i < n ==> NumberDispatched(e.lastIn, ps[..n], Seq(ps[i]))
  {
    hide ReceiveAll, NumberDispatched, Seq, CarriesNumber;
    var r := ReceiveAll(e, ps[..n]);
    EveryNumberedPacketIsAcked(e, ps[..n]);
    DispatchesNewOnes(e, ps[..n]);
    forall i | 0 <= i < n
      ensures CarriesNumber(r.dispatched, r.replies[i].num) <==> NumberDispatched(e.lastIn, ps[..n], Seq(ps[i]))
    {
      NewOnesCarry(e.lastIn, ps[..n], Seq(ps[i]));
    }
    assert forall i :: 0 <= i < n ==> r.replies[i].Ack?;
  }

  lemma {:induction false} DispatchedStaysDispatched<B>(h: nat, ps: seq<Packet<B>>, m: nat, n: nat, num: nat)
    requires m <= n <= |ps| && NumberDispatched(h, ps[..m], num)
    ensures NumberDispatched(h, ps[..n], num)
  {
    var k :| 0 <= k < m && IsNew(h, ps[..m], k) && Seq(ps[..m][k]) == num;
    NewEarlierIsNew(h, ps, m, k);
    NewEarlierIsNew(h, ps, n, k);
  }

  /** At every moment each ack sent is of a packet dispatched, exactly when packets first arrive in the order of
      their numbers, all above the mark the receiver started from. A frame lost to corruption and sent again
      after a later one breaks this, and so does a mark kept over a reconnect. */
  lemma {:induction false} AckMeansDispatchedIff<B>(e: Endpoint<B>, ps: seq<Packet<B>>)
    requires AllNumberedWithIds(ps)
    ensures (forall n :: 0 <= n <= |ps| ==> AcksAreOfDispatched(ReceiveAll(e, ps[..n])))
       <==> FirstArrivalsInOrder(e.lastIn, ps)
  {
    hide NumberDispatched, ReceiveAll, AcksAreOfDispatched, FirstArrivalsInOrder;
    NumbersDispatchedIff(e.lastIn, ps);
    if AckImpliesDispatched(e.lastIn, ps) {
      forall n | 0 <= n <= |ps| ensures AcksAreOfDispatched(ReceiveAll(e, ps[..n])) {
        AcksOfPrefix(e, ps, n);
        forall i | 0 <= i < n ensures NumberDispatched(e.lastIn, ps[..n], Seq(ps[i])) {
          DispatchedStaysDispatched(e.lastIn, ps, i + 1, n, Seq(ps[i]));
        }
      }
    }
    if forall n :: 0 <= n <= |ps| ==> AcksAreOfDispatched(ReceiveAll(e, ps[..n])) {
      forall i | 0 <= i < |ps| ensures NumberDispatched(e.lastIn, ps[..i + 1], Seq(ps[i])) {
        AcksOfPrefix(e, ps, i + 1);
      }
    }
  }

  /** The first `n` tracked packets of a sender that starts from 1, arriving in order. */
  predicate Consecutive<B>(ps: seq<Packet<B>>) {
    forall i :: 0 <= i < |ps| ==> ps[i].Data? && ps[i].num == i + 1 && ps[i].id != ""
  }

  lemma {:induction false} ReceiveNumbered<B>(e: Endpoint<B>, p: Packet<B>)
    requires p.Data? && 0 < p.num < TWO_31
    ensures Receive(e, p).dispatched == if e.lastIn < p.num then [p] else []
    ensures Receive(e, p).after.lastIn == if e.lastIn < p.num then p.num else e.lastIn
  {
  }

  lemma {:induction false} StaleMarkSkips<B>(e: Endpoint<B>, ps: seq<Packet<B>>)
    requires Consecutive(ps) && |ps| < TWO_31
    ensures ReceiveAll(e, ps).dispatched == if e.lastIn <= |ps| then ps[e.lastIn..] else []
    ensures ReceiveAll(e, ps).after.lastIn == if e.lastIn <= |ps| then |ps| else e.lastIn
    decreases |ps|
  {
    hide ReceiveAll, Receive;
    if ps == [] {
      NothingReceived(e);
    } else {
      var n := |ps| - 1;
      StaleMarkSkips(e, ps[..n]);
      ReceiveAllAppend(e, ps[..n], ps[n]);
      ReceiveNumbered(ReceiveAll(e, ps[..n]).after, ps[n]);
      assert ps[..n] + [ps[n]] == ps;
      RestAppends(ps, e.lastIn);
    }
  }

  lemma {:induction false} NothingReceived<B>(e: Endpoint<B>)
    ensures ReceiveAll(e, []) == Reaction(e, [], [], [])
  {
  }

  lemma {:induction false} RestAppends<B>(ps: seq<Packet<B>>, h: nat)
    requires ps != []
    ensures var n := |ps| - 1;
      && (h <= n ==> ps[..n][h..] + [ps[n]] == ps[h..])
      && (h == |ps| ==> ps[h..] == [])
  {
  }

  /** A client that reconnects by itself keeps its mark `h` while the server numbers from 1 again: of the
      new packets it dispatches exactly those numbered above `h`, yet acknowledges all of them. Nothing is
      lost exactly when the mark was reset, as `startConnection` does. */
  lemma {:induction false} ReconnectLosesBelowTheMark<B>(e: Endpoint<B>, ps: seq<Packet<B>>)
    requires Consecutive(ps) && 0 < |ps| < TWO_31
    ensures ReceiveAll(e, ps).dispatched == ps <==> e.lastIn == 0
    ensures |ReceiveAll(e, ps).replies| == |ps|
  {
    StaleMarkSkips(e, ps);
    EveryNumberedPacketIsAcked(e, ps);
    if e.lastIn == 0 {
      assert ps[0..] == ps;
    }
  }

  /** Whatever the mark, the second of two arrivals of a packet is suppressed, and acknowledged again, exactly
      when its number can be read back. A number of 2^31 or more is read as 0: the packet is dispatched both
      times and never acknowledged. */
  lemma {:induction false} RepeatsAreSuppressedBelowTwo31<B>(e: Endpoint<B>, p: Packet<B>)
    requires p.Data? && 0 < p.num < TWO_32
    ensures var second := Receive(Receive(e, p).after, p);
      && (second.dispatched == [] <==> p.num < TWO_31)
      && second.replies == (if p.num < TWO_31 then AckFor(p.id, p.num) else [])
    ensures p.num >= TWO_31 ==> Receive(e, p).dispatched == [p] && Receive(e, p).replies == []
  {
  }

  // ---- Pings ----

  function Pings<B>(ps: seq<Packet<B>>): nat {
    if ps == [] then 0 else (if ps[0].Ping? then 1 else 0) + Pings(ps[1..])
  }

  function Pongs<B>(ps: seq<Packet<B>>): nat {
    if ps == [] then 0 else (if ps[0].Pong? then 1 else 0) + Pongs(ps[1..])
  }

  lemma {:induction false} PingsConcat<B>(a: seq<Packet<B>>, b: seq<Packet<B>>)
    ensures Pings(a + b) == Pings(a) + Pings(b) && Pongs(a + b) == Pongs(a) + Pongs(b)
  {
    if a == [] {
      assert a + b == b;
    } else {
      assert (a + b)[1..] == a[1..] + b;
      PingsConcat(a[1..], b);
    }
  }

  lemma {:induction false} OnePingAnswered<B>(e: Endpoint<B>, p: Packet<B>)
    ensures Pongs(Receive(e, p).replies) == (if p.Ping? then 1 else 0) && Pings(Receive(e, p).replies) == 0
  {
    var replies := Receive(e, p).replies;
    if replies != [] {
      assert replies[1..] == [];
    }
  }

  /** Whatever a stream brings, an endpoint answers every ping in it with one pong, and sends no others. */
  lemma {:induction false} PingsAreAnswered<B>(e: Endpoint<B>, ps: seq<Packet<B>>)
    ensures Pongs(ReceiveAll(e, ps).replies) == Pings(ps)
    decreases |ps|
  {
    hide Receive;
    if ps != [] {
      var first := Receive(e, ps[0]);
      OnePingAnswered(e, ps[0]);
      PingsAreAnswered(first.after, ps[1..]);
      PingsConcat(first.replies, ReceiveAll(first.after, ps[1..]).replies);
    }
  }
}
