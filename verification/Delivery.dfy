/** End to end: what polling delivers of one connection. The log and the queues record the
    same messages, so the gateway's cursor rule hands every client its messages in the
    order of their sequence numbers, with no gap but what was deleted for its age. */
module Delivery {
  import opened Types
  import opened Network
  import opened Protocol
  import opened Streams
  import opened Retention
  import opened Polling

  function SentEvent(n: Net, g: Principal, i: nat): Event
    requires g in n.gateways && i < |n.gateways[g].sent|
  {
    Sent(g, n.gateways[g].epoch, i, n.gateways[g].sent[i])
  }

  ghost predicate Logged(n: Net, g: Principal) {
    g in n.gateways ==> forall i: nat :: i < |n.gateways[g].sent| ==> SentEvent(n, g, i) in n.log
  }

  /** Unless its gateway's registration has ended, a sent message is the one on record. */
  ghost predicate Consistent(n: Net, e: Event) {
    e.Sent? ==>
      && e.epoch < n.nextEpoch
      && (e.gateway in n.gateways && e.epoch == n.gateways[e.gateway].epoch ==> OnRecord(n, e))
  }

  ghost predicate Recorded(n: Net) {
    && (forall g :: g in n.gateways ==> Logged(n, g))
    && (forall e :: e in n.log ==> Consistent(n, e))
  }

  // ---- every action keeps the record ----

  lemma QuietRecorded(n: Net, m: Net)
    requires Recorded(n) && n.log <= m.log && forall e :: e in m.log && e !in n.log ==> !e.Sent?
    requires m.nextEpoch == n.nextEpoch
    requires forall g :: g in m.gateways ==>
      g in n.gateways && m.gateways[g].epoch == n.gateways[g].epoch && m.gateways[g].sent == n.gateways[g].sent
    ensures Recorded(m)
  {
    forall g | g in m.gateways ensures Logged(m, g) {
      assert Logged(n, g);
      forall i: nat | i < |m.gateways[g].sent| ensures SentEvent(m, g, i) in m.log {
        assert SentEvent(n, g, i) in n.log;
      }
    }
    forall e | e in m.log ensures Consistent(m, e) {
      assert e in n.log ==> Consistent(n, e);
    }
  }

  lemma EmitRecorded(n: Net, p: Principal, body: Body)
    requires Inv(n) && Recorded(n)
    ensures Recorded(Emit(n, p, body))
  {
    if p in n.conns {
      EmitCarries(n, p, body);
      GrowRecorded(n, Emit(n, p, body), n.conns[p].gateway, NextItem(n, p, body));
    }
  }

  lemma GrowRecorded(n: Net, m: Net, gateway: Principal, item: Item)
    requires Recorded(n) && gateway in n.gateways && m.nextEpoch == n.nextEpoch &&
      n.gateways[gateway].epoch < n.nextEpoch
    requires m.gateways.Keys == n.gateways.Keys
    requires forall g :: g in n.gateways && g != gateway ==> m.gateways[g] == n.gateways[g]
    requires m.gateways[gateway].epoch == n.gateways[gateway].epoch
    requires m.gateways[gateway].sent == n.gateways[gateway].sent + [item]
    requires m.log == n.log + [Sent(gateway, n.gateways[gateway].epoch, |n.gateways[gateway].sent|, item)]
    ensures Recorded(m)
  {
    var last := Sent(gateway, n.gateways[gateway].epoch, |n.gateways[gateway].sent|, item);
    forall g | g in m.gateways ensures Logged(m, g) {
      assert Logged(n, g);
      forall i: nat | i < |m.gateways[g].sent| ensures SentEvent(m, g, i) in m.log {
        if i < |n.gateways[g].sent| {
          assert SentEvent(n, g, i) in n.log;
        } else {
          assert SentEvent(m, g, i) == last;
        }
      }
    }
    forall e | e in m.log ensures Consistent(m, e) {
      if e != last {
        assert e in n.log && Consistent(n, e);
      }
    }
  }

  lemma AddRecorded(n: Net, p: Principal, nonce: nat, gateway: Principal)
    requires Inv(n) && Recorded(n)
    ensures Recorded(AddConnection(n, p, nonce, gateway))
  {
    var m := AddConnection(n, p, nonce, gateway);
    forall g | g in m.gateways ensures Logged(m, g) {
      assert g in n.gateways ==> Logged(n, g);
      forall i: nat | i < |m.gateways[g].sent| ensures SentEvent(m, g, i) in m.log {
        assert SentEvent(n, g, i) in n.log;
      }
    }
    forall e | e in m.log ensures Consistent(m, e) {
      assert Consistent(n, e);
    }
  }

  lemma ConnectRecorded(n: Net, p: Principal, nonce: nat, gateway: Principal)
    requires Inv(n) && Recorded(n) && p !in n.conns
    ensures Recorded(Act(n, Connect(p, nonce, gateway)))
  {
    hide Inv, Recorded, AddConnection, Emit;
    var a, open := AddConnection(n, p, nonce, gateway), Service(OpenMessage(ClientKey(p, nonce)));
    AddConnectionInv(n, p, nonce, gateway);
    AddRecorded(n, p, nonce, gateway);
    EmitRecorded(a, p, open);
    QuietRecorded(Emit(a, p, open), Record(Emit(a, p, open), OnOpen(p)));
  }

  lemma RemoveRecorded(n: Net, p: Principal, reason: Option<CloseReason>)
    requires Inv(n) && Recorded(n) && p in n.conns
    ensures Recorded(Act(n, Remove(p, reason)))
  {
    hide Inv, Recorded, Emit;
    var f := Farewell(n, p, reason);
    if reason.Some? {
      EmitRecorded(n, p, Service(CloseMessage(reason.value)));
    }
    QuietRecorded(f, CallClose(DropConnection(f, p), p));
  }

  lemma AcknowledgeRecorded(n: Net, p: Principal)
    requires Inv(n) && Recorded(n) && p in n.conns
    ensures Recorded(Act(n, Acknowledge(p)))
  {
    hide Inv, Recorded, Emit;
    var ack := Service(AckMessage(n.conns[p].received));
    EmitRecorded(n, p, ack);
    QuietRecorded(Emit(n, p, ack), Act(n, Acknowledge(p)));
  }

  lemma ActRecorded(n: Net, a: Atom)
    requires Inv(n) && Recorded(n)
    ensures Recorded(Act(n, a))
  {
    hide Inv, Recorded, Emit, AddConnection, DropConnection;
    if a.Connect? && a.principal !in n.conns {
      ConnectRecorded(n, a.principal, a.nonce, a.gateway);
    } else if a.Push? {
      EmitRecorded(n, a.principal, Data(a.bytes));
    } else if a.Acknowledge? && a.principal in n.conns {
      AcknowledgeRecorded(n, a.principal);
    } else if a.Remove? && a.principal in n.conns {
      RemoveRecorded(n, a.principal, a.reason);
    } else {
      QuietRecorded(n, Act(n, a));
    }
  }

  lemma {:induction false} ExecRecorded(n: Net, atoms: seq<Atom>)
    requires Inv(n) && Recorded(n)
    ensures Recorded(Exec(n, atoms))
  {
    if atoms != [] {
      ExecInv(n, atoms[..|atoms| - 1]);
      ExecRecorded(n, atoms[..|atoms| - 1]);
      ActRecorded(Exec(n, atoms[..|atoms| - 1]), atoms[|atoms| - 1]);
    }
  }

  /** After every run, the queues and the log hold the same messages. */
  lemma {:induction false} RunRecorded(now: nat, app: Application, steps: seq<Step>)
    ensures Recorded(Run(Initial(now, app), steps))
  {
    if steps != [] {
      var before := Run(Initial(now, app), steps[..|steps| - 1]);
      InitialInv(now, app);
      RunInv(Initial(now, app), steps[..|steps| - 1]);
      RunRecorded(now, app, steps[..|steps| - 1]);
      ExecRecorded(before, Script(before, steps[|steps| - 1]));
    }
  }

  // ---- one connection's messages in its gateway's history ----

  lemma {:induction false} OutgoingMembers(log: seq<Event>, id: nat, e: Event)
    ensures e in Outgoing(log, id) <==> e in log && e.Sent? && e.item.conn == id
  {
    if log != [] {
      OutgoingMembers(log[..|log| - 1], id, e);
      assert log == log[..|log| - 1] + [log[|log| - 1]];
    }
  }

  /** The position of a queued message in its connection's stream. */
  lemma PositionOf(n: Net, g: Principal, i: nat) returns (k: nat)
    requires Recorded(n) && g in n.gateways && i < |n.gateways[g].sent|
    ensures var s := Outgoing(n.log, n.gateways[g].sent[i].conn);
      k < |s| && s[k] == SentEvent(n, g, i)
  {
    var e := SentEvent(n, g, i);
    assert Logged(n, g);
    OutgoingMembers(n.log, e.item.conn, e);
    k :| 0 <= k < |Outgoing(n.log, e.item.conn)| && Outgoing(n.log, e.item.conn)[k] == e;
  }

  /** In one gateway's history, a connection's messages come in sequence-number order. */
  lemma HistoryInOrder(n: Net, g: Principal, i: nat, j: nat)
    requires Recorded(n) && g in n.gateways && i < j < |n.gateways[g].sent|
    requires n.gateways[g].sent[i].conn == n.gateways[g].sent[j].conn
    requires WellNumbered(Outgoing(n.log, n.gateways[g].sent[i].conn))
    ensures n.gateways[g].sent[i].seqNum < n.gateways[g].sent[j].seqNum
  {
    var k := PositionOf(n, g, i);
    var l := PositionOf(n, g, j);
    assert k < l;
  }

  /** Every earlier message of the connection is there too, at an earlier nonce. */
  lemma HistoryComplete(n: Net, g: Principal, j: nat, s: nat) returns (i: nat)
    requires Recorded(n) && g in n.gateways && j < |n.gateways[g].sent|
    requires WellNumbered(Outgoing(n.log, n.gateways[g].sent[j].conn))
    requires 1 <= s < n.gateways[g].sent[j].seqNum
    ensures i < j && n.gateways[g].sent[i].conn == n.gateways[g].sent[j].conn && n.gateways[g].sent[i].seqNum == s
  {
    var id := n.gateways[g].sent[j].conn;
    var l := PositionOf(n, g, j);
    var e := Outgoing(n.log, id)[s - 1];
    OutgoingMembers(n.log, id, e);
    assert Consistent(n, e) && OnRecord(n, e);
    i := e.nonce;
  }

  // ---- what the client receives ----

  /** A reader that has followed one registration from its beginning. */
  ghost predicate Following(now: nat, app: Application, steps: seq<Step>, moves: seq<Move>, r: Reader,
                            gateway: Principal) {
    var start := Run(Initial(now, app), steps);
    && gateway in start.gateways && r == Read(Reader(start, 0, []), gateway, moves)
    && gateway in r.net.gateways && r.net.gateways[gateway].epoch == start.gateways[gateway].epoch
  }

  lemma FollowingFacts(now: nat, app: Application, steps: seq<Step>, moves: seq<Move>, r: Reader, gateway: Principal)
    requires Following(now, app, steps, moves, r, gateway)
    ensures Faithful(r, r.net.gateways[gateway], 0) && Recorded(r.net)
    ensures forall id: nat :: WellNumbered(Outgoing(r.net.log, id))
  {
    hide Exec, Perform;
    var start := Reader(Run(Initial(now, app), steps), 0, []);
    InitialInv(now, app);
    RunInv(Initial(now, app), steps);
    ExactlyOnce(start, gateway, moves);
    ReadInv(start, gateway, moves);
    RunConcat(Initial(now, app), steps, StepsOf(moves));
    RunRecorded(now, app, steps + StepsOf(moves));
    forall id: nat ensures WellNumbered(Outgoing(r.net.log, id)) {
      OutgoingStreams(now, app, steps + StepsOf(moves), id);
    }
  }

  /** A client never receives a message twice or after a later one. */
  lemma DeliveredInOrder(now: nat, app: Application, steps: seq<Step>, moves: seq<Move>, r: Reader, gateway: Principal,
                         k: nat, l: nat)
    requires Following(now, app, steps, moves, r, gateway)
    requires k < l < |r.got| && r.got[k].1.conn == r.got[l].1.conn
    ensures r.got[k].1.seqNum < r.got[l].1.seqNum
  {
    FollowingFacts(now, app, steps, moves, r, gateway);
    HistoryInOrder(r.net, gateway, r.got[k].0, r.got[l].0);
  }

  /** Message `s` of the connection had a nonce below `before` and was deleted for its age. */
  ghost predicate LostToAge(now: nat, app: Application, steps: seq<Step>, n: Net, gateway: Principal, id: nat, s: nat,
                            before: nat) {
    gateway in n.gateways &&
    exists i: nat, j: nat ::
      && i < before && i < |n.gateways[gateway].sent| && j < |steps|
      && n.gateways[gateway].sent[i].conn == id && n.gateways[gateway].sent[i].seqNum == s
      && DeletedAt(Initial(now, app), steps, j, gateway, n.gateways[gateway].epoch, i)
  }

  /** A client that has received message number t has received every earlier one before
      it, except those that the canister deleted, for their age, before they were polled. */
  lemma DeliveredWithoutGap(now: nat, app: Application, steps: seq<Step>, moves: seq<Move>, r: Reader,
                            gateway: Principal, l: nat, s: nat)
    requires Following(now, app, steps, moves, r, gateway) && Possible(Initial(now, app), steps + StepsOf(moves))
    requires l < |r.got| && 1 <= s < r.got[l].1.seqNum
    ensures (exists k: nat :: k < l && r.got[k].1.conn == r.got[l].1.conn && r.got[k].1.seqNum == s)
      || LostToAge(now, app, steps + StepsOf(moves), r.net, gateway, r.got[l].1.conn, s, r.got[l].0)
  {
    hide Run, Possible, Read, Outgoing, WellNumbered, Recorded, DeletedAt, StepsOf;
    FollowingFacts(now, app, steps, moves, r, gateway);
    var i := HistoryComplete(r.net, gateway, r.got[l].0, s);
    if Delivered(r.got, i) {
      var k: nat :| 0 <= k < |r.got| && r.got[k].0 == i;
      assert k < l;
    } else {
      SkippedWereOverdue(Initial(now, app), steps, moves, r, gateway, r.net.gateways[gateway].epoch, i);
    }
  }
}
