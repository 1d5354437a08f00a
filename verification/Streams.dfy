/** What the log of every run looks like: each connection's outgoing and incoming
    messages, and each principal's open and close callbacks. These hold for any
    sequence of atomic actions, so also when an on_close callback sends messages in
    the middle of an entry point. */
module Streams {
  import opened Types
  import opened Network
  import opened Protocol

  /** The messages sent on connection `id`, oldest first. */
  function Outgoing(log: seq<Event>, id: nat): seq<Event> {
    if log == [] then []
    else
      var e := log[|log| - 1];
      var earlier := Outgoing(log[..|log| - 1], id);
      if e.Sent? && e.item.conn == id then earlier + [e] else earlier
  }

  /** The sequence numbers accepted on connection `id`, oldest first. */
  function Incoming(log: seq<Event>, id: nat): seq<nat> {
    if log == [] then []
    else
      var e := log[|log| - 1];
      var earlier := Incoming(log[..|log| - 1], id);
      if e.Accepted? && e.conn == id then earlier + [e.seqNum] else earlier
  }

  datatype Callback = Opened | Closed

  /** The open and close callbacks about a principal, oldest first. */
  function Callbacks(log: seq<Event>, p: Principal): seq<Callback> {
    if log == [] then []
    else
      var e := log[|log| - 1];
      var earlier := Callbacks(log[..|log| - 1], p);
      if e.OnOpen? && e.principal == p then earlier + [Opened]
      else if e.OnClose? && e.principal == p then earlier + [Closed]
      else earlier
  }

  predicate IsOpen(b: Body) {
    b.Service? && b.content.OpenMessage?
  }

  predicate IsClose(b: Body) {
    b.Service? && b.content.CloseMessage?
  }

  /** `e` may come after the messages `s` of one connection: the next sequence number, a
      later nonce of the same gateway registration, the open message exactly when nothing
      came before, and nothing after a close message. */
  predicate Follows(s: seq<Event>, e: Event) {
    && e.Sent? && e.item.seqNum == |s| + 1
    && (IsOpen(e.item.body) <==> s == [])
    && (s != [] ==>
          var last := s[|s| - 1];
          && last.Sent? && !IsClose(last.item.body)
          && last.gateway == e.gateway && last.epoch == e.epoch && last.nonce < e.nonce)
  }

  predicate InSequence(s: seq<Event>) {
    s == [] || (InSequence(s[..|s| - 1]) && Follows(s[..|s| - 1], s[|s| - 1]))
  }

  /** Sequence numbers 1, 2, 3, … in nonce order through one gateway registration; the
      open message first and only first; a close message only last. */
  ghost predicate WellNumbered(s: seq<Event>) {
    && (forall k :: 0 <= k < |s| ==> s[k].Sent? && s[k].item.seqNum == k + 1)
    && (forall k :: 0 <= k < |s| ==> (IsOpen(s[k].item.body) <==> k == 0))
    && (forall k :: 0 <= k < |s| - 1 ==> !IsClose(s[k].item.body))
    && (forall j, k :: 0 <= j < k < |s| ==>
          s[j].gateway == s[k].gateway && s[j].epoch == s[k].epoch && s[j].nonce < s[k].nonce)
  }

  lemma OneMoreNumbered(s: seq<Event>, e: Event)
    requires WellNumbered(s) && Follows(s, e)
    ensures WellNumbered(s + [e])
  {}

  lemma {:induction false} InSequenceMeans(s: seq<Event>)
    requires InSequence(s)
    ensures WellNumbered(s)
  {
    hide WellNumbered, Follows;
    if s == [] {
      NoneNumbered();
    } else {
      InSequenceMeans(s[..|s| - 1]);
      OneMoreNumbered(s[..|s| - 1], s[|s| - 1]);
      assert s[..|s| - 1] + [s[|s| - 1]] == s;
    }
  }

  lemma NoneNumbered()
    ensures WellNumbered([])
  {}

  /** An event is the message its gateway's current registration holds at its nonce. */
  ghost predicate OnRecord(n: Net, e: Event) {
    && e.Sent? && e.gateway in n.gateways
    && e.epoch == n.gateways[e.gateway].epoch
    && e.nonce < |n.gateways[e.gateway].sent|
    && n.gateways[e.gateway].sent[e.nonce] == e.item
  }

  /** A live connection's stream: as long as its counter, not closed, all on record. */
  ghost predicate LiveStream(n: Net, p: Principal, s: seq<Event>)
    requires p in n.conns
  {
    && |s| == n.conns[p].sent
    && (forall k :: 0 <= k < |s| ==>
          && OnRecord(n, s[k])
          && s[k].gateway == n.conns[p].gateway
          && s[k].item.clientKey == KeyOf(n, p)
          && !IsClose(s[k].item.body))
  }

  predicate Counted(s: seq<nat>) {
    forall k :: 0 <= k < |s| ==> s[k] == k + 1
  }

  predicate EndsOpen(s: seq<Callback>) {
    s != [] && s[|s| - 1].Opened?
  }

  /** Each open comes first or after a close, each close after an open. */
  predicate Alternating(s: seq<Callback>) {
    forall k :: 0 <= k < |s| ==> (s[k].Opened? <==> !EndsOpen(s[..k]))
  }

  ghost predicate IdsSound(n: Net) {
    && (forall p :: p in n.conns ==> n.conns[p].id < n.nextConn)
    && (forall p, q :: p in n.conns && q in n.conns && p != q ==> n.conns[p].id != n.conns[q].id)
    && (forall id: nat :: id >= n.nextConn ==> Outgoing(n.log, id) == [] && Incoming(n.log, id) == [])
  }

  ghost predicate OutgoingSound(n: Net) {
    && (forall id: nat :: InSequence(Outgoing(n.log, id)))
    && (forall p :: p in n.conns ==> n.conns[p].sent >= 1 && LiveStream(n, p, Outgoing(n.log, n.conns[p].id)))
  }

  ghost predicate IncomingSound(n: Net) {
    && (forall id: nat :: Counted(Incoming(n.log, id)))
    && (forall p :: p in n.conns ==> |Incoming(n.log, n.conns[p].id)| == n.conns[p].received)
  }

  ghost predicate CallbacksSound(n: Net) {
    forall p :: Alternating(Callbacks(n.log, p)) && (EndsOpen(Callbacks(n.log, p)) <==> p in n.conns)
  }

  ghost predicate Ledger(n: Net) {
    IdsSound(n) && OutgoingSound(n) && IncomingSound(n) && CallbacksSound(n)
  }

  // ---- one event at a time ----

  lemma AppendedOutgoing(log: seq<Event>, e: Event)
    requires e.Sent?
    ensures Outgoing(log + [e], e.item.conn) == Outgoing(log, e.item.conn) + [e]
  {
    assert (log + [e])[..|log|] == log;
  }

  lemma AppendedIncoming(log: seq<Event>, e: Event)
    requires e.Accepted?
    ensures Incoming(log + [e], e.conn) == Incoming(log, e.conn) + [e.seqNum]
  {
    assert (log + [e])[..|log|] == log;
  }

  lemma AppendedCallbacks(log: seq<Event>, e: Event)
    requires e.OnOpen? || e.OnClose?
    ensures Callbacks(log + [e], e.principal) == Callbacks(log, e.principal) + [if e.OnOpen? then Opened else Closed]
  {
    assert (log + [e])[..|log|] == log;
  }

  /** Streams of the other kinds do not notice an event. */
  lemma Unrelated(log: seq<Event>, e: Event)
    ensures forall id: nat :: !(e.Sent? && e.item.conn == id) ==> Outgoing(log + [e], id) == Outgoing(log, id)
    ensures forall id: nat :: !(e.Accepted? && e.conn == id) ==> Incoming(log + [e], id) == Incoming(log, id)
    ensures forall p :: !((e.OnOpen? || e.OnClose?) && e.principal == p) ==>
      Callbacks(log + [e], p) == Callbacks(log, p)
  {
    assert (log + [e])[..|log|] == log;
  }

  /** Gateways keep their messages on record. */
  ghost predicate RecordsKept(n: Net, m: Net, g: Principal) {
    g in n.gateways ==>
      && g in m.gateways && m.gateways[g].epoch == n.gateways[g].epoch
      && |n.gateways[g].sent| <= |m.gateways[g].sent|
      && forall i :: 0 <= i < |n.gateways[g].sent| ==> m.gateways[g].sent[i] == n.gateways[g].sent[i]
  }

  /** A connection that an action does not concern. */
  ghost predicate Carried(n: Net, m: Net, p: Principal)
    requires p in m.conns
  {
    && p in n.conns
    && m.conns[p].id == n.conns[p].id && m.conns[p].nonce == n.conns[p].nonce
    && m.conns[p].gateway == n.conns[p].gateway
    && m.conns[p].sent == n.conns[p].sent && m.conns[p].received == n.conns[p].received
    && RecordsKept(n, m, n.conns[p].gateway)
  }

  lemma LiveStreamKept(n: Net, m: Net, p: Principal, s: seq<Event>)
    requires p in n.conns && p in m.conns && LiveStream(n, p, s)
    requires m.conns[p].sent == n.conns[p].sent && m.conns[p].gateway == n.conns[p].gateway &&
      m.conns[p].nonce == n.conns[p].nonce
    requires RecordsKept(n, m, n.conns[p].gateway)
    ensures LiveStream(m, p, s)
  {}

  lemma OutgoingKept(n: Net, m: Net, p: Principal)
    requires OutgoingSound(n)
    requires forall q :: q in m.conns && q != p ==>
      Carried(n, m, q) && Outgoing(m.log, n.conns[q].id) == Outgoing(n.log, n.conns[q].id)
    requires forall id: nat :: Outgoing(m.log, id) == Outgoing(n.log, id) || InSequence(Outgoing(m.log, id))
    requires p in m.conns ==> m.conns[p].sent >= 1 && LiveStream(m, p, Outgoing(m.log, m.conns[p].id))
    ensures OutgoingSound(m)
  {
    forall q | q in m.conns && q != p ensures LiveStream(m, q, Outgoing(m.log, m.conns[q].id)) {
      LiveStreamKept(n, m, q, Outgoing(n.log, n.conns[q].id));
    }
  }

  lemma IncomingKept(n: Net, m: Net)
    requires IncomingSound(n)
    requires forall id: nat :: Incoming(m.log, id) == Incoming(n.log, id)
    requires forall p :: p in m.conns ==>
      if p in n.conns then m.conns[p].id == n.conns[p].id && m.conns[p].received == n.conns[p].received
      else m.conns[p].received == 0 && Incoming(n.log, m.conns[p].id) == []
    ensures IncomingSound(m)
  {}

  lemma CallbacksKept(n: Net, m: Net, p: Principal)
    requires CallbacksSound(n)
    requires forall q :: q != p ==> Callbacks(m.log, q) == Callbacks(n.log, q) && (q in m.conns <==> q in n.conns)
    requires Alternating(Callbacks(m.log, p)) && (EndsOpen(Callbacks(m.log, p)) <==> p in m.conns)
    ensures CallbacksSound(m)
  {}

  lemma IdsKept(n: Net, m: Net)
    requires IdsSound(n)
    requires n.nextConn <= m.nextConn
    requires forall id: nat :: id >= m.nextConn ==>
      Outgoing(m.log, id) == Outgoing(n.log, id) && Incoming(m.log, id) == Incoming(n.log, id)
    requires forall p :: p in m.conns ==> p in n.conns && m.conns[p].id == n.conns[p].id
    ensures IdsSound(m)
  {}

  /** Actions that log nothing about streams keep the ledger. */
  lemma QuietLedger(n: Net, m: Net)
    requires Ledger(n)
    requires m.nextConn == n.nextConn && m.conns.Keys == n.conns.Keys
    requires forall id: nat :: Outgoing(m.log, id) == Outgoing(n.log, id)
    requires forall id: nat :: Incoming(m.log, id) == Incoming(n.log, id)
    requires forall p :: Callbacks(m.log, p) == Callbacks(n.log, p)
    requires forall p :: p in m.conns ==> Carried(n, m, p)
    ensures Ledger(m)
  {
    OutgoingUntouched(n, m);
    IncomingKept(n, m);
    assert CallbacksSound(m);
    IdsKept(n, m);
  }

  /** The event that Emit logs. */
  function EmitEvent(n: Net, p: Principal, body: Body): Event
    requires p in n.conns && n.conns[p].gateway in n.gateways
  {
    var gateway := n.conns[p].gateway;
    Sent(gateway, n.gateways[gateway].epoch, |n.gateways[gateway].sent|, NextItem(n, p, body))
  }

  /** A connection's stream grows by exactly the emitted message. */
  lemma EmitStream(n: Net, p: Principal, body: Body, s: seq<Event>)
    requires p in n.conns && n.conns[p].gateway in n.gateways
    requires InSequence(s) && LiveStream(n, p, s)
    requires IsOpen(body) <==> n.conns[p].sent == 0
    ensures InSequence(s + [EmitEvent(n, p, body)])
    ensures !IsClose(body) ==> LiveStream(Emit(n, p, body), p, s + [EmitEvent(n, p, body)])
  {}

  lemma EmitKeepsRecords(n: Net, p: Principal, body: Body, g: Principal)
    ensures RecordsKept(n, Emit(n, p, body), g)
  {
    hide Trimmed;
  }

  lemma EmitState(n: Net, p: Principal, body: Body)
    requires p in n.conns && n.conns[p].gateway in n.gateways
    ensures var m := Emit(n, p, body);
      && m.log == n.log + [EmitEvent(n, p, body)] && m.nextConn == n.nextConn
      && m.conns == n.conns[p := n.conns[p].(sent := n.conns[p].sent + 1)]
      && m.now == n.now && m.ackDue == n.ackDue
    ensures var gateway, m := n.conns[p].gateway, Emit(n, p, body);
      && m.gateways.Keys == n.gateways.Keys
      && (forall g :: g in n.gateways && g != gateway ==> m.gateways[g] == n.gateways[g])
      && m.gateways[gateway] == n.gateways[gateway].(
           sent := n.gateways[gateway].sent + [NextItem(n, p, body)], base := m.gateways[gateway].base)
  {
    hide Trimmed;
  }

  lemma EmitCarries(n: Net, p: Principal, body: Body)
    requires Inv(n) && p in n.conns
    ensures var m := Emit(n, p, body);
      && m.log == n.log + [EmitEvent(n, p, body)] && m.nextConn == n.nextConn && m.conns.Keys == n.conns.Keys
      && m.conns[p] == n.conns[p].(sent := n.conns[p].sent + 1)
      && forall q :: q in n.conns && q != p ==> Carried(n, m, q)
  {
    hide Emit, RecordsKept, EmitEvent;
    EmitState(n, p, body);
    forall q | q in n.conns && q != p ensures Carried(n, Emit(n, p, body), q) {
      EmitKeepsRecords(n, p, body, n.conns[q].gateway);
    }
  }

  /** An ordinary message on an open connection. */
  lemma EmitLedger(n: Net, p: Principal, body: Body)
    requires Inv(n) && Ledger(n) && p in n.conns && !IsOpen(body) && !IsClose(body)
    ensures Ledger(Emit(n, p, body))
  {
    var m := Emit(n, p, body);
    var e := EmitEvent(n, p, body);
    EmitCarries(n, p, body);
    assert OutgoingSound(m) by {
      EmitStream(n, p, body, Outgoing(n.log, n.conns[p].id));
      GrowOutgoing(n, m, p, e);
    }
    GrowRest(n, m, e);
  }

  lemma GrowRest(n: Net, m: Net, e: Event)
    requires IdsSound(n) && IncomingSound(n) && CallbacksSound(n)
    requires e.Sent? && e.item.conn < n.nextConn && m.log == n.log + [e]
    requires m.nextConn == n.nextConn && m.conns.Keys == n.conns.Keys
    requires forall p :: p in n.conns ==> m.conns[p].id == n.conns[p].id && m.conns[p].received == n.conns[p].received
    ensures IdsSound(m) && IncomingSound(m) && CallbacksSound(m)
  {
    Unrelated(n.log, e);
  }

  lemma GrowOutgoing(n: Net, m: Net, p: Principal, e: Event)
    requires OutgoingSound(n) && p in n.conns && m.conns.Keys == n.conns.Keys
    requires e.Sent? && e.item.conn == n.conns[p].id == m.conns[p].id && m.log == n.log + [e]
    requires forall q :: q in m.conns && q != p ==> Carried(n, m, q) && n.conns[q].id != e.item.conn
    requires var s := Outgoing(n.log, e.item.conn) + [e];
      m.conns[p].sent >= 1 && InSequence(s) && LiveStream(m, p, s)
    ensures OutgoingSound(m)
  {
    Unrelated(n.log, e);
    AppendedOutgoing(n.log, e);
    OutgoingKept(n, m, p);
  }

  lemma ConnectCarries(n: Net, p: Principal, nonce: nat, gateway: Principal)
    requires Inv(n) && p !in n.conns
    ensures var a := AddConnection(n, p, nonce, gateway);
      var open := Service(OpenMessage(ClientKey(p, nonce)));
      var m := Act(n, Connect(p, nonce, gateway));
      && p in a.conns && a.conns[p].gateway in a.gateways
      && m.log == n.log + [EmitEvent(a, p, open)] + [OnOpen(p)]
      && m.nextConn == n.nextConn + 1 && m.conns.Keys == n.conns.Keys + {p}
      && m.conns[p] == Emit(a, p, open).conns[p]
      && m.conns[p].id == n.nextConn && m.conns[p].sent == 1 && m.conns[p].received == 0
      && (forall q :: q in n.conns ==> Carried(n, m, q))
  {
    hide Trimmed, Inv;
    var a := AddConnection(n, p, nonce, gateway);
    var m := Act(n, Connect(p, nonce, gateway));
    forall g | g in n.gateways ensures RecordsKept(n, m, g) {
    }
  }

  lemma JoinOutgoing(n: Net, m: Net, p: Principal, e: Event)
    requires OutgoingSound(n) && p !in n.conns && m.conns.Keys == n.conns.Keys + {p}
    requires m.log == n.log + [e] + [OnOpen(p)]
    requires e.Sent? && forall q :: q in n.conns ==> Carried(n, m, q) && n.conns[q].id != e.item.conn
    requires m.conns[p].id == e.item.conn && Outgoing(n.log, e.item.conn) == []
    requires m.conns[p].sent == 1 && InSequence([e]) && LiveStream(m, p, [e])
    ensures OutgoingSound(m)
  {
    Unrelated(n.log, e);
    Unrelated(n.log + [e], OnOpen(p));
    AppendedOutgoing(n.log, e);
    OutgoingKept(n, m, p);
  }

  /** A new connection whose only message so far is `e`. */
  lemma JoinLedger(n: Net, m: Net, p: Principal, e: Event)
    requires Ledger(n) && p !in n.conns && m.conns.Keys == n.conns.Keys + {p}
    requires m.nextConn == n.nextConn + 1 && m.log == n.log + [e] + [OnOpen(p)]
    requires forall q :: q in n.conns ==> Carried(n, m, q)
    requires m.conns[p].id == n.nextConn && m.conns[p].sent == 1 && m.conns[p].received == 0
    requires e.Sent? && e.item.conn == n.nextConn && InSequence([e]) && LiveStream(m, p, [e])
    ensures Ledger(m)
  {
    JoinOutgoing(n, m, p, e);
    JoinIncoming(n, m, p, e);
    JoinCallbacks(n, m, p, e);
  }

  lemma JoinIncoming(n: Net, m: Net, p: Principal, e: Event)
    requires IdsSound(n) && IncomingSound(n) && p !in n.conns && m.conns.Keys == n.conns.Keys + {p}
    requires m.nextConn == n.nextConn + 1 && m.log == n.log + [e] + [OnOpen(p)]
    requires forall q :: q in n.conns ==> m.conns[q].id == n.conns[q].id && m.conns[q].received == n.conns[q].received
    requires m.conns[p].id == n.nextConn && m.conns[p].received == 0
    requires e.Sent? && e.item.conn == n.nextConn
    ensures IdsSound(m) && IncomingSound(m)
  {
    hide Incoming;
    Unrelated(n.log, e);
    Unrelated(n.log + [e], OnOpen(p));
    IncomingKept(n, m);
  }

  lemma AlternationGrows(s: seq<Callback>, c: Callback)
    requires Alternating(s) && (c.Opened? <==> !EndsOpen(s))
    ensures Alternating(s + [c]) && (EndsOpen(s + [c]) <==> c.Opened?)
  {}

  lemma JoinCallbacks(n: Net, m: Net, p: Principal, e: Event)
    requires CallbacksSound(n) && p !in n.conns && m.conns.Keys == n.conns.Keys + {p}
    requires e.Sent? && m.log == n.log + [e] + [OnOpen(p)]
    ensures CallbacksSound(m)
  {
    assert forall q :: Callbacks(n.log + [e], q) == Callbacks(n.log, q) by {
      Unrelated(n.log, e);
    }
    Unrelated(n.log + [e], OnOpen(p));
    AppendedCallbacks(n.log + [e], OnOpen(p));
    AlternationGrows(Callbacks(n.log, p), Opened);
    CallbacksKept(n, m, p);
  }

  lemma ConnectLedger(n: Net, p: Principal, nonce: nat, gateway: Principal, m: Net)
    requires Inv(n) && Ledger(n) && p !in n.conns && m == Act(n, Connect(p, nonce, gateway))
    ensures Ledger(m)
  {
    var open := Service(OpenMessage(ClientKey(p, nonce)));
    var a := AddConnection(n, p, nonce, gateway);
    var e := EmitEvent(a, p, open);
    ConnectCarries(n, p, nonce, gateway);
    EmitStream(a, p, open, []);
    assert [] + [e] == [e];
    JoinLedger(n, m, p, e);
  }

  lemma DropCarries(n: Net, p: Principal)
    requires p in n.conns
    ensures var m := CallClose(DropConnection(n, p), p);
      && m.log == n.log + [OnClose(p)] && m.nextConn == n.nextConn && m.conns.Keys == n.conns.Keys - {p}
      && (forall q :: q in m.conns ==> Carried(n, m, q))
  {}

  lemma CarriedOn(n: Net, f: Net, m: Net)
    requires forall q :: q in m.conns ==> q in f.conns && Carried(n, f, q) && Carried(f, m, q)
    ensures forall q :: q in m.conns ==> Carried(n, m, q)
  {}

  lemma RemoveCarries(n: Net, p: Principal, reason: Option<CloseReason>)
    requires Inv(n) && p in n.conns
    ensures var m := Act(n, Remove(p, reason));
      && m.log == (if reason.Some? then n.log + [EmitEvent(n, p, Service(CloseMessage(reason.value)))] else n.log) +
        [OnClose(p)]
      && m.nextConn == n.nextConn && m.conns.Keys == n.conns.Keys - {p}
      && (forall q :: q in m.conns ==> Carried(n, m, q))
  {
    hide Inv, Emit, DropConnection, Carried, EmitEvent;
    if reason.Some? {
      var f := Emit(n, p, Service(CloseMessage(reason.value)));
      EmitCarries(n, p, Service(CloseMessage(reason.value)));
      DropCarries(f, p);
      CarriedOn(n, f, CallClose(DropConnection(f, p), p));
    } else {
      DropCarries(n, p);
    }
  }

  /** The log after a connection ended, with or without a farewell. */
  lemma LeaveLedger(n: Net, m: Net, p: Principal, log: seq<Event>)
    requires Ledger(n) && p in n.conns && m.conns.Keys == n.conns.Keys - {p}
    requires m.nextConn == n.nextConn && m.log == log + [OnClose(p)]
    requires forall q :: q in m.conns ==> Carried(n, m, q)
    requires forall id: nat :: id != n.conns[p].id ==> Outgoing(log, id) == Outgoing(n.log, id)
    requires InSequence(Outgoing(log, n.conns[p].id))
    requires forall id: nat :: Incoming(log, id) == Incoming(n.log, id)
    requires forall q :: Callbacks(log, q) == Callbacks(n.log, q)
    ensures Ledger(m)
  {
    LeaveOutgoing(n, m, p, log);
    assert IncomingSound(m) && IdsSound(m) by {
      Unrelated(log, OnClose(p));
      IncomingKept(n, m);
      IdsKept(n, m);
    }
    LeaveCallbacks(n, m, p, log);
  }

  lemma LeaveOutgoing(n: Net, m: Net, p: Principal, log: seq<Event>)
    requires OutgoingSound(n) && p in n.conns && p !in m.conns
    requires m.log == log + [OnClose(p)]
    requires forall q :: q in m.conns ==> Carried(n, m, q) && n.conns[q].id != n.conns[p].id
    requires forall id: nat :: id != n.conns[p].id ==> Outgoing(log, id) == Outgoing(n.log, id)
    requires InSequence(Outgoing(log, n.conns[p].id))
    ensures OutgoingSound(m)
  {
    Unrelated(log, OnClose(p));
    OutgoingKept(n, m, p);
  }

  lemma LeaveCallbacks(n: Net, m: Net, p: Principal, log: seq<Event>)
    requires CallbacksSound(n) && p in n.conns && m.conns.Keys == n.conns.Keys - {p}
    requires m.log == log + [OnClose(p)]
    requires forall q :: Callbacks(log, q) == Callbacks(n.log, q)
    ensures CallbacksSound(m)
  {
    Unrelated(log, OnClose(p));
    AppendedCallbacks(log, OnClose(p));
    AlternationGrows(Callbacks(n.log, p), Closed);
    CallbacksKept(n, m, p);
  }

  lemma RemoveLedger(n: Net, p: Principal, reason: Option<CloseReason>, m: Net)
    requires Inv(n) && Ledger(n) && p in n.conns && m == Act(n, Remove(p, reason))
    ensures Ledger(m)
  {
    RemoveCarries(n, p, reason);
    if reason.Some? {
      var body := Service(CloseMessage(reason.value));
      var e := EmitEvent(n, p, body);
      Unrelated(n.log, e);
      AppendedOutgoing(n.log, e);
      EmitStream(n, p, body, Outgoing(n.log, n.conns[p].id));
      LeaveLedger(n, m, p, n.log + [e]);
    } else {
      LeaveLedger(n, m, p, n.log);
    }
  }

  lemma AcceptLedger(n: Net, m: Net, p: Principal)
    requires Ledger(n) && p in n.conns
    requires var c := n.conns[p];
      && m.conns == n.conns[p := c.(received := c.received + 1)] && m.gateways == n.gateways
      && m.nextConn == n.nextConn && m.log == n.log + [Accepted(c.id, c.received + 1)]
    ensures Ledger(m)
  {
    var e := Accepted(n.conns[p].id, n.conns[p].received + 1);
    assert forall id: nat :: Outgoing(m.log, id) == Outgoing(n.log, id) by {
      Unrelated(n.log, e);
    }
    OutgoingUntouched(n, m);
    AcceptRest(n, m, p);
  }

  lemma OutgoingUntouched(n: Net, m: Net)
    requires OutgoingSound(n) && m.conns.Keys == n.conns.Keys
    requires forall id: nat :: Outgoing(m.log, id) == Outgoing(n.log, id)
    requires forall p :: p in m.conns ==>
      && m.conns[p].id == n.conns[p].id && m.conns[p].nonce == n.conns[p].nonce
      && m.conns[p].gateway == n.conns[p].gateway && m.conns[p].sent == n.conns[p].sent
      && RecordsKept(n, m, n.conns[p].gateway)
    ensures OutgoingSound(m)
  {
    forall q | q in m.conns ensures LiveStream(m, q, Outgoing(m.log, m.conns[q].id)) {
      LiveStreamKept(n, m, q, Outgoing(n.log, n.conns[q].id));
    }
  }

  lemma AcceptRest(n: Net, m: Net, p: Principal)
    requires IdsSound(n) && IncomingSound(n) && CallbacksSound(n) && p in n.conns
    requires var c := n.conns[p];
      && m.conns == n.conns[p := c.(received := c.received + 1)] && m.nextConn == n.nextConn
      && m.log == n.log + [Accepted(c.id, c.received + 1)]
    ensures IdsSound(m) && IncomingSound(m) && CallbacksSound(m)
  {
    var e := Accepted(n.conns[p].id, n.conns[p].received + 1);
    Unrelated(n.log, e);
    AppendedIncoming(n.log, e);
  }

  /** Changing only timestamps, flags or timers. */
  lemma TouchLedger(n: Net, m: Net)
    requires Ledger(n)
    requires m.nextConn == n.nextConn && m.conns.Keys == n.conns.Keys && m.log == n.log
    requires forall p :: p in m.conns ==>
      m.conns[p] == n.conns[p].(lastSeen := m.conns[p].lastSeen, waiting := m.conns[p].waiting)
    requires forall p :: p in m.conns && n.conns[p].gateway in n.gateways ==>
      n.conns[p].gateway in m.gateways && m.gateways[n.conns[p].gateway] == n.gateways[n.conns[p].gateway]
    ensures Ledger(m)
  {
    forall p | p in m.conns ensures Carried(n, m, p) {
    }
    QuietLedger(n, m);
  }

  lemma ExpireLedger(n: Net, m: Net)
    requires Inv(n) && Ledger(n) && m == Act(n, ExpireGateways)
    ensures Ledger(m)
  {
    forall p | p in n.conns ensures !ExpiredGateway(n, n.conns[p].gateway) {
      assert p in OnGateway(n.conns, n.conns[p].gateway);
    }
    TouchLedger(n, m);
  }

  lemma WaitLedger(n: Net, p: Principal)
    requires Ledger(n) && p in n.conns
    ensures Ledger(n.(conns := n.conns[p := n.conns[p].(waiting := true)]))
  {
    TouchLedger(n, n.(conns := n.conns[p := n.conns[p].(waiting := true)]));
  }

  lemma AcknowledgeLedger(n: Net, m: Net, p: Principal)
    requires Inv(n) && Ledger(n) && p in n.conns && m == Act(n, Acknowledge(p))
    ensures Ledger(m)
  {
    AcknowledgeShape(n, p);
    var body := Service(AckMessage(n.conns[p].received));
    EmitLedger(n, p, body);
    WaitLedger(Emit(n, p, body), p);
  }

  lemma IdleShape(n: Net, a: Atom)
    requires a.Tick? || a.Configure? || a.Hear? || a.FinishAcks? || a.FinishCheck? || a.Clear?
    ensures var m := Act(n, a);
      && m.log == n.log && m.nextConn == n.nextConn && m.conns.Keys == n.conns.Keys
      && (m.conns != map[] ==> m.gateways == n.gateways)
      && forall p :: p in m.conns ==> m.conns[p] == n.conns[p].(lastSeen := m.conns[p].lastSeen)
  {
    match a
    case Tick(to) =>
    case Configure(interval, maxReturned) =>
    case Hear(p) =>
    case FinishAcks =>
    case FinishCheck =>
    case Clear =>
  }

  lemma IdleLedger(n: Net, a: Atom, m: Net)
    requires Inv(n) && Ledger(n) && m == Act(n, a)
    requires a.Tick? || a.Configure? || a.Hear? || a.FinishAcks? || a.FinishCheck? || a.Clear?
    ensures Ledger(m)
  {
    IdleShape(n, a);
    assert forall p :: p in m.conns ==> m.conns != map[];
    TouchLedger(n, m);
  }

  lemma PushLedger(n: Net, p: Principal, bytes: Bytes, m: Net)
    requires Inv(n) && Ledger(n) && p in n.conns && m == Act(n, Push(p, bytes))
    ensures Ledger(m)
  {
    hide Ledger, Inv, Emit;
    EmitLedger(n, p, Data(bytes));
  }

  lemma AnnounceLedger(n: Net, p: Principal, content: Bytes, m: Net)
    requires Ledger(n) && m == Act(n, Announce(p, content))
    ensures Ledger(m)
  {
    Unrelated(n.log, OnMessage(p, content));
    QuietLedger(n, m);
  }

  /** Every atomic action keeps the ledger. */
  lemma ActLedger(n: Net, a: Atom, m: Net)
    requires Inv(n) && Ledger(n) && m == Act(n, a)
    ensures Ledger(m)
  {
    hide Ledger, Inv;
    match a
    case Announce(p, content) => AnnounceLedger(n, p, content, m);
    case ExpireGateways => ExpireLedger(n, m);
    case Connect(p, nonce, gateway) => if p !in n.conns { ConnectLedger(n, p, nonce, gateway, m); }
    case Push(p, bytes) => if p in n.conns { PushLedger(n, p, bytes, m); }
    case Acknowledge(p) => if p in n.conns { AcknowledgeLedger(n, m, p); }
    case Remove(p, reason) => if p in n.conns { RemoveLedger(n, p, reason, m); }
    case Accept(p) => if p in n.conns { AcceptLedger(n, m, p); }
    case _ => IdleLedger(n, a, m);
  }

  lemma {:induction false} ExecLedger(n: Net, atoms: seq<Atom>)
    requires Inv(n) && Ledger(n)
    ensures Inv(Exec(n, atoms)) && Ledger(Exec(n, atoms))
  {
    if atoms != [] {
      var before := Exec(n, atoms[..|atoms| - 1]);
      ExecLedger(n, atoms[..|atoms| - 1]);
      ActInv(before, atoms[|atoms| - 1]);
      ActLedger(before, atoms[|atoms| - 1], Exec(n, atoms));
    }
  }

  lemma {:induction false} RunLedger(now: nat, app: Application, steps: seq<Step>)
    ensures Inv(Run(Initial(now, app), steps)) && Ledger(Run(Initial(now, app), steps))
  {
    if steps != [] {
      var before := Run(Initial(now, app), steps[..|steps| - 1]);
      RunLedger(now, app, steps[..|steps| - 1]);
      ExecLedger(before, Script(before, steps[|steps| - 1]));
    }
  }

  // ---- what the ledger means ----

  /** After any run, whatever principals, gateways and callbacks did: every connection's
      messages are numbered 1, 2, 3, … in nonce order within one gateway registration,
      the open message exactly first and a close message at most last; a live connection
      has counted exactly the messages sent on it, has not been closed, and each of its
      messages is the one its gateway holds under that nonce. */
  lemma OutgoingStreams(now: nat, app: Application, steps: seq<Step>, id: nat)
    ensures WellNumbered(Outgoing(Run(Initial(now, app), steps).log, id))
    ensures var n := Run(Initial(now, app), steps);
      forall p :: p in n.conns && n.conns[p].id == id ==> n.conns[p].sent >= 1 && LiveStream(n, p, Outgoing(n.log, id))
  {
    RunLedger(now, app, steps);
    InSequenceMeans(Outgoing(Run(Initial(now, app), steps).log, id));
  }

  /** The messages accepted on a connection are numbered exactly 1, 2, …, n. */
  lemma IncomingStreams(now: nat, app: Application, steps: seq<Step>, id: nat)
    ensures Counted(Incoming(Run(Initial(now, app), steps).log, id))
    ensures var n := Run(Initial(now, app), steps);
      forall p :: p in n.conns && n.conns[p].id == id ==> n.conns[p].received == |Incoming(n.log, id)|
  {
    RunLedger(now, app, steps);
  }

  function CountOpened(s: seq<Callback>): nat {
    if s == [] then 0 else CountOpened(s[..|s| - 1]) + if s[|s| - 1].Opened? then 1 else 0
  }

  lemma {:induction false} AlternationCounts(s: seq<Callback>)
    requires Alternating(s)
    ensures 2 * CountOpened(s) == |s| + if EndsOpen(s) then 1 else 0
  {
    if s != [] {
      var before := s[..|s| - 1];
      forall k | 0 <= k < |before| ensures before[k].Opened? <==> !EndsOpen(before[..k]) {
        assert before[..k] == s[..k];
      }
      AlternationCounts(before);
    }
  }

  /** For every principal, on_open and on_close alternate starting with on_open, and the
      opens exceed the closes by one exactly while it is connected. */
  lemma CallbackConservation(now: nat, app: Application, steps: seq<Step>, p: Principal)
    ensures var n := Run(Initial(now, app), steps);
      var s := Callbacks(n.log, p);
      Alternating(s) && CountOpened(s) - (|s| - CountOpened(s)) == if p in n.conns then 1 else 0
  {
    RunLedger(now, app, steps);
    AlternationCounts(Callbacks(Run(Initial(now, app), steps).log, p));
  }

  ghost predicate Dead(n: Net, id: nat) {
    id < n.nextConn && forall p :: p in n.conns ==> n.conns[p].id != id
  }

  lemma EmitSilence(n: Net, p: Principal, body: Body, id: nat)
    requires Inv(n) && Dead(n, id) && p in n.conns
    ensures Dead(Emit(n, p, body), id) && Outgoing(Emit(n, p, body).log, id) == Outgoing(n.log, id)
  {}

  lemma ConnectSilence(n: Net, p: Principal, nonce: nat, gateway: Principal, id: nat)
    requires Inv(n) && Dead(n, id) && p !in n.conns
    ensures var m := Act(n, Connect(p, nonce, gateway)); Dead(m, id) && Outgoing(m.log, id) == Outgoing(n.log, id)
  {
    ConnectCarries(n, p, nonce, gateway);
    var e := EmitEvent(AddConnection(n, p, nonce, gateway), p, Service(OpenMessage(ClientKey(p, nonce))));
    Unrelated(n.log, e);
    Unrelated(n.log + [e], OnOpen(p));
  }

  lemma RemoveSilence(n: Net, p: Principal, reason: Option<CloseReason>, id: nat)
    requires Inv(n) && Dead(n, id) && p in n.conns
    ensures var m := Act(n, Remove(p, reason)); Dead(m, id) && Outgoing(m.log, id) == Outgoing(n.log, id)
  {
    RemoveCarries(n, p, reason);
    if reason.Some? {
      EmitSilence(n, p, Service(CloseMessage(reason.value)), id);
    }
    Unrelated(Farewell(n, p, reason).log, OnClose(p));
  }

  lemma ActSilence(n: Net, a: Atom, id: nat)
    requires Inv(n) && Dead(n, id)
    ensures Dead(Act(n, a), id) && Outgoing(Act(n, a).log, id) == Outgoing(n.log, id)
  {
    hide Inv, AddConnection;
    match a
    case Connect(p, nonce, gateway) => if p !in n.conns { ConnectSilence(n, p, nonce, gateway, id); }
    case Push(p, bytes) => if p in n.conns { EmitSilence(n, p, Data(bytes), id); }
    case Acknowledge(p) => if p in n.conns { EmitSilence(n, p, Service(AckMessage(n.conns[p].received)), id); }
    case Remove(p, reason) => if p in n.conns { RemoveSilence(n, p, reason, id); }
    case Accept(p) =>
      if p in n.conns {
        Unrelated(n.log, Accepted(n.conns[p].id, n.conns[p].received + 1));
      }
    case Announce(p, content) => Unrelated(n.log, OnMessage(p, content));
    case ExpireGateways =>
    case _ => IdleShape(n, a);
  }

  /** Nothing is ever sent on a connection after its removal, even if its client reopens
      with the same key. */
  lemma {:induction false} NothingAfterRemoval(n: Net, atoms: seq<Atom>, id: nat)
    requires Inv(n) && Dead(n, id)
    ensures Inv(Exec(n, atoms)) && Dead(Exec(n, atoms), id)
    ensures Outgoing(Exec(n, atoms).log, id) == Outgoing(n.log, id)
  {
    if atoms != [] {
      NothingAfterRemoval(n, atoms[..|atoms| - 1], id);
      ActInv(Exec(n, atoms[..|atoms| - 1]), atoms[|atoms| - 1]);
      ActSilence(Exec(n, atoms[..|atoms| - 1]), atoms[|atoms| - 1], id);
    }
  }

  /** The next number in sequence is accepted. It counts; the application hears of the
      message exactly if it is its own; a keep-alive renews the time of the last one; and
      nothing else changes at all. */
  lemma RightNumberCounts(n: Net, s: Step)
    requires s.WsMessage? && s.caller in n.conns && KeyOf(n, s.caller) == s.key
    requires s.sequenceNum == n.conns[s.caller].received + 1
    ensures var c, keepAlive := n.conns[s.caller], s.isService && s.decoded.Some? && s.decoded.value.KeepAliveMessage?;
      Perform(n, s) == n.(
        conns := n.conns[s.caller := c.(
          received := s.sequenceNum, lastSeen := if keepAlive then n.now else c.lastSeen)],
        log := n.log + [Accepted(c.id, s.sequenceNum)] + (if s.isService then [] else [OnMessage(s.caller, s.content)]))
  {
    MessagePhases(n, s);
    var c := n.conns[s.caller];
    assert n.conns[s.caller := c.(received := s.sequenceNum, lastSeen := c.lastSeen)]
        == n.conns[s.caller := c.(received := s.sequenceNum)];
  }

  /** A service message that a client may not send, or that cannot be decoded, is refused,
      but it counts, and the connection goes on: no close message is sent. */
  lemma InvalidServiceMessageKept(n: Net, s: Step)
    requires s.WsMessage? && s.caller in n.conns && KeyOf(n, s.caller) == s.key
    requires s.sequenceNum == n.conns[s.caller].received + 1
    requires s.isService && !(s.decoded.Some? && s.decoded.value.KeepAliveMessage?)
    ensures Reply(n, s) == if s.decoded.None? then Err(DecodeServiceMessageContent) else Err(InvalidServiceMessageError)
    ensures var m, c := Perform(n, s), n.conns[s.caller];
      && Holds(m, s.key) && m.conns[s.caller] == c.(received := s.sequenceNum)
      && Outgoing(m.log, c.id) == Outgoing(n.log, c.id) && m.gateways == n.gateways
  {
    RightNumberCounts(n, s);
    var e := Accepted(n.conns[s.caller].id, s.sequenceNum);
    assert n.log + [e] + [] == n.log + [e];
    Unrelated(n.log, e);
  }

  predicate InvalidServiceFarewell(e: Event) {
    e.Sent? && e.item.body == Service(CloseMessage(InvalidServiceMessage))
  }

  lemma ActReason(n: Net, a: Atom)
    requires a.Remove? ==> a.reason != Some(InvalidServiceMessage)
    requires forall e :: e in n.log ==> !InvalidServiceFarewell(e)
    ensures forall e :: e in Act(n, a).log ==> !InvalidServiceFarewell(e)
  {}

  lemma {:induction false} ExecReason(n: Net, atoms: seq<Atom>)
    requires forall a :: a in atoms && a.Remove? ==> a.reason != Some(InvalidServiceMessage)
    requires forall e :: e in n.log ==> !InvalidServiceFarewell(e)
    ensures forall e :: e in Exec(n, atoms).log ==> !InvalidServiceFarewell(e)
  {
    hide Act, InvalidServiceFarewell;
    if atoms != [] {
      ExecReason(n, atoms[..|atoms| - 1]);
      ActReason(Exec(n, atoms[..|atoms| - 1]), atoms[|atoms| - 1]);
    }
  }

  /** In no run is a close message ever sent for an invalid service message. */
  lemma {:induction false} InvalidServiceReasonUnused(now: nat, app: Application, steps: seq<Step>)
    ensures forall e :: e in Run(Initial(now, app), steps).log ==> !InvalidServiceFarewell(e)
  {
    hide Act, InvalidServiceFarewell, Exec;
    if steps != [] {
      var before, s := Run(Initial(now, app), steps[..|steps| - 1]), steps[|steps| - 1];
      InvalidServiceReasonUnused(now, app, steps[..|steps| - 1]);
      if !s.Wait? && !s.Init? {
        ScriptAtoms(before, s);
      }
      ExecReason(before, Script(before, s));
    }
  }

  /** Any other number ends the connection; its stream ends with the reason, whatever the
      application sends when it is told. */
  lemma WrongNumberEnds(n: Net, s: Step)
    requires Inv(n) && Ledger(n) && s.WsMessage? && s.caller in n.conns && KeyOf(n, s.caller) == s.key
    requires s.sequenceNum != n.conns[s.caller].received + 1
    ensures var m := Perform(n, s);
      var t := Outgoing(m.log, n.conns[s.caller].id);
      && s.caller !in m.conns && t != []
      && t[..|t| - 1] == Outgoing(n.log, n.conns[s.caller].id)
      && t[|t| - 1].Sent? && t[|t| - 1].item.body == Service(CloseMessage(WrongSequenceNumber))
  {
    hide Exec, Outgoing, Inv;
    var p := s.caller;
    MessagePhases(n, s);
    EndsWithFarewell(n, p, WrongSequenceNumber);
  }

  /** The same for every removal with a reason, handler included. */
  lemma EndsWithFarewell(n: Net, p: Principal, reason: CloseReason)
    requires Inv(n) && Ledger(n) && p in n.conns
    ensures var m := Exec(n, Leaving(p, Some(reason), n.app, n.closes));
      var t := Outgoing(m.log, n.conns[p].id);
      && p !in m.conns && t != []
      && t[..|t| - 1] == Outgoing(n.log, n.conns[p].id)
      && t[|t| - 1].Sent? && t[|t| - 1].item.body == Service(CloseMessage(reason))
  {
    hide Act, Exec, Outgoing, Inv;
    var k := Act(n, Remove(p, Some(reason)));
    RemovalFarewell(n, p, reason);
    RemovedDead(n, p, Some(reason));
    LeavingPhases(n, p, Some(reason), n.app, n.closes);
    NothingAfterRemoval(k, Pushes(n.app(p, n.closes)), n.conns[p].id);
  }

  lemma RemovedDead(n: Net, p: Principal, reason: Option<CloseReason>)
    requires Inv(n) && IdsSound(n) && p in n.conns
    ensures Inv(Act(n, Remove(p, reason))) && Dead(Act(n, Remove(p, reason)), n.conns[p].id)
  {
    hide Act, Outgoing, Inv;
    RemoveInv(n, p, reason);
    RemoveCarries(n, p, reason);
  }

  /** Removal for a reason sends exactly one more message, the close message. */
  lemma RemovalFarewell(n: Net, p: Principal, reason: CloseReason)
    requires Inv(n) && p in n.conns && LiveStream(n, p, Outgoing(n.log, n.conns[p].id))
    ensures var m := Act(n, Remove(p, Some(reason)));
      var t := Outgoing(m.log, n.conns[p].id);
      && p !in m.conns
      && |t| == n.conns[p].sent + 1 && t[..|t| - 1] == Outgoing(n.log, n.conns[p].id)
      && t[|t| - 1].Sent? && t[|t| - 1].item.body == Service(CloseMessage(reason))
  {
    RemoveCarries(n, p, Some(reason));
    var e := EmitEvent(n, p, Service(CloseMessage(reason)));
    AppendedOutgoing(n.log, e);
    Unrelated(n.log + [e], OnClose(p));
  }

  // ---- acknowledgement rounds ----

  ghost predicate OneAck(n: Net, m: Net, p: Principal)
    requires p in n.conns
  {
    var id := n.conns[p].id;
    var s, t := Outgoing(n.log, id), Outgoing(m.log, id);
    && |t| == |s| + 1 && t[..|s|] == s && t[|s|].Sent?
    && t[|s|].item.body == Service(AckMessage(n.conns[p].received))
  }

  lemma AckSent(n: Net, p: Principal)
    requires Inv(n) && p in n.conns
    requires forall q :: q in n.conns && q != p ==> n.conns[q].id != n.conns[p].id
    ensures var m := Act(n, Acknowledge(p));
      && m.conns == n.conns[p := n.conns[p].(sent := n.conns[p].sent + 1, waiting := true)]
      && m.now == n.now && m.ackDue == n.ackDue && m.nextConn == n.nextConn
      && OneAck(n, m, p)
      && forall q :: q in n.conns && q != p ==> Outgoing(m.log, n.conns[q].id) == Outgoing(n.log, n.conns[q].id)
  {
    hide Outgoing, Emit, Act, EmitEvent, Inv;
    var body := Service(AckMessage(n.conns[p].received));
    GatewayOf(n, p);
    var e := EmitEvent(n, p, body);
    EmitState(n, p, body);
    AcknowledgeShape(n, p);
    EventOf(n, p, body);
    Unrelated(n.log, e);
    AppendedOutgoing(n.log, e);
  }

  lemma GatewayOf(n: Net, p: Principal)
    requires Inv(n) && p in n.conns
    ensures n.conns[p].gateway in n.gateways
  {}

  lemma EventOf(n: Net, p: Principal, body: Body)
    requires p in n.conns && n.conns[p].gateway in n.gateways
    ensures var e := EmitEvent(n, p, body); e.Sent? && e.item.conn == n.conns[p].id && e.item.body == body
  {}

  ghost predicate AckedSoFar(n: Net, m: Net, order: seq<Principal>) {
    && m.conns.Keys == n.conns.Keys && m.now == n.now && m.ackDue == n.ackDue && m.nextConn == n.nextConn
    && forall p :: p in n.conns ==>
         if p in order then
           m.conns[p] == n.conns[p].(sent := n.conns[p].sent + 1, waiting := true) && OneAck(n, m, p)
         else
           m.conns[p] == n.conns[p] && Outgoing(m.log, n.conns[p].id) == Outgoing(n.log, n.conns[p].id)
  }

  lemma AckedOneMore(n: Net, k: Net, m: Net, before: seq<Principal>, p: Principal)
    requires AckedSoFar(n, k, before) && p in n.conns && p !in before
    requires m.conns == k.conns[p := k.conns[p].(sent := k.conns[p].sent + 1, waiting := true)]
    requires m.now == k.now && m.ackDue == k.ackDue && m.nextConn == k.nextConn && OneAck(k, m, p)
    requires forall q :: q in k.conns && q != p ==> Outgoing(m.log, k.conns[q].id) == Outgoing(k.log, k.conns[q].id)
    ensures AckedSoFar(n, m, before + [p])
  {}

  lemma {:induction false} AcksSent(n: Net, order: seq<Principal>)
    requires Inv(n) && IdsSound(n)
    requires forall p :: p in order ==> p in n.conns
    requires forall i, j :: 0 <= i < j < |order| ==> order[i] != order[j]
    ensures Inv(Exec(n, Acks(order))) && AckedSoFar(n, Exec(n, Acks(order)), order)
  {
    hide Inv;
    if order != [] {
      var before, p := order[..|order| - 1], order[|order| - 1];
      var k := Exec(n, Acks(before));
      assert order == before + [p];
      AcksSent(n, before);
      ExecLast(n, Acks(before), Acknowledge(p));
      ActInv(k, Acknowledge(p));
      IdsAfterAcks(n, k, before);
      AckSent(k, p);
      AckedOneMore(n, k, Act(k, Acknowledge(p)), before, p);
    }
  }

  lemma IdsAfterAcks(n: Net, k: Net, before: seq<Principal>)
    requires IdsSound(n) && AckedSoFar(n, k, before)
    ensures forall p, q :: p in k.conns && q in k.conns && p != q ==> k.conns[p].id != k.conns[q].id
  {}

  lemma RoundFinished(k: Net)
    ensures Act(k, FinishAcks).conns == k.conns && Act(k, FinishAcks).log == k.log
  {}

  /** An acknowledgement round sends every connected client exactly one message, an ack
      carrying the number of messages accepted from it, in whatever order the clients are
      visited, and leaves exactly the connected clients waiting. */
  lemma AckRound(n: Net, order: seq<Principal>)
    requires Inv(n) && Ledger(n) && Enabled(n, AckTimer(order))
    ensures var m := Perform(n, AckTimer(order));
      && m.conns.Keys == n.conns.Keys
      && forall p :: p in n.conns ==>
          && m.conns[p].waiting && m.conns[p].received == n.conns[p].received
          && OneAck(n, m, p) && n.conns[p].received == |Incoming(n.log, n.conns[p].id)|
  {
    hide Act, Exec, Outgoing, Incoming, Inv;
    AcksSent(n, order);
    ExecLast(n, Acks(order), FinishAcks);
    RoundFinished(Exec(n, Acks(order)));
  }

  // ---- wiping ----

  lemma RemovedOne(n: Net, p: Principal, reason: Option<CloseReason>)
    ensures Act(n, Remove(p, reason)).conns.Keys == n.conns.Keys - {p}
  {}

  lemma {:induction false} RemovedAll(n: Net, order: seq<Principal>, reason: Option<CloseReason>, app: Application,
                                      closes: nat)
    ensures Exec(n, Removals(order, reason, app, closes)).conns.Keys == n.conns.Keys - (set p | p in order)
  {
    hide Act, Leaving;
    if order != [] {
      var last := |order| - 1;
      var before, p := order[..last], order[last];
      var k := Exec(n, Removals(before, reason, app, closes));
      RemovedAll(n, before, reason, app, closes);
      ExecConcat(n, Removals(before, reason, app, closes), Leaving(p, reason, app, closes + last));
      LeavingPhases(k, p, reason, app, closes + last);
      RemovedOne(k, p, reason);
      assert (set q | q in order) == (set q | q in before) + {p};
    }
  }

  lemma ClearedOut(k: Net)
    requires k.conns == map[]
    ensures Act(k, Clear).conns == map[] && Act(k, Clear).gateways == map[]
  {}

  lemma WipeState(n: Net, order: seq<Principal>)
    requires Enabled(n, Wipe(order))
    ensures Exec(n, Removals(order, None, n.app, n.closes)).conns == map[]
    ensures Perform(n, Wipe(order)) == Act(Exec(n, Removals(order, None, n.app, n.closes)), Clear)
    ensures Perform(n, Wipe(order)).conns == map[] && Perform(n, Wipe(order)).gateways == map[]
  {
    hide Act, Exec;
    var removals := Removals(order, None, n.app, n.closes);
    RemovedAll(n, order, None, n.app, n.closes);
    ExecLast(n, removals, Clear);
    assert (set p | p in order) == n.conns.Keys;
    ClearedOut(Exec(n, removals));
  }

  /** Wiping leaves no client and no gateway, and every open callback matched by a close. */
  lemma WipeEmpties(now: nat, app: Application, steps: seq<Step>, order: seq<Principal>)
    requires Possible(Initial(now, app), steps + [Wipe(order)])
    ensures var m := Run(Initial(now, app), steps + [Wipe(order)]);
      && m.conns == map[] && m.gateways == map[]
      && forall p :: 2 * CountOpened(Callbacks(m.log, p)) == |Callbacks(m.log, p)|
  {
    RunExtend(Initial(now, app), steps, Wipe(order));
    WipeState(Run(Initial(now, app), steps), order);
    var m := Run(Initial(now, app), steps + [Wipe(order)]);
    forall p ensures 2 * CountOpened(Callbacks(m.log, p)) == |Callbacks(m.log, p)| {
      CallbackConservation(now, app, steps + [Wipe(order)], p);
    }
  }
}
