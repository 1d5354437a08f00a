/** The abstract state of the protocol and its atomic actions.

    A principal has at most one connection. A gateway's registration is the whole
    history of the messages sent through it, of which the first `base` have been deleted:
    the message at index i has nonce i. The log records everything sent, accepted and
    announced to the application, with a fresh identity for every connection and a fresh
    epoch for every gateway registration. */
module Network {
  import opened Types

  datatype Body = Data(bytes: Bytes) | Service(content: ServiceContent)

  datatype Item = Item(conn: nat, clientKey: ClientKey, seqNum: nat, time: nat, body: Body)

  datatype Gateway = Gateway(epoch: nat, sent: seq<Item>, base: nat, emptiedAt: Option<nat>)

  datatype Connection = Connection(
    id: nat,
    nonce: nat,
    gateway: Principal,
    lastSeen: nat,
    received: nat,
    sent: nat,
    waiting: bool)

  datatype Event =
    | Sent(gateway: Principal, epoch: nat, nonce: nat, item: Item)
    | Accepted(conn: nat, seqNum: nat)
    | OnOpen(principal: Principal)
    | OnMessage(principal: Principal, content: Bytes)
    | OnClose(principal: Principal)

  datatype Net = Net(
    now: nat,
    interval: nat,
    maxReturned: nat,
    conns: map<Principal, Connection>,
    gateways: map<Principal, Gateway>,
    nextConn: nat,
    nextEpoch: nat,
    log: seq<Event>,
    initAt: nat,
    ackDue: Option<nat>,
    checkDue: Option<nat>,
    app: Application,
    closes: nat)

  datatype Atom =
    | Tick(to: nat)
    | Configure(interval: nat, maxReturned: nat)
    | Connect(principal: Principal, nonce: nat, gateway: Principal)
    | Push(principal: Principal, bytes: Bytes)
    | Acknowledge(principal: Principal)
    | Remove(principal: Principal, reason: Option<CloseReason>)
    | Accept(principal: Principal)
    | Hear(principal: Principal)
    | Announce(principal: Principal, content: Bytes)
    | ExpireGateways
    | FinishAcks
    | FinishCheck
    | Clear

  function Initial(now: nat, app: Application): Net {
    Net(now, DEFAULT_SEND_ACK_INTERVAL_MS, DEFAULT_MAX_NUMBER_OF_RETURNED_MESSAGES,
        map[], map[], 0, 0, [], 0, None, None, app, 0)
  }

  function IntervalNs(n: Net): nat {
    n.interval * NS_PER_MS
  }

  /** The age rule shared by message deletion and gateway expiry. */
  predicate Overdue(time: nat, now: nat, limitMs: nat) {
    now - time > limitMs * NS_PER_MS
  }

  /** How many of the first `n` times are overdue before one is not. */
  function LeadingOverdue(times: seq<nat>, now: nat, limitMs: nat, n: nat): (k: nat)
    ensures k <= n && k <= |times|
  {
    if n == 0 || times == [] || !Overdue(times[0], now, limitMs) then 0
    else 1 + LeadingOverdue(times[1..], now, limitMs, n - 1)
  }

  function Times(items: seq<Item>): (times: seq<nat>)
    ensures |times| == |items|
    ensures forall i :: 0 <= i < |items| ==> times[i] == items[i].time
  {
    seq(|items|, i requires 0 <= i < |items| => items[i].time)
  }

  /** The queue's new start after at most five overdue messages are deleted. */
  function Trimmed(g: Gateway, now: nat, limitMs: nat): nat
  {
    if g.base <= |g.sent| then
      g.base + LeadingOverdue(Times(g.sent[g.base..]), now, limitMs, MESSAGES_TO_DELETE_COUNT)
    else
      g.base
  }

  /** A client key is live if it is its principal's connection. */
  predicate Live(conns: map<Principal, Connection>, key: ClientKey) {
    key.clientPrincipal in conns && conns[key.clientPrincipal].nonce == key.clientNonce
  }

  function OnGateway(conns: map<Principal, Connection>, g: Principal): set<Principal> {
    set p | p in conns && conns[p].gateway == g
  }

  function KeyOf(n: Net, p: Principal): ClientKey
    requires p in n.conns
  {
    ClientKey(p, n.conns[p].nonce)
  }

  function NextItem(n: Net, p: Principal, body: Body): Item
    requires p in n.conns
  {
    Item(n.conns[p].id, KeyOf(n, p), n.conns[p].sent + 1, n.now, body)
  }

  /** One message through the client's gateway: delete old ones, then append. */
  function Emit(n: Net, p: Principal, body: Body): Net {
    if p !in n.conns || n.conns[p].gateway !in n.gateways then n
    else
      var c := n.conns[p];
      var g := n.gateways[c.gateway];
      var item := NextItem(n, p, body);
      n.(conns := n.conns[p := c.(sent := c.sent + 1)],
         gateways := n.gateways[c.gateway := g.(sent := g.sent + [item], base := Trimmed(g, n.now, n.interval))],
         log := n.log + [Sent(c.gateway, g.epoch, |g.sent|, item)])
  }

  function AddConnection(n: Net, p: Principal, nonce: nat, gateway: Principal): Net {
    var known := gateway in n.gateways;
    var g := if known then n.gateways[gateway].(emptiedAt := None) else Gateway(n.nextEpoch, [], 0, None);
    n.(conns := n.conns[p := Connection(n.nextConn, nonce, gateway, n.now, 0, 0, false)],
       gateways := n.gateways[gateway := g],
       nextConn := n.nextConn + 1,
       nextEpoch := if known then n.nextEpoch else n.nextEpoch + 1)
  }

  function DropConnection(n: Net, p: Principal): Net {
    if p !in n.conns then n
    else
      var gateway := n.conns[p].gateway;
      var conns := n.conns - {p};
      n.(conns := conns,
         gateways := if gateway in n.gateways && OnGateway(conns, gateway) == {}
                     then n.gateways[gateway := n.gateways[gateway].(emptiedAt := Some(n.now))]
                     else n.gateways)
  }

  function Record(n: Net, e: Event): Net {
    n.(log := n.log + [e])
  }

  /** The on_close handler is called. */
  function CallClose(n: Net, p: Principal): Net {
    Record(n, OnClose(p)).(closes := n.closes + 1)
  }

  predicate ExpiredGateway(n: Net, g: Principal) {
    g in n.gateways && n.gateways[g].emptiedAt.Some? && Overdue(n.gateways[g].emptiedAt.value, n.now, n.interval)
  }

  function Farewell(n: Net, p: Principal, reason: Option<CloseReason>): Net {
    if reason.Some? then Emit(n, p, Service(CloseMessage(reason.value))) else n
  }

  function Act(n: Net, a: Atom): Net {
    match a
    case Tick(to) =>
      if to < n.now || (n.ackDue.Some? && n.ackDue.value < to) || (n.checkDue.Some? && n.checkDue.value < to) then n
      else n.(now := to)
    case Configure(interval, maxReturned) =>
      if interval <= CLIENT_KEEP_ALIVE_TIMEOUT_MS then n
      else n.(interval := interval, maxReturned := maxReturned, initAt := n.now,
              ackDue := Some(n.now + interval * NS_PER_MS), checkDue := None)
    case Connect(p, nonce, gateway) =>
      if p in n.conns then n
      else Record(Emit(AddConnection(n, p, nonce, gateway), p, Service(OpenMessage(ClientKey(p, nonce)))), OnOpen(p))
    case Push(p, bytes) => Emit(n, p, Data(bytes))
    case Acknowledge(p) =>
      if p !in n.conns then n
      else
        var m := Emit(n, p, Service(AckMessage(n.conns[p].received)));
        m.(conns := m.conns[p := m.conns[p].(waiting := true)])
    case Remove(p, reason) =>
      if p !in n.conns then n
      else CallClose(DropConnection(Farewell(n, p, reason), p), p)
    case Accept(p) =>
      if p !in n.conns then n
      else
        var c := n.conns[p];
        Record(n.(conns := n.conns[p := c.(received := c.received + 1)]), Accepted(c.id, c.received + 1))
    case Hear(p) =>
      if p !in n.conns then n
      else n.(conns := n.conns[p := n.conns[p].(lastSeen := n.now)])
    case Announce(p, content) => Record(n, OnMessage(p, content))
    case ExpireGateways =>
      n.(gateways := map g | g in n.gateways && !ExpiredGateway(n, g) :: n.gateways[g])
    case FinishAcks =>
      if n.ackDue != Some(n.now) then n
      else n.(ackDue := Some(n.now + IntervalNs(n)), checkDue := Some(n.now + CLIENT_KEEP_ALIVE_TIMEOUT_NS))
    case FinishCheck =>
      if n.checkDue != Some(n.now) then n else n.(checkDue := None)
    case Clear =>
      if n.conns != map[] then n else n.(gateways := map[])
  }

  function Exec(n: Net, atoms: seq<Atom>): Net {
    if atoms == [] then n else Act(Exec(n, atoms[..|atoms| - 1]), atoms[|atoms| - 1])
  }

  lemma {:induction false} ExecConcat(n: Net, a: seq<Atom>, b: seq<Atom>)
    ensures Exec(n, a + b) == Exec(Exec(n, a), b)
  {
    if b == [] {
      assert a + b == a;
    } else {
      ExecConcat(n, a, b[..|b| - 1]);
      assert (a + b)[..|a + b| - 1] == a + b[..|b| - 1];
    }
  }

  // ---- the invariant of every reachable state ----

  predicate QueueSound(n: Net, g: Gateway) {
    && g.base <= |g.sent|
    && (forall i, j :: 0 <= i < j < |g.sent| ==> g.sent[i].time <= g.sent[j].time)
    && (forall i :: 0 <= i < |g.sent| ==> g.sent[i].time <= n.now)
    && (g.emptiedAt.Some? ==>
          && g.emptiedAt.value <= n.now
          && forall i :: 0 <= i < |g.sent| ==> g.sent[i].time <= g.emptiedAt.value)
  }

  predicate ClockSound(n: Net) {
    && CLIENT_KEEP_ALIVE_TIMEOUT_MS < n.interval
    && n.initAt <= n.now
    && (n.ackDue.Some? ==> n.now <= n.ackDue.value && n.initAt + IntervalNs(n) <= n.ackDue.value)
    && (n.checkDue.Some? ==>
          && n.ackDue.Some?
          && n.now <= n.checkDue.value
          && n.initAt + IntervalNs(n) + CLIENT_KEEP_ALIVE_TIMEOUT_NS <= n.checkDue.value
          && n.checkDue.value + IntervalNs(n) == n.ackDue.value + CLIENT_KEEP_ALIVE_TIMEOUT_NS)
  }

  ghost predicate Inv(n: Net) {
    && ClockSound(n)
    && (forall p :: p in n.conns ==> n.conns[p].gateway in n.gateways && n.conns[p].lastSeen <= n.now)
    && (forall g :: g in n.gateways ==> QueueSound(n, n.gateways[g]) && n.gateways[g].epoch < n.nextEpoch)
    && (forall g :: g in n.gateways ==> (n.gateways[g].emptiedAt.Some? <==> OnGateway(n.conns, g) == {}))
  }

  lemma InitialInv(now: nat, app: Application)
    ensures Inv(Initial(now, app))
  {}

  lemma OnGatewaySame(c: map<Principal, Connection>, d: map<Principal, Connection>, g: Principal)
    requires forall p :: p in c && c[p].gateway == g <==> p in d && d[p].gateway == g
    ensures OnGateway(c, g) == OnGateway(d, g)
  {}

  /** Updating a connection without moving it leaves every gateway's set of clients alone. */
  lemma UpdateKeepsGateways(conns: map<Principal, Connection>, p: Principal, c: Connection)
    requires p in conns && c.gateway == conns[p].gateway
    ensures forall g :: OnGateway(conns[p := c], g) == OnGateway(conns, g)
  {}

  lemma EmitQueue(n: Net, m: Net, g: Gateway, h: Gateway)
    requires QueueSound(n, g) && g.emptiedAt.None? && m.now == n.now
    requires h.emptiedAt.None? && h.base == Trimmed(g, n.now, n.interval)
    requires |h.sent| == |g.sent| + 1 && h.sent[..|g.sent|] == g.sent && h.sent[|g.sent|].time == n.now
    ensures QueueSound(m, h)
  {}

  lemma EmitGateway(n: Net, m: Net, p: Principal, body: Body, g: Principal)
    requires Inv(n) && p in n.conns && m == Emit(n, p, body) && g in m.gateways
    ensures g in n.gateways && QueueSound(m, m.gateways[g]) && m.gateways[g].emptiedAt == n.gateways[g].emptiedAt
  {
    hide Trimmed;
    assert QueueSound(n, n.gateways[g]);
    if g == n.conns[p].gateway {
      assert p in OnGateway(n.conns, g);
      EmitQueue(n, m, n.gateways[g], m.gateways[g]);
    }
  }

  lemma EmitInv(n: Net, p: Principal, body: Body)
    requires Inv(n)
    ensures Inv(Emit(n, p, body))
  {
    hide Trimmed, QueueSound, OnGateway;
    if p in n.conns {
      var m := Emit(n, p, body);
      UpdateKeepsGateways(n.conns, p, n.conns[p].(sent := n.conns[p].sent + 1));
      forall g | g in m.gateways
        ensures QueueSound(m, m.gateways[g])
        ensures m.gateways[g].emptiedAt == n.gateways[g].emptiedAt
      {
        EmitGateway(n, m, p, body, g);
      }
    }
  }

  lemma AddGateway(n: Net, m: Net, p: Principal, nonce: nat, gateway: Principal, g: Principal)
    requires Inv(n) && p !in n.conns && m == AddConnection(n, p, nonce, gateway) && g in m.gateways
    ensures QueueSound(m, m.gateways[g]) && m.gateways[g].epoch < m.nextEpoch
    ensures m.gateways[g].emptiedAt.Some? <==> OnGateway(m.conns, g) == {}
  {
    if g == gateway {
      assert p in OnGateway(m.conns, g);
      assert g in n.gateways ==> QueueSound(n, n.gateways[g]);
    } else {
      assert QueueSound(n, n.gateways[g]);
      OnGatewaySame(m.conns, n.conns, g);
    }
  }

  lemma AddConnectionInv(n: Net, p: Principal, nonce: nat, gateway: Principal)
    requires Inv(n) && p !in n.conns
    ensures Inv(AddConnection(n, p, nonce, gateway))
  {
    hide QueueSound, OnGateway;
    var m := AddConnection(n, p, nonce, gateway);
    forall g | g in m.gateways
      ensures QueueSound(m, m.gateways[g]) && m.gateways[g].epoch < m.nextEpoch
      ensures m.gateways[g].emptiedAt.Some? <==> OnGateway(m.conns, g) == {}
    {
      AddGateway(n, m, p, nonce, gateway, g);
    }
  }

  lemma DropGateway(n: Net, m: Net, p: Principal, g: Principal)
    requires Inv(n) && p in n.conns && m == DropConnection(n, p) && g in m.gateways
    ensures g in n.gateways && QueueSound(m, m.gateways[g]) && m.gateways[g].epoch == n.gateways[g].epoch
    ensures m.gateways[g].emptiedAt.Some? <==> OnGateway(m.conns, g) == {}
  {
    assert QueueSound(n, n.gateways[g]);
    if g == n.conns[p].gateway {
      assert p in OnGateway(n.conns, g);
    } else {
      OnGatewaySame(m.conns, n.conns, g);
    }
  }

  lemma DropConnectionInv(n: Net, p: Principal)
    requires Inv(n)
    ensures Inv(DropConnection(n, p))
  {
    hide QueueSound, OnGateway;
    if p in n.conns {
      var m := DropConnection(n, p);
      forall g | g in m.gateways
        ensures QueueSound(m, m.gateways[g]) && m.gateways[g].epoch < m.nextEpoch
        ensures m.gateways[g].emptiedAt.Some? <==> OnGateway(m.conns, g) == {}
      {
        DropGateway(n, m, p, g);
      }
    }
  }

  /** Changing one connection in place, apart from its gateway, keeps the invariant. */
  lemma UpdateConnectionInv(n: Net, p: Principal, c: Connection, m: Net)
    requires Inv(n) && p in n.conns
    requires c.gateway == n.conns[p].gateway && c.lastSeen <= n.now
    requires m == n.(conns := n.conns[p := c], log := m.log)
    ensures Inv(m)
  {
    hide OnGateway;
    UpdateKeepsGateways(n.conns, p, c);
    assert forall g :: g in n.gateways ==> QueueSound(n, n.gateways[g]);
    assert forall g :: g in m.gateways ==> QueueSound(m, m.gateways[g]);
  }

  lemma SameStateInv(n: Net, m: Net)
    requires Inv(n) && ClockSound(m) && n.now <= m.now
    requires m.conns == n.conns && m.nextEpoch == n.nextEpoch
    requires forall g :: g in m.gateways ==> g in n.gateways && m.gateways[g] == n.gateways[g]
    requires forall p :: p in m.conns ==> m.conns[p].gateway in m.gateways
    ensures Inv(m)
  {
    hide ClockSound;
  }

  lemma ConnectInv(n: Net, p: Principal, nonce: nat, gateway: Principal)
    requires Inv(n)
    ensures Inv(Act(n, Connect(p, nonce, gateway)))
  {
    if p !in n.conns {
      var open := Service(OpenMessage(ClientKey(p, nonce)));
      var m := AddConnection(n, p, nonce, gateway);
      AddConnectionInv(n, p, nonce, gateway);
      EmitInv(m, p, open);
      RecordInv(Emit(m, p, open), OnOpen(p));
    }
  }

  lemma AcknowledgeInv(n: Net, p: Principal)
    requires Inv(n)
    ensures Inv(Act(n, Acknowledge(p)))
  {
    if p in n.conns {
      var m := Emit(n, p, Service(AckMessage(n.conns[p].received)));
      EmitInv(n, p, Service(AckMessage(n.conns[p].received)));
      UpdateConnectionInv(m, p, m.conns[p].(waiting := true), Act(n, Acknowledge(p)));
    }
  }

  lemma RemoveInv(n: Net, p: Principal, reason: Option<CloseReason>)
    requires Inv(n)
    ensures Inv(Act(n, Remove(p, reason)))
  {
    if p in n.conns {
      var m := Farewell(n, p, reason);
      if reason.Some? {
        EmitInv(n, p, Service(CloseMessage(reason.value)));
      }
      DropConnectionInv(m, p);
      CallCloseInv(DropConnection(m, p), p);
    }
  }

  lemma CallCloseInv(n: Net, p: Principal)
    requires Inv(n)
    ensures Inv(CallClose(n, p))
  {
    SameStateInv(n, CallClose(n, p));
  }

  lemma ExpireInv(n: Net)
    requires Inv(n)
    ensures Inv(Act(n, ExpireGateways))
  {
    forall p | p in n.conns ensures !ExpiredGateway(n, n.conns[p].gateway) {
      assert p in OnGateway(n.conns, n.conns[p].gateway);
    }
    SameStateInv(n, Act(n, ExpireGateways));
  }

  lemma RecordInv(n: Net, e: Event)
    requires Inv(n)
    ensures Inv(Record(n, e))
  {}

  lemma ClockAct(n: Net, a: Atom)
    requires ClockSound(n) && (a.Tick? || a.Configure? || a.FinishAcks? || a.FinishCheck?)
    ensures var m := Act(n, a);
      && ClockSound(m) && n.now <= m.now
      && m.conns == n.conns && m.gateways == n.gateways && m.nextEpoch == n.nextEpoch
  {}

  lemma ClockInv(n: Net, a: Atom)
    requires Inv(n) && (a.Tick? || a.Configure? || a.FinishAcks? || a.FinishCheck?)
    ensures Inv(Act(n, a))
  {
    ClockAct(n, a);
    SameStateInv(n, Act(n, a));
  }

  lemma ConversationInv(n: Net, a: Atom)
    requires Inv(n) && (a.Accept? || a.Hear?)
    ensures Inv(Act(n, a))
  {
    if a.principal in n.conns {
      var c := n.conns[a.principal];
      var d := if a.Accept? then c.(received := c.received + 1) else c.(lastSeen := n.now);
      UpdateConnectionInv(n, a.principal, d, Act(n, a));
    }
  }

  /** Every atomic action keeps the invariant. */
  lemma ActInv(n: Net, a: Atom)
    requires Inv(n)
    ensures Inv(Act(n, a))
  {
    if a.Tick? || a.Configure? || a.FinishAcks? || a.FinishCheck? {
      ClockInv(n, a);
    } else if a.Accept? || a.Hear? {
      ConversationInv(n, a);
    } else {
      match a
      case Connect(p, nonce, gateway) => ConnectInv(n, p, nonce, gateway);
      case Push(p, bytes) => EmitInv(n, p, Data(bytes));
      case Acknowledge(p) => AcknowledgeInv(n, p);
      case Remove(p, reason) => RemoveInv(n, p, reason);
      case Announce(p, content) => RecordInv(n, OnMessage(p, content));
      case ExpireGateways => ExpireInv(n);
      case Clear => SameStateInv(n, n.(gateways := if n.conns == map[] then map[] else n.gateways));
    }
  }

  lemma {:induction false} ExecInv(n: Net, atoms: seq<Atom>)
    requires Inv(n)
    ensures Inv(Exec(n, atoms))
  {
    if atoms != [] {
      ExecInv(n, atoms[..|atoms| - 1]);
      ActInv(Exec(n, atoms[..|atoms| - 1]), atoms[|atoms| - 1]);
    }
  }

  // ---- actions in terms of their parts ----

  lemma AcknowledgeShape(n: Net, p: Principal)
    requires p in n.conns
    ensures var m := Emit(n, p, Service(AckMessage(n.conns[p].received)));
      p in m.conns && Act(n, Acknowledge(p)) == m.(conns := m.conns[p := m.conns[p].(waiting := true)])
  {}

  lemma RemoveShape(n: Net, p: Principal, reason: CloseReason)
    requires p in n.conns
    ensures var f := Emit(n, p, Service(CloseMessage(reason)));
      p in f.conns && Act(n, Remove(p, Some(reason))) == CallClose(DropConnection(f, p), p)
  {}

  lemma ConnectShape(n: Net, p: Principal, nonce: nat, gateway: Principal)
    requires p !in n.conns
    ensures Act(n, Connect(p, nonce, gateway))
         == Record(Emit(AddConnection(n, p, nonce, gateway), p, Service(OpenMessage(ClientKey(p, nonce)))), OnOpen(p))
  {}
}
