/** Each concrete update refines the abstract one: what the canister's methods rely on. */
module Refinement {
  import opened Types
  import opened Network
  import opened Protocol
  import opened Store
  import opened Streams
  import opened Timing

  // ---- looking up ----

  lemma SameTime(libs: Libraries, raw: Raw, n: Net)
    requires Agrees(libs, raw, n)
    ensures raw.now == n.now && raw.params == Params(n.maxReturned, n.interval)
  {}

  lemma RegisteredKey(libs: Libraries, raw: Raw, n: Net, key: ClientKey)
    requires Agrees(libs, raw, n)
    ensures key in raw.clients <==> Holds(n, key)
  {}

  lemma CurrentKey(libs: Libraries, raw: Raw, n: Net, p: Principal)
    requires Agrees(libs, raw, n)
    ensures p in raw.current <==> p in n.conns
    ensures p in n.conns ==> raw.current[p] == KeyOf(n, p)
  {}

  lemma GatewayKnown(libs: Libraries, raw: Raw, n: Net, gateway: Principal)
    requires Agrees(libs, raw, n)
    ensures gateway in raw.gateways <==> gateway in n.gateways
  {}

  /** A registered gateway's record and its history. */
  lemma GatewayRegistered(libs: Libraries, raw: Raw, n: Net, gateway: Principal)
    requires Inv(n) && Agrees(libs, raw, n) && gateway in raw.gateways
    ensures gateway in n.gateways && n.gateways[gateway].base <= |n.gateways[gateway].sent|
    ensures raw.gateways[gateway].nonce == |n.gateways[gateway].sent|
    ensures |raw.gateways[gateway].queue| == |n.gateways[gateway].sent| - n.gateways[gateway].base
    ensures QueueAgrees(libs, gateway, raw.gateways[gateway], n.gateways[gateway])
  {}

  /** The tree indexes the queues, and unless it is empty its root is certified. */
  lemma TreeCertified(libs: Libraries, raw: Raw, n: Net)
    requires Agrees(libs, raw, n)
    ensures TreeAgrees(libs, raw.tree, n.gateways) && Certified(libs, raw.tree, raw.certified)
    ensures raw.tree != map[] ==> raw.certified.renewed && raw.certified.data == libs.labeledRootHash(raw.tree)
  {}

  lemma ClientGateway(libs: Libraries, raw: Raw, n: Net, key: ClientKey)
    requires Agrees(libs, raw, n)
    ensures Holds(n, key) ==> key in raw.clients && raw.clients[key].gateway == n.conns[key.clientPrincipal].gateway
  {}

  lemma ExpectedNumber(libs: Libraries, raw: Raw, n: Net, key: ClientKey)
    requires Agrees(libs, raw, n) && Holds(n, key)
    ensures key in raw.incoming && raw.incoming[key] == n.conns[key.clientPrincipal].received + 1
  {}

  lemma RecordRefines(libs: Libraries, raw: Raw, n: Net, e: Event)
    requires Inv(n) && Agrees(libs, raw, n)
    ensures Inv(Record(n, e)) && Agrees(libs, raw, Record(n, e))
  {
    hide Inv, Agrees;
    RecordInv(n, e);
    RecordAgrees(libs, raw, n, e);
  }

  // ---- sending ----

  lemma TimesPast(libs: Libraries, n: Net, gateway: Principal, r: GatewayRecord, g: Gateway)
    requires QueueAgrees(libs, gateway, r, g) && QueueSound(n, g)
    ensures |r.queue| == |r.times| && forall i :: 0 <= i < |r.times| ==> r.times[i] <= n.now
  {}

  /** In every reachable state the deques match and no queued message is from the future. */
  lemma AlwaysTrimmable(libs: Libraries, raw: Raw, n: Net, gateway: Principal)
    requires Inv(n) && Agrees(libs, raw, n) && gateway in raw.gateways
    ensures CanTrim(raw, gateway)
  {
    assert QueueAgrees(libs, gateway, raw.gateways[gateway], n.gateways[gateway]);
    hide QueueAgrees, QueueSound;
    TimesPast(libs, n, gateway, raw.gateways[gateway], n.gateways[gateway]);
  }

  lemma SendableEntries(libs: Libraries, raw: Raw, n: Net, key: ClientKey)
    requires Inv(n) && Agrees(libs, raw, n) && Holds(n, key)
    ensures SendReply(raw, key).Ok?
    ensures key in raw.clients && key in raw.outgoing && raw.clients[key].gateway in raw.gateways
  {
    hide Inv, Agrees;
    AlwaysSendable(libs, raw, n, key.clientPrincipal);
  }

  /** Sending to a registered client never fails, so it never stops half-way; sending to
      any other key changes nothing. */
  lemma SendRefines(libs: Libraries, raw: Raw, n: Net, key: ClientKey, body: Body)
    requires Inv(n) && Agrees(libs, raw, n)
    ensures DequesMatch(raw, key)
    ensures key in raw.clients <==> Holds(n, key)
    ensures var after := SendEffect(libs, raw, key, Encode(libs, body), body.Service?);
      if Holds(n, key)
      then
        && SendReply(raw, key) == Ok(())
        && Inv(Emit(n, key.clientPrincipal, body)) && Agrees(libs, after, Emit(n, key.clientPrincipal, body))
      else SendReply(raw, key) == Err(ClientKeyNotConnected(key)) && after == raw
  {
    hide Agrees, Inv, Emit, Sending, QueueAgrees, CanTrim;
    RegisteredKey(libs, raw, n, key);
    if Holds(n, key) {
      var p := key.clientPrincipal;
      AlwaysSendable(libs, raw, n, p);
      AlwaysTrimmable(libs, raw, n, n.conns[p].gateway);
      SendAgrees(libs, raw, n, p, body);
      EmitInv(n, p, body);
    }
  }

  // ---- opening and removing ----

  lemma AddRefines(libs: Libraries, raw: Raw, n: Net, key: ClientKey, gateway: Principal)
    requires Inv(n) && Agrees(libs, raw, n) && key.clientPrincipal !in n.conns
    ensures var m := AddConnection(n, key.clientPrincipal, key.clientNonce, gateway);
      && Inv(m) && Agrees(libs, Adding(raw, key, gateway), m) && Holds(m, key)
      && Act(n, Connect(key.clientPrincipal, key.clientNonce, gateway))
      == Record(Emit(m, key.clientPrincipal, Service(OpenMessage(key))), OnOpen(key.clientPrincipal))
  {
    hide Inv, Agrees, Adding, Emit;
    assert key == ClientKey(key.clientPrincipal, key.clientNonce);
    AddAgrees(libs, raw, n, key.clientPrincipal, key.clientNonce, gateway);
    AddConnectionInv(n, key.clientPrincipal, key.clientNonce, gateway);
    ConnectShape(n, key.clientPrincipal, key.clientNonce, gateway);
  }

  lemma EmitHolds(n: Net, p: Principal, body: Body, key: ClientKey)
    ensures Holds(Emit(n, p, body), key) <==> Holds(n, key)
  {}

  /** The farewell leaves the client connected; then the connection goes, the handler is
      called, and its messages are sent. */
  lemma RemoveSteps(n: Net, key: ClientKey, reason: Option<CloseReason>)
    requires Inv(n) && Holds(n, key)
    ensures var f := Farewell(n, key.clientPrincipal, reason);
      && Inv(f) && Holds(f, key) && f.app == n.app && f.closes == n.closes
      && Act(n, Remove(key.clientPrincipal, reason))
        == CallClose(DropConnection(f, key.clientPrincipal), key.clientPrincipal)
  {
    hide Inv, DropConnection;
    if reason.Some? {
      var farewell := Service(CloseMessage(reason.value));
      EmitHolds(n, key.clientPrincipal, farewell, key);
      EmitInv(n, key.clientPrincipal, farewell);
    }
  }

  lemma LeavingCounts(n: Net, p: Principal, reason: Option<CloseReason>)
    requires p in n.conns
    ensures var m := Exec(n, Leaving(p, reason, n.app, n.closes));
      p !in m.conns && m.closes == n.closes + 1 && m.app == n.app
  {
    hide Exec, Leaving;
    LeavingPhases(n, p, reason, n.app, n.closes);
    RemoveCounts(n, p, reason);
  }

  lemma RemoveCounts(n: Net, p: Principal, reason: Option<CloseReason>)
    requires p in n.conns
    ensures var m := Act(n, Remove(p, reason)); p !in m.conns && m.closes == n.closes + 1 && m.app == n.app
  {}

  lemma PushesGrow(n: Net, sends: seq<(Principal, Bytes)>, i: nat)
    requires i < |sends|
    ensures Exec(n, Pushes(sends[..i + 1])) == Emit(Exec(n, Pushes(sends[..i])), sends[i].0, Data(sends[i].1))
  {
    assert sends[..i + 1][..i] == sends[..i];
    ExecLast(n, Pushes(sends[..i]), Push(sends[i].0, sends[i].1));
  }

  lemma NoPushes(n: Net)
    ensures Exec(n, Pushes([])) == n
  {}

  lemma NoRemovals(n: Net, reason: Option<CloseReason>)
    ensures Exec(n, Removals([], reason, n.app, n.closes)) == n
  {}

  lemma DropKeepsApp(n: Net, p: Principal)
    ensures DropConnection(n, p).app == n.app && DropConnection(n, p).closes == n.closes
  {}

  lemma ExpireKeepsApp(n: Net)
    ensures Act(n, ExpireGateways).app == n.app && Act(n, ExpireGateways).closes == n.closes
  {}

  lemma DropRefines(libs: Libraries, raw: Raw, n: Net, key: ClientKey)
    requires Inv(n) && Agrees(libs, raw, n) && Holds(n, key)
    ensures key in raw.clients
    ensures Inv(DropConnection(n, key.clientPrincipal))
    ensures Agrees(libs, Dropping(raw, key), DropConnection(n, key.clientPrincipal))
  {
    hide Inv, Agrees, Dropping, DropConnection;
    RegisteredKey(libs, raw, n, key);
    DropAgrees(libs, raw, n, key.clientPrincipal);
    DropConnectionInv(n, key.clientPrincipal);
  }

  lemma CallRefines(libs: Libraries, raw: Raw, n: Net, p: Principal)
    requires Inv(n) && Agrees(libs, raw, n)
    ensures Inv(CallClose(n, p)) && Agrees(libs, raw.(closes := raw.closes + 1), CallClose(n, p))
    ensures raw.closes == n.closes && n.app == libs.onClose
  {
    hide Inv, TimersAgree, ClientsAgree, OutgoingAgrees, IncomingAgrees, WaitingAgrees, GatewaysAgree, CountsAgree,
      EmptiedAgree, TreeAgrees, Certified;
    CallCloseInv(n, p);
  }

  // ---- incoming messages ----

  lemma AcceptRefines(libs: Libraries, raw: Raw, n: Net, key: ClientKey)
    requires Inv(n) && Agrees(libs, raw, n) && Holds(n, key)
    ensures Inv(Act(n, Accept(key.clientPrincipal))) &&
      Agrees(libs, Accepting(raw, key), Act(n, Accept(key.clientPrincipal)))
    ensures Holds(Act(n, Accept(key.clientPrincipal)), key)
  {
    hide Inv, Agrees;
    var p := key.clientPrincipal;
    ActInv(n, Accept(p));
    ExpectedNumber(libs, raw, n, key);
    AcceptAgrees(libs, raw, n, p);
    var c := n.conns[p];
    RecordAgrees(libs, Accepting(raw, key), n.(conns := n.conns[p := c.(received := c.received + 1)]),
        Accepted(c.id, c.received + 1));
  }

  lemma HearRefines(libs: Libraries, raw: Raw, n: Net, key: ClientKey)
    requires Inv(n) && Agrees(libs, raw, n) && Holds(n, key)
    ensures Inv(Act(n, Hear(key.clientPrincipal))) && Agrees(libs, Hearing(raw, key), Act(n, Hear(key.clientPrincipal)))
  {
    hide Inv, Agrees;
    SameTime(libs, raw, n);
    ActInv(n, Hear(key.clientPrincipal));
    KeyRegistered(libs, raw, n, key.clientPrincipal);
    HearAgrees(libs, raw, n, key.clientPrincipal);
  }

  // ---- timers ----

  lemma TickRefines(libs: Libraries, raw: Raw, n: Net, to: nat)
    requires Inv(n) && Agrees(libs, raw, n) && raw.now <= to
    requires forall id :: id in raw.timers.pending ==> to <= raw.timers.pending[id].deadline
    ensures Enabled(n, Wait(to)) && Perform(n, Wait(to)) == n.(now := to)
    ensures Inv(n.(now := to)) && Agrees(libs, raw.(now := to), n.(now := to))
  {
    DeadlinesAgree(raw.timers, n.ackDue, n.checkDue, IntervalNs(n), to);
    hide Inv, TimersAgree, ClientsAgree, OutgoingAgrees, IncomingAgrees, WaitingAgrees, GatewaysAgree, CountsAgree,
      EmptiedAgree, TreeAgrees;
    PerformShort(n, Wait(to));
    ActInv(n, Tick(to));
  }

  /** Initialising cancels whatever was pending and leaves one acknowledgement timer. */
  lemma InitRefines(libs: Libraries, raw: Raw, n: Net, params: Params, u: Timers, v: Timers)
    requires Inv(n) && Agrees(libs, raw, n) && params.sendAckIntervalMs > CLIENT_KEEP_ALIVE_TIMEOUT_MS
    requires Cancelled(raw.timers, u) && AcksScheduled(u, v, raw.now, params.sendAckIntervalMs * NS_PER_MS)
    ensures u.pending == map[] && |v.pending| == 1 && v.ack == Some(raw.timers.next)
    ensures var interval := params.sendAckIntervalMs * NS_PER_MS;
      v.pending == map[raw.timers.next := Timer(SendAcks, raw.now + interval, Some(interval))]
    ensures var m := Perform(n, Init(params.sendAckIntervalMs, params.maxNumberOfReturnedMessages));
      Inv(m) && Agrees(libs, raw.(params := params, timers := v), m)
  {
    hide Inv, TimersAgree, ClientsAgree, OutgoingAgrees, IncomingAgrees, WaitingAgrees, GatewaysAgree, CountsAgree,
      EmptiedAgree, TreeAgrees, Cancelled, AcksScheduled, Certified;
    PerformShort(n, Init(params.sendAckIntervalMs, params.maxNumberOfReturnedMessages));
    ActInv(n, Configure(params.sendAckIntervalMs, params.maxNumberOfReturnedMessages));
    var interval := params.sendAckIntervalMs * NS_PER_MS;
    RestartLeavesOne(raw.timers, u, v, n.ackDue, n.checkDue, IntervalNs(n), raw.now, interval);
    ArmedAgrees(raw.timers, raw.now, interval);
  }

  lemma WaitRefines(libs: Libraries, raw: Raw, n: Net, key: ClientKey)
    requires Inv(n) && Agrees(libs, raw, n) && Holds(n, key)
    ensures var p := key.clientPrincipal;
      var m := n.(conns := n.conns[p := n.conns[p].(waiting := true)]);
      Inv(m) && Agrees(libs, raw.(waiting := raw.waiting + {key}), m)
  {
    hide Inv, Agrees;
    var p := key.clientPrincipal;
    var c := n.conns[p].(waiting := true);
    SeenBefore(n, p);
    UpdateConnectionInv(n, p, c, n.(conns := n.conns[p := c]));
    WaitAgrees(libs, raw, n, p);
  }

  lemma SeenBefore(n: Net, p: Principal)
    requires Inv(n) && p in n.conns
    ensures n.conns[p].lastSeen <= n.now
  {}

  lemma FinishAcksRefines(libs: Libraries, raw: Raw, n: Net)
    requires Inv(n) && Agrees(libs, raw, n) && n.ackDue == Some(n.now)
    ensures raw.timers.ack.Some?
    ensures Inv(Act(n, FinishAcks))
    ensures Agrees(libs, raw.(timers := Rescheduled(raw.timers, raw.now, IntervalNs(n))), Act(n, FinishAcks))
  {
    hide Inv, TimersAgree, ClientsAgree, OutgoingAgrees, IncomingAgrees, WaitingAgrees, GatewaysAgree, CountsAgree,
      EmptiedAgree, TreeAgrees;
    NoCheckPending(n);
    ActInv(n, FinishAcks);
    RescheduledAgrees(raw.timers, n.now, IntervalNs(n));
  }

  lemma FinishCheckRefines(libs: Libraries, raw: Raw, n: Net)
    requires Inv(n) && Agrees(libs, raw, n) && n.checkDue == Some(n.now)
    ensures raw.timers.keepAlive.Some?
    ensures Inv(Act(n, FinishCheck))
    ensures Agrees(libs, raw.(timers := raw.timers.(pending := raw.timers.pending - {raw.timers.keepAlive.value})),
        Act(n, FinishCheck))
  {
    hide Inv, TimersAgree, ClientsAgree, OutgoingAgrees, IncomingAgrees, WaitingAgrees, GatewaysAgree, CountsAgree,
      EmptiedAgree, TreeAgrees;
    ActInv(n, FinishCheck);
    CheckDoneAgrees(raw.timers, n.ackDue, n.now, IntervalNs(n));
  }

  lemma DueTimer(libs: Libraries, raw: Raw, n: Net, id: nat)
    requires Agrees(libs, raw, n) && id in raw.timers.pending
    ensures id < raw.timers.next
    ensures var t := raw.timers.pending[id];
      && (t.kind == SendAcks ==>
          raw.timers.ack == Some(id) && n.ackDue == Some(t.deadline) && t.period == Some(IntervalNs(n)))
      && (t.kind == CheckKeepAlive ==> raw.timers.keepAlive == Some(id) && n.checkDue == Some(t.deadline))
  {}

  // ---- loops over client keys, in any order ----

  function Principals(keys: set<ClientKey>): set<Principal> {
    set k | k in keys :: k.clientPrincipal
  }

  /** Connected keys, one per principal. */
  ghost predicate AllHeld(n: Net, keys: set<ClientKey>) {
    forall k :: k in keys ==> Holds(n, k)
  }

  ghost predicate Visited(order: seq<Principal>, all: set<ClientKey>, remaining: set<ClientKey>) {
    && remaining <= all
    && (forall i, j :: 0 <= i < j < |order| ==> order[i] != order[j])
    && (forall p :: p in order ==> exists k :: k in all - remaining && k.clientPrincipal == p)
    && (forall k :: k in all - remaining ==> k.clientPrincipal in order)
  }

  lemma HeldOne(n: Net, keys: set<ClientKey>, key: ClientKey)
    requires AllHeld(n, keys) && key in keys
    ensures Holds(n, key)
  {}

  lemma HeldFewer(n: Net, keys: set<ClientKey>, key: ClientKey)
    requires AllHeld(n, keys)
    ensures AllHeld(n, keys - {key})
  {}

  lemma ListedExpired(raw: Raw)
    requires forall g :: g in raw.toRemove ==> g in raw.gateways
    ensures ExpiredGateways(raw) <= raw.gateways.Keys
  {}

  lemma VisitOne(n: Net, order: seq<Principal>, all: set<ClientKey>, remaining: set<ClientKey>, key: ClientKey)
    requires AllHeld(n, all) && Visited(order, all, remaining) && key in remaining
    ensures Visited(order + [key.clientPrincipal], all, remaining - {key})
    ensures forall k :: k in remaining - {key} ==> k.clientPrincipal != key.clientPrincipal
  {
    forall k | k in all && k.clientPrincipal == key.clientPrincipal ensures k == key {
      assert Holds(n, k) && Holds(n, key);
    }
    assert key.clientPrincipal !in order;
    assert all - (remaining - {key}) == (all - remaining) + {key};
  }

  lemma VisitedAll(order: seq<Principal>, all: set<ClientKey>)
    requires Visited(order, all, {})
    ensures Enumerates(order, Principals(all))
  {}

  lemma AcksGrow(n: Net, order: seq<Principal>, p: Principal)
    ensures Exec(n, Acks(order + [p])) == Act(Exec(n, Acks(order)), Acknowledge(p))
  {}

  lemma AckHolds(n: Net, p: Principal, keys: set<ClientKey>)
    requires AllHeld(n, keys)
    ensures AllHeld(Act(n, Acknowledge(p)), keys)
  {}

  lemma RemoveHolds(n: Net, p: Principal, reason: Option<CloseReason>, app: Application, closes: nat,
                    keys: set<ClientKey>)
    requires AllHeld(n, keys) && forall k :: k in keys ==> k.clientPrincipal != p
    ensures AllHeld(Exec(n, Leaving(p, reason, app, closes)), keys)
  {
    hide Exec;
    LeavingPhases(n, p, reason, app, closes);
    forall k | k in keys ensures Holds(Act(n, Remove(p, reason)), k) {
      assert Holds(n, k);
    }
  }

  lemma ConnectedKeys(libs: Libraries, raw: Raw, n: Net)
    requires Agrees(libs, raw, n)
    ensures AllHeld(n, raw.clients.Keys) && Principals(raw.clients.Keys) == n.conns.Keys
  {}

  // ---- acknowledgement rounds ----

  lemma AckPhases(n: Net, order: seq<Principal>)
    ensures Perform(n, AckTimer(order)) == Act(Exec(n, Acks(order)), FinishAcks)
  {}

  lemma StillDue(n: Net, order: seq<Principal>, reason: Option<CloseReason>)
    ensures var m := Exec(n, Acks(order)); m.now == n.now && m.ackDue == n.ackDue && m.interval == n.interval
    ensures var m := Exec(Act(n, ExpireGateways), Removals(order, reason, n.app, n.closes));
      m.now == n.now && m.checkDue == n.checkDue
  {
    hide Acks, Removals, Exec;
    RoundAtoms(order, reason, n.app, n.closes);
    ExecSameMoment(n, Acks(order));
    ExecSameMoment(Act(n, ExpireGateways), Removals(order, reason, n.app, n.closes));
  }

  // ---- the keep-alive check ----

  lemma ExpireRefines(libs: Libraries, raw: Raw, n: Net)
    requires Inv(n) && Agrees(libs, raw, n)
    ensures forall g :: g in raw.toRemove ==> g in raw.gateways && raw.toRemove[g] <= raw.now
    ensures Inv(Act(n, ExpireGateways))
    ensures Agrees(libs, Expiring(libs, raw, ExpiredGateways(raw)), Act(n, ExpireGateways))
  {
    EmptiedBefore(libs, raw, n);
    hide Inv, ClientsAgree, OutgoingAgrees, IncomingAgrees, WaitingAgrees, GatewaysAgree, CountsAgree, EmptiedAgree,
      TreeAgrees, TimersAgree;
    ExpireInv(n);
    ExpireSets(raw, n);
    ExpireAgrees(libs, raw, n, ExpiredGateways(raw));
  }

  lemma EmptiedBefore(libs: Libraries, raw: Raw, n: Net)
    requires Inv(n) && Agrees(libs, raw, n)
    ensures forall g :: g in raw.toRemove ==> g in raw.gateways && raw.toRemove[g] <= raw.now
  {
    hide TimersAgree;
  }

  predicate Silent(raw: Raw, key: ClientKey) {
    key in raw.clients && raw.now - raw.clients[key].lastKeepAlive > CLIENT_KEEP_ALIVE_TIMEOUT_NS
  }

  function SilentKeys(raw: Raw): set<ClientKey> {
    set k | k in raw.waiting && Silent(raw, k)
  }

  lemma SilentOne(raw: Raw, n: Net, k: ClientKey)
    requires ClientsAgree(raw.clients, raw.current, n.conns) && WaitingAgrees(raw.waiting, n.conns) && raw.now == n.now
    ensures k in SilentKeys(raw) <==> Holds(n, k) && TimedOut(n, k.clientPrincipal)
  {}

  lemma SeenInPast(raw: Raw, n: Net)
    requires ClientsAgree(raw.clients, raw.current, n.conns) && raw.now == n.now && Inv(n)
    ensures forall k :: k in raw.clients ==> raw.clients[k].lastKeepAlive <= raw.now
  {}

  /** The keys the check collects are those of the timed-out connections. */
  lemma SilentExact(libs: Libraries, raw: Raw, n: Net)
    requires Inv(n) && Agrees(libs, raw, n)
    ensures AllHeld(n, SilentKeys(raw)) && Principals(SilentKeys(raw)) == Stale(n)
    ensures forall k :: k in raw.clients ==> raw.clients[k].lastKeepAlive <= raw.now
  {
    hide Inv, SilentKeys, TimedOut, ClientsAgree, OutgoingAgrees, IncomingAgrees, WaitingAgrees, GatewaysAgree,
      CountsAgree, EmptiedAgree,
      TreeAgrees, TimersAgree;
    SeenInPast(raw, n);
    forall k ensures k in SilentKeys(raw) <==> Holds(n, k) && TimedOut(n, k.clientPrincipal) {
      SilentOne(raw, n, k);
    }
    forall p | p in Stale(n) ensures p in Principals(SilentKeys(raw)) {
      assert KeyOf(n, p) in SilentKeys(raw);
    }
  }

  lemma StaleUnexpired(n: Net)
    ensures Stale(Act(n, ExpireGateways)) == Stale(n)
  {}

  // ---- wiping ----

  lemma NoClients(libs: Libraries, raw: Raw, n: Net)
    requires Agrees(libs, raw, n) && n.conns == map[]
    ensures raw.clients == map[]
  {}

  lemma ClearRefines(libs: Libraries, raw: Raw, n: Net)
    requires Inv(n) && Agrees(libs, raw, n) && n.conns == map[]
    ensures Inv(Act(n, Clear)) && Agrees(libs, Cleared(raw), Act(n, Clear))
  {
    hide Inv, Agrees;
    ActInv(n, Clear);
    ClearAgrees(libs, raw, n);
  }
}
