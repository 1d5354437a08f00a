/** What the entry points leave behind, in terms of the canister's own maps and of the
    bytes it puts on the wire. */
module Outcomes {
  import opened Types
  import opened Keys
  import opened Network
  import opened Protocol
  import opened Store
  import opened Refinement
  import opened Retention
  import opened Timing
  import Streams

  // ---- from the abstract queue to the wire ----

  /** A queued message as it stands in its gateway's deque: under its key, serialized with
      the application's bytes as they are, or with a service message's encoding. */
  lemma OnTheWire(libs: Libraries, raw: Raw, n: Net, gateway: Principal, i: nat)
    requires Agrees(libs, raw, n) && gateway in n.gateways
    requires n.gateways[gateway].base <= i < |n.gateways[gateway].sent|
    ensures gateway in raw.gateways
    ensures var item := n.gateways[gateway].sent[i];
      && (item.body.Data? ==>
            CanisterOutputMessage(item.clientKey, Format(gateway, i), libs.cborSerialize(
              WebsocketMessage(item.clientKey, item.seqNum, item.time, false, item.body.bytes)))
            in raw.gateways[gateway].queue)
      && (item.body.Service? ==>
            CanisterOutputMessage(item.clientKey, Format(gateway, i), libs.cborSerialize(
              WebsocketMessage(item.clientKey, item.seqNum, item.time, true, libs.candidEncode(item.body.content))))
            in raw.gateways[gateway].queue)
  {
    hide Agrees, QueueAgrees, Format;
    RecordOf(libs, raw, n, gateway);
    EntryOnTheWire(libs, gateway, raw.gateways[gateway], n.gateways[gateway], i);
  }

  lemma RecordOf(libs: Libraries, raw: Raw, n: Net, gateway: Principal)
    requires Agrees(libs, raw, n) && gateway in n.gateways
    ensures gateway in raw.gateways && QueueAgrees(libs, gateway, raw.gateways[gateway], n.gateways[gateway])
  {}

  lemma EntryOnTheWire(libs: Libraries, gateway: Principal, r: GatewayRecord, g: Gateway, i: nat)
    requires QueueAgrees(libs, gateway, r, g) && g.base <= i < |g.sent|
    ensures var item := g.sent[i];
      && (item.body.Data? ==>
            CanisterOutputMessage(item.clientKey, Format(gateway, i), libs.cborSerialize(
              WebsocketMessage(item.clientKey, item.seqNum, item.time, false, item.body.bytes))) in r.queue)
      && (item.body.Service? ==>
            CanisterOutputMessage(item.clientKey, Format(gateway, i), libs.cborSerialize(
              WebsocketMessage(item.clientKey, item.seqNum, item.time, true, libs.candidEncode(item.body.content))))
            in r.queue)
  {
    hide Format;
    assert r.queue[i - g.base] in r.queue;
  }

  /** Message `i` of the gateway is still queued, and it is this one. */
  ghost predicate Holding(n: Net, gateway: Principal, i: nat, item: Item) {
    && gateway in n.gateways && n.gateways[gateway].base <= i < |n.gateways[gateway].sent|
    && n.gateways[gateway].sent[i] == item
  }

  /** A message sent at this moment is not deleted at this moment. */
  lemma NewStays(n: Net, m: Net, gateway: Principal, i: nat, item: Item)
    requires Evolves(n, m) && Holding(n, gateway, i, item) && item.time == n.now
    ensures Holding(m, gateway, i, item) && m.now == n.now
  {
    assert Persists(n, m, gateway) || AllOverdue(n, n.gateways[gateway]);
    if Persists(n, m, gateway) {
      assert m.gateways[gateway].sent[i] == m.gateways[gateway].sent[..|n.gateways[gateway].sent|][i];
    }
  }

  lemma EmitHolding(n: Net, p: Principal, body: Body)
    requires Inv(n) && p in n.conns
    ensures var gateway := n.conns[p].gateway;
      gateway in n.gateways &&
      Holding(Emit(n, p, body), gateway, |n.gateways[gateway].sent|,
              Item(n.conns[p].id, KeyOf(n, p), n.conns[p].sent + 1, n.now, body))
  {
    assert QueueSound(n, n.gateways[n.conns[p].gateway]);
  }

  // ---- farewells ----

  lemma DropHolding(n: Net, p: Principal, gateway: Principal, i: nat, item: Item)
    requires Holding(n, gateway, i, item)
    ensures Holding(CallClose(DropConnection(n, p), p), gateway, i, item)
  {}

  /** A removal with a reason queues the close message under the next nonce and number; it
      is still there when the handler has sent what it sends. */
  lemma FarewellQueued(n: Net, p: Principal, reason: CloseReason)
    requires Inv(n) && p in n.conns
    ensures var gateway, m := n.conns[p].gateway, Exec(n, Leaving(p, Some(reason), n.app, n.closes));
      gateway in n.gateways &&
      Holding(m, gateway, |n.gateways[gateway].sent|,
              Item(n.conns[p].id, KeyOf(n, p), n.conns[p].sent + 1, n.now, Service(CloseMessage(reason))))
  {
    hide Inv, Emit, Act, Exec, Holding, Evolves, DropConnection, Leaving;
    var k := Act(n, Remove(p, Some(reason)));
    var body := Service(CloseMessage(reason));
    RemoveShape(n, p, reason);
    EmitHolding(n, p, body);
    var gateway := n.conns[p].gateway;
    var item := Item(n.conns[p].id, KeyOf(n, p), n.conns[p].sent + 1, n.now, body);
    DropHolding(Emit(n, p, body), p, gateway, |n.gateways[gateway].sent|, item);
    RemoveInv(n, p, Some(reason));
    ActSameMoment(n, Remove(p, Some(reason)), k);
    PushAtoms(n.app(p, n.closes));
    ExecEvolves(k, Pushes(n.app(p, n.closes)));
    LeavingPhases(n, p, Some(reason), n.app, n.closes);
    NewStays(k, Exec(k, Pushes(n.app(p, n.closes))), gateway, |n.gateways[gateway].sent|, item);
  }

  // ---- acknowledgements ----

  function AckItem(n: Net, p: Principal): Item
    requires p in n.conns
  {
    var c := n.conns[p];
    Item(c.id, KeyOf(n, p), c.sent + 1, n.now, Service(AckMessage(c.received)))
  }

  ghost predicate Acked(n: Net, m: Net, p: Principal)
    requires p in n.conns && n.conns[p].gateway in n.gateways
  {
    exists i: nat :: |n.gateways[n.conns[p].gateway].sent| <= i && Holding(m, n.conns[p].gateway, i, AckItem(n, p))
  }

  lemma StillAcked(n: Net, k: Net, m: Net, p: Principal)
    requires p in n.conns && n.conns[p].gateway in n.gateways && Acked(n, k, p) && Evolves(k, m) && k.now == n.now
    ensures Acked(n, m, p)
  {
    hide Evolves, Holding;
    var gateway := n.conns[p].gateway;
    var i: nat :| |n.gateways[gateway].sent| <= i && Holding(k, gateway, i, AckItem(n, p));
    NewStays(k, m, gateway, i, AckItem(n, p));
  }

  lemma HoldingSame(n: Net, m: Net, gateway: Principal, i: nat, item: Item)
    requires Holding(n, gateway, i, item) && m.gateways == n.gateways
    ensures Holding(m, gateway, i, item)
  {}

  lemma AckHolding(k: Net, p: Principal)
    requires Inv(k) && p in k.conns
    ensures var gateway := k.conns[p].gateway;
      gateway in k.gateways && Holding(Act(k, Acknowledge(p)), gateway, |k.gateways[gateway].sent|, AckItem(k, p))
  {
    hide Inv, Emit, Act, Holding;
    var gateway := k.conns[p].gateway;
    var emitted := Emit(k, p, Service(AckMessage(k.conns[p].received)));
    EmitHolding(k, p, Service(AckMessage(k.conns[p].received)));
    AcknowledgeShape(k, p);
    HoldingSame(emitted, Act(k, Acknowledge(p)), gateway, |k.gateways[gateway].sent|, AckItem(k, p));
  }

  /** Acknowledging never removes a gateway, nor begins a new registration. */
  lemma {:induction false} AcksGrowQueues(n: Net, order: seq<Principal>)
    ensures var m := Exec(n, Acks(order));
      forall g :: g in n.gateways ==> g in m.gateways && |n.gateways[g].sent| <= |m.gateways[g].sent|
  {
    if order != [] {
      AcksGrowQueues(n, order[..|order| - 1]);
      ExecLast(n, Acks(order[..|order| - 1]), Acknowledge(order[|order| - 1]));
      AckGrows(Exec(n, Acks(order[..|order| - 1])), order[|order| - 1]);
    }
  }

  lemma AckGrows(k: Net, p: Principal)
    ensures var m := Act(k, Acknowledge(p));
      forall g :: g in k.gateways ==> g in m.gateways && |k.gateways[g].sent| <= |m.gateways[g].sent|
  {
    hide Trimmed;
  }

  lemma {:induction false} AcksHeld(n: Net, order: seq<Principal>)
    requires Inv(n) && Streams.IdsSound(n)
    requires forall p :: p in order ==> p in n.conns
    requires forall i, j :: 0 <= i < j < |order| ==> order[i] != order[j]
    ensures forall p :: p in order ==> n.conns[p].gateway in n.gateways && Acked(n, Exec(n, Acks(order)), p)
  {
    hide Inv, Act, Evolves, Holding, Acked, Streams.IdsSound, Streams.OneAck;
    if order != [] {
      var before, last := order[..|order| - 1], order[|order| - 1];
      var k, m := Exec(n, Acks(before)), Exec(n, Acks(order));
      assert order == before + [last];
      AcksHeld(n, before);
      Streams.AcksSent(n, before);
      AcksGrowQueues(n, before);
      ExecLast(n, Acks(before), Acknowledge(last));
      ActEvolves(k, Acknowledge(last), m);
      forall p | p in before ensures Acked(n, m, p) {
        StillAcked(n, k, m, p);
      }
      NewlyAcked(n, k, last);
    }
  }

  lemma NewlyAcked(n: Net, k: Net, p: Principal)
    requires Inv(n) && Inv(k) && p in n.conns && p in k.conns && k.conns[p] == n.conns[p] && k.now == n.now
    requires forall g :: g in n.gateways ==> g in k.gateways && |n.gateways[g].sent| <= |k.gateways[g].sent|
    ensures n.conns[p].gateway in n.gateways && Acked(n, Act(k, Acknowledge(p)), p)
  {
    hide Act, Holding;
    GatewayIn(n, p);
    AckHolding(k, p);
    assert AckItem(k, p) == AckItem(n, p);
    assert Holding(Act(k, Acknowledge(p)), n.conns[p].gateway, |k.gateways[n.conns[p].gateway].sent|, AckItem(n, p));
  }

  lemma GatewayIn(n: Net, p: Principal)
    requires Inv(n) && p in n.conns
    ensures n.conns[p].gateway in n.gateways
  {
  }

  /** After a round each connected client's gateway holds an acknowledgement for it. */
  lemma RoundHeld(n: Net, order: seq<Principal>)
    requires Inv(n) && Streams.IdsSound(n) && Enabled(n, AckTimer(order))
    ensures forall p :: p in n.conns ==> n.conns[p].gateway in n.gateways && Acked(n, Perform(n, AckTimer(order)), p)
  {
    hide Inv, Act, Exec, Holding, Streams.IdsSound;
    AcksHeld(n, order);
    AckPhases(n, order);
    var k := Exec(n, Acks(order));
    FinishKeepsGateways(k);
    forall p | p in n.conns ensures Acked(n, Act(k, FinishAcks), p) {
      var gateway := n.conns[p].gateway;
      var i: nat :| |n.gateways[gateway].sent| <= i && Holding(k, gateway, i, AckItem(n, p));
      HoldingSame(k, Act(k, FinishAcks), gateway, i, AckItem(n, p));
    }
  }

  lemma FinishKeepsGateways(k: Net)
    ensures Act(k, FinishAcks).gateways == k.gateways && Act(k, FinishCheck).gateways == k.gateways
  {}

  // ---- removals in a loop ----

  /** Whoever is not removed stays connected as before, except for what it was sent. */
  lemma {:induction false} OthersStay(n: Net, order: seq<Principal>, reason: Option<CloseReason>, app: Application,
                                      closes: nat)
    ensures var m := Exec(n, Removals(order, reason, app, closes));
      forall p :: p in n.conns && p !in order ==> p in m.conns && m.conns[p] == n.conns[p].(sent := m.conns[p].sent)
  {
    hide Act, Leaving;
    if order != [] {
      var last := |order| - 1;
      var k := Exec(n, Removals(order[..last], reason, app, closes));
      OthersStay(n, order[..last], reason, app, closes);
      ExecConcat(n, Removals(order[..last], reason, app, closes), Leaving(order[last], reason, app, closes + last));
      LeavingPhases(k, order[last], reason, app, closes + last);
      OtherStays(k, order[last], reason);
    }
  }

  lemma OtherStays(k: Net, p: Principal, reason: Option<CloseReason>)
    ensures var m := Act(k, Remove(p, reason));
      forall q :: q in k.conns && q != p ==> q in m.conns && m.conns[q] == k.conns[q]
  {
    hide Trimmed;
  }

  /** A close message of this moment for the client. */
  ghost predicate Dismissed(n: Net, m: Net, p: Principal, reason: CloseReason)
    requires p in n.conns
  {
    var c := n.conns[p];
    exists i: nat, s: nat ::
      Holding(m, c.gateway, i, Item(c.id, KeyOf(n, p), s, n.now, Service(CloseMessage(reason))))
  }

  lemma StillDismissed(n: Net, k: Net, m: Net, p: Principal, reason: CloseReason)
    requires p in n.conns && Dismissed(n, k, p, reason) && Evolves(k, m) && k.now == n.now
    ensures Dismissed(n, m, p, reason)
  {
    hide Evolves, Holding;
    var c := n.conns[p];
    var i: nat, s: nat :|
      Holding(k, c.gateway, i, Item(c.id, KeyOf(n, p), s, n.now, Service(CloseMessage(reason))));
    NewStays(k, m, c.gateway, i, Item(c.id, KeyOf(n, p), s, n.now, Service(CloseMessage(reason))));
  }

  lemma {:induction false} RemovalsHeld(n: Net, order: seq<Principal>, reason: CloseReason)
    requires Inv(n)
    requires forall p :: p in order ==> p in n.conns
    requires forall i, j :: 0 <= i < j < |order| ==> order[i] != order[j]
    ensures var m := Exec(n, Removals(order, Some(reason), n.app, n.closes));
      && Inv(m) && m.now == n.now && m.app == n.app && m.closes == n.closes + |order|
      && forall p :: p in order ==> Dismissed(n, m, p, reason)
  {
    hide Inv, Act, Evolves, Holding, Dismissed, Leaving;
    if order != [] {
      var last := |order| - 1;
      var before, p := order[..last], order[last];
      var k := Exec(n, Removals(before, Some(reason), n.app, n.closes));
      RemovalsHeld(n, before, reason);
      OthersStay(n, before, Some(reason), n.app, n.closes);
      ExecConcat(n, Removals(before, Some(reason), n.app, n.closes), Leaving(p, Some(reason), n.app, n.closes + last));
      var m := Exec(k, Leaving(p, Some(reason), k.app, k.closes));
      ExecInv(k, Leaving(p, Some(reason), k.app, k.closes));
      LeavingCounts(k, p, Some(reason));
      LeavingAtoms(p, Some(reason), k.app, k.closes);
      ExecEvolves(k, Leaving(p, Some(reason), k.app, k.closes));
      EvolvesNow(k, m);
      forall q | q in before ensures Dismissed(n, m, q, reason) {
        StillDismissed(n, k, m, q, reason);
      }
      NewlyDismissed(n, k, p, reason);
    }
  }

  lemma EvolvesNow(k: Net, m: Net)
    requires Evolves(k, m)
    ensures m.now == k.now
  {}

  lemma NewlyDismissed(n: Net, k: Net, p: Principal, reason: CloseReason)
    requires Inv(k) && p in n.conns && p in k.conns && k.now == n.now
    requires k.conns[p] == n.conns[p].(sent := k.conns[p].sent)
    ensures Dismissed(n, Exec(k, Leaving(p, Some(reason), k.app, k.closes)), p, reason)
  {
    hide Inv, Exec, Holding, Leaving;
    FarewellQueued(k, p, reason);
    var c, s, m := n.conns[p], k.conns[p].sent + 1, Exec(k, Leaving(p, Some(reason), k.app, k.closes));
    assert Holding(m, c.gateway, |k.gateways[c.gateway].sent|,
                   Item(c.id, KeyOf(n, p), s, n.now, Service(CloseMessage(reason))));
  }

  /** After a check each client it removed has its close message waiting at its gateway. */
  lemma CheckHeld(n: Net, order: seq<Principal>)
    requires Inv(n) && Enabled(n, CheckTimer(order))
    ensures var m := Perform(n, CheckTimer(order));
      && (forall p :: p in n.conns && !TimedOut(n, p) ==>
            p in m.conns && m.conns[p] == n.conns[p].(sent := m.conns[p].sent))
      && (forall p :: p in m.conns ==> p in n.conns && !TimedOut(n, p))
      && (forall p :: p in n.conns && TimedOut(n, p) ==> Dismissed(n, m, p, KeepAliveTimeout))
  {
    hide Inv, Act, Exec, Holding, Dismissed, Perform, TimedOut, Removals;
    var e := Act(n, ExpireGateways);
    var k := Exec(e, Removals(order, Some(KeepAliveTimeout), n.app, n.closes));
    ExpireShape(n);
    ExpireInv(n);
    CheckPhases(n, order);
    EnabledCheck(n, order);
    RemovalsHeld(e, order, KeepAliveTimeout);
    OthersStay(e, order, Some(KeepAliveTimeout), n.app, n.closes);
    FinishShape(k);
    forall p ensures p in Perform(n, CheckTimer(order)).conns <==> p in n.conns && !TimedOut(n, p) {
      CheckRemoves(n, order, p);
    }
    forall p | p in n.conns && TimedOut(n, p) ensures Dismissed(n, Act(k, FinishCheck), p, KeepAliveTimeout) {
      DismissedSame(n, e, k, Act(k, FinishCheck), p, KeepAliveTimeout);
    }
  }

  lemma DismissedSame(n: Net, e: Net, k: Net, m: Net, p: Principal, reason: CloseReason)
    requires e.conns == n.conns && e.now == n.now && m.gateways == k.gateways
    requires p in n.conns && Dismissed(e, k, p, reason)
    ensures Dismissed(n, m, p, reason)
  {
    hide Holding;
    var c := n.conns[p];
    var i: nat, s: nat :|
      Holding(k, c.gateway, i, Item(c.id, KeyOf(n, p), s, n.now, Service(CloseMessage(reason))));
    HoldingSame(k, m, c.gateway, i, Item(c.id, KeyOf(n, p), s, n.now, Service(CloseMessage(reason))));
  }

  lemma EnabledCheck(n: Net, order: seq<Principal>)
    requires Enabled(n, CheckTimer(order))
    ensures forall i, j :: 0 <= i < j < |order| ==> order[i] != order[j]
    ensures forall p :: p in order <==> p in n.conns && TimedOut(n, p)
  {}

  lemma ExpireShape(n: Net)
    ensures var e := Act(n, ExpireGateways);
      e.conns == n.conns && e.now == n.now && e.app == n.app && e.closes == n.closes
  {}

  lemma FinishShape(k: Net)
    ensures Act(k, FinishCheck).conns == k.conns && Act(k, FinishCheck).gateways == k.gateways
  {}

  // ---- the same in terms of the canister's maps ----

  lemma ReachedSound(time: nat, app: Application, steps: seq<Step>, n: Net)
    requires Reached(time, app, steps, n)
    ensures Inv(n) && Streams.Ledger(n)
  {
    hide Run, Possible, Streams.Ledger, Inv;
    Streams.RunLedger(time, app, steps);
  }

  /** A registered key's entries in the maps. */
  lemma KeyEntries(libs: Libraries, raw: Raw, n: Net, key: ClientKey)
    requires Inv(n) && Agrees(libs, raw, n) && key in raw.clients
    ensures Holds(n, key) && KeyOf(n, key.clientPrincipal) == key && raw.now == n.now
    ensures var c := n.conns[key.clientPrincipal];
      && key in raw.outgoing && raw.outgoing[key] == c.sent
      && key in raw.incoming && raw.incoming[key] == c.received + 1
      && raw.clients[key] == ClientRecord(c.lastSeen, c.gateway)
      && c.gateway in raw.gateways && c.gateway in n.gateways
      && raw.gateways[c.gateway].nonce == |n.gateways[c.gateway].sent|
  {
    hide Inv, Agrees, QueueAgrees;
    RegisteredKey(libs, raw, n, key);
    KeyRegistered(libs, raw, n, key.clientPrincipal);
    GatewayIn(n, key.clientPrincipal);
    GatewayRegistered(libs, raw, n, n.conns[key.clientPrincipal].gateway);
    SameTime(libs, raw, n);
  }

  /** Where the acknowledgement is queued. */
  ghost function AckNonce(n: Net, m: Net, p: Principal): (i: nat)
    requires p in n.conns && n.conns[p].gateway in n.gateways && Acked(n, m, p)
    ensures |n.gateways[n.conns[p].gateway].sent| <= i && Holding(m, n.conns[p].gateway, i, AckItem(n, p))
  {
    var i: nat :| |n.gateways[n.conns[p].gateway].sent| <= i && Holding(m, n.conns[p].gateway, i, AckItem(n, p));
    i
  }

  /** What the maps note of a registered key, matched with its connection. */
  ghost predicate Entry(raw: Raw, n: Net, key: ClientKey) {
    && Holds(n, key) && raw.now == n.now && key in raw.clients && key in raw.outgoing && key in raw.incoming
    && var c := n.conns[key.clientPrincipal];
    && raw.outgoing[key] == c.sent && raw.incoming[key] == c.received + 1 && raw.clients[key].gateway == c.gateway
    && c.gateway in raw.gateways && c.gateway in n.gateways
    && raw.gateways[c.gateway].nonce == |n.gateways[c.gateway].sent|
  }

  lemma Entries(libs: Libraries, raw: Raw, n: Net)
    requires Inv(n) && Agrees(libs, raw, n)
    ensures forall key :: key in raw.clients ==> Entry(raw, n, key)
  {
    hide Inv, Agrees;
    forall key | key in raw.clients ensures Entry(raw, n, key) {
      KeyEntries(libs, raw, n, key);
    }
  }

  /** Every queued service message is on the wire with its encoding. */
  ghost predicate ServiceOnWire(libs: Libraries, raw: Raw, n: Net) {
    forall gateway, i: nat, item :: Holding(n, gateway, i, item) && item.body.Service? ==>
      && gateway in raw.gateways
      && CanisterOutputMessage(item.clientKey, Format(gateway, i), libs.cborSerialize(
           WebsocketMessage(item.clientKey, item.seqNum, item.time, true, libs.candidEncode(item.body.content))))
         in raw.gateways[gateway].queue
  }

  lemma AllOnWire(libs: Libraries, raw: Raw, n: Net)
    requires Agrees(libs, raw, n)
    ensures ServiceOnWire(libs, raw, n)
  {
    hide Agrees, Holding, Format;
    forall gateway, i: nat, item | Holding(n, gateway, i, item) && item.body.Service?
      ensures gateway in raw.gateways
      ensures CanisterOutputMessage(item.clientKey, Format(gateway, i), libs.cborSerialize(
          WebsocketMessage(item.clientKey, item.seqNum, item.time, true, libs.candidEncode(item.body.content))))
        in raw.gateways[gateway].queue
    {
      HeldOnTheWire(libs, raw, n, gateway, i, item);
    }
  }

  /** One acknowledgement: the nonce it is queued under, its sequence number, and the number
      of the client's last accepted message. */
  datatype Ack = Ack(nonce: nat, sequenceNum: nat, last: nat)

  lemma AckOutcome(libs: Libraries, raw: Raw, n: Net, after: Raw, m: Net, key: ClientKey) returns (ack: Ack)
    requires Entry(raw, n, key) && ServiceOnWire(libs, after, m) && Acked(n, m, key.clientPrincipal)
    ensures ack.sequenceNum == raw.outgoing[key] + 1 && ack.last + 1 == raw.incoming[key]
    ensures var gateway := raw.clients[key].gateway;
      && gateway in after.gateways && raw.gateways[gateway].nonce <= ack.nonce
      && CanisterOutputMessage(key, Format(gateway, ack.nonce), libs.cborSerialize(
           WebsocketMessage(key, ack.sequenceNum, raw.now, true, libs.candidEncode(AckMessage(ack.last)))))
         in after.gateways[gateway].queue
  {
    hide Holding, Format, Acked;
    var p := key.clientPrincipal;
    ack := Ack(AckNonce(n, m, p), n.conns[p].sent + 1, n.conns[p].received);
    assert Holding(m, n.conns[p].gateway, ack.nonce, AckItem(n, p));
  }

  ghost predicate AckOf(libs: Libraries, raw: Raw, after: Raw, key: ClientKey, ack: Ack)
    requires key in raw.clients
  {
    && key in raw.outgoing && key in raw.incoming
    && ack.sequenceNum == raw.outgoing[key] + 1 && ack.last + 1 == raw.incoming[key]
    && raw.clients[key].gateway in raw.gateways && raw.clients[key].gateway in after.gateways
    && raw.gateways[raw.clients[key].gateway].nonce <= ack.nonce
    && CanisterOutputMessage(key, Format(raw.clients[key].gateway, ack.nonce), libs.cborSerialize(
         WebsocketMessage(key, ack.sequenceNum, raw.now, true, libs.candidEncode(AckMessage(ack.last)))))
       in after.gateways[raw.clients[key].gateway].queue
  }

  /** The acknowledgement of each client's last accepted message is in its gateway's queue,
      under a nonce of this round. */
  lemma {:induction false} RoundOutcome(libs: Libraries, raw: Raw, n: Net, after: Raw, m: Net, keys: set<ClientKey>)
      returns (acks: map<ClientKey, Ack>)
    requires keys <= raw.clients.Keys && ServiceOnWire(libs, after, m)
    requires forall key :: key in keys ==> Entry(raw, n, key) && Acked(n, m, key.clientPrincipal)
    ensures acks.Keys == keys && forall key :: key in keys ==> AckOf(libs, raw, after, key, acks[key])
  {
    hide ServiceOnWire, Entry, Acked, AckOf;
    acks := map[];
    if keys != {} {
      var key :| key in keys;
      var rest := RoundOutcome(libs, raw, n, after, m, keys - {key});
      var ack := AckOutcome(libs, raw, n, after, m, key);
      AckIs(libs, raw, n, after, key, ack);
      acks := rest[key := ack];
    }
  }

  lemma AckIs(libs: Libraries, raw: Raw, n: Net, after: Raw, key: ClientKey, ack: Ack)
    requires Entry(raw, n, key)
    requires ack.sequenceNum == raw.outgoing[key] + 1 && ack.last + 1 == raw.incoming[key]
    requires var gateway := raw.clients[key].gateway;
      && gateway in after.gateways && raw.gateways[gateway].nonce <= ack.nonce
      && CanisterOutputMessage(key, Format(gateway, ack.nonce), libs.cborSerialize(
           WebsocketMessage(key, ack.sequenceNum, raw.now, true, libs.candidEncode(AckMessage(ack.last)))))
         in after.gateways[gateway].queue
    ensures AckOf(libs, raw, after, key, ack)
  {}

  lemma RoundAcked(libs: Libraries, raw: Raw, n: Net, m: Net, order: seq<Principal>)
    requires Inv(n) && Streams.Ledger(n) && Agrees(libs, raw, n)
    requires Enabled(n, AckTimer(order)) && m == Perform(n, AckTimer(order))
    ensures forall key :: key in raw.clients ==> Entry(raw, n, key) && Acked(n, m, key.clientPrincipal)
  {
    hide Inv, Agrees, Perform, Streams.Ledger, Enabled, Acked;
    LedgerIds(n);
    RoundHeld(n, order);
    Entries(libs, raw, n);
  }

  lemma LedgerIds(n: Net)
    requires Streams.Ledger(n)
    ensures Streams.IdsSound(n)
  {}

  lemma HeldOnTheWire(libs: Libraries, raw: Raw, n: Net, gateway: Principal, i: nat, item: Item)
    requires Agrees(libs, raw, n) && Holding(n, gateway, i, item) && item.body.Service?
    ensures gateway in raw.gateways
    ensures CanisterOutputMessage(item.clientKey, Format(gateway, i), libs.cborSerialize(
              WebsocketMessage(item.clientKey, item.seqNum, item.time, true, libs.candidEncode(item.body.content))))
            in raw.gateways[gateway].queue
  {
    hide Agrees, Format;
    OnTheWire(libs, raw, n, gateway, i);
  }

  /** A round registers and removes nobody, and leaves everybody waiting. */
  lemma RoundKeeps(libs: Libraries, raw: Raw, n: Net, after: Raw, m: Net, order: seq<Principal>)
    requires Inv(n) && Streams.Ledger(n) && Agrees(libs, raw, n) && Agrees(libs, after, m)
    requires Enabled(n, AckTimer(order)) && m == Perform(n, AckTimer(order))
    ensures after.clients.Keys == raw.clients.Keys && after.waiting == raw.clients.Keys
  {
    hide Streams.Ledger;
    hide Inv, Agrees, Perform, Exec, Enabled, Streams.OneAck, Streams.AckedSoFar;
    RoundState(n, order);
    forall k
      ensures k in raw.clients <==> Holds(n, k)
      ensures k in after.clients <==> Holds(m, k)
      ensures k in after.waiting <==> Holds(m, k) && m.conns[k.clientPrincipal].waiting
    {
      RegisteredKey(libs, raw, n, k);
      RegisteredKey(libs, after, m, k);
      WaitingKey(libs, after, m, k);
    }
  }

  lemma WaitingKey(libs: Libraries, raw: Raw, n: Net, k: ClientKey)
    requires Agrees(libs, raw, n)
    ensures k in raw.waiting <==> Holds(n, k) && n.conns[k.clientPrincipal].waiting
  {}

  lemma RoundState(n: Net, order: seq<Principal>)
    requires Inv(n) && Streams.Ledger(n) && Enabled(n, AckTimer(order))
    ensures var m := Perform(n, AckTimer(order));
      && m.conns.Keys == n.conns.Keys
      && forall p :: p in n.conns ==>
           m.conns[p] == n.conns[p].(sent := n.conns[p].sent + 1, waiting := true)
  {
    hide Inv, Exec, Act, Streams.OneAck, Streams.Ledger;
    LedgerIds(n);
    Streams.AcksSent(n, order);
    AckPhases(n, order);
    Streams.RoundFinished(Exec(n, Acks(order)));
  }

  /** The farewell of a removal with a reason is in the gateway's queue. */
  lemma FarewellOutcome(libs: Libraries, raw: Raw, n: Net, after: Raw, m: Net, key: ClientKey, reason: CloseReason)
    requires Inv(n) && Agrees(libs, raw, n) && Agrees(libs, after, m) && key in raw.clients
    requires m == Exec(n, Leaving(key.clientPrincipal, Some(reason), n.app, n.closes))
    ensures key in raw.outgoing
    ensures var gateway := raw.clients[key].gateway;
      && gateway in raw.gateways && gateway in after.gateways
      && CanisterOutputMessage(key, Format(gateway, raw.gateways[gateway].nonce), libs.cborSerialize(
           WebsocketMessage(key, raw.outgoing[key] + 1, raw.now, true, libs.candidEncode(CloseMessage(reason)))))
         in after.gateways[gateway].queue
  {
    hide Inv, Agrees, Exec, Leaving, Holding, Format;
    KeyEntries(libs, raw, n, key);
    FarewellQueued(n, key.clientPrincipal, reason);
    var c := n.conns[key.clientPrincipal];
    var item := Item(c.id, key, c.sent + 1, n.now, Service(CloseMessage(reason)));
    HeldOnTheWire(libs, after, m, c.gateway, |n.gateways[c.gateway].sent|, item);
  }

  /** A removal takes exactly that client out of the maps. */
  lemma LeaveOutcome(libs: Libraries, raw: Raw, n: Net, after: Raw, m: Net, key: ClientKey, reason: Option<CloseReason>)
    requires Inv(n) && Agrees(libs, raw, n) && Agrees(libs, after, m) && Holds(n, key)
    requires m == Exec(n, Leaving(key.clientPrincipal, reason, n.app, n.closes))
    ensures after.clients.Keys == raw.clients.Keys - {key}
    ensures key.clientPrincipal !in after.current
  {
    hide Inv, Agrees, Exec, Leaving;
    var p := key.clientPrincipal;
    LeaveState(n, p, reason);
    forall k
      ensures k in raw.clients <==> Holds(n, k)
      ensures k in after.clients <==> Holds(m, k)
    {
      RegisteredKey(libs, raw, n, k);
      RegisteredKey(libs, after, m, k);
    }
    CurrentKey(libs, after, m, p);
  }

  /** The last client to leave a gateway leaves it listed with the present time. */
  lemma EmptiedOutcome(libs: Libraries, raw: Raw, n: Net, after: Raw, m: Net, key: ClientKey,
                       reason: Option<CloseReason>)
    requires Inv(n) && Agrees(libs, raw, n) && Agrees(libs, after, m) && Holds(n, key) && key in raw.clients
    requires m == Exec(n, Leaving(key.clientPrincipal, reason, n.app, n.closes))
    ensures var gateway := raw.clients[key].gateway;
      (forall k :: k in raw.clients && k != key ==> raw.clients[k].gateway != gateway) ==>
        gateway in after.toRemove && after.toRemove[gateway] == raw.now
  {
    hide Inv, Agrees, Exec, Leaving, OnGateway;
    KeyEntries(libs, raw, n, key);
    var p, gateway := key.clientPrincipal, raw.clients[key].gateway;
    if forall k :: k in raw.clients && k != key ==> raw.clients[k].gateway != gateway {
      forall q | q in n.conns && q != p ensures n.conns[q].gateway != gateway {
        RegisteredKey(libs, raw, n, KeyOf(n, q));
        KeyEntries(libs, raw, n, KeyOf(n, q));
      }
      EmptiedState(n, p, reason);
      ListedAt(libs, after, m, gateway);
    }
  }

  lemma ListedAt(libs: Libraries, raw: Raw, n: Net, gateway: Principal)
    requires Agrees(libs, raw, n) && gateway in n.gateways
    ensures gateway in raw.toRemove <==> n.gateways[gateway].emptiedAt.Some?
    ensures gateway in raw.toRemove ==> n.gateways[gateway].emptiedAt == Some(raw.toRemove[gateway])
  {}

  lemma EmptiedState(n: Net, p: Principal, reason: Option<CloseReason>)
    requires Inv(n) && p in n.conns && forall q :: q in n.conns && q != p ==> n.conns[q].gateway != n.conns[p].gateway
    ensures var gateway, m := n.conns[p].gateway, Exec(n, Leaving(p, reason, n.app, n.closes));
      gateway in m.gateways && m.gateways[gateway].emptiedAt == Some(n.now)
  {
    hide Inv, Act, Exec, Leaving;
    GatewayIn(n, p);
    LeavingPhases(n, p, reason, n.app, n.closes);
    var k := Act(n, Remove(p, reason));
    RemoveEmpties(n, p, reason);
    PushesKeepEmptied(k, n.app(p, n.closes), n.conns[p].gateway);
  }

  lemma RemoveEmpties(n: Net, p: Principal, reason: Option<CloseReason>)
    requires p in n.conns && n.conns[p].gateway in n.gateways
    requires forall q :: q in n.conns && q != p ==> n.conns[q].gateway != n.conns[p].gateway
    ensures var gateway, k := n.conns[p].gateway, Act(n, Remove(p, reason));
      && gateway in k.gateways && k.gateways[gateway].emptiedAt == Some(n.now)
      && forall q :: q in k.conns ==> k.conns[q].gateway != gateway
  {
    hide Trimmed;
    var f := Farewell(n, p, reason);
    assert OnGateway(f.conns - {p}, n.conns[p].gateway) == {};
  }

  lemma {:induction false} PushesKeepEmptied(k: Net, sends: seq<(Principal, Bytes)>, g: Principal)
    requires g in k.gateways && forall q :: q in k.conns ==> k.conns[q].gateway != g
    ensures var m := Exec(k, Pushes(sends));
      && g in m.gateways && m.gateways[g].emptiedAt == k.gateways[g].emptiedAt
      && forall q :: q in m.conns ==> m.conns[q].gateway != g
  {
    if sends != [] {
      var before, last := sends[..|sends| - 1], sends[|sends| - 1];
      PushesKeepEmptied(k, before, g);
      ExecLast(k, Pushes(before), Push(last.0, last.1));
    }
  }

  lemma LeaveState(n: Net, p: Principal, reason: Option<CloseReason>)
    requires p in n.conns
    ensures var m := Exec(n, Leaving(p, reason, n.app, n.closes));
      && p !in m.conns
      && (forall q :: q in m.conns ==> q in n.conns)
      && forall q :: q in n.conns && q != p ==> q in m.conns && m.conns[q] == n.conns[q].(sent := m.conns[q].sent)
  {
    hide Act, Exec, Leaving;
    LeavingPhases(n, p, reason, n.app, n.closes);
    LeavingCounts(n, p, reason);
    RemoveState(n, p, reason);
  }

  lemma RemoveState(n: Net, p: Principal, reason: Option<CloseReason>)
    requires p in n.conns
    ensures var m := Act(n, Remove(p, reason));
      && (forall q :: q in m.conns <==> q in n.conns && q != p)
      && forall q :: q in m.conns ==> m.conns[q] == n.conns[q]
  {
    hide Trimmed;
  }

  /** A check removes exactly the waiting clients silent for more than 60 seconds, and each
      one's close message is in its gateway's queue. */
  lemma CheckOutcome(libs: Libraries, raw: Raw, n: Net, after: Raw, m: Net, order: seq<Principal>)
    requires Inv(n) && Agrees(libs, raw, n) && Agrees(libs, after, m)
    requires Enabled(n, CheckTimer(order)) && m == Perform(n, CheckTimer(order))
    ensures forall key :: key in after.clients <==>
      key in raw.clients && !(key in raw.waiting && raw.now - raw.clients[key].lastKeepAlive > 60_000_000_000)
    ensures forall key :: key in raw.clients && key !in after.clients ==>
      var gateway := raw.clients[key].gateway;
      && gateway in after.gateways
      && exists nonce: nat, seqNum: nat ::
           CanisterOutputMessage(key, Format(gateway, nonce), libs.cborSerialize(
             WebsocketMessage(key, seqNum, raw.now, true, libs.candidEncode(CloseMessage(KeepAliveTimeout)))))
           in after.gateways[gateway].queue
  {
    hide Inv, Agrees, Perform, Enabled, Holding, Format;
    CheckHeld(n, order);
    forall key
      ensures key in raw.clients <==> Holds(n, key)
      ensures key in after.clients <==> Holds(m, key)
      ensures key in raw.waiting <==> Holds(n, key) && n.conns[key.clientPrincipal].waiting
      ensures key in raw.clients ==> raw.clients[key].lastKeepAlive == n.conns[key.clientPrincipal].lastSeen
    {
      RegisteredKey(libs, raw, n, key);
      RegisteredKey(libs, after, m, key);
      WaitingKey(libs, raw, n, key);
      if key in raw.clients {
        KeyEntries(libs, raw, n, key);
      }
    }
    SameTime(libs, raw, n);
    forall key | key in raw.clients && key !in after.clients
      ensures var gateway := raw.clients[key].gateway;
        && gateway in after.gateways
        && exists nonce: nat, seqNum: nat ::
             CanisterOutputMessage(key, Format(gateway, nonce), libs.cborSerialize(
               WebsocketMessage(key, seqNum, raw.now, true, libs.candidEncode(CloseMessage(KeepAliveTimeout)))))
             in after.gateways[gateway].queue
    {
      KeyEntries(libs, raw, n, key);
      var p := key.clientPrincipal;
      var c := n.conns[p];
      assert Dismissed(n, m, p, KeepAliveTimeout);
      var i: nat, s: nat :|
        Holding(m, c.gateway, i, Item(c.id, KeyOf(n, p), s, n.now, Service(CloseMessage(KeepAliveTimeout))));
      HeldOnTheWire(libs, after, m, c.gateway, i,
                    Item(c.id, KeyOf(n, p), s, n.now, Service(CloseMessage(KeepAliveTimeout))));
    }
  }

  /** An opening registers exactly the new key, in place of the caller's current one. */
  lemma OpenOutcome(libs: Libraries, raw: Raw, n: Net, after: Raw, m: Net, key: ClientKey, gateway: Principal)
    requires Inv(n) && Agrees(libs, raw, n) && Agrees(libs, after, m)
    requires m == Perform(n, WsOpen(key.clientPrincipal, key.clientNonce, gateway))
    requires key.clientPrincipal != ANONYMOUS && key !in raw.clients
    ensures forall k :: k in after.clients <==>
      k == key || (k in raw.clients && k.clientPrincipal != key.clientPrincipal)
    ensures key in after.clients && after.clients[key] == ClientRecord(raw.now, gateway)
    ensures key in after.incoming && after.incoming[key] == 1 && key in after.outgoing && after.outgoing[key] == 1
    ensures key.clientPrincipal in after.current && after.current[key.clientPrincipal] == key
    ensures gateway !in after.toRemove
  {
    hide Inv, Agrees, Perform, Exec, QueueAgrees;
    RegisteredKey(libs, raw, n, key);
    OpenListed(libs, n, after, m, key, gateway);
    forall k
      ensures k in raw.clients <==> Holds(n, k)
      ensures k in after.clients <==> Holds(m, k)
    {
      RegisteredKey(libs, raw, n, k);
      RegisteredKey(libs, after, m, k);
    }
    OpenState(n, key.clientPrincipal, key.clientNonce, gateway);
    SameTime(libs, raw, n);
    KeyRegistered(libs, after, m, key.clientPrincipal);
  }

  lemma OpenListed(libs: Libraries, n: Net, after: Raw, m: Net, key: ClientKey, gateway: Principal)
    requires Inv(n) && Agrees(libs, after, m) && !Holds(n, key) && key.clientPrincipal != ANONYMOUS
    requires m == Perform(n, WsOpen(key.clientPrincipal, key.clientNonce, gateway))
    ensures gateway !in after.toRemove
  {
    hide Inv, Agrees, Perform;
    OpenState(n, key.clientPrincipal, key.clientNonce, gateway);
    PerformInv(n, WsOpen(key.clientPrincipal, key.clientNonce, gateway));
    OccupiedGateway(m, key.clientPrincipal);
    ListedAt(libs, after, m, gateway);
  }

  lemma PerformInv(n: Net, s: Step)
    requires Inv(n)
    ensures Inv(Perform(n, s))
  {
    hide Inv, Exec;
    ExecInv(n, Script(n, s));
  }

  lemma OccupiedGateway(n: Net, p: Principal)
    requires Inv(n) && p in n.conns
    ensures n.conns[p].gateway in n.gateways && n.gateways[n.conns[p].gateway].emptiedAt == None
  {
    assert p in OnGateway(n.conns, n.conns[p].gateway);
  }

  lemma OpenState(n: Net, p: Principal, nonce: nat, gateway: Principal)
    requires p != ANONYMOUS && !Holds(n, ClientKey(p, nonce))
    ensures var m := Perform(n, WsOpen(p, nonce, gateway));
      && (forall q :: q in m.conns <==> q == p || q in n.conns)
      && (forall q :: q in n.conns && q != p ==> m.conns[q].nonce == n.conns[q].nonce)
      && m.conns[p].nonce == nonce && m.conns[p].gateway == gateway && m.conns[p].lastSeen == n.now
      && m.conns[p].received == 0 && m.conns[p].sent == 1
  {
    hide Act, Exec, Leaving, Perform;
    OpenPhases(n, p, nonce, gateway);
    if p in n.conns {
      LeaveState(n, p, None);
      LeavingMoment(n, p);
      ConnectState(Exec(n, Leaving(p, None, n.app, n.closes)), p, nonce, gateway);
    } else {
      ConnectState(n, p, nonce, gateway);
    }
  }

  lemma LeavingMoment(n: Net, p: Principal)
    ensures Exec(n, Leaving(p, None, n.app, n.closes)).now == n.now
  {
    hide Exec, Leaving;
    LeavingAtoms(p, None, n.app, n.closes);
    ExecSameMoment(n, Leaving(p, None, n.app, n.closes));
  }

  lemma ConnectState(k: Net, p: Principal, nonce: nat, gateway: Principal)
    requires p !in k.conns
    ensures var m := Act(k, Connect(p, nonce, gateway));
      && (forall q :: q in m.conns <==> q == p || q in k.conns)
      && (forall q :: q in k.conns ==> m.conns[q] == k.conns[q])
      && m.conns[p].nonce == nonce && m.conns[p].gateway == gateway && m.conns[p].lastSeen == k.now
      && m.conns[p].received == 0 && m.conns[p].sent == 1
  {
    hide Trimmed;
    ConnectShape(k, p, nonce, gateway);
  }

  /** A message with the right number: what is logged and what is noted of the client. */
  lemma MessageOutcome(libs: Libraries, raw: Raw, n: Net, after: Raw, m: Net, s: Step)
    requires Inv(n) && Agrees(libs, raw, n) && Agrees(libs, after, m) && s.WsMessage? && m == Perform(n, s)
    requires s.key.clientPrincipal == s.caller && s.key in raw.clients
    requires s.key in raw.incoming && s.sequenceNum == raw.incoming[s.key]
    ensures s.caller in n.conns
    ensures m.log == n.log + [Accepted(n.conns[s.caller].id, s.sequenceNum)] +
        (if s.isService then [] else [OnMessage(s.caller, s.content)])
    ensures after.clients.Keys == raw.clients.Keys && s.key in after.clients
    ensures s.key in after.incoming && after.incoming[s.key] == raw.incoming[s.key] + 1
    ensures var keepAlive := s.isService && s.decoded.Some? && s.decoded.value.KeepAliveMessage?;
      after.clients[s.key].lastKeepAlive == if keepAlive then raw.now else raw.clients[s.key].lastKeepAlive
  {
    hide Inv, Agrees, Perform, QueueAgrees;
    KeyEntries(libs, raw, n, s.key);
    Streams.RightNumberCounts(n, s);
    forall k
      ensures k in raw.clients <==> Holds(n, k)
      ensures k in after.clients <==> Holds(m, k)
    {
      RegisteredKey(libs, raw, n, k);
      RegisteredKey(libs, after, m, k);
    }
    KeyRegistered(libs, after, m, s.caller);
  }

  lemma CurrentRegistered(libs: Libraries, raw: Raw, n: Net, p: Principal)
    requires Agrees(libs, raw, n) && p in raw.current
    ensures p in n.conns && raw.current[p] == KeyOf(n, p) && raw.current[p] in raw.clients
    ensures raw.current[p].clientPrincipal == p && Holds(n, raw.current[p])
  {
    hide Agrees;
    CurrentKey(libs, raw, n, p);
    RegisteredKey(libs, raw, n, raw.current[p]);
  }

  /** What a step refuses, in terms of the maps. */
  lemma MessageReply(libs: Libraries, raw: Raw, n: Net, s: Step)
    requires Inv(n) && Agrees(libs, raw, n) && s.WsMessage?
    ensures Reply(n, s) ==
      if s.caller !in raw.current then Err(ClientPrincipalNotConnected(s.caller))
      else if s.key != raw.current[s.caller] then Err(ClientKeyMessageMismatch(s.key))
      else if s.key !in raw.incoming || s.sequenceNum != raw.incoming[s.key] then
        Err(IncomingSequenceNumberWrong(if s.key in raw.incoming then raw.incoming[s.key] else 0, s.sequenceNum))
      else if !s.isService then Ok(())
      else if s.decoded.None? then Err(DecodeServiceMessageContent)
      else if s.decoded.value.KeepAliveMessage? then Ok(())
      else Err(InvalidServiceMessageError)
    ensures s.caller in raw.current && s.key == raw.current[s.caller] ==>
      s.key in raw.incoming && s.key in raw.clients && s.key.clientPrincipal == s.caller
  {
    hide Inv, Agrees;
    CurrentKey(libs, raw, n, s.caller);
    if s.caller in raw.current && s.key == raw.current[s.caller] {
      CurrentRegistered(libs, raw, n, s.caller);
      KeyEntries(libs, raw, n, s.key);
    }
  }

  // ---- gateway expiry ----

  lemma {:induction false} RemovalsKeepRegistry(n: Net, order: seq<Principal>, reason: Option<CloseReason>,
                                                app: Application, closes: nat)
    ensures Exec(n, Removals(order, reason, app, closes)).gateways.Keys == n.gateways.Keys
  {
    hide Act, Leaving;
    if order != [] {
      var last := |order| - 1;
      var k := Exec(n, Removals(order[..last], reason, app, closes));
      RemovalsKeepRegistry(n, order[..last], reason, app, closes);
      ExecConcat(n, Removals(order[..last], reason, app, closes), Leaving(order[last], reason, app, closes + last));
      LeavingPhases(k, order[last], reason, app, closes + last);
      RemoveKeepsRegistry(k, order[last], reason);
    }
  }

  lemma RemoveKeepsRegistry(k: Net, p: Principal, reason: Option<CloseReason>)
    ensures Act(k, Remove(p, reason)).gateways.Keys == k.gateways.Keys
  {
    hide Trimmed;
  }

  /** A check unregisters exactly the gateways that were listed longer ago than the interval. */
  lemma ExpiryOutcome(libs: Libraries, raw: Raw, n: Net, after: Raw, m: Net, order: seq<Principal>)
    requires Inv(n) && Agrees(libs, raw, n) && Agrees(libs, after, m) && m == Perform(n, CheckTimer(order))
    ensures forall g :: g in after.gateways <==>
      && g in raw.gateways
      && !(g in raw.toRemove && raw.now - raw.toRemove[g] > raw.params.sendAckIntervalMs * 1_000_000)
  {
    hide Inv, Agrees, Act, Exec, Perform, Removals, ExpiredGateway;
    var e := Act(n, ExpireGateways);
    var k := Exec(e, Removals(order, Some(KeepAliveTimeout), n.app, n.closes));
    CheckPhases(n, order);
    RemovalsKeepRegistry(e, order, Some(KeepAliveTimeout), n.app, n.closes);
    FinishShape(k);
    SameTime(libs, raw, n);
    forall g ensures g in after.gateways <==>
        && g in raw.gateways
        && !(g in raw.toRemove && raw.now - raw.toRemove[g] > raw.params.sendAckIntervalMs * 1_000_000)
    {
      GatewayKnown(libs, raw, n, g);
      GatewayKnown(libs, after, m, g);
      ExpiresIff(n, g);
      if g in n.gateways {
        ListedAt(libs, raw, n, g);
      } else {
        NotListed(libs, raw, n, g);
      }
    }
  }

  lemma NotListed(libs: Libraries, raw: Raw, n: Net, g: Principal)
    requires Agrees(libs, raw, n) && g !in n.gateways
    ensures g !in raw.toRemove
  {}

  lemma ExpiresIff(n: Net, g: Principal)
    ensures g in Act(n, ExpireGateways).gateways <==>
      && g in n.gateways
      && !(n.gateways[g].emptiedAt.Some? && n.now - n.gateways[g].emptiedAt.value > n.interval * 1_000_000)
  {}
}
