/** The canister's concrete state, as values: the maps, the certification tree and the
    timers; what it has to do with the abstract state; and the concrete updates. */
module Store {
  import opened Types
  import opened Keys
  import opened Network
  import opened Protocol

  datatype ClientRecord = ClientRecord(lastKeepAlive: nat, gateway: Principal)

  datatype GatewayRecord = GatewayRecord(queue: seq<CanisterOutputMessage>, times: seq<nat>, nonce: nat, count: nat)

  datatype TimerKind = SendAcks | CheckKeepAlive

  datatype Timer = Timer(kind: TimerKind, deadline: nat, period: Option<nat>)

  /** The two stored timer ids, and the runtime's pending timers by id. */
  datatype Timers = Timers(ack: Option<nat>, keepAlive: Option<nat>, pending: map<nat, Timer>, next: nat)

  datatype Params = Params(maxNumberOfReturnedMessages: nat, sendAckIntervalMs: nat)

  /** The certified data; the tree whose root it is, if any has been certified yet; and
      whether one has been since the creation or the last wipe. */
  datatype Certification = Certification(data: Bytes, tree: Option<map<string, Bytes>>, renewed: bool)

  function Renewed(libs: Libraries, tree: map<string, Bytes>): Certification {
    Certification(libs.labeledRootHash(tree), Some(tree), true)
  }

  datatype Raw = Raw(
    now: nat,
    params: Params,
    clients: map<ClientKey, ClientRecord>,
    current: map<Principal, ClientKey>,
    waiting: set<ClientKey>,
    outgoing: map<ClientKey, nat>,
    incoming: map<ClientKey, nat>,
    tree: map<string, Bytes>,
    certified: Certification,
    gateways: map<Principal, GatewayRecord>,
    toRemove: map<Principal, nat>,
    timers: Timers,
    closes: nat)

  // ---- what a sent message looks like in the queue and in the tree ----

  function Encode(libs: Libraries, body: Body): Bytes {
    match body
    case Data(bytes) => bytes
    case Service(content) => libs.candidEncode(content)
  }

  function Content(libs: Libraries, item: Item): Bytes {
    libs.cborSerialize(WebsocketMessage(item.clientKey, item.seqNum, item.time, item.body.Service?,
        Encode(libs, item.body)))
  }

  function Output(libs: Libraries, gateway: Principal, nonce: nat, item: Item): CanisterOutputMessage {
    CanisterOutputMessage(item.clientKey, Format(gateway, nonce), Content(libs, item))
  }

  // ---- agreement of the concrete with the abstract state ----

  type Conns = map<Principal, Connection>

  ghost predicate ClientsAgree(clients: map<ClientKey, ClientRecord>, current: map<Principal, ClientKey>,
                               conns: Conns) {
    && (forall k :: k in clients <==> Live(conns, k))
    && (forall k :: k in clients ==>
          clients[k] == ClientRecord(conns[k.clientPrincipal].lastSeen, conns[k.clientPrincipal].gateway))
    && (forall p :: p in current <==> p in conns)
    && (forall p :: p in current ==> current[p] == ClientKey(p, conns[p].nonce))
  }

  ghost predicate OutgoingAgrees(outgoing: map<ClientKey, nat>, conns: Conns) {
    && (forall k :: k in outgoing <==> Live(conns, k))
    && (forall k :: k in outgoing ==> outgoing[k] == conns[k.clientPrincipal].sent)
  }

  ghost predicate IncomingAgrees(incoming: map<ClientKey, nat>, conns: Conns) {
    && (forall k :: k in incoming <==> Live(conns, k))
    && (forall k :: k in incoming ==> incoming[k] == conns[k.clientPrincipal].received + 1)
  }

  ghost predicate WaitingAgrees(waiting: set<ClientKey>, conns: Conns) {
    forall k :: k in waiting <==> Live(conns, k) && conns[k.clientPrincipal].waiting
  }

  /** The two deques hold the messages not yet deleted and their times. */
  ghost predicate QueueAgrees(libs: Libraries, gateway: Principal, r: GatewayRecord, g: Gateway) {
    && r.nonce == |g.sent| && g.base <= |g.sent|
    && r.times == Times(g.sent[g.base..])
    && |r.queue| == |g.sent| - g.base
    && (forall i :: 0 <= i < |r.queue| ==> r.queue[i] == Output(libs, gateway, g.base + i, g.sent[g.base + i]))
  }

  ghost predicate GatewaysAgree(libs: Libraries, records: map<Principal, GatewayRecord>,
                                gateways: map<Principal, Gateway>) {
    && (forall g :: g in records <==> g in gateways)
    && (forall g :: g in records ==> QueueAgrees(libs, g, records[g], gateways[g]))
  }

  ghost predicate CountsAgree(records: map<Principal, GatewayRecord>, conns: Conns) {
    forall g :: g in records ==> records[g].count == |OnGateway(conns, g)|
  }

  ghost predicate EmptiedAgree(toRemove: map<Principal, nat>, gateways: map<Principal, Gateway>) {
    && (forall g :: g in toRemove <==> g in gateways && gateways[g].emptiedAt.Some?)
    && (forall g :: g in toRemove ==> gateways[g].emptiedAt == Some(toRemove[g]))
  }

  predicate QueuedNonce(gateways: map<Principal, Gateway>, g: Principal, i: nat) {
    g in gateways && gateways[g].base <= i < |gateways[g].sent|
  }

  /** The string is the key of a message some queue still holds. */
  predicate QueuedKey(gateways: map<Principal, Gateway>, s: string) {
    match ParseKey(s)
    case None => false
    case Some((g, i)) => QueuedNonce(gateways, g, i) && s == Format(g, i)
  }

  /** The tree indexes exactly the queued messages, by key, with the hash of their content. */
  ghost predicate TreeAgrees(libs: Libraries, tree: map<string, Bytes>, gateways: map<Principal, Gateway>) {
    && (forall s :: s in tree ==> QueuedKey(gateways, s))
    && (forall g, i: nat :: QueuedNonce(gateways, g, i) ==>
          Format(g, i) in tree && tree[Format(g, i)] == libs.sha256(Content(libs, gateways[g].sent[i])))
  }

  /** The certified data is the root of the tree that was certified last. That is the
      present tree, unless there has been no certification since the creation or the last
      wipe; then the present tree is empty. */
  ghost predicate Certified(libs: Libraries, tree: map<string, Bytes>, certified: Certification) {
    && certified.data == (if certified.tree.Some? then libs.labeledRootHash(certified.tree.value) else [])
    && (if certified.renewed then certified.tree == Some(tree) else tree == map[])
  }

  /** Every pending timer is one of the two stored ones, at most one of each kind, at the
      abstract deadlines. */
  ghost predicate TimersAgree(t: Timers, ackDue: Option<nat>, checkDue: Option<nat>, interval: nat) {
    && (forall id :: id in t.pending ==>
          && id < t.next
          && (|| (t.ack == Some(id) && ackDue.Some? && t.pending[id] == Timer(SendAcks, ackDue.value, Some(interval)))
              || (t.keepAlive == Some(id) && checkDue.Some? &&
                  t.pending[id] == Timer(CheckKeepAlive, checkDue.value, None))))
    && (ackDue.Some? ==> t.ack.Some? && t.ack.value in t.pending && t.pending[t.ack.value].kind == SendAcks)
    && (checkDue.Some? ==>
          t.keepAlive.Some? && t.keepAlive.value in t.pending && t.pending[t.keepAlive.value].kind == CheckKeepAlive)
    && (t.ack.Some? ==> t.ack.value < t.next)
    && (t.keepAlive.Some? ==> t.keepAlive.value < t.next)
  }

  ghost predicate Agrees(libs: Libraries, raw: Raw, n: Net) {
    && raw.now == n.now && raw.params == Params(n.maxReturned, n.interval)
    && ClientsAgree(raw.clients, raw.current, n.conns)
    && OutgoingAgrees(raw.outgoing, n.conns) && IncomingAgrees(raw.incoming, n.conns) &&
      WaitingAgrees(raw.waiting, n.conns)
    && GatewaysAgree(libs, raw.gateways, n.gateways)
    && CountsAgree(raw.gateways, n.conns) && EmptiedAgree(raw.toRemove, n.gateways)
    && TreeAgrees(libs, raw.tree, n.gateways) && Certified(libs, raw.tree, raw.certified)
    && TimersAgree(raw.timers, n.ackDue, n.checkDue, IntervalNs(n))
    && raw.closes == n.closes && n.app == libs.onClose
  }

  function InitialRaw(now: nat): Raw {
    Raw(now, Params(DEFAULT_MAX_NUMBER_OF_RETURNED_MESSAGES, DEFAULT_SEND_ACK_INTERVAL_MS),
        map[], map[], {}, map[], map[], map[], Certification([], None, false), map[], map[],
        Timers(None, None, map[], 0), 0)
  }

  lemma InitialAgrees(libs: Libraries, now: nat)
    ensures Agrees(libs, InitialRaw(now), Initial(now, libs.onClose))
  {}

  // ---- sending ----

  function Expired(raw: Raw, r: GatewayRecord): (k: nat)
    ensures k <= |r.times|
  {
    LeadingOverdue(r.times, raw.now, raw.params.sendAckIntervalMs, MESSAGES_TO_DELETE_COUNT)
  }

  function KeysOf(queue: seq<CanisterOutputMessage>): set<string> {
    set m | m in queue :: m.key
  }

  predicate CanSend(raw: Raw, key: ClientKey) {
    && key in raw.clients && key in raw.outgoing && raw.clients[key].gateway in raw.gateways
    && var r := raw.gateways[raw.clients[key].gateway]; |r.queue| == |r.times|
  }

  function NextMessage(libs: Libraries, raw: Raw, key: ClientKey, bytes: Bytes, isService: bool): CanisterOutputMessage
    requires CanSend(raw, key)
  {
    var gateway := raw.clients[key].gateway;
    CanisterOutputMessage(key, Format(gateway, raw.gateways[gateway].nonce),
      libs.cborSerialize(WebsocketMessage(key, raw.outgoing[key] + 1, raw.now, isService, bytes)))
  }

  function BumpedNonce(raw: Raw, gateway: Principal): Raw
    requires gateway in raw.gateways
  {
    raw.(gateways := raw.gateways[gateway := raw.gateways[gateway].(nonce := raw.gateways[gateway].nonce + 1)])
  }

  /** Deleting the overdue messages of one gateway, in its deques and in the tree. */
  function Trimming(libs: Libraries, raw: Raw, gateway: Principal): Raw
    requires gateway in raw.gateways && |raw.gateways[gateway].queue| == |raw.gateways[gateway].times|
  {
    var g := raw.gateways[gateway];
    var k := Expired(raw, g);
    var tree := raw.tree - KeysOf(g.queue[..k]);
    raw.(gateways := raw.gateways[gateway := g.(queue := g.queue[k..], times := g.times[k..])],
         tree := tree, certified := Renewed(libs, tree))
  }

  function Pushing(raw: Raw, gateway: Principal, m: CanisterOutputMessage, timestamp: nat): Raw
    requires gateway in raw.gateways
  {
    var g := raw.gateways[gateway];
    raw.(gateways := raw.gateways[gateway := g.(queue := g.queue + [m], times := g.times + [timestamp])])
  }

  function Certifying(libs: Libraries, raw: Raw, key: string, content: Bytes): Raw {
    var tree := raw.tree[key := libs.sha256(content)];
    raw.(tree := tree, certified := Renewed(libs, tree))
  }

  function Counting(raw: Raw, key: ClientKey): Raw
    requires key in raw.outgoing
  {
    raw.(outgoing := raw.outgoing[key := raw.outgoing[key] + 1])
  }

  /** What deleting old messages relies on: the deques have equal length and no message is
      from the future. */
  ghost predicate CanTrim(raw: Raw, gateway: Principal) {
    && gateway in raw.gateways && |raw.gateways[gateway].queue| == |raw.gateways[gateway].times|
    && forall i :: 0 <= i < |raw.gateways[gateway].times| ==> raw.gateways[gateway].times[i] <= raw.now
  }

  /** What a send returns: the failures in the order in which they are looked for. */
  function SendReply(raw: Raw, key: ClientKey): Result<()> {
    if key !in raw.clients then Err(ClientKeyNotConnected(key))
    else if raw.clients[key].gateway !in raw.gateways then Err(GatewayNotRegistered(raw.clients[key].gateway))
    else if key !in raw.outgoing then Err(OutgoingMessageToClientNumNotInitialized(key))
    else Ok(())
  }

  /** What a send does. A failure is not rolled back: a missing sequence number is noticed
      only after the nonce has been incremented. */
  function SendEffect(libs: Libraries, raw: Raw, key: ClientKey, bytes: Bytes, isService: bool): Raw
    requires DequesMatch(raw, key)
  {
    if key !in raw.clients || raw.clients[key].gateway !in raw.gateways then raw
    else if key !in raw.outgoing then BumpedNonce(raw, raw.clients[key].gateway)
    else Sending(libs, raw, key, bytes, isService)
  }

  /** What a successful send leaves at the end of the queue, as a value. */
  lemma SendLast(libs: Libraries, raw: Raw, key: ClientKey, bytes: Bytes, isService: bool)
    requires SendReply(raw, key).Ok? && DequesMatch(raw, key)
    ensures var gateway, after := raw.clients[key].gateway, SendEffect(libs, raw, key, bytes, isService);
      && gateway in after.gateways && after.gateways[gateway].queue != []
      && after.gateways[gateway].queue[|after.gateways[gateway].queue| - 1]
         == CanisterOutputMessage(key, Format(gateway, raw.gateways[gateway].nonce), libs.cborSerialize(
              WebsocketMessage(key, raw.outgoing[key] + 1, raw.now, isService, bytes)))
      && after.gateways[gateway].nonce == raw.gateways[gateway].nonce + 1
  {
    hide Format, KeysOf, LeadingOverdue;
  }

  ghost predicate DequesMatch(raw: Raw, key: ClientKey) {
    key in raw.clients && raw.clients[key].gateway in raw.gateways ==> CanTrim(raw, raw.clients[key].gateway)
  }

  /** A gateway's deques after deleting old messages and pushing a new one. */
  function PushedRecord(raw: Raw, r: GatewayRecord, m: CanisterOutputMessage): GatewayRecord
    requires |r.queue| == |r.times|
  {
    var k := Expired(raw, r);
    GatewayRecord(r.queue[k..] + [m], r.times[k..] + [raw.now], r.nonce + 1, r.count)
  }

  function Sending(libs: Libraries, raw: Raw, key: ClientKey, bytes: Bytes, isService: bool): Raw
    requires CanSend(raw, key)
  {
    var gateway := raw.clients[key].gateway;
    var r := raw.gateways[gateway];
    var m := NextMessage(libs, raw, key, bytes, isService);
    var tree := (raw.tree - KeysOf(r.queue[..Expired(raw, r)]))[m.key := libs.sha256(m.content)];
    raw.(outgoing := raw.outgoing[key := raw.outgoing[key] + 1],
         gateways := raw.gateways[gateway := PushedRecord(raw, r, m)],
         tree := tree,
         certified := Renewed(libs, tree))
  }

  /** The updates of a send, one after the other, are the whole send. */
  lemma SendingSteps(libs: Libraries, raw: Raw, key: ClientKey, bytes: Bytes, isService: bool, gateway: Principal)
    requires SendReply(raw, key).Ok? && DequesMatch(raw, key) && gateway == raw.clients[key].gateway
    ensures var r2, m := Counting(BumpedNonce(raw, gateway), key), NextMessage(libs, raw, key, bytes, isService);
      && r2.outgoing[key] == raw.outgoing[key] + 1 && r2.now == raw.now && CanTrim(r2, gateway)
      && m.key == Format(gateway, raw.gateways[gateway].nonce)
      && m == CanisterOutputMessage(key, m.key,
          libs.cborSerialize(WebsocketMessage(key, r2.outgoing[key], raw.now, isService, bytes)))
      && var r4 := Certifying(libs, Trimming(libs, r2, gateway), m.key, m.content);
         gateway in r4.gateways && Pushing(r4, gateway, m, raw.now) == Sending(libs, raw, key, bytes, isService)
  {
    var m := NextMessage(libs, raw, key, bytes, isService);
    var r2 := Counting(BumpedNonce(raw, gateway), key);
    assert Pushing(Certifying(libs, Trimming(libs, r2, gateway), m.key, m.content), gateway, m, raw.now).gateways
        == Sending(libs, raw, key, bytes, isService).gateways;
  }

  lemma SendQueue(libs: Libraries, raw: Raw, n: Net, gateway: Principal, g: Gateway, r: GatewayRecord, item: Item)
    requires QueueAgrees(libs, gateway, r, g) && raw.now == n.now && raw.params.sendAckIntervalMs == n.interval
    requires item.time == n.now
    ensures Trimmed(g, n.now, n.interval) == g.base + Expired(raw, r)
    ensures QueueAgrees(libs, gateway, PushedRecord(raw, r, Output(libs, gateway, |g.sent|, item)),
                        g.(sent := g.sent + [item], base := Trimmed(g, n.now, n.interval)))
  {
    hide Format, LeadingOverdue;
    var h := g.(sent := g.sent + [item], base := Trimmed(g, n.now, n.interval));
    var q := PushedRecord(raw, r, Output(libs, gateway, |g.sent|, item));
    var k := Expired(raw, r);
    assert q.times == Times(h.sent[h.base..]);
    forall i | 0 <= i < |q.queue|
      ensures q.queue[i] == Output(libs, gateway, h.base + i, h.sent[h.base + i])
    {
      if i < |r.queue| - k {
        assert q.queue[i] == r.queue[k + i];
      }
    }
  }

  lemma KeyAt(libs: Libraries, gateway: Principal, r: GatewayRecord, g: Gateway, k: nat, j: nat)
    requires QueueAgrees(libs, gateway, r, g) && j < k <= |r.queue|
    ensures r.queue[..k][j].key == Format(gateway, g.base + j)
    ensures Format(gateway, g.base + j) in KeysOf(r.queue[..k])
  {}

  lemma DeletedKeys(libs: Libraries, gateway: Principal, r: GatewayRecord, g: Gateway, k: nat)
    requires QueueAgrees(libs, gateway, r, g) && k <= |r.queue|
    ensures forall i: nat :: g.base <= i < g.base + k ==> Format(gateway, i) in KeysOf(r.queue[..k])
    ensures forall s :: s in KeysOf(r.queue[..k]) ==>
      exists i: nat :: g.base <= i < g.base + k && s == Format(gateway, i)
  {
    hide QueueAgrees, Format;
    forall i: nat | g.base <= i < g.base + k ensures Format(gateway, i) in KeysOf(r.queue[..k]) {
      KeyAt(libs, gateway, r, g, k, i - g.base);
    }
    forall s | s in KeysOf(r.queue[..k])
      ensures exists i: nat :: g.base <= i < g.base + k && s == Format(gateway, i)
    {
      var m :| m in r.queue[..k] && s == m.key;
      var j :| 0 <= j < k && r.queue[..k][j] == m;
      KeyAt(libs, gateway, r, g, k, j);
      assert s == Format(gateway, g.base + j);
    }
  }

  /** Trimming one gateway's queue and appending a message, in the tree. */
  lemma SendTree(libs: Libraries, tree: map<string, Bytes>, gateways: map<Principal, Gateway>, gateway: Principal,
                 deleted: set<string>, base: nat, item: Item)
    requires TreeAgrees(libs, tree, gateways) && gateway in gateways
    requires gateways[gateway].base <= base <= |gateways[gateway].sent|
    requires forall i: nat :: gateways[gateway].base <= i < base ==> Format(gateway, i) in deleted
    requires forall s :: s in deleted ==> exists i: nat :: gateways[gateway].base <= i < base && s == Format(gateway, i)
    ensures TreeAgrees(libs,
              (tree - deleted)[Format(gateway, |gateways[gateway].sent|) := libs.sha256(Content(libs, item))],
              gateways[gateway := gateways[gateway].(sent := gateways[gateway].sent + [item], base := base)])
  {
    hide Format, ParseKey, Content;
    var g := gateways[gateway];
    var after := gateways[gateway := g.(sent := g.sent + [item], base := base)];
    var newKey := Format(gateway, |g.sent|);
    var t := (tree - deleted)[newKey := libs.sha256(Content(libs, item))];
    AllKeysParse();
    forall s | s in t ensures QueuedKey(after, s) {
      if s != newKey {
        assert QueuedKey(gateways, s);
      }
    }
    forall h, i: nat | QueuedNonce(after, h, i)
      ensures Format(h, i) in t && t[Format(h, i)] == libs.sha256(Content(libs, after[h].sent[i]))
    {
      assert ParseKey(Format(h, i)) == Some((h, i));
      if h != gateway || i < |g.sent| {
        assert QueuedNonce(gateways, h, i);
      }
    }
  }

  lemma KeyRegistered(libs: Libraries, raw: Raw, n: Net, p: Principal)
    requires Agrees(libs, raw, n) && p in n.conns
    ensures var k := KeyOf(n, p);
      && k in raw.clients && k in raw.outgoing && k in raw.incoming && Live(n.conns, k) && k.clientPrincipal == p
      && raw.clients[k] == ClientRecord(n.conns[p].lastSeen, n.conns[p].gateway)
      && raw.outgoing[k] == n.conns[p].sent && raw.incoming[k] == n.conns[p].received + 1
      && p in raw.current && raw.current[p] == k
      && (n.conns[p].gateway in n.gateways ==>
            n.conns[p].gateway in raw.gateways &&
            QueueAgrees(libs, n.conns[p].gateway, raw.gateways[n.conns[p].gateway], n.gateways[n.conns[p].gateway]))
  {}

  /** A connection's key is the only one of its principal. */
  lemma OutgoingUpdate(outgoing: map<ClientKey, nat>, conns: Conns, p: Principal, c: Connection, v: nat)
    requires OutgoingAgrees(outgoing, conns) && p in conns && c.nonce == conns[p].nonce && v == c.sent
    ensures OutgoingAgrees(outgoing[ClientKey(p, c.nonce) := v], conns[p := c])
  {}

  lemma IncomingUpdate(incoming: map<ClientKey, nat>, conns: Conns, p: Principal, c: Connection, v: nat)
    requires IncomingAgrees(incoming, conns) && p in conns && c.nonce == conns[p].nonce && v == c.received + 1
    ensures IncomingAgrees(incoming[ClientKey(p, c.nonce) := v], conns[p := c])
  {}

  lemma OutgoingSame(outgoing: map<ClientKey, nat>, conns: Conns, p: Principal, c: Connection)
    requires OutgoingAgrees(outgoing, conns) && p in conns && c.nonce == conns[p].nonce && c.sent == conns[p].sent
    ensures OutgoingAgrees(outgoing, conns[p := c])
  {}

  lemma IncomingSame(incoming: map<ClientKey, nat>, conns: Conns, p: Principal, c: Connection)
    requires IncomingAgrees(incoming, conns) && p in conns && c.nonce == conns[p].nonce &&
      c.received == conns[p].received
    ensures IncomingAgrees(incoming, conns[p := c])
  {}

  lemma WaitingSame(waiting: set<ClientKey>, conns: Conns, p: Principal, c: Connection)
    requires WaitingAgrees(waiting, conns) && p in conns && c.nonce == conns[p].nonce && c.waiting == conns[p].waiting
    ensures WaitingAgrees(waiting, conns[p := c])
  {}

  lemma ClientsSame(clients: map<ClientKey, ClientRecord>, current: map<Principal, ClientKey>, conns: Conns,
                    p: Principal, c: Connection)
    requires ClientsAgree(clients, current, conns) && p in conns
    requires c.nonce == conns[p].nonce && c.lastSeen == conns[p].lastSeen && c.gateway == conns[p].gateway
    ensures ClientsAgree(clients, current, conns[p := c])
  {}

  lemma CountsSame(records: map<Principal, GatewayRecord>, conns: Conns, p: Principal, c: Connection)
    requires CountsAgree(records, conns) && p in conns && c.gateway == conns[p].gateway
    ensures CountsAgree(records, conns[p := c])
  {
    UpdateKeepsGateways(conns, p, c);
  }

  lemma CountsUpdate(records: map<Principal, GatewayRecord>, conns: Conns, g: Principal, r: GatewayRecord)
    requires CountsAgree(records, conns) && g in records && r.count == records[g].count
    ensures CountsAgree(records[g := r], conns)
  {}

  lemma GatewaysUpdate(libs: Libraries, records: map<Principal, GatewayRecord>, gateways: map<Principal, Gateway>,
                       g: Principal, r: GatewayRecord, h: Gateway)
    requires GatewaysAgree(libs, records, gateways) && QueueAgrees(libs, g, r, h)
    ensures GatewaysAgree(libs, records[g := r], gateways[g := h])
  {}

  lemma EmptiedSame(toRemove: map<Principal, nat>, gateways: map<Principal, Gateway>, g: Principal, h: Gateway)
    requires EmptiedAgree(toRemove, gateways) && g in gateways && h.emptiedAt == gateways[g].emptiedAt
    ensures EmptiedAgree(toRemove, gateways[g := h])
  {}

  lemma SoundGateway(n: Net, p: Principal)
    requires Inv(n) && p in n.conns
    ensures n.conns[p].gateway in n.gateways && QueueSound(n, n.gateways[n.conns[p].gateway])
  {}

  lemma AlwaysSendable(libs: Libraries, raw: Raw, n: Net, p: Principal)
    requires Inv(n) && Agrees(libs, raw, n) && p in n.conns
    ensures CanSend(raw, KeyOf(n, p)) && n.conns[p].gateway in n.gateways && n.conns[p].gateway in raw.gateways
    ensures raw.clients[KeyOf(n, p)].gateway == n.conns[p].gateway && raw.outgoing[KeyOf(n, p)] == n.conns[p].sent
    ensures QueueAgrees(libs, n.conns[p].gateway, raw.gateways[n.conns[p].gateway], n.gateways[n.conns[p].gateway])
  {
    hide Agrees, Inv;
    SoundGateway(n, p);
    KeyRegistered(libs, raw, n, p);
  }

  /** The concrete and the abstract effect of sending, side by side. */
  lemma SendShape(libs: Libraries, raw: Raw, n: Net, p: Principal, body: Body)
    requires p in n.conns && CanSend(raw, KeyOf(n, p)) && raw.now == n.now
    requires var c := n.conns[p];
      && c.gateway in n.gateways && c.gateway in raw.gateways
      && raw.clients[KeyOf(n, p)].gateway == c.gateway && raw.outgoing[KeyOf(n, p)] == c.sent
      && raw.gateways[c.gateway].nonce == |n.gateways[c.gateway].sent|
    ensures var c, after := n.conns[p], Sending(libs, raw, KeyOf(n, p), Encode(libs, body), body.Service?);
      var r, g, item := raw.gateways[c.gateway], n.gateways[c.gateway], NextItem(n, p, body);
      && after.gateways == raw.gateways[c.gateway := PushedRecord(raw, r, Output(libs, c.gateway, |g.sent|, item))]
      && after.tree == (raw.tree - KeysOf(r.queue[..Expired(raw, r)]))[
           Format(c.gateway, |g.sent|) := libs.sha256(Content(libs, item))]
      && after == raw.(outgoing := raw.outgoing[KeyOf(n, p) := c.sent + 1], gateways := after.gateways,
                       tree := after.tree, certified := Renewed(libs, after.tree))
    ensures var c := n.conns[p];
      var g := n.gateways[c.gateway];
      Emit(n, p, body) == n.(
        conns := n.conns[p := c.(sent := c.sent + 1)],
        gateways := n.gateways[c.gateway := g.(sent := g.sent + [NextItem(n, p, body)],
            base := Trimmed(g, n.now, n.interval))],
        log := Emit(n, p, body).log)
  {}

  /** Sending refines Emit: the queue, its times, the tree and the certified root agree. */
  lemma SendAgrees(libs: Libraries, raw: Raw, n: Net, p: Principal, body: Body)
    requires Inv(n) && Agrees(libs, raw, n) && p in n.conns
    ensures CanSend(raw, KeyOf(n, p))
    ensures Agrees(libs, Sending(libs, raw, KeyOf(n, p), Encode(libs, body), body.Service?), Emit(n, p, body))
  {
    AlwaysSendable(libs, raw, n, p);
    SendQueueSizes(libs, raw.gateways[n.conns[p].gateway], n.conns[p].gateway, n.gateways[n.conns[p].gateway]);
    SendShape(libs, raw, n, p, body);
    SendParts(libs, raw, n, p, NextItem(n, p, body),
              Sending(libs, raw, KeyOf(n, p), Encode(libs, body), body.Service?), Emit(n, p, body));
  }

  lemma SendQueueSizes(libs: Libraries, r: GatewayRecord, gateway: Principal, g: Gateway)
    requires QueueAgrees(libs, gateway, r, g)
    ensures |r.queue| == |r.times| && r.nonce == |g.sent| && g.base <= |g.sent|
  {}

  lemma SendParts(libs: Libraries, raw: Raw, n: Net, p: Principal, item: Item, after: Raw, m: Net)
    requires Agrees(libs, raw, n) && p in n.conns && item.time == n.now
    requires n.conns[p].gateway in n.gateways && n.conns[p].gateway in raw.gateways
    requires QueueAgrees(libs, n.conns[p].gateway, raw.gateways[n.conns[p].gateway], n.gateways[n.conns[p].gateway])
    requires var c := n.conns[p];
      var r, g := raw.gateways[c.gateway], n.gateways[c.gateway];
      && |r.queue| == |r.times| && g.base <= |g.sent|
      && after.gateways == raw.gateways[c.gateway := PushedRecord(raw, r, Output(libs, c.gateway, |g.sent|, item))]
      && after.tree == (raw.tree - KeysOf(r.queue[..Expired(raw, r)]))[
           Format(c.gateway, |g.sent|) := libs.sha256(Content(libs, item))]
      && after == raw.(outgoing := raw.outgoing[KeyOf(n, p) := c.sent + 1], gateways := after.gateways,
                       tree := after.tree, certified := Renewed(libs, after.tree))
      && m == n.(conns := n.conns[p := c.(sent := c.sent + 1)],
                 gateways := n.gateways[c.gateway := g.(sent := g.sent + [item],
                     base := Trimmed(g, n.now, n.interval))],
                 log := m.log)
    ensures Agrees(libs, after, m)
  {
    hide ClientsAgree, OutgoingAgrees, IncomingAgrees, WaitingAgrees, GatewaysAgree, CountsAgree, EmptiedAgree,
      TreeAgrees, QueueAgrees;
    var c := n.conns[p];
    var d, r, g := c.(sent := c.sent + 1), raw.gateways[c.gateway], n.gateways[c.gateway];
    var h := g.(sent := g.sent + [item], base := Trimmed(g, n.now, n.interval));
    ClientsSame(raw.clients, raw.current, n.conns, p, d);
    OutgoingUpdate(raw.outgoing, n.conns, p, d, c.sent + 1);
    IncomingSame(raw.incoming, n.conns, p, d);
    WaitingSame(raw.waiting, n.conns, p, d);
    CountsSame(raw.gateways, n.conns, p, d);
    CountsUpdate(raw.gateways, m.conns, c.gateway, after.gateways[c.gateway]);
    EmptiedSame(raw.toRemove, n.gateways, c.gateway, h);
    SendQueue(libs, raw, n, c.gateway, g, r, item);
    GatewaysUpdate(libs, raw.gateways, n.gateways, c.gateway, after.gateways[c.gateway], h);
    assert TreeAgrees(libs, after.tree, m.gateways) by {
      DeletedKeys(libs, c.gateway, r, g, Expired(raw, r));
      SendTree(libs, raw.tree, n.gateways, c.gateway, KeysOf(r.queue[..Expired(raw, r)]), h.base, item);
    }
  }

  // ---- opening ----

  function Adding(raw: Raw, key: ClientKey, gateway: Principal): Raw {
    var r := if gateway in raw.gateways then raw.gateways[gateway]
      else GatewayRecord([], [], INITIAL_OUTGOING_MESSAGE_NONCE, 0);
    raw.(current := raw.current[key.clientPrincipal := key],
         clients := raw.clients[key := ClientRecord(raw.now, gateway)],
         incoming := raw.incoming[key := INITIAL_CLIENT_SEQUENCE_NUM],
         outgoing := raw.outgoing[key := INITIAL_CANISTER_SEQUENCE_NUM],
         toRemove := raw.toRemove - {gateway},
         gateways := raw.gateways[gateway := r.(count := r.count + 1)])
  }

  lemma AddingEntries(raw: Raw, key: ClientKey, gateway: Principal)
    ensures var after := Adding(raw, key, gateway);
      && after.now == raw.now && gateway in after.gateways
      && key in after.clients && after.clients[key] == ClientRecord(raw.now, gateway)
      && key in after.outgoing && after.outgoing[key] == 0
  {}

  /** The three parts of Adding. */
  function Inserting(raw: Raw, key: ClientKey, r: ClientRecord): Raw {
    raw.(current := raw.current[key.clientPrincipal := key], clients := raw.clients[key := r])
  }

  function Numbering(raw: Raw, key: ClientKey): Raw {
    raw.(incoming := raw.incoming[key := INITIAL_CLIENT_SEQUENCE_NUM],
        outgoing := raw.outgoing[key := INITIAL_CANISTER_SEQUENCE_NUM])
  }

  function Incrementing(raw: Raw, gateway: Principal): Raw {
    var r := if gateway in raw.gateways then raw.gateways[gateway]
      else GatewayRecord([], [], INITIAL_OUTGOING_MESSAGE_NONCE, 0);
    raw.(toRemove := raw.toRemove - {gateway}, gateways := raw.gateways[gateway := r.(count := r.count + 1)])
  }

  lemma AddingSteps(raw: Raw, key: ClientKey, gateway: Principal)
    ensures Adding(raw, key, gateway)
      == Incrementing(Numbering(Inserting(raw, key, ClientRecord(raw.now, gateway)), key), gateway)
  {}

  lemma AddOutgoing(outgoing: map<ClientKey, nat>, conns: Conns, key: ClientKey, c: Connection)
    requires OutgoingAgrees(outgoing, conns) && key.clientPrincipal !in conns && c.nonce == key.clientNonce &&
      c.sent == 0
    ensures OutgoingAgrees(outgoing[key := INITIAL_CANISTER_SEQUENCE_NUM], conns[key.clientPrincipal := c])
  {}

  lemma AddIncoming(incoming: map<ClientKey, nat>, conns: Conns, key: ClientKey, c: Connection)
    requires IncomingAgrees(incoming, conns) && key.clientPrincipal !in conns && c.nonce == key.clientNonce &&
      c.received == 0
    ensures IncomingAgrees(incoming[key := INITIAL_CLIENT_SEQUENCE_NUM], conns[key.clientPrincipal := c])
  {}

  lemma AddWaiting(waiting: set<ClientKey>, conns: Conns, key: ClientKey, c: Connection)
    requires WaitingAgrees(waiting, conns) && key.clientPrincipal !in conns && c.nonce == key.clientNonce && !c.waiting
    ensures WaitingAgrees(waiting, conns[key.clientPrincipal := c])
  {}

  lemma AddClient(clients: map<ClientKey, ClientRecord>, current: map<Principal, ClientKey>, conns: Conns,
                  key: ClientKey, c: Connection)
    requires ClientsAgree(clients, current, conns) && key.clientPrincipal !in conns && c.nonce == key.clientNonce
    ensures ClientsAgree(clients[key := ClientRecord(c.lastSeen, c.gateway)], current[key.clientPrincipal := key],
        conns[key.clientPrincipal := c])
  {}

  lemma OnGatewayGrows(conns: Conns, p: Principal, c: Connection)
    requires p !in conns
    ensures |OnGateway(conns[p := c], c.gateway)| == |OnGateway(conns, c.gateway)| + 1
    ensures forall g :: g != c.gateway ==> OnGateway(conns[p := c], g) == OnGateway(conns, g)
  {
    assert OnGateway(conns[p := c], c.gateway) == OnGateway(conns, c.gateway) + {p};
    forall g | g != c.gateway ensures OnGateway(conns[p := c], g) == OnGateway(conns, g) {
      OnGatewaySame(conns[p := c], conns, g);
    }
  }

  lemma AddCounts(records: map<Principal, GatewayRecord>, conns: Conns, p: Principal, c: Connection, r: GatewayRecord)
    requires CountsAgree(records, conns) && p !in conns
    requires r.count == |OnGateway(conns, c.gateway)| + 1
    ensures CountsAgree(records[c.gateway := r], conns[p := c])
  {
    hide OnGateway;
    OnGatewayGrows(conns, p, c);
  }

  /** Gateways may change whatever is not queued without the tree noticing. */
  lemma TreeSame(libs: Libraries, tree: map<string, Bytes>, before: map<Principal, Gateway>,
                 after: map<Principal, Gateway>)
    requires TreeAgrees(libs, tree, before)
    requires forall g, i: nat :: QueuedNonce(before, g, i) <==> QueuedNonce(after, g, i)
    requires forall g, i: nat :: QueuedNonce(after, g, i) ==> before[g].sent[i] == after[g].sent[i]
    ensures TreeAgrees(libs, tree, after)
  {}

  lemma AddQueue(libs: Libraries, records: map<Principal, GatewayRecord>, gateways: map<Principal, Gateway>,
                 gateway: Principal, r: GatewayRecord, h: Gateway)
    requires GatewaysAgree(libs, records, gateways)
    requires if gateway in gateways then h == gateways[gateway].(emptiedAt := None) else h.sent == [] && h.base == 0
    requires if gateway in records then r == records[gateway].(count := r.count)
      else r == GatewayRecord([], [], 0, r.count)
    ensures GatewaysAgree(libs, records[gateway := r], gateways[gateway := h])
  {}

  lemma AddEmptied(toRemove: map<Principal, nat>, gateways: map<Principal, Gateway>, gateway: Principal, h: Gateway)
    requires EmptiedAgree(toRemove, gateways) && h.emptiedAt == None
    ensures EmptiedAgree(toRemove - {gateway}, gateways[gateway := h])
  {}

  lemma AddTree(libs: Libraries, tree: map<string, Bytes>, gateways: map<Principal, Gateway>, gateway: Principal,
                h: Gateway)
    requires TreeAgrees(libs, tree, gateways)
    requires if gateway in gateways then h == gateways[gateway].(emptiedAt := h.emptiedAt) else h.sent == []
    ensures TreeAgrees(libs, tree, gateways[gateway := h])
  {
    TreeSame(libs, tree, gateways, gateways[gateway := h]);
  }

  lemma CountKnown(libs: Libraries, raw: Raw, n: Net, gateway: Principal)
    requires Inv(n) && GatewaysAgree(libs, raw.gateways, n.gateways) && CountsAgree(raw.gateways, n.conns)
    ensures gateway in raw.gateways <==> gateway in n.gateways
    ensures |OnGateway(n.conns, gateway)| == if gateway in raw.gateways then raw.gateways[gateway].count else 0
  {}

  /** Registering a client refines AddConnection. */
  lemma AddAgrees(libs: Libraries, raw: Raw, n: Net, p: Principal, nonce: nat, gateway: Principal)
    requires Inv(n) && Agrees(libs, raw, n) && p !in n.conns
    ensures Agrees(libs, Adding(raw, ClientKey(p, nonce), gateway), AddConnection(n, p, nonce, gateway))
  {
    CountKnown(libs, raw, n, gateway);
    AddParts(libs, raw, n, ClientKey(p, nonce), Adding(raw, ClientKey(p, nonce), gateway),
        AddConnection(n, p, nonce, gateway), gateway);
  }

  lemma AddParts(libs: Libraries, raw: Raw, n: Net, key: ClientKey, after: Raw, m: Net, gateway: Principal)
    requires Agrees(libs, raw, n) && key.clientPrincipal !in n.conns
    requires gateway in raw.gateways <==> gateway in n.gateways
    requires |OnGateway(n.conns, gateway)| == if gateway in raw.gateways then raw.gateways[gateway].count else 0
    requires after == Adding(raw, key, gateway) && m == AddConnection(n, key.clientPrincipal, key.clientNonce, gateway)
    ensures Agrees(libs, after, m)
  {
    hide ClientsAgree, OutgoingAgrees, IncomingAgrees, WaitingAgrees, GatewaysAgree, CountsAgree, EmptiedAgree,
      TreeAgrees, QueueAgrees;
    var c := m.conns[key.clientPrincipal];
    AddClient(raw.clients, raw.current, n.conns, key, c);
    AddOutgoing(raw.outgoing, n.conns, key, c);
    AddIncoming(raw.incoming, n.conns, key, c);
    AddWaiting(raw.waiting, n.conns, key, c);
    AddCounts(raw.gateways, n.conns, key.clientPrincipal, m.conns[key.clientPrincipal], after.gateways[gateway]);
    AddQueue(libs, raw.gateways, n.gateways, gateway, after.gateways[gateway], m.gateways[gateway]);
    AddEmptied(raw.toRemove, n.gateways, gateway, m.gateways[gateway]);
    AddTree(libs, raw.tree, n.gateways, gateway, m.gateways[gateway]);
  }

  // ---- removing ----

  function Dropping(raw: Raw, key: ClientKey): Raw {
    var dropped := raw.(
      waiting := raw.waiting - {key},
      current := raw.current - {key.clientPrincipal},
      outgoing := raw.outgoing - {key},
      incoming := raw.incoming - {key},
      clients := raw.clients - {key});
    if key !in raw.clients || raw.clients[key].gateway !in raw.gateways then dropped
    else
      var gateway := raw.clients[key].gateway;
      var r := raw.gateways[gateway];
      var count := if r.count == 0 then 0 else r.count - 1;
      dropped.(gateways := raw.gateways[gateway := r.(count := count)],
               toRemove := if count == 0 then raw.toRemove[gateway := raw.now] else raw.toRemove)
  }

  /** The two halves of Dropping: the maps by key, then the gateway's count. */
  function Forgetting(raw: Raw, key: ClientKey): Raw {
    raw.(waiting := raw.waiting - {key}, current := raw.current - {key.clientPrincipal},
         outgoing := raw.outgoing - {key}, incoming := raw.incoming - {key}, clients := raw.clients - {key})
  }

  function Decrementing(raw: Raw, gateway: Principal): Raw {
    if gateway !in raw.gateways then raw
    else
      var r := raw.gateways[gateway];
      var count := if r.count == 0 then 0 else r.count - 1;
      raw.(gateways := raw.gateways[gateway := r.(count := count)],
           toRemove := if count == 0 then raw.toRemove[gateway := raw.now] else raw.toRemove)
  }

  lemma DroppingSteps(raw: Raw, key: ClientKey)
    ensures Dropping(raw, key)
         == if key in raw.clients then Decrementing(Forgetting(raw, key), raw.clients[key].gateway)
           else Forgetting(raw, key)
  {}

  lemma DropNumbers(outgoing: map<ClientKey, nat>, incoming: map<ClientKey, nat>, waiting: set<ClientKey>,
                    conns: Conns, key: ClientKey)
    requires Live(conns, key)
    requires OutgoingAgrees(outgoing, conns) && IncomingAgrees(incoming, conns) && WaitingAgrees(waiting, conns)
    ensures var d := conns - {key.clientPrincipal};
      OutgoingAgrees(outgoing - {key}, d) && IncomingAgrees(incoming - {key}, d) && WaitingAgrees(waiting - {key}, d)
  {}

  lemma DropClient(clients: map<ClientKey, ClientRecord>, current: map<Principal, ClientKey>, conns: Conns,
                   key: ClientKey)
    requires Live(conns, key) && ClientsAgree(clients, current, conns)
    ensures ClientsAgree(clients - {key}, current - {key.clientPrincipal}, conns - {key.clientPrincipal})
  {}

  lemma DropCounts(records: map<Principal, GatewayRecord>, conns: Conns, p: Principal)
    requires CountsAgree(records, conns) && p in conns && conns[p].gateway in records
    ensures var r := records[conns[p].gateway];
      && r.count > 0 && r.count - 1 == |OnGateway(conns - {p}, conns[p].gateway)|
      && CountsAgree(records[conns[p].gateway := r.(count := r.count - 1)], conns - {p})
  {
    var d, gateway := conns - {p}, conns[p].gateway;
    assert p in OnGateway(conns, gateway);
    assert OnGateway(d, gateway) == OnGateway(conns, gateway) - {p};
    forall g | g in records && g != gateway ensures records[g].count == |OnGateway(d, g)| {
      OnGatewaySame(d, conns, g);
    }
  }

  lemma DropQueue(libs: Libraries, records: map<Principal, GatewayRecord>, gateways: map<Principal, Gateway>,
                  gateway: Principal, r: GatewayRecord, h: Gateway)
    requires GatewaysAgree(libs, records, gateways) && gateway in gateways && gateway in records
    requires h == gateways[gateway].(emptiedAt := h.emptiedAt) && r == records[gateway].(count := r.count)
    ensures GatewaysAgree(libs, records[gateway := r], gateways[gateway := h])
  {}

  lemma DropEmptied(toRemove: map<Principal, nat>, gateways: map<Principal, Gateway>, gateway: Principal, h: Gateway)
    requires EmptiedAgree(toRemove, gateways) && gateway in gateways
    ensures h.emptiedAt.Some? ==> EmptiedAgree(toRemove[gateway := h.emptiedAt.value], gateways[gateway := h])
    ensures h.emptiedAt == gateways[gateway].emptiedAt ==> EmptiedAgree(toRemove, gateways[gateway := h])
  {}

  /** Removing a client refines DropConnection; its gateway's count was positive, so the
      saturating decrement is an ordinary one. */
  lemma DropAgrees(libs: Libraries, raw: Raw, n: Net, p: Principal)
    requires Inv(n) && Agrees(libs, raw, n) && p in n.conns
    ensures n.conns[p].gateway in raw.gateways && raw.gateways[n.conns[p].gateway].count > 0
    ensures Agrees(libs, Dropping(raw, KeyOf(n, p)), DropConnection(n, p))
  {
    hide Dropping;
    KeyRegistered(libs, raw, n, p);
    DropCounts(raw.gateways, n.conns, p);
    DropParts(libs, raw, n, p, n.conns[p].gateway, Dropping(raw, KeyOf(n, p)), DropConnection(n, p));
  }

  lemma DropParts(libs: Libraries, raw: Raw, n: Net, p: Principal, gateway: Principal, after: Raw, m: Net)
    requires Agrees(libs, raw, n) && p in n.conns && gateway == n.conns[p].gateway
    requires Live(n.conns, KeyOf(n, p)) && KeyOf(n, p) in raw.clients && raw.clients[KeyOf(n, p)].gateway == gateway
    requires gateway in n.gateways && gateway in raw.gateways
    requires raw.gateways[gateway].count > 0 && raw.gateways[gateway].count - 1 == |OnGateway(n.conns - {p}, gateway)|
    requires after == Dropping(raw, KeyOf(n, p)) && m == DropConnection(n, p)
    ensures Agrees(libs, after, m)
  {
    hide ClientsAgree, OutgoingAgrees, IncomingAgrees, WaitingAgrees, GatewaysAgree, CountsAgree, EmptiedAgree,
      TreeAgrees, QueueAgrees;
    assert OnGateway(n.conns - {p}, gateway) == {} <==> |OnGateway(n.conns - {p}, gateway)| == 0;
    DropClient(raw.clients, raw.current, n.conns, KeyOf(n, p));
    DropNumbers(raw.outgoing, raw.incoming, raw.waiting, n.conns, KeyOf(n, p));
    DropCounts(raw.gateways, n.conns, p);
    DropQueue(libs, raw.gateways, n.gateways, gateway, after.gateways[gateway], m.gateways[gateway]);
    DropEmptied(raw.toRemove, n.gateways, gateway, m.gateways[gateway]);
    AddTree(libs, raw.tree, n.gateways, gateway, m.gateways[gateway]);
    assert m.gateways == n.gateways[gateway := m.gateways[gateway]];
    assert after.gateways == raw.gateways[gateway := after.gateways[gateway]];
  }

  // ---- acknowledging, accepting, hearing ----

  lemma WaitingUpdate(waiting: set<ClientKey>, conns: Conns, p: Principal, c: Connection)
    requires WaitingAgrees(waiting, conns) && p in conns && c == conns[p].(waiting := true)
    ensures WaitingAgrees(waiting + {ClientKey(p, c.nonce)}, conns[p := c])
  {}

  lemma ClientsUpdate(clients: map<ClientKey, ClientRecord>, current: map<Principal, ClientKey>, conns: Conns,
                      p: Principal, c: Connection)
    requires ClientsAgree(clients, current, conns) && p in conns && c.nonce == conns[p].nonce
    ensures ClientsAgree(clients[ClientKey(p, c.nonce) := ClientRecord(c.lastSeen, c.gateway)], current, conns[p := c])
  {}

  lemma WaitAgrees(libs: Libraries, raw: Raw, n: Net, p: Principal)
    requires Agrees(libs, raw, n) && p in n.conns
    ensures Agrees(libs, raw.(waiting := raw.waiting + {KeyOf(n, p)}),
        n.(conns := n.conns[p := n.conns[p].(waiting := true)]))
  {
    var d := n.conns[p].(waiting := true);
    hide ClientsAgree, OutgoingAgrees, IncomingAgrees, WaitingAgrees, GatewaysAgree, CountsAgree, EmptiedAgree,
      TreeAgrees, TimersAgree;
    ClientsSame(raw.clients, raw.current, n.conns, p, d);
    OutgoingSame(raw.outgoing, n.conns, p, d);
    IncomingSame(raw.incoming, n.conns, p, d);
    WaitingUpdate(raw.waiting, n.conns, p, d);
    CountsSame(raw.gateways, n.conns, p, d);
  }

  lemma AcceptAgrees(libs: Libraries, raw: Raw, n: Net, p: Principal)
    requires Agrees(libs, raw, n) && p in n.conns
    ensures var c := n.conns[p];
      Agrees(libs, raw.(incoming := raw.incoming[KeyOf(n, p) := c.received + 2]),
          n.(conns := n.conns[p := c.(received := c.received + 1)]))
  {
    var d := n.conns[p].(received := n.conns[p].received + 1);
    hide ClientsAgree, OutgoingAgrees, IncomingAgrees, WaitingAgrees, GatewaysAgree, CountsAgree, EmptiedAgree,
      TreeAgrees, TimersAgree;
    ClientsSame(raw.clients, raw.current, n.conns, p, d);
    OutgoingSame(raw.outgoing, n.conns, p, d);
    IncomingUpdate(raw.incoming, n.conns, p, d, d.received + 1);
    WaitingSame(raw.waiting, n.conns, p, d);
    CountsSame(raw.gateways, n.conns, p, d);
  }

  lemma HearAgrees(libs: Libraries, raw: Raw, n: Net, p: Principal)
    requires Agrees(libs, raw, n) && p in n.conns
    ensures Agrees(libs, raw.(clients := raw.clients[KeyOf(n, p) := ClientRecord(n.now, n.conns[p].gateway)]),
                   n.(conns := n.conns[p := n.conns[p].(lastSeen := n.now)]))
  {
    var d := n.conns[p].(lastSeen := n.now);
    hide ClientsAgree, OutgoingAgrees, IncomingAgrees, WaitingAgrees, GatewaysAgree, CountsAgree, EmptiedAgree,
      TreeAgrees, TimersAgree;
    ClientsUpdate(raw.clients, raw.current, n.conns, p, d);
    OutgoingSame(raw.outgoing, n.conns, p, d);
    IncomingSame(raw.incoming, n.conns, p, d);
    WaitingSame(raw.waiting, n.conns, p, d);
    CountsSame(raw.gateways, n.conns, p, d);
  }

  lemma RecordAgrees(libs: Libraries, raw: Raw, n: Net, e: Event)
    requires Agrees(libs, raw, n)
    ensures Agrees(libs, raw, Record(n, e))
  {}

  function Accepting(raw: Raw, key: ClientKey): Raw {
    if key in raw.incoming then raw.(incoming := raw.incoming[key := raw.incoming[key] + 1]) else raw
  }

  function Hearing(raw: Raw, key: ClientKey): Raw {
    if key in raw.clients then raw.(clients := raw.clients[key := raw.clients[key].(lastKeepAlive := raw.now)]) else raw
  }

  // ---- expiring gateways ----

  function KeysOfGateways(records: map<Principal, GatewayRecord>, gs: set<Principal>): set<string> {
    set g, m | g in gs && g in records && m in records[g].queue :: m.key
  }

  function ExpiredGateways(raw: Raw): set<Principal> {
    set g | g in raw.toRemove && Overdue(raw.toRemove[g], raw.now, raw.params.sendAckIntervalMs)
  }

  /** Gateways leave the registry and their queued keys leave the tree. */
  function Unregistering(libs: Libraries, raw: Raw, gs: set<Principal>): Raw {
    var tree := raw.tree - KeysOfGateways(raw.gateways, gs);
    raw.(gateways := raw.gateways - gs, tree := tree,
         certified := if gs == {} then raw.certified else Renewed(libs, tree))
  }

  function Expiring(libs: Libraries, raw: Raw, gs: set<Principal>): Raw {
    Unregistering(libs, raw.(toRemove := raw.toRemove - gs), gs)
  }

  lemma UnregisterNone(libs: Libraries, raw: Raw)
    ensures Unregistering(libs, raw, {}) == raw
  {}

  /** One gateway after the others is all of them. */
  lemma UnregisterOneMore(libs: Libraries, raw: Raw, gs: set<Principal>, g: Principal)
    requires g !in gs
    ensures Unregistering(libs, Unregistering(libs, raw, gs), {g}) == Unregistering(libs, raw, gs + {g})
  {
    assert raw.gateways - gs - {g} == raw.gateways - (gs + {g});
    assert KeysOfGateways(raw.gateways, gs) + KeysOfGateways(raw.gateways - gs, {g})
      == KeysOfGateways(raw.gateways, gs + {g});
    assert raw.tree - KeysOfGateways(raw.gateways, gs) - KeysOfGateways(raw.gateways - gs, {g})
        == raw.tree - KeysOfGateways(raw.gateways, gs + {g});
  }

  function Elements(keys: seq<string>): set<string> {
    set s | s in keys
  }

  lemma KeysOfOne(records: map<Principal, GatewayRecord>, g: Principal, keys: seq<string>)
    requires g in records && |keys| == |records[g].queue|
    requires forall i :: 0 <= i < |keys| ==> keys[i] == records[g].queue[i].key
    ensures Elements(keys) == KeysOfGateways(records, {g})
  {}

  lemma GatewayKeys(libs: Libraries, records: map<Principal, GatewayRecord>, gateways: map<Principal, Gateway>,
                    gs: set<Principal>)
    requires GatewaysAgree(libs, records, gateways)
    ensures forall g, i: nat :: g in gs && QueuedNonce(gateways, g, i) ==> Format(g, i) in KeysOfGateways(records, gs)
    ensures forall s :: s in KeysOfGateways(records, gs) ==>
      exists g, i: nat :: g in gs && QueuedNonce(gateways, g, i) && s == Format(g, i)
  {
    forall g, i: nat | g in gs && QueuedNonce(gateways, g, i) ensures Format(g, i) in KeysOfGateways(records, gs) {
      assert QueueAgrees(libs, g, records[g], gateways[g]);
      var m := records[g].queue[i - gateways[g].base];
      assert m in records[g].queue && m.key == Format(g, i);
    }
    forall s | s in KeysOfGateways(records, gs)
      ensures exists g, i: nat :: g in gs && QueuedNonce(gateways, g, i) && s == Format(g, i)
    {
      var g, m :| g in gs && g in records && m in records[g].queue && s == m.key;
      assert QueueAgrees(libs, g, records[g], gateways[g]);
      var j :| 0 <= j < |records[g].queue| && records[g].queue[j] == m;
      assert QueuedNonce(gateways, g, gateways[g].base + j) && s == Format(g, gateways[g].base + j);
    }
  }

  lemma ExpireTree(libs: Libraries, tree: map<string, Bytes>, records: map<Principal, GatewayRecord>,
                   gateways: map<Principal, Gateway>, gs: set<Principal>)
    requires TreeAgrees(libs, tree, gateways) && GatewaysAgree(libs, records, gateways)
    ensures TreeAgrees(libs, tree - KeysOfGateways(records, gs), gateways - gs)
  {
    var after, t := gateways - gs, tree - KeysOfGateways(records, gs);
    GatewayKeys(libs, records, gateways, gs);
    AllKeysParse();
    forall s | s in t ensures QueuedKey(after, s) {
      assert QueuedKey(gateways, s);
    }
    forall h, i: nat | QueuedNonce(after, h, i)
      ensures Format(h, i) in t && t[Format(h, i)] == libs.sha256(Content(libs, after[h].sent[i]))
    {
      assert QueuedNonce(gateways, h, i) && ParseKey(Format(h, i)) == Some((h, i));
    }
  }

  lemma ExpireSets(raw: Raw, n: Net)
    requires EmptiedAgree(raw.toRemove, n.gateways) && raw.now == n.now && raw.params.sendAckIntervalMs == n.interval
    ensures Act(n, ExpireGateways) == n.(gateways := n.gateways - ExpiredGateways(raw))
  {}

  lemma ExpireMaps(libs: Libraries, records: map<Principal, GatewayRecord>, toRemove: map<Principal, nat>,
                   gateways: map<Principal, Gateway>, conns: Conns, gs: set<Principal>)
    requires GatewaysAgree(libs, records, gateways) && CountsAgree(records, conns) && EmptiedAgree(toRemove, gateways)
    ensures GatewaysAgree(libs, records - gs, gateways - gs)
    ensures CountsAgree(records - gs, conns) && EmptiedAgree(toRemove - gs, gateways - gs)
  {}

  lemma ExpireCertified(libs: Libraries, raw: Raw, gs: set<Principal>)
    requires Certified(libs, raw.tree, raw.certified)
    ensures var after := Expiring(libs, raw, gs); Certified(libs, after.tree, after.certified)
  {
    hide KeysOfGateways;
    if gs == {} {
      UnregisterNone(libs, raw);
    }
  }

  /** Removing gateways removes their queues and their tree entries together. */
  lemma ExpireAgrees(libs: Libraries, raw: Raw, n: Net, gs: set<Principal>)
    requires Agrees(libs, raw, n)
    ensures Agrees(libs, Expiring(libs, raw, gs), n.(gateways := n.gateways - gs))
  {
    hide ClientsAgree, OutgoingAgrees, IncomingAgrees, WaitingAgrees, GatewaysAgree, CountsAgree, EmptiedAgree,
      TreeAgrees, TimersAgree, KeysOfGateways, Certified;
    ExpireMaps(libs, raw.gateways, raw.toRemove, n.gateways, n.conns, gs);
    ExpireTree(libs, raw.tree, raw.gateways, n.gateways, gs);
    ExpireCertified(libs, raw, gs);
  }

  // ---- timers and clearing ----

  /** The stored ids cover every pending timer, so cancelling both leaves none. */
  lemma CancelCoversAll(t: Timers, ackDue: Option<nat>, checkDue: Option<nat>, interval: nat)
    requires TimersAgree(t, ackDue, checkDue, interval)
    ensures forall id :: id in t.pending ==> t.ack == Some(id) || t.keepAlive == Some(id)
    ensures |t.pending| <= 2
  {
    var ids := (if t.ack.Some? then {t.ack.value} else {}) + (if t.keepAlive.Some? then {t.keepAlive.value} else {});
    assert t.pending.Keys <= ids;
    SubsetSize(t.pending.Keys, ids);
    assert |t.pending| == |t.pending.Keys|;
  }

  lemma SubsetSize<T>(a: set<T>, b: set<T>)
    requires a <= b
    ensures |a| <= |b|
  {
    assert b == a + (b - a);
  }

  /** Exactly the two stored timers are no longer pending, and neither id is stored. */
  ghost predicate Cancelled(t: Timers, u: Timers) {
    && u.ack == None && u.keepAlive == None && u.next == t.next
    && (forall id :: id in u.pending <==> id in t.pending && t.ack != Some(id) && t.keepAlive != Some(id))
    && (forall id :: id in u.pending ==> u.pending[id] == t.pending[id])
  }

  /** One more timer is pending, under a new id that is stored. */
  ghost predicate AcksScheduled(t: Timers, u: Timers, now: nat, interval: nat) {
    && u.ack == Some(t.next) && u.keepAlive == t.keepAlive && u.next == t.next + 1
    && (forall id :: id in u.pending <==> id in t.pending || id == t.next)
    && u.pending[t.next] == Timer(SendAcks, now + interval, Some(interval))
    && (forall id :: id in t.pending && id != t.next ==> u.pending[id] == t.pending[id])
  }

  lemma OneMorePending(t: Timers, u: Timers, now: nat, interval: nat)
    requires AcksScheduled(t, u, now, interval) && t.next !in t.pending
    ensures |u.pending| == |t.pending| + 1
  {
    assert u.pending.Keys == t.pending.Keys + {t.next};
    assert |u.pending.Keys| == |u.pending| && |t.pending.Keys| == |t.pending|;
  }

  /** Initialising again: cancelling the two stored timers leaves none pending, and
      scheduling then leaves exactly one. */
  lemma RestartLeavesOne(t: Timers, u: Timers, v: Timers, ackDue: Option<nat>, checkDue: Option<nat>, before: nat,
                         now: nat,
                         interval: nat)
    requires TimersAgree(t, ackDue, checkDue, before) && Cancelled(t, u) && AcksScheduled(u, v, now, interval)
    ensures u.pending == map[] && v == Armed(t, now, interval) && |v.pending| == 1
  {
    assert v.pending == map[t.next := Timer(SendAcks, now + interval, Some(interval))];
  }

  function Armed(t: Timers, now: nat, interval: nat): Timers {
    Timers(Some(t.next), None, map[t.next := Timer(SendAcks, now + interval, Some(interval))], t.next + 1)
  }

  lemma ArmedAgrees(t: Timers, now: nat, interval: nat)
    ensures TimersAgree(Armed(t, now, interval), Some(now + interval), None, interval)
  {}

  /** After an acknowledgement round: the check is scheduled and the interval re-armed. */
  function Rescheduled(t: Timers, now: nat, interval: nat): Timers
    requires t.ack.Some?
  {
    Timers(t.ack, Some(t.next),
           t.pending[t.next := Timer(CheckKeepAlive, now + CLIENT_KEEP_ALIVE_TIMEOUT_NS, None)]
                    [t.ack.value := Timer(SendAcks, now + interval, Some(interval))],
           t.next + 1)
  }

  lemma RearmedTimers(t: Timers, id: nat, now: nat, interval: nat)
    requires t.ack == Some(id) && id in t.pending
    ensures var u := Rescheduled(t, now, interval);
      && id in u.pending && u.pending[id] == Timer(SendAcks, now + interval, Some(interval))
      && u.keepAlive == Some(t.next)
      && (t.next != id ==>
            t.next in u.pending && u.pending[t.next] == Timer(CheckKeepAlive, now + 60_000_000_000, None))
  {}

  /** At most one keep-alive check is ever pending: none is when a round schedules one. */
  lemma RescheduledAgrees(t: Timers, now: nat, interval: nat)
    requires TimersAgree(t, Some(now), None, interval)
    ensures t.ack.Some?
    ensures TimersAgree(Rescheduled(t, now, interval), Some(now + interval), Some(now + CLIENT_KEEP_ALIVE_TIMEOUT_NS),
        interval)
  {}

  lemma CheckDoneAgrees(t: Timers, ackDue: Option<nat>, now: nat, interval: nat)
    requires TimersAgree(t, ackDue, Some(now), interval)
    ensures t.keepAlive.Some?
    ensures TimersAgree(t.(pending := t.pending - {t.keepAlive.value}), ackDue, None, interval)
  {}

  lemma DeadlinesAgree(t: Timers, ackDue: Option<nat>, checkDue: Option<nat>, interval: nat, to: nat)
    requires TimersAgree(t, ackDue, checkDue, interval)
    ensures (forall id :: id in t.pending ==> to <= t.pending[id].deadline)
       <==> (ackDue.Some? ==> to <= ackDue.value) && (checkDue.Some? ==> to <= checkDue.value)
  {}

  function Cleared(raw: Raw): Raw {
    raw.(current := map[], waiting := {}, outgoing := map[], incoming := map[], tree := map[],
        certified := raw.certified.(renewed := false),
         gateways := map[], toRemove := map[])
  }

  lemma ClearedParts(libs: Libraries, conns: Conns, clients: map<ClientKey, ClientRecord>,
                     current: map<Principal, ClientKey>)
    requires conns == map[] && ClientsAgree(clients, current, conns)
    ensures ClientsAgree(clients, map[], conns) && OutgoingAgrees(map[], conns) && IncomingAgrees(map[], conns)
    ensures WaitingAgrees({}, conns) && GatewaysAgree(libs, map[], map[]) && CountsAgree(map[], conns) &&
      EmptiedAgree(map[], map[])
    ensures TreeAgrees(libs, map[], map[])
  {}

  lemma ClearAgrees(libs: Libraries, raw: Raw, n: Net)
    requires Agrees(libs, raw, n) && n.conns == map[]
    ensures Agrees(libs, Cleared(raw), n.(gateways := map[]))
  {
    hide ClientsAgree, OutgoingAgrees, IncomingAgrees, WaitingAgrees, GatewaysAgree, CountsAgree, EmptiedAgree,
      TreeAgrees, TimersAgree;
    ClearedParts(libs, n.conns, raw.clients, raw.current);
  }

  // ---- when the unconditional removal by principal is safe ----

  lemma CurrentNeeded(clients: map<ClientKey, ClientRecord>, current: map<Principal, ClientKey>, conns: Conns,
                      k: ClientKey)
    requires ClientsAgree(clients, current, conns) && k in clients
    ensures k.clientPrincipal in current
  {}

  lemma AbsentKeys(raw: Raw, conns: Conns, key: ClientKey)
    requires ClientsAgree(raw.clients, raw.current, conns) && OutgoingAgrees(raw.outgoing, conns)
    requires IncomingAgrees(raw.incoming, conns) && WaitingAgrees(raw.waiting, conns)
    requires key.clientPrincipal !in conns
    ensures key !in raw.clients && key !in raw.outgoing && key !in raw.incoming && key !in raw.waiting
    ensures key.clientPrincipal !in raw.current
  {
    assert !Live(conns, key);
  }

  lemma ForgettingAbsent(raw: Raw, key: ClientKey)
    requires key !in raw.clients && key !in raw.outgoing && key !in raw.incoming && key !in raw.waiting
    requires key.clientPrincipal !in raw.current
    ensures Dropping(raw, key) == raw
  {
    assert raw.clients - {key} == raw.clients && raw.outgoing - {key} == raw.outgoing;
    assert raw.incoming - {key} == raw.incoming && raw.waiting - {key} == raw.waiting;
    assert raw.current - {key.clientPrincipal} == raw.current;
  }

  lemma UnregisteredPresent(raw: Raw, conns: Conns, key: ClientKey)
    requires ClientsAgree(raw.clients, raw.current, conns) && key !in raw.clients && key.clientPrincipal in conns
    ensures var after := Dropping(raw, key);
      ClientKey(key.clientPrincipal, conns[key.clientPrincipal].nonce) in after.clients &&
        key.clientPrincipal !in after.current
  {}

  /** Removing a key that is not registered would also forget the principal's current key:
      the state stays coherent exactly when that principal has no other live key. */
  lemma RemovingUnregistered(libs: Libraries, raw: Raw, n: Net, key: ClientKey)
    requires Agrees(libs, raw, n) && key !in raw.clients
    ensures (exists m :: Agrees(libs, Dropping(raw, key), m)) <==> key.clientPrincipal !in n.conns
  {
    hide ClientsAgree, OutgoingAgrees, IncomingAgrees, WaitingAgrees, GatewaysAgree, CountsAgree, EmptiedAgree,
      TreeAgrees, TimersAgree, Dropping;
    var after := Dropping(raw, key);
    if key.clientPrincipal in n.conns {
      UnregisteredPresent(raw, n.conns, key);
      forall m | Agrees(libs, after, m) ensures false {
        CurrentNeeded(after.clients, after.current, m.conns, KeyOf(n, key.clientPrincipal));
      }
    } else {
      AbsentKeys(raw, n.conns, key);
      ForgettingAbsent(raw, key);
      assert Agrees(libs, after, n);
    }
  }
}
