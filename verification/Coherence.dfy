/** What agreement with the abstract state says about the concrete maps alone: the laws
    the code relies on, in every reachable state. */
module Coherence {
  import opened Types
  import opened Keys
  import opened Network
  import opened Store
  import opened Refinement

  /** The five client maps describe one set of clients, one key per principal. */
  ghost predicate ClientMapsCoherent(raw: Raw) {
    && raw.outgoing.Keys == raw.clients.Keys && raw.incoming.Keys == raw.clients.Keys
    && raw.waiting <= raw.clients.Keys
    && (forall p :: p in raw.current ==> raw.current[p].clientPrincipal == p && raw.current[p] in raw.clients)
    && (forall k :: k in raw.clients ==> k.clientPrincipal in raw.current && raw.current[k.clientPrincipal] == k)
    && (forall k :: k in raw.incoming ==> raw.incoming[k] >= 1)
  }

  lemma LiveKey(conns: Conns, p: Principal)
    requires p in conns
    ensures Live(conns, ClientKey(p, conns[p].nonce))
  {}

  lemma ClientMaps(raw: Raw, conns: Conns)
    requires ClientsAgree(raw.clients, raw.current, conns) && OutgoingAgrees(raw.outgoing, conns)
    requires IncomingAgrees(raw.incoming, conns) && WaitingAgrees(raw.waiting, conns)
    ensures ClientMapsCoherent(raw)
  {
    forall p | p in raw.current ensures raw.current[p] in raw.clients {
      LiveKey(conns, p);
    }
    forall k ensures k in raw.clients <==> k in raw.outgoing
             ensures k in raw.clients <==> k in raw.incoming {
      assert k in raw.clients <==> Live(conns, k);
    }
  }

  function ClientsOf(raw: Raw, gateway: Principal): set<ClientKey> {
    set k | k in raw.clients && raw.clients[k].gateway == gateway
  }

  /** Each gateway counts exactly the clients naming it, and is listed for removal exactly
      when there are none; every client's gateway is registered and counts it. */
  ghost predicate GatewaysCounted(raw: Raw) {
    && (forall g :: g in raw.gateways ==> raw.gateways[g].count == |ClientsOf(raw, g)|)
    && (forall k :: k in raw.clients ==>
        raw.clients[k].gateway in raw.gateways && raw.gateways[raw.clients[k].gateway].count > 0)
    && (forall g :: g in raw.toRemove <==> g in raw.gateways && raw.gateways[g].count == 0)
  }

  lemma {:induction false} SameSize(keys: set<ClientKey>)
    requires forall k, l :: k in keys && l in keys && k.clientPrincipal == l.clientPrincipal ==> k == l
    ensures |Principals(keys)| == |keys|
  {
    if keys != {} {
      var k :| k in keys;
      SameSize(keys - {k});
      assert Principals(keys) == Principals(keys - {k}) + {k.clientPrincipal};
    }
  }

  lemma ClientsCount(raw: Raw, conns: Conns, g: Principal)
    requires ClientsAgree(raw.clients, raw.current, conns)
    ensures |ClientsOf(raw, g)| == |OnGateway(conns, g)|
  {
    var keys := ClientsOf(raw, g);
    forall p | p in OnGateway(conns, g) ensures p in Principals(keys) {
      LiveKey(conns, p);
      assert ClientKey(p, conns[p].nonce) in keys;
    }
    forall k | k in keys ensures Live(conns, k) {}
    assert Principals(keys) == OnGateway(conns, g);
    SameSize(keys);
  }

  lemma Accounting(raw: Raw, n: Net)
    requires Inv(n) && ClientsAgree(raw.clients, raw.current, n.conns)
    requires forall g :: g in raw.gateways <==> g in n.gateways
    requires CountsAgree(raw.gateways, n.conns) && EmptiedAgree(raw.toRemove, n.gateways)
    ensures GatewaysCounted(raw)
  {
    forall g | g in raw.gateways
      ensures raw.gateways[g].count == |ClientsOf(raw, g)|
      ensures g in raw.toRemove <==> raw.gateways[g].count == 0
    {
      ClientsCount(raw, n.conns, g);
    }
    forall k | k in raw.clients
      ensures raw.clients[k].gateway in raw.gateways && raw.gateways[raw.clients[k].gateway].count > 0
    {
      assert Live(n.conns, k);
      assert k.clientPrincipal in OnGateway(n.conns, raw.clients[k].gateway);
    }
  }

  /** Contiguous nonces up to the next one, parallel deques, times sorted and past, and
      nothing newer than the moment the gateway was emptied. */
  ghost predicate QueueShape(raw: Raw, g: Principal, r: GatewayRecord) {
    && |r.queue| == |r.times| && |r.queue| <= r.nonce
    && (forall i :: 0 <= i < |r.queue| ==> r.queue[i].key == Format(g, r.nonce - |r.queue| + i))
    && (forall i, j :: 0 <= i < j < |r.times| ==> r.times[i] <= r.times[j])
    && (forall i :: 0 <= i < |r.times| ==> r.times[i] <= raw.now)
    && (g in raw.toRemove ==>
          && raw.toRemove[g] <= raw.now
          && forall i :: 0 <= i < |r.times| ==> r.times[i] <= raw.toRemove[g])
  }

  lemma QueueIsShaped(libs: Libraries, raw: Raw, n: Net, gateway: Principal, r: GatewayRecord, g: Gateway)
    requires QueueAgrees(libs, gateway, r, g) && QueueSound(n, g) && raw.now == n.now
    requires gateway in raw.toRemove ==> g.emptiedAt == Some(raw.toRemove[gateway])
    ensures QueueShape(raw, gateway, r)
  {}

  predicate InSomeQueue(raw: Raw, s: string, m: CanisterOutputMessage) {
    exists g :: g in raw.gateways && m in raw.gateways[g].queue && m.key == s
  }

  /** The tree's keys are those of the queued messages, each with its content's hash; the
      keys of different messages differ; and the certified data is the root of the tree
      certified last, the present one unless nothing has been certified since the creation
      or the last wipe. */
  ghost predicate TreeIndexesQueues(libs: Libraries, raw: Raw) {
    && (forall g, i :: g in raw.gateways && 0 <= i < |raw.gateways[g].queue| ==>
          var m := raw.gateways[g].queue[i]; m.key in raw.tree && raw.tree[m.key] == libs.sha256(m.content))
    && (forall s :: s in raw.tree ==> exists m :: InSomeQueue(raw, s, m))
    && (forall g, h, i, j ::
          (g in raw.gateways && h in raw.gateways &&
           0 <= i < |raw.gateways[g].queue| && 0 <= j < |raw.gateways[h].queue| &&
           raw.gateways[g].queue[i].key == raw.gateways[h].queue[j].key) ==> g == h && i == j)
    && Certified(libs, raw.tree, raw.certified)
  }

  lemma EntryOf(libs: Libraries, gateway: Principal, r: GatewayRecord, g: Gateway, i: nat)
    requires QueueAgrees(libs, gateway, r, g) && i < |r.queue|
    ensures g.base + i < |g.sent| && r.queue[i] == Output(libs, gateway, g.base + i, g.sent[g.base + i])
  {}

  lemma QueueEntry(libs: Libraries, raw: Raw, n: Net, g: Principal, i: nat)
    requires GatewaysAgree(libs, raw.gateways, n.gateways) && TreeAgrees(libs, raw.tree, n.gateways)
    requires g in raw.gateways && i < |raw.gateways[g].queue|
    ensures var m := raw.gateways[g].queue[i]; m.key in raw.tree && raw.tree[m.key] == libs.sha256(m.content)
    ensures g in n.gateways && ParseKey(raw.gateways[g].queue[i].key) == Some((g, n.gateways[g].base + i))
  {
    hide Format, ParseKey, Content, QueueAgrees;
    assert QueueAgrees(libs, g, raw.gateways[g], n.gateways[g]);
    EntryOf(libs, g, raw.gateways[g], n.gateways[g], i);
    assert QueuedNonce(n.gateways, g, n.gateways[g].base + i);
    ParseFormat(g, n.gateways[g].base + i);
  }

  lemma QueuedMessage(libs: Libraries, raw: Raw, n: Net, g: Principal, i: nat)
    requires GatewaysAgree(libs, raw.gateways, n.gateways) && QueuedNonce(n.gateways, g, i)
    ensures exists m :: InSomeQueue(raw, Format(g, i), m)
  {
    hide Format, Content;
    assert QueueAgrees(libs, g, raw.gateways[g], n.gateways[g]);
    var m := raw.gateways[g].queue[i - n.gateways[g].base];
    assert InSomeQueue(raw, Format(g, i), m);
  }

  lemma TreeEntry(libs: Libraries, raw: Raw, n: Net, s: string)
    requires GatewaysAgree(libs, raw.gateways, n.gateways) && TreeAgrees(libs, raw.tree, n.gateways) && s in raw.tree
    ensures exists m :: InSomeQueue(raw, s, m)
  {
    hide Format, ParseKey, GatewaysAgree, QueuedNonce, InSomeQueue;
    assert QueuedKey(n.gateways, s);
    var (g, i) := ParseKey(s).value;
    QueuedMessage(libs, raw, n, g, i);
  }

  lemma TreeIndex(libs: Libraries, raw: Raw, n: Net)
    requires GatewaysAgree(libs, raw.gateways, n.gateways) && TreeAgrees(libs, raw.tree, n.gateways)
    requires Certified(libs, raw.tree, raw.certified)
    ensures TreeIndexesQueues(libs, raw)
  {
    hide GatewaysAgree, TreeAgrees, InSomeQueue;
    forall g, i: nat | g in raw.gateways && i < |raw.gateways[g].queue|
      ensures var m := raw.gateways[g].queue[i];
        m.key in raw.tree && raw.tree[m.key] == libs.sha256(m.content)
      ensures g in n.gateways && ParseKey(raw.gateways[g].queue[i].key) == Some((g, n.gateways[g].base + i))
    {
      QueueEntry(libs, raw, n, g, i);
    }
    forall s | s in raw.tree ensures exists m :: InSomeQueue(raw, s, m) {
      TreeEntry(libs, raw, n, s);
    }
  }

  /** When the certified tree is the present one: exactly if there has been a certification
      since the creation or the last wipe, or if the empty tree was certified before it. In
      particular always while any message is queued. */
  lemma CertifiedExactly(libs: Libraries, raw: Raw, n: Net)
    requires Agrees(libs, raw, n)
    ensures raw.certified.tree == Some(raw.tree) <==> raw.certified.renewed || raw.certified.tree == Some(map[])
    ensures raw.certified.tree == Some(raw.tree) ==> raw.certified.data == libs.labeledRootHash(raw.tree)
    ensures raw.tree != map[] ==> raw.certified.tree == Some(raw.tree)
  {
    hide TreeAgrees, GatewaysAgree, ClientsAgree, OutgoingAgrees, IncomingAgrees, WaitingAgrees, CountsAgree,
      EmptiedAgree, TimersAgree;
  }

  /** At most one timer of each kind is pending, under the stored ids, and the check only
      while an acknowledgement timer is pending as well. */
  ghost predicate TimersDisciplined(t: Timers) {
    && |t.pending| <= 2
    && (forall id :: id in t.pending ==>
          if t.pending[id].kind == SendAcks then t.ack == Some(id) else t.keepAlive == Some(id))
    && (forall id :: id in t.pending && t.pending[id].kind == CheckKeepAlive ==>
        t.ack.Some? && t.ack.value in t.pending)
  }

  ghost predicate Sound(libs: Libraries, raw: Raw) {
    && ClientMapsCoherent(raw) && GatewaysCounted(raw)
    && (forall g :: g in raw.gateways ==> QueueShape(raw, g, raw.gateways[g]))
    && TreeIndexesQueues(libs, raw) && TimersDisciplined(raw.timers)
  }

  lemma TimersFollow(t: Timers, n: Net)
    requires TimersAgree(t, n.ackDue, n.checkDue, IntervalNs(n)) && ClockSound(n)
    ensures TimersDisciplined(t)
  {
    CancelCoversAll(t, n.ackDue, n.checkDue, IntervalNs(n));
  }

  lemma ShapeOf(libs: Libraries, raw: Raw, n: Net, g: Principal)
    requires Inv(n) && GatewaysAgree(libs, raw.gateways, n.gateways) && EmptiedAgree(raw.toRemove, n.gateways) &&
      raw.now == n.now
    requires g in raw.gateways
    ensures QueueShape(raw, g, raw.gateways[g])
  {
    assert QueueAgrees(libs, g, raw.gateways[g], n.gateways[g]) && QueueSound(n, n.gateways[g]);
    hide QueueAgrees, QueueSound, QueueShape;
    QueueIsShaped(libs, raw, n, g, raw.gateways[g], n.gateways[g]);
  }

  lemma SoundClock(n: Net)
    requires Inv(n)
    ensures ClockSound(n)
  {}

  /** Everything the concrete maps must satisfy follows from the refinement. */
  lemma AgreeingIsSound(libs: Libraries, raw: Raw, n: Net)
    requires Inv(n) && Agrees(libs, raw, n)
    ensures Sound(libs, raw)
  {
    hide Inv, ClockSound, ClientsAgree, OutgoingAgrees, IncomingAgrees, WaitingAgrees, GatewaysAgree, CountsAgree,
      EmptiedAgree, TreeAgrees, TimersAgree, ClientMapsCoherent, GatewaysCounted, QueueShape,
      TreeIndexesQueues, TimersDisciplined;
    SoundClock(n);
    forall g ensures g in raw.gateways <==> g in n.gateways {
      GatewayKnown(libs, raw, n, g);
    }
    ClientMaps(raw, n.conns);
    Accounting(raw, n);
    forall g | g in raw.gateways ensures QueueShape(raw, g, raw.gateways[g]) {
      ShapeOf(libs, raw, n, g);
    }
    TreeIndex(libs, raw, n);
    TimersFollow(raw.timers, n);
  }
}
