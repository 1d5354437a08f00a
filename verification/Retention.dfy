/** When messages leave a queue: never before they have outlived the acknowledgement
    interval, and at least five overdue ones for every message sent. */
module Retention {
  import opened Types
  import opened Network
  import opened Protocol
  import opened Streams

  /** Because the queue is sorted by time, deletion takes exactly the overdue messages
      among the first `n`, and they are a prefix. */
  lemma {:induction false} LeadingOverdueExact(times: seq<nat>, now: nat, limitMs: nat, n: nat)
    requires forall i, j :: 0 <= i < j < |times| ==> times[i] <= times[j]
    ensures forall i :: 0 <= i < |times| ==>
      (i < LeadingOverdue(times, now, limitMs, n) <==> i < n && Overdue(times[i], now, limitMs))
  {
    if n != 0 && times != [] && Overdue(times[0], now, limitMs) {
      var rest := times[1..];
      LeadingOverdueExact(rest, now, limitMs, n - 1);
      forall i | 0 < i < |times|
        ensures i < LeadingOverdue(times, now, limitMs, n) <==> i < n && Overdue(times[i], now, limitMs)
      {
        assert times[i] == rest[i - 1];
      }
    }
  }

  /** The same for a gateway: which messages a send deletes. */
  lemma TrimExact(n: Net, g: Gateway, i: nat)
    requires QueueSound(n, g) && g.base <= i < |g.sent|
    ensures i < Trimmed(g, n.now, n.interval)
       <==> i < g.base + 5 && n.now - g.sent[i].time > n.interval * 1_000_000
  {
    var items := g.sent[g.base..];
    LeadingOverdueExact(Times(items), n.now, n.interval, MESSAGES_TO_DELETE_COUNT);
    assert Times(items)[i - g.base] == g.sent[i].time;
  }

  // ---- how one gateway's queue moves while the clock stands still ----

  /** The same registration, with messages appended now and overdue ones deleted. */
  ghost predicate Continues(n: Net, g: Gateway, h: Gateway) {
    && h.epoch == g.epoch
    && |g.sent| <= |h.sent| && h.sent[..|g.sent|] == g.sent
    && g.base <= h.base <= |g.sent|
    && (forall i :: g.base <= i < h.base ==> Overdue(g.sent[i].time, n.now, n.interval))
    && (forall i :: |g.sent| <= i < |h.sent| ==> h.sent[i].time == n.now)
  }

  /** A registration made now. */
  ghost predicate Begun(n: Net, h: Gateway) {
    && h.epoch >= n.nextEpoch && h.base == 0
    && (forall i :: 0 <= i < |h.sent| ==> h.sent[i].time == n.now)
  }

  /** Every queued message is overdue. */
  ghost predicate AllOverdue(n: Net, g: Gateway) {
    forall i :: g.base <= i < |g.sent| ==> Overdue(g.sent[i].time, n.now, n.interval)
  }

  ghost predicate Persists(n: Net, m: Net, g: Principal)
    requires g in n.gateways
  {
    g in m.gateways && Continues(n, n.gateways[g], m.gateways[g])
  }

  /** All gateways at once. */
  ghost predicate Evolves(n: Net, m: Net) {
    && m.now == n.now && m.interval == n.interval && n.nextEpoch <= m.nextEpoch
    && (forall g :: g in n.gateways ==> Persists(n, m, g) || AllOverdue(n, n.gateways[g]))
    && (forall g :: g in m.gateways ==> Begun(n, m.gateways[g]) || (g in n.gateways && Persists(n, m, g)))
  }

  predicate Instant(a: Atom) {
    !a.Tick? && !a.Configure? && !a.Clear?
  }

  /** Appending a message now and trimming, to an old registration or one made now. */
  lemma EmitContinues(n: Net, g: Gateway, item: Item)
    requires QueueSound(n, g) && item.time == n.now
    ensures Continues(n, g, g.(sent := g.sent + [item], base := Trimmed(g, n.now, n.interval)))
  {
    forall i | g.base <= i < Trimmed(g, n.now, n.interval) ensures Overdue(g.sent[i].time, n.now, n.interval) {
      TrimExact(n, g, i);
    }
  }

  lemma EmitEvolves(n: Net, p: Principal, body: Body)
    requires Inv(n)
    ensures Evolves(n, Emit(n, p, body))
  {
    var m := Emit(n, p, body);
    forall g | g in n.gateways ensures Persists(n, m, g) {
      assert QueueSound(n, n.gateways[g]);
      if p in n.conns && g == n.conns[p].gateway {
        EmitContinues(n, n.gateways[g], NextItem(n, p, body));
      }
    }
  }

  lemma AddEvolves(n: Net, p: Principal, nonce: nat, gateway: Principal)
    requires Inv(n)
    ensures Evolves(n, AddConnection(n, p, nonce, gateway))
  {
    var m := AddConnection(n, p, nonce, gateway);
    forall g | g in n.gateways ensures Persists(n, m, g) {
      assert QueueSound(n, n.gateways[g]);
    }
  }

  lemma DropEvolves(n: Net, p: Principal)
    requires Inv(n)
    ensures Evolves(n, DropConnection(n, p))
  {
    var m := DropConnection(n, p);
    forall g | g in n.gateways ensures Persists(n, m, g) {
      assert QueueSound(n, n.gateways[g]);
    }
  }

  /** The gateway-expiry path: everything queued for an emptied gateway is at least as old
      as its emptying. */
  lemma ExpireEvolves(n: Net)
    requires Inv(n)
    ensures Evolves(n, Act(n, ExpireGateways))
  {
    var m := Act(n, ExpireGateways);
    forall g | g in n.gateways ensures Persists(n, m, g) || AllOverdue(n, n.gateways[g]) {
      assert QueueSound(n, n.gateways[g]);
    }
  }

  lemma SameGatewaysEvolve(n: Net, m: Net)
    requires Inv(n)
    requires m.now == n.now && m.interval == n.interval && n.nextEpoch == m.nextEpoch && m.gateways == n.gateways
    ensures Evolves(n, m)
  {}

  lemma ContinuesTransitive(n: Net, m: Net, a: Gateway, b: Gateway, c: Gateway)
    requires m.now == n.now && m.interval == n.interval && a.base <= |a.sent|
    requires Continues(n, a, b) && Continues(m, b, c)
    ensures Continues(n, a, c)
  {
    forall i | 0 <= i < |b.sent| ensures c.sent[i] == b.sent[i] {
      assert c.sent[i] == c.sent[..|b.sent|][i];
    }
    forall i | 0 <= i < |a.sent| ensures b.sent[i] == a.sent[i] && c.sent[i] == a.sent[i] {
      assert b.sent[i] == b.sent[..|a.sent|][i];
    }
    assert c.base <= |a.sent| || Overdue(b.sent[|a.sent|].time, m.now, m.interval);
  }

  lemma BegunContinues(n: Net, m: Net, b: Gateway, c: Gateway)
    requires m.now == n.now && m.interval == n.interval
    requires Begun(n, b) && Continues(m, b, c)
    ensures Begun(n, c)
  {
    forall i | 0 <= i < |c.sent| ensures c.sent[i].time == n.now {
      if i < |b.sent| {
        assert c.sent[i] == c.sent[..|b.sent|][i];
      }
    }
    assert c.base == 0 || Overdue(b.sent[0].time, m.now, m.interval);
  }

  lemma OverdueBefore(n: Net, m: Net, a: Gateway, b: Gateway)
    requires m.now == n.now && m.interval == n.interval
    requires Continues(n, a, b) && AllOverdue(m, b)
    ensures AllOverdue(n, a)
  {}

  lemma EvolvesTransitive(n: Net, m: Net, k: Net)
    requires Inv(n) && Evolves(n, m) && Evolves(m, k)
    ensures Evolves(n, k)
  {
    forall g | g in n.gateways ensures Persists(n, k, g) || AllOverdue(n, n.gateways[g]) {
      assert QueueSound(n, n.gateways[g]);
      if Persists(n, m, g) {
        if Persists(m, k, g) {
          ContinuesTransitive(n, m, n.gateways[g], m.gateways[g], k.gateways[g]);
        } else {
          OverdueBefore(n, m, n.gateways[g], m.gateways[g]);
        }
      }
    }
    forall g | g in k.gateways ensures Begun(n, k.gateways[g]) || (g in n.gateways && Persists(n, k, g)) {
      if g in m.gateways && Persists(m, k, g) {
        if Begun(n, m.gateways[g]) {
          BegunContinues(n, m, m.gateways[g], k.gateways[g]);
        } else {
          assert QueueSound(n, n.gateways[g]);
          ContinuesTransitive(n, m, n.gateways[g], m.gateways[g], k.gateways[g]);
        }
      }
    }
  }

  lemma ConnectEvolves(n: Net, p: Principal, nonce: nat, gateway: Principal)
    requires Inv(n) && p !in n.conns
    ensures Evolves(n, Act(n, Connect(p, nonce, gateway)))
  {
    var open := Service(OpenMessage(ClientKey(p, nonce)));
    var a := AddConnection(n, p, nonce, gateway);
    AddConnectionInv(n, p, nonce, gateway);
    AddEvolves(n, p, nonce, gateway);
    EmitEvolves(a, p, open);
    EvolvesTransitive(n, a, Emit(a, p, open));
    EvolvesRecord(n, Emit(a, p, open), OnOpen(p));
  }

  lemma EvolvesRecord(n: Net, m: Net, e: Event)
    requires Evolves(n, m)
    ensures Evolves(n, Record(m, e))
  {}

  lemma EvolvesCall(n: Net, m: Net, p: Principal)
    requires Evolves(n, m)
    ensures Evolves(n, CallClose(m, p))
  {}

  lemma KickEvolves(n: Net, p: Principal, reason: CloseReason, f: Net, m: Net)
    requires Inv(n) && p in n.conns && f == Emit(n, p, Service(CloseMessage(reason)))
    requires m == CallClose(DropConnection(f, p), p)
    ensures Evolves(n, m)
  {
    hide Inv, Evolves, Emit, DropConnection;
    EmitInv(n, p, Service(CloseMessage(reason)));
    EmitEvolves(n, p, Service(CloseMessage(reason)));
    DropEvolves(f, p);
    EvolvesTransitive(n, f, DropConnection(f, p));
    EvolvesCall(n, DropConnection(f, p), p);
  }

  lemma LeaveEvolves(n: Net, p: Principal, m: Net)
    requires Inv(n) && m == DropConnection(n, p)
    ensures Evolves(n, CallClose(m, p))
  {
    hide Evolves, DropConnection, Inv;
    DropEvolves(n, p);
    EvolvesCall(n, m, p);
  }

  lemma RemoveEvolves(n: Net, p: Principal, reason: Option<CloseReason>, m: Net)
    requires Inv(n) && p in n.conns && m == Act(n, Remove(p, reason))
    ensures Evolves(n, m)
  {
    hide Inv, Evolves, Emit, DropConnection;
    match reason
    case Some(r) =>
      RemoveShape(n, p, r);
      KickEvolves(n, p, r, Emit(n, p, Service(CloseMessage(r))), m);
    case None => LeaveEvolves(n, p, DropConnection(n, p));
  }

  lemma AcknowledgeEvolves(n: Net, p: Principal, k: Net, m: Net)
    requires Inv(n) && p in n.conns && k == Emit(n, p, Service(AckMessage(n.conns[p].received)))
    requires p in k.conns && m == k.(conns := k.conns[p := k.conns[p].(waiting := true)])
    ensures Evolves(n, m)
  {
    EmitInv(n, p, Service(AckMessage(n.conns[p].received)));
    EmitEvolves(n, p, Service(AckMessage(n.conns[p].received)));
    SameGatewaysEvolve(k, m);
    EvolvesTransitive(n, k, m);
  }

  lemma ActEvolves(n: Net, a: Atom, m: Net)
    requires Inv(n) && Instant(a) && m == Act(n, a)
    ensures Evolves(n, m)
  {
    hide Evolves, Inv, Emit;
    match a
    case Connect(p, nonce, gateway) =>
      if p !in n.conns { ConnectEvolves(n, p, nonce, gateway); } else { SameGatewaysEvolve(n, m); }
    case Push(p, bytes) => EmitEvolves(n, p, Data(bytes));
    case Acknowledge(p) =>
      if p in n.conns {
        AcknowledgeShape(n, p);
        AcknowledgeEvolves(n, p, Emit(n, p, Service(AckMessage(n.conns[p].received))), m);
      } else {
        SameGatewaysEvolve(n, m);
      }
    case Remove(p, reason) =>
      if p in n.conns { RemoveEvolves(n, p, reason, m); } else { SameGatewaysEvolve(n, m); }
    case ExpireGateways => ExpireEvolves(n);
    case _ => SameGatewaysEvolve(n, m);
  }

  lemma {:induction false} ExecEvolves(n: Net, atoms: seq<Atom>)
    requires Inv(n) && forall a :: a in atoms ==> Instant(a)
    ensures Evolves(n, Exec(n, atoms))
  {
    if atoms == [] {
      SameGatewaysEvolve(n, n);
    } else {
      var before := Exec(n, atoms[..|atoms| - 1]);
      ExecInv(n, atoms[..|atoms| - 1]);
      ExecEvolves(n, atoms[..|atoms| - 1]);
      ActEvolves(before, atoms[|atoms| - 1], Exec(n, atoms));
      EvolvesTransitive(n, before, Exec(n, atoms));
    }
  }

  lemma StepEvolves(n: Net, s: Step)
    requires Inv(n) && !s.Wait? && !s.Init? && !s.Wipe?
    ensures Evolves(n, Perform(n, s))
  {
    ScriptAtoms(n, s);
    ExecEvolves(n, Script(n, s));
  }

  // ---- no message is lost early ----

  predicate Queued(n: Net, g: Principal, epoch: nat, i: nat) {
    && g in n.gateways && n.gateways[g].epoch == epoch
    && n.gateways[g].base <= i < |n.gateways[g].sent|
  }

  /** Apart from a wipe, a message that leaves a queue, by deletion or because its gateway
      expired, has by then strictly outlived the acknowledgement interval. */
  lemma NoMessageLostEarly(n: Net, s: Step, g: Principal, epoch: nat, i: nat)
    requires Inv(n) && Enabled(n, s) && !s.Wipe?
    requires Queued(n, g, epoch, i)
    ensures var m := Perform(n, s);
      if Queued(m, g, epoch, i) then m.gateways[g].sent[i] == n.gateways[g].sent[i]
      else n.now - n.gateways[g].sent[i].time > n.interval * 1_000_000
  {
    if s.Wait? || s.Init? {
      ExecOne(n, Script(n, s)[0]);
    } else {
      StepEvolves(n, s);
      var m := Perform(n, s);
      if Persists(n, m, g) {
        assert m.gateways[g].sent[i] == m.gateways[g].sent[..|n.gateways[g].sent|][i];
      }
    }
  }

  /** At step j of the run the message was still queued and overdue, and it was deleted. */
  ghost predicate DeletedAt(start: Net, steps: seq<Step>, j: nat, g: Principal, epoch: nat, i: nat)
    requires j < |steps|
  {
    var n := Run(start, steps[..j]);
    && Queued(n, g, epoch, i) && !Queued(Run(start, steps[..j + 1]), g, epoch, i)
    && Overdue(n.gateways[g].sent[i].time, n.now, n.interval)
  }

  lemma DeletedEarlier(start: Net, steps: seq<Step>, j: nat, last: nat, g: Principal, epoch: nat, i: nat)
    requires j < last <= |steps| && DeletedAt(start, steps[..last], j, g, epoch, i)
    ensures DeletedAt(start, steps, j, g, epoch, i)
  {
    assert steps[..last][..j] == steps[..j] && steps[..last][..j + 1] == steps[..j + 1];
  }

  lemma DeletedNow(start: Net, steps: seq<Step>, n: Net, g: Principal, epoch: nat, i: nat)
    requires steps != [] && n == Run(start, steps[..|steps| - 1]) && Inv(n)
    requires Enabled(n, steps[|steps| - 1]) && !steps[|steps| - 1].Wipe?
    requires Queued(n, g, epoch, i) && !Queued(Run(start, steps), g, epoch, i)
    ensures DeletedAt(start, steps, |steps| - 1, g, epoch, i)
  {
    NoMessageLostEarly(n, steps[|steps| - 1], g, epoch, i);
    assert steps[..|steps| - 1 + 1] == steps;
  }

  /** The history of a registration: whatever has been deleted from it was, at some
      earlier step, deleted for its age. */
  lemma {:induction false} DeletedOnlyByAge(start: Net, steps: seq<Step>, g: Principal, epoch: nat, i: nat)
    requires start == Initial(start.now, start.app) && Possible(start, steps)
    requires var m := Run(start, steps); g in m.gateways && m.gateways[g].epoch == epoch && i < m.gateways[g].base
    ensures exists j :: 0 <= j < |steps| && DeletedAt(start, steps, j, g, epoch, i)
  {
    if steps != [] {
      var last := |steps| - 1;
      var n := Run(start, steps[..last]);
      RunInv(start, steps[..last]);
      RegistrationBefore(n, steps[last], g, i);
      if i < n.gateways[g].base {
        DeletedOnlyByAge(start, steps[..last], g, epoch, i);
        var j :| 0 <= j < last && DeletedAt(start, steps[..last], j, g, epoch, i);
        DeletedEarlier(start, steps, j, last, g, epoch, i);
      } else {
        DeletedNow(start, steps, n, g, epoch, i);
      }
    }
  }

  /** A registration with deleted messages existed before the step, with those messages. */
  lemma RegistrationBefore(n: Net, s: Step, g: Principal, i: nat)
    requires Inv(n) && Enabled(n, s)
    requires g in Perform(n, s).gateways && i < Perform(n, s).gateways[g].base
    ensures !s.Wipe?
    ensures g in n.gateways && n.gateways[g].epoch == Perform(n, s).gateways[g].epoch && i < |n.gateways[g].sent|
  {
    if s.Wait? || s.Init? {
      ExecOne(n, Script(n, s)[0]);
      assert QueueSound(n, n.gateways[g]);
    } else if s.Wipe? {
      WipeState(n, s.order);
    } else {
      StepEvolves(n, s);
    }
  }

  // ---- drain rate ----

  /** After the messages sent since `g`, at least five deleted for each, up to `b`. */
  ghost predicate Drained(g: Gateway, h: Gateway, b: nat) {
    && h.epoch == g.epoch && |g.sent| <= |h.sent|
    && h.sent[..|g.sent|] == g.sent
    && g.base <= h.base
    && (h.base >= b || h.base >= g.base + MESSAGES_TO_DELETE_COUNT * (|h.sent| - |g.sent|))
  }

  ghost predicate OverdueUpTo(n: Net, g: Gateway, b: nat) {
    b <= |g.sent| && forall i :: g.base <= i < b ==> Overdue(g.sent[i].time, n.now, n.interval)
  }

  lemma EmitDrains(n: Net, g: Gateway, item: Item, b: nat)
    requires QueueSound(n, g) && OverdueUpTo(n, g, b)
    ensures Drained(g, g.(sent := g.sent + [item], base := Trimmed(g, n.now, n.interval)), b)
  {
    var t := Trimmed(g, n.now, n.interval);
    if t < b && t < g.base + MESSAGES_TO_DELETE_COUNT {
      TrimExact(n, g, t);
    }
  }

  lemma DrainedTransitive(n: Net, f: Gateway, g: Gateway, h: Gateway, b: nat)
    requires Drained(f, g, b) && Drained(g, h, b)
    ensures Drained(f, h, b)
  {}

  lemma EmitDrainsGateway(n: Net, p: Principal, body: Body, g: Principal, b: nat)
    requires Inv(n) && g in n.gateways && OverdueUpTo(n, n.gateways[g], b)
    ensures var m := Emit(n, p, body); g in m.gateways && Drained(n.gateways[g], m.gateways[g], b)
  {
    if p in n.conns && n.conns[p].gateway == g {
      EmitDrains(n, n.gateways[g], NextItem(n, p, body), b);
    }
  }

  lemma ConnectDrains(n: Net, p: Principal, nonce: nat, gateway: Principal, g: Principal, b: nat)
    requires Inv(n) && p !in n.conns && g in n.gateways && OverdueUpTo(n, n.gateways[g], b)
    ensures var a := AddConnection(n, p, nonce, gateway);
      var m := Emit(a, p, Service(OpenMessage(ClientKey(p, nonce))));
      g in m.gateways && Drained(n.gateways[g], m.gateways[g], b)
  {
    AddConnectionInv(n, p, nonce, gateway);
    EmitDrainsGateway(AddConnection(n, p, nonce, gateway), p, Service(OpenMessage(ClientKey(p, nonce))), g, b);
  }

  lemma SameQueueDrains(g: Gateway, h: Gateway, b: nat)
    requires h == g.(emptiedAt := h.emptiedAt)
    ensures Drained(g, h, b)
  {}

  lemma DrainedStays(f: Gateway, g: Gateway, h: Gateway, b: nat)
    requires Drained(f, g, b) && h == g.(emptiedAt := h.emptiedAt)
    ensures Drained(f, h, b)
  {}

  lemma RemoveDrains(n: Net, p: Principal, reason: Option<CloseReason>, m: Net, g: Principal, b: nat)
    requires Inv(n) && m == Act(n, Remove(p, reason)) && g in n.gateways && g in m.gateways
    requires OverdueUpTo(n, n.gateways[g], b)
    ensures Drained(n.gateways[g], m.gateways[g], b)
  {
    hide Emit, Drained, Inv, OverdueUpTo;
    var f := Farewell(n, p, reason);
    if p in n.conns && reason.Some? {
      EmitDrainsGateway(n, p, Service(CloseMessage(reason.value)), g, b);
      DrainedStays(n.gateways[g], f.gateways[g], m.gateways[g], b);
    } else {
      SameQueueDrains(n.gateways[g], m.gateways[g], b);
    }
  }

  lemma ActDrains(n: Net, a: Atom, m: Net, g: Principal, b: nat)
    requires Inv(n) && m == Act(n, a) && g in n.gateways && g in m.gateways
    requires OverdueUpTo(n, n.gateways[g], b)
    ensures Drained(n.gateways[g], m.gateways[g], b)
  {
    hide Emit, AddConnection, DropConnection, Drained, Inv, OverdueUpTo;
    if a.Remove? {
      RemoveDrains(n, a.principal, a.reason, m, g, b);
    } else if a.Connect? && a.principal !in n.conns {
      ConnectDrains(n, a.principal, a.nonce, a.gateway, g, b);
    } else if a.Push? {
      EmitDrainsGateway(n, a.principal, Data(a.bytes), g, b);
    } else if a.Acknowledge? && a.principal in n.conns {
      EmitDrainsGateway(n, a.principal, Service(AckMessage(n.conns[a.principal].received)), g, b);
    } else {
      SameQueueDrains(n.gateways[g], m.gateways[g], b);
    }
  }

  /** A registration seen after an action with an old epoch was there before it. */
  lemma ActKeepsRegistration(n: Net, a: Atom, m: Net, g: Principal)
    requires Inv(n) && m == Act(n, a)
    ensures n.nextEpoch <= m.nextEpoch && n.now <= m.now
    ensures !a.Configure? ==> m.interval == n.interval
    ensures g in m.gateways && m.gateways[g].epoch < n.nextEpoch ==>
      g in n.gateways && n.gateways[g].epoch == m.gateways[g].epoch
  {
    if Instant(a) {
      ActEvolves(n, a, m);
    }
  }

  lemma {:induction false} ExecDrains(n: Net, atoms: seq<Atom>, g: Principal, b: nat)
    requires Inv(n) && g in n.gateways && OverdueUpTo(n, n.gateways[g], b)
    requires forall a :: a in atoms ==> !a.Configure?
    ensures var m := Exec(n, atoms);
      && n.nextEpoch <= m.nextEpoch && n.now <= m.now && m.interval == n.interval
      && (g in m.gateways && m.gateways[g].epoch < n.nextEpoch ==> Drained(n.gateways[g], m.gateways[g], b))
  {
    if atoms != [] {
      var k, a, m := Exec(n, atoms[..|atoms| - 1]), atoms[|atoms| - 1], Exec(n, atoms);
      ExecInv(n, atoms[..|atoms| - 1]);
      ExecDrains(n, atoms[..|atoms| - 1], g, b);
      ActKeepsRegistration(k, a, m, g);
      if g in m.gateways && m.gateways[g].epoch < n.nextEpoch {
        StillOverdue(n, k, n.gateways[g], k.gateways[g], b);
        ActDrains(k, a, m, g, b);
        DrainedTransitive(n, n.gateways[g], k.gateways[g], m.gateways[g], b);
      }
    }
  }

  lemma StillOverdue(n: Net, k: Net, g: Gateway, h: Gateway, b: nat)
    requires OverdueUpTo(n, g, b) && Drained(g, h, b)
    requires n.now <= k.now && k.interval == n.interval
    ensures OverdueUpTo(k, h, b)
  {}

  lemma ScriptsDoNotConfigure(n: Net, s: Step)
    requires !s.Init?
    ensures forall a :: a in Script(n, s) ==> !a.Configure?
  {
    if !s.Wait? {
      ScriptAtoms(n, s);
    }
  }

  /** However sends, polls' gaps, openings, closings and timers interleave: while a
      registration lasts and the interval is not changed, k messages sent through the
      gateway delete at least min(s, 5k) of s messages that were overdue at the start. */
  lemma {:induction false} DrainRate(start: Net, steps: seq<Step>, g: Principal, b: nat)
    requires Inv(start) && g in start.gateways && OverdueUpTo(start, start.gateways[g], b)
    requires forall s :: s in steps ==> !s.Init?
    ensures var m := Run(start, steps);
      && start.nextEpoch <= m.nextEpoch && start.now <= m.now && m.interval == start.interval
      && (g in m.gateways && m.gateways[g].epoch == start.gateways[g].epoch ==>
            Drained(start.gateways[g], m.gateways[g], b))
    ensures var m := Run(start, steps);
      g in m.gateways && m.gateways[g].epoch == start.gateways[g].epoch ==>
        || m.gateways[g].base >= b
        || m.gateways[g].base - start.gateways[g].base >= 5 * (|m.gateways[g].sent| - |start.gateways[g].sent|)
  {
    if steps != [] {
      var k, s, m := Run(start, steps[..|steps| - 1]), steps[|steps| - 1], Run(start, steps);
      RunInv(start, steps[..|steps| - 1]);
      DrainRate(start, steps[..|steps| - 1], g, b);
      ScriptsDoNotConfigure(k, s);
      ExecRegistration(k, Script(k, s), g);
      if g in m.gateways && m.gateways[g].epoch == start.gateways[g].epoch {
        StillOverdue(start, k, start.gateways[g], k.gateways[g], b);
        ExecDrains(k, Script(k, s), g, b);
        DrainedTransitive(start, start.gateways[g], k.gateways[g], m.gateways[g], b);
      }
    }
  }

  lemma {:induction false} ExecRegistration(n: Net, atoms: seq<Atom>, g: Principal)
    requires Inv(n)
    ensures var m := Exec(n, atoms);
      && n.nextEpoch <= m.nextEpoch && n.now <= m.now
      && ((forall a :: a in atoms ==> !a.Configure?) ==> m.interval == n.interval)
      && (g in m.gateways && m.gateways[g].epoch < n.nextEpoch ==>
            g in n.gateways && n.gateways[g].epoch == m.gateways[g].epoch)
  {
    if atoms != [] {
      var k, a := Exec(n, atoms[..|atoms| - 1]), atoms[|atoms| - 1];
      ExecInv(n, atoms[..|atoms| - 1]);
      ExecRegistration(n, atoms[..|atoms| - 1], g);
      ActKeepsRegistration(k, a, Exec(n, atoms), g);
    }
  }
}
