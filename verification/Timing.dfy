/** Real-time bounds, with timers that fire at their deadlines: how long a client can stay
    silent, and how long a gateway without clients is kept. They hold across
    re-initialisations, measured from the latest one. */
module Timing {
  import opened Types
  import opened Network
  import opened Protocol
  import opened Streams

  function Max(a: nat, b: nat): nat {
    if a < b then b else a
  }

  /** The time of the latest acknowledgement round, or of initialisation if none yet. */
  function LastAck(n: Net): int
    requires n.ackDue.Some?
  {
    n.ackDue.value - IntervalNs(n)
  }

  /** When the next keep-alive check runs. */
  function NextCheck(n: Net): nat
    requires n.ackDue.Some?
  {
    if n.checkDue.Some? then n.checkDue.value else n.ackDue.value + CLIENT_KEEP_ALIVE_TIMEOUT_NS
  }

  predicate ClientTimely(n: Net, p: Principal)
    requires n.ackDue.Some? && p in n.conns
  {
    && (n.conns[p].waiting || Max(n.conns[p].lastSeen, n.initAt) >= LastAck(n))
    && Max(n.conns[p].lastSeen, n.initAt) >= if n.checkDue.Some? then LastAck(n) - IntervalNs(n) else LastAck(n)
  }

  predicate GatewayTimely(n: Net, g: Principal)
    requires n.ackDue.Some? && g in n.gateways
  {
    n.gateways[g].emptiedAt.Some? ==>
      Max(n.gateways[g].emptiedAt.value, n.initAt) >= NextCheck(n) - 2 * IntervalNs(n)
  }

  ghost predicate Timely(n: Net) {
    n.ackDue.Some? ==>
      && LastAck(n) <= n.now
      && (forall p :: p in n.conns ==> ClientTimely(n, p))
      && (forall g :: g in n.gateways ==> GatewayTimely(n, g))
  }

  // ---- actions that take no time ----

  predicate Timeless(a: Atom) {
    !a.Tick? && !a.Configure? && !a.FinishAcks? && !a.FinishCheck?
  }

  /** The clock, the timers and the interval stand still; a client that stays is no older
      and waits on; one that joins joined now; a gateway empties only now. */
  ghost predicate SameMoment(n: Net, m: Net) {
    && m.now == n.now && m.interval == n.interval && m.initAt == n.initAt
    && m.ackDue == n.ackDue && m.checkDue == n.checkDue
    && (forall p :: p in m.conns ==>
          m.conns[p].lastSeen == n.now ||
          (p in n.conns && m.conns[p].lastSeen == n.conns[p].lastSeen && (n.conns[p].waiting ==> m.conns[p].waiting)))
    && (forall g :: g in m.gateways && m.gateways[g].emptiedAt.Some? ==>
          m.gateways[g].emptiedAt.value == n.now ||
          (g in n.gateways && n.gateways[g].emptiedAt == m.gateways[g].emptiedAt))
  }

  lemma SameMomentTransitive(n: Net, m: Net, k: Net)
    requires SameMoment(n, m) && SameMoment(m, k)
    ensures SameMoment(n, k)
  {}

  lemma EmitSameMoment(n: Net, p: Principal, body: Body)
    ensures SameMoment(n, Emit(n, p, body))
  {}

  lemma ConnectSameMoment(n: Net, p: Principal, nonce: nat, gateway: Principal)
    requires p !in n.conns
    ensures SameMoment(n,
        Record(Emit(AddConnection(n, p, nonce, gateway), p, Service(OpenMessage(ClientKey(p, nonce)))), OnOpen(p)))
  {}

  lemma KickSameMoment(n: Net, p: Principal, body: Body)
    ensures SameMoment(n, CallClose(DropConnection(Emit(n, p, body), p), p))
  {}

  lemma ActSameMoment(n: Net, a: Atom, m: Net)
    requires Timeless(a) && m == Act(n, a)
    ensures SameMoment(n, m)
  {
    hide Emit, AddConnection;
    match a
    case Connect(p, nonce, gateway) =>
      if p !in n.conns {
        ConnectShape(n, p, nonce, gateway);
        ConnectSameMoment(n, p, nonce, gateway);
      }
    case Push(p, bytes) => EmitSameMoment(n, p, Data(bytes));
    case Acknowledge(p) =>
      if p in n.conns {
        AcknowledgeShape(n, p);
        EmitSameMoment(n, p, Service(AckMessage(n.conns[p].received)));
      }
    case Remove(p, reason) =>
      if p in n.conns && reason.Some? {
        RemoveShape(n, p, reason.value);
        KickSameMoment(n, p, Service(CloseMessage(reason.value)));
      }
    case _ =>
  }

  lemma {:induction false} ExecSameMoment(n: Net, atoms: seq<Atom>)
    requires forall a :: a in atoms ==> Timeless(a)
    ensures SameMoment(n, Exec(n, atoms))
  {
    if atoms != [] {
      var k := Exec(n, atoms[..|atoms| - 1]);
      ExecSameMoment(n, atoms[..|atoms| - 1]);
      ActSameMoment(k, atoms[|atoms| - 1], Exec(n, atoms));
      SameMomentTransitive(n, k, Exec(n, atoms));
    }
  }

  lemma SameMomentTimely(n: Net, m: Net)
    requires Inv(n) && Timely(n) && SameMoment(n, m)
    ensures Timely(m)
  {}

  lemma ClockTimely(n: Net, a: Atom)
    requires Inv(n) && Timely(n) && (a.Tick? || a.Configure?)
    ensures Timely(Act(n, a))
  {
    hide Inv;
    var m := Act(n, a);
    if m.ackDue.Some? {
      forall p | p in m.conns ensures ClientTimely(m, p) {
        assert n.ackDue.Some? ==> ClientTimely(n, p);
      }
      forall g | g in m.gateways ensures GatewayTimely(m, g) {
        assert n.ackDue.Some? ==> GatewayTimely(n, g);
      }
    }
  }

  lemma {:induction false} AcksWait(n: Net, order: seq<Principal>)
    ensures var m := Exec(n, Acks(order));
      m.conns.Keys == n.conns.Keys && forall p :: p in order && p in n.conns ==> m.conns[p].waiting
  {
    if order != [] {
      var before, p := order[..|order| - 1], order[|order| - 1];
      AcksWait(n, before);
      ExecLast(n, Acks(before), Acknowledge(p));
      assert forall q :: q in order ==> q in before || q == p;
    }
  }

  /** No keep-alive check is pending when an acknowledgement round begins, because the
      interval exceeds the keep-alive timeout. */
  lemma NoCheckPending(n: Net)
    requires Inv(n) && n.ackDue == Some(n.now)
    ensures n.checkDue == None
  {}

  lemma AckTimely(n: Net, order: seq<Principal>)
    requires Inv(n) && Timely(n) && Enabled(n, AckTimer(order))
    ensures Timely(Perform(n, AckTimer(order)))
  {
    NoCheckPending(n);
    AcksWait(n, order);
    RoundAtoms(order, None, n.app, n.closes);
    ExecSameMoment(n, Acks(order));
    ExecLast(n, Acks(order), FinishAcks);
    var k := Exec(n, Acks(order));
    SameMomentTimely(n, k);
    FinishAcksTimely(k);
  }

  lemma FinishAcksTimely(k: Net)
    requires ClockSound(k) && Timely(k) && k.ackDue == Some(k.now) && k.checkDue == None
    requires forall p :: p in k.conns ==> k.conns[p].waiting
    ensures Timely(Act(k, FinishAcks))
  {}

  /** What the keep-alive check leaves behind, before its timer is cleared. */
  lemma CheckSurvivors(n: Net, order: seq<Principal>, k: Net)
    requires Enabled(n, CheckTimer(order))
    requires k == Exec(Act(n, ExpireGateways), Removals(order, Some(KeepAliveTimeout), n.app, n.closes))
    ensures SameMoment(n, k)
    ensures forall p :: p in k.conns <==> p in n.conns && !TimedOut(n, p)
    ensures forall g :: g in k.gateways && k.gateways[g].emptiedAt.Some? ==>
      !Overdue(k.gateways[g].emptiedAt.value, n.now, n.interval)
  {
    hide SameMoment;
    hide Exec, Removals;
    var e := Act(n, ExpireGateways);
    ActSameMoment(n, ExpireGateways, e);
    RoundAtoms(order, Some(KeepAliveTimeout), n.app, n.closes);
    ExecSameMoment(e, Removals(order, Some(KeepAliveTimeout), n.app, n.closes));
    SameMomentTransitive(n, e, k);
    RemovedAll(e, order, Some(KeepAliveTimeout), n.app, n.closes);
    assert forall p :: p in Stale(n) <==> p in n.conns && TimedOut(n, p);
    forall g | g in k.gateways && k.gateways[g].emptiedAt.Some?
      ensures !Overdue(k.gateways[g].emptiedAt.value, n.now, n.interval)
    {
      assert k.gateways[g].emptiedAt.value == n.now || !ExpiredGateway(n, g);
    }
  }

  lemma FinishCheckTimely(n: Net, k: Net)
    requires Inv(n) && Timely(n) && n.checkDue == Some(n.now) && SameMoment(n, k)
    requires forall p :: p in k.conns <==> p in n.conns && !TimedOut(n, p)
    requires forall g :: g in k.gateways && k.gateways[g].emptiedAt.Some? ==>
      !Overdue(k.gateways[g].emptiedAt.value, n.now, n.interval)
    ensures Timely(Act(k, FinishCheck))
  {
    var m := Act(k, FinishCheck);
    forall p | p in m.conns ensures ClientTimely(m, p) {
      assert ClientTimely(n, p) && !TimedOut(n, p);
    }
    forall g | g in m.gateways ensures GatewayTimely(m, g) {
      assert m.gateways[g] == k.gateways[g];
    }
  }

  lemma CheckTimely(n: Net, order: seq<Principal>)
    requires Inv(n) && Timely(n) && Enabled(n, CheckTimer(order))
    ensures Timely(Perform(n, CheckTimer(order)))
  {
    hide Act, Exec, Perform, Inv, Timely, TimedOut;
    var k := Exec(Act(n, ExpireGateways), Removals(order, Some(KeepAliveTimeout), n.app, n.closes));
    CheckPhases(n, order);
    CheckSurvivors(n, order, k);
    FinishCheckTimely(n, k);
  }

  lemma StepTimely(n: Net, s: Step)
    requires Inv(n) && Timely(n) && Enabled(n, s)
    ensures Timely(Perform(n, s))
  {
    if s.Wait? || s.Init? {
      ExecOne(n, Script(n, s)[0]);
      ClockTimely(n, Script(n, s)[0]);
    } else if s.AckTimer? {
      AckTimely(n, s.order);
    } else if s.CheckTimer? {
      CheckTimely(n, s.order);
    } else {
      ScriptAtoms(n, s);
      ExecSameMoment(n, Script(n, s));
      SameMomentTimely(n, Perform(n, s));
    }
  }

  lemma {:induction false} RunTimely(now: nat, app: Application, steps: seq<Step>)
    requires Possible(Initial(now, app), steps)
    ensures Inv(Run(Initial(now, app), steps)) && Timely(Run(Initial(now, app), steps))
  {
    RunInv(Initial(now, app), steps);
    if steps != [] {
      RunTimely(now, app, steps[..|steps| - 1]);
      StepTimely(Run(Initial(now, app), steps[..|steps| - 1]), steps[|steps| - 1]);
    }
  }

  // ---- the bounds ----

  /** Once initialised, no client is ever registered that has been silent (no opening, no
      keep-alive, no re-initialisation of the canister) for longer than the
      acknowledgement interval plus the keep-alive timeout. */
  lemma SilenceBound(now: nat, app: Application, steps: seq<Step>, p: Principal)
    requires Possible(Initial(now, app), steps)
    requires var n := Run(Initial(now, app), steps); n.ackDue.Some? && p in n.conns
    ensures var n := Run(Initial(now, app), steps);
      n.now - Max(n.conns[p].lastSeen, n.initAt) <= n.interval * 1_000_000 + 60_000_000_000
  {
    RunTimely(now, app, steps);
    assert ClientTimely(Run(Initial(now, app), steps), p);
  }

  lemma CheckRemoves(n: Net, order: seq<Principal>, p: Principal)
    requires Enabled(n, CheckTimer(order))
    ensures p in Perform(n, CheckTimer(order)).conns <==> p in n.conns && !TimedOut(n, p)
  {
    hide Exec, Emit, DropConnection, Perform;
    var k := Exec(Act(n, ExpireGateways), Removals(order, Some(KeepAliveTimeout), n.app, n.closes));
    CheckPhases(n, order);
    CheckSurvivors(n, order, k);
    assert Act(k, FinishCheck).conns == k.conns;
  }

  lemma TimedOutExact(n: Net, p: Principal)
    requires Inv(n) && Timely(n) && n.checkDue == Some(n.now) && p in n.conns
    ensures LastAck(n) == n.now - CLIENT_KEEP_ALIVE_TIMEOUT_NS
    ensures TimedOut(n, p) <==> n.conns[p].lastSeen < LastAck(n)
  {}

  /** A keep-alive check removes a client exactly when its last opening or keep-alive
      strictly precedes the acknowledgement round 60 seconds earlier. */
  lemma KeepAliveExact(now: nat, app: Application, steps: seq<Step>, order: seq<Principal>, p: Principal, n: Net)
    requires Possible(Initial(now, app), steps) && n == Run(Initial(now, app), steps)
    requires Enabled(n, CheckTimer(order)) && p in n.conns
    ensures n.ackDue.Some? && LastAck(n) == n.now - CLIENT_KEEP_ALIVE_TIMEOUT_NS
    ensures p !in Perform(n, CheckTimer(order)).conns <==> n.conns[p].lastSeen < n.now - 60_000_000_000
  {
    RunTimely(now, app, steps);
    TimedOutExact(n, p);
    CheckRemoves(n, order, p);
  }

  // ---- what the two times mean ----

  /** A keep-alive that `p` sends in sequence. */
  predicate KeepsAlive(n: Net, s: Step, p: Principal) {
    && s.WsMessage? && s.caller == p && p in n.conns && KeyOf(n, p) == s.key
    && s.sequenceNum == n.conns[p].received + 1
    && s.isService && s.decoded.Some? && s.decoded.value.KeepAliveMessage?
  }

  /** A connection of `p` afterwards is an old one, as it was, or one that opened now. */
  ghost predicate SeenAsBefore(n: Net, m: Net, p: Principal) {
    && m.now == n.now && n.nextConn <= m.nextConn
    && (p in m.conns ==>
          || (p in n.conns && m.conns[p].id == n.conns[p].id && m.conns[p].lastSeen == n.conns[p].lastSeen)
          || (m.conns[p].id >= n.nextConn && m.conns[p].lastSeen == n.now))
  }

  lemma ActSeen(n: Net, a: Atom, p: Principal)
    requires Timeless(a) && a != Hear(p)
    ensures SeenAsBefore(n, Act(n, a), p)
  {
    hide Trimmed;
  }

  lemma {:induction false} ExecSeen(n: Net, atoms: seq<Atom>, p: Principal)
    requires forall a :: a in atoms ==> Timeless(a) && a != Hear(p)
    ensures SeenAsBefore(n, Exec(n, atoms), p)
  {
    hide Act;
    if atoms != [] {
      ExecSeen(n, atoms[..|atoms| - 1], p);
      ActSeen(Exec(n, atoms[..|atoms| - 1]), atoms[|atoms| - 1], p);
    }
  }

  lemma FinishLeaves(k: Net)
    ensures Act(k, FinishAcks).conns == k.conns && Act(k, FinishAcks).nextConn == k.nextConn &&
      Act(k, FinishAcks).now == k.now
    ensures Act(k, FinishCheck).conns == k.conns && Act(k, FinishCheck).nextConn == k.nextConn &&
      Act(k, FinishCheck).now == k.now
    ensures Act(k, FinishAcks).checkDue == k.checkDue ||
      Act(k, FinishAcks).checkDue == Some(k.now + CLIENT_KEEP_ALIVE_TIMEOUT_NS)
    ensures Act(k, FinishCheck).checkDue == k.checkDue || Act(k, FinishCheck).checkDue == None
  {}

  lemma RoundSeen(n: Net, s: Step, p: Principal)
    requires s.AckTimer? || s.CheckTimer? || s.Wipe?
    ensures SeenAsBefore(n, Perform(n, s), p)
  {
    hide Act, Exec, Acks, Removals;
    RoundAtoms(s.order, Some(KeepAliveTimeout), n.app, n.closes);
    RoundAtoms(s.order, None, n.app, n.closes);
    match s
    case AckTimer(order) =>
      ExecSeen(n, Acks(order), p);
      ExecLast(n, Acks(order), FinishAcks);
      FinishLeaves(Exec(n, Acks(order)));
    case CheckTimer(order) =>
      var atoms := [ExpireGateways] + Removals(order, Some(KeepAliveTimeout), n.app, n.closes);
      ExecSeen(n, atoms, p);
      ExecLast(n, atoms, FinishCheck);
      FinishLeaves(Exec(n, atoms));
    case Wipe(order) =>
      ExecSeen(n, Removals(order, None, n.app, n.closes) + [Clear], p);
  }

  lemma HeardShape(n: Net, p: Principal)
    requires p in n.conns
    ensures var m := Act(Act(n, Accept(p)), Hear(p));
      p in m.conns && m.conns[p].id == n.conns[p].id && m.conns[p].lastSeen == n.now
  {}

  lemma MessageSeen(n: Net, s: Step, p: Principal)
    requires s.WsMessage?
    ensures var m := Perform(n, s);
      if KeepsAlive(n, s, p) then p in m.conns && m.conns[p].id == n.conns[p].id && m.conns[p].lastSeen == n.now
      else SeenAsBefore(n, m, p)
  {
    hide Act, Exec;
    MessagePhases(n, s);
    if KeepsAlive(n, s, p) {
      HeardShape(n, p);
    } else {
      LeavingAtoms(s.caller, Some(WrongSequenceNumber), n.app, n.closes);
      ExecSeen(n, Script(n, s), p);
    }
  }

  lemma ClockSeen(n: Net, s: Step, p: Principal)
    requires s.Wait? || s.Init?
    ensures Perform(n, s).conns == n.conns
  {
    PerformShort(n, s);
  }

  /** `lastSeen` is the time of the connection's opening or of its last keep-alive: each
      step that keeps a connection leaves it alone unless it is such a keep-alive. */
  lemma LastSeenExact(n: Net, s: Step, p: Principal)
    requires IdsSound(n) && p in Perform(n, s).conns
    ensures var m := Perform(n, s);
      if p in n.conns && m.conns[p].id == n.conns[p].id
      then m.conns[p].lastSeen == if KeepsAlive(n, s, p) then n.now else n.conns[p].lastSeen
      else m.conns[p].lastSeen == n.now
  {
    hide Act, Exec, Perform;
    if s.AckTimer? || s.CheckTimer? || s.Wipe? {
      RoundSeen(n, s, p);
    } else if s.WsMessage? {
      MessageSeen(n, s, p);
    } else if s.Wait? || s.Init? {
      ClockSeen(n, s, p);
    } else {
      EntrySeen(n, s, p);
    }
  }

  lemma EntrySeen(n: Net, s: Step, p: Principal)
    requires s.WsOpen? || s.WsClose? || s.Send? || s.Close?
    ensures SeenAsBefore(n, Perform(n, s), p)
  {
    hide Act, Exec;
    ScriptAtoms(n, s);
    ExecSeen(n, Script(n, s), p);
  }

  /** The round at step j started 60 seconds before `due`. */
  ghost predicate RoundBefore(now: nat, app: Application, steps: seq<Step>, j: nat, due: nat)
    requires j < |steps|
  {
    steps[j].AckTimer? && Run(Initial(now, app), steps[..j]).now + CLIENT_KEEP_ALIVE_TIMEOUT_NS == due
  }

  /** The check that is due was scheduled by an acknowledgement round 60 seconds before. */
  lemma {:induction false} CheckFollowsRound(now: nat, app: Application, steps: seq<Step>)
    requires Possible(Initial(now, app), steps) && Run(Initial(now, app), steps).checkDue.Some?
    ensures var due := Run(Initial(now, app), steps).checkDue.value;
      exists j :: 0 <= j < |steps| && RoundBefore(now, app, steps, j, due)
  {
    hide Perform;
    if steps != [] {
      var before, last := steps[..|steps| - 1], steps[|steps| - 1];
      var n, m := Run(Initial(now, app), before), Run(Initial(now, app), steps);
      CheckScheduled(n, last);
      if m.checkDue == n.checkDue {
        CheckFollowsRound(now, app, before);
        var j :| 0 <= j < |before| && RoundBefore(now, app, before, j, n.checkDue.value);
        assert before[..j] == steps[..j];
        assert RoundBefore(now, app, steps, j, n.checkDue.value);
      } else {
        assert RoundBefore(now, app, steps, |before|, m.checkDue.value);
      }
    }
  }

  lemma CheckScheduled(n: Net, s: Step)
    ensures var m := Perform(n, s);
      || m.checkDue.None? || m.checkDue == n.checkDue
      || (s.AckTimer? && m.checkDue == Some(n.now + CLIENT_KEEP_ALIVE_TIMEOUT_NS))
  {
    hide Act, Exec, Acks, Removals, Leaving;
    match s
    case AckTimer(order) =>
      RoundAtoms(order, None, n.app, n.closes);
      ExecSameMoment(n, Acks(order));
      ExecLast(n, Acks(order), FinishAcks);
      FinishLeaves(Exec(n, Acks(order)));
    case CheckTimer(order) =>
      var atoms := [ExpireGateways] + Removals(order, Some(KeepAliveTimeout), n.app, n.closes);
      RoundAtoms(order, Some(KeepAliveTimeout), n.app, n.closes);
      ExecSameMoment(n, atoms);
      ExecLast(n, atoms, FinishCheck);
      FinishLeaves(Exec(n, atoms));
    case Wipe(order) =>
      RoundAtoms(order, None, n.app, n.closes);
      ExecSameMoment(n, Removals(order, None, n.app, n.closes) + [Clear]);
    case Wait(_) => ClockCheck(n, s);
    case Init(_, _) => ClockCheck(n, s);
    case _ =>
      ScriptAtoms(n, s);
      ExecSameMoment(n, Script(n, s));
  }

  lemma ClockCheck(n: Net, s: Step)
    requires s.Wait? || s.Init?
    ensures Perform(n, s).checkDue == n.checkDue || Perform(n, s).checkDue == None
  {
    PerformShort(n, s);
  }

  /** A gateway without clients is kept no longer than twice the interval after emptying
      (or after the latest initialisation). */
  lemma RetentionUpperBound(now: nat, app: Application, steps: seq<Step>, g: Principal)
    requires Possible(Initial(now, app), steps)
    requires var n := Run(Initial(now, app), steps);
      n.ackDue.Some? && g in n.gateways && n.gateways[g].emptiedAt.Some?
    ensures var n := Run(Initial(now, app), steps);
      n.now <= Max(n.gateways[g].emptiedAt.value, n.initAt) + 2 * n.interval * 1_000_000
  {
    RunTimely(now, app, steps);
    assert GatewayTimely(Run(Initial(now, app), steps), g);
  }

  lemma ActKeepsGateways(n: Net, a: Atom)
    requires !a.ExpireGateways? && !a.Clear?
    ensures n.gateways.Keys <= Act(n, a).gateways.Keys
  {}

  lemma {:induction false} ExecKeepsGateways(n: Net, atoms: seq<Atom>)
    requires forall a :: a in atoms ==> !a.ExpireGateways? && !a.Clear?
    ensures n.gateways.Keys <= Exec(n, atoms).gateways.Keys
  {
    hide Act;
    if atoms != [] {
      ExecKeepsGateways(n, atoms[..|atoms| - 1]);
      ActKeepsGateways(Exec(n, atoms[..|atoms| - 1]), atoms[|atoms| - 1]);
    }
  }

  lemma StepKeepsGateways(n: Net, s: Step)
    requires !s.CheckTimer? && !s.Wipe?
    ensures n.gateways.Keys <= Perform(n, s).gateways.Keys
  {
    hide Exec;
    if !s.Wait? && !s.Init? {
      ScriptAtoms(n, s);
    }
    ExecKeepsGateways(n, Script(n, s));
  }

  lemma CheckKeepsUnexpired(n: Net, order: seq<Principal>, g: Principal)
    requires g in n.gateways && !ExpiredGateway(n, g)
    ensures g in Perform(n, CheckTimer(order)).gateways
  {
    hide Exec;
    CheckPhases(n, order);
    var removals := Removals(order, Some(KeepAliveTimeout), n.app, n.closes);
    RoundAtoms(order, Some(KeepAliveTimeout), n.app, n.closes);
    ExecKeepsGateways(Act(n, ExpireGateways), removals);
    ActKeepsGateways(Exec(Act(n, ExpireGateways), removals), FinishCheck);
  }

  /** A gateway is unregistered, other than by a wipe, only by a keep-alive check that
      finds it without clients for strictly longer than the interval. */
  lemma RetentionLowerBound(n: Net, s: Step, g: Principal)
    requires Inv(n) && !s.Wipe?
    requires g in n.gateways && g !in Perform(n, s).gateways
    ensures s.CheckTimer? && OnGateway(n.conns, g) == {}
    ensures n.gateways[g].emptiedAt.Some? && n.now - n.gateways[g].emptiedAt.value > n.interval * 1_000_000
  {
    hide Perform;
    if !s.CheckTimer? {
      StepKeepsGateways(n, s);
    } else if !ExpiredGateway(n, g) {
      CheckKeepsUnexpired(n, s.order, g);
    }
  }
}
