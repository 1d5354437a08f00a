/** Runs in which a property one might expect fails: each is possible from the start,
    whatever the application's handler does. */
module Failures {
  import opened Types
  import opened Network
  import opened Protocol
  import opened Polling
  import opened Store
  import opened Refinement
  import Streams

  const G: Principal := Principal("g")
  const P: Principal := Principal("p")

  // ---- single steps on a quiet canister ----

  function FirstItem(n: Net, nonce: nat): Item {
    var key := ClientKey(P, nonce);
    Item(n.nextConn, key, 1, n.now, Service(OpenMessage(key)))
  }

  lemma Opened(n: Net, nonce: nat)
    requires n.conns == map[] && n.gateways == map[]
    ensures Perform(n, WsOpen(P, nonce, G)) == n.(
      conns := map[P := Connection(n.nextConn, nonce, G, n.now, 0, 1, false)],
      gateways := map[G := Gateway(n.nextEpoch, [FirstItem(n, nonce)], 0, None)],
      nextConn := n.nextConn + 1, nextEpoch := n.nextEpoch + 1,
      log := Perform(n, WsOpen(P, nonce, G)).log)
  {
    OpenPhases(n, P, nonce, G);
    assert |P.text| != |ANONYMOUS.text|;
    var a, m := AddConnection(n, P, nonce, G), Act(n, Connect(P, nonce, G));
    assert Trimmed(a.gateways[G], n.now, n.interval) == 0;
    assert m.conns == map[P := Connection(n.nextConn, nonce, G, n.now, 0, 1, false)];
    assert NextItem(a, P, Service(OpenMessage(ClientKey(P, nonce)))) == FirstItem(n, nonce);
    assert m.gateways[G].sent == [FirstItem(n, nonce)];
    assert m.gateways == map[G := Gateway(n.nextEpoch, [FirstItem(n, nonce)], 0, None)];
  }

  lemma {:induction false} NobodyToSendTo(n: Net, sends: seq<(Principal, Bytes)>)
    requires n.conns == map[]
    ensures Exec(n, Pushes(sends)) == n
  {
    if sends != [] {
      var before, last := sends[..|sends| - 1], sends[|sends| - 1];
      NobodyToSendTo(n, before);
      ExecLast(n, Pushes(before), Push(last.0, last.1));
    }
  }

  lemma RemovedLast(n: Net, nonce: nat)
    requires n.conns.Keys == {P} && n.conns[P].gateway == G && n.conns[P].nonce == nonce && n.gateways.Keys == {G}
    ensures var m := Exec(n, Leaving(P, None, n.app, n.closes));
      m == n.(conns := map[], gateways := map[G := n.gateways[G].(emptiedAt := Some(n.now))], closes := n.closes + 1,
              log := n.log + [OnClose(P)])
  {
    hide Exec;
    LeavingPhases(n, P, None, n.app, n.closes);
    RemovedState(n);
    NobodyToSendTo(Act(n, Remove(P, None)), n.app(P, n.closes));
  }

  lemma RemovedState(n: Net)
    requires n.conns.Keys == {P} && n.conns[P].gateway == G && n.gateways.Keys == {G}
    ensures Act(n, Remove(P, None))
         == n.(conns := map[], gateways := map[G := n.gateways[G].(emptiedAt := Some(n.now))], closes := n.closes + 1,
               log := n.log + [OnClose(P)])
  {
    assert n.conns - {P} == map[];
    assert OnGateway(map[], G) == {};
  }

  lemma Waited(n: Net, to: nat)
    requires Enabled(n, Wait(to))
    ensures Perform(n, Wait(to)) == n.(now := to)
  {
    PerformShort(n, Wait(to));
  }

  lemma IdleRound(n: Net)
    requires n.conns == map[] && n.ackDue == Some(n.now)
    ensures Enabled(n, AckTimer([]))
    ensures Perform(n, AckTimer([]))
         == n.(ackDue := Some(n.now + IntervalNs(n)), checkDue := Some(n.now + CLIENT_KEEP_ALIVE_TIMEOUT_NS))
  {
    PerformShort(n, AckTimer([]));
  }

  lemma IdleCheck(n: Net)
    requires n.conns == map[] && n.checkDue == Some(n.now) && n.gateways.Keys == {G} && ExpiredGateway(n, G)
    ensures Enabled(n, CheckTimer([])) && Perform(n, CheckTimer([])) == n.(gateways := map[], checkDue := None)
  {
    CheckPhases(n, []);
    assert Act(n, ExpireGateways).gateways == map[];
  }

  // ---- the end flag ----

  /** A canister configured to return no messages claims an end it has not reached: this
      happens after one initialisation and one opening. */
  lemma EndFlagLies(app: Application)
    ensures exists steps: seq<Step>, g: Principal ::
      var n := Run(Initial(0, app), steps);
      && Possible(Initial(0, app), steps) && g in n.gateways && n.gateways[g].base == 0 && n.gateways[g].sent != []
      && Answer(n, g, 0) == Batch(0, [], true)
  {
    hide Perform;
    var origin, init, open := Initial(0, app), Init(60_001, 0), WsOpen(P, 1, G);
    var n := Perform(origin, init);
    PerformShort(origin, init);
    ReachedNone(0, app);
    ReachedOne(0, app, [], origin, init, n);
    ReachedOne(0, app, [] + [init], n, open, Perform(n, open));
    Opened(n, 1);
    var steps := [] + [init] + [open];
    assert Answer(Run(origin, steps), G, 0) == Batch(0, [], true);
  }

  // ---- a gateway that registers again ----

  const I: nat := 60_001 * NS_PER_MS

  /** Up to here a poller of the first registration reads one message, from cursor 0. */
  const FIRST: seq<Step> := [Init(60_001, 50), WsOpen(P, 1, G)]

  /** The client leaves, the gateway expires, and the client opens again on it. */
  const AGAIN: seq<Step> := [WsClose(G, ClientKey(P, 1)), Wait(I), AckTimer([]), Wait(I + CLIENT_KEEP_ALIVE_TIMEOUT_NS),
                             CheckTimer([]), WsOpen(P, 2, G)]

  lemma FirstRegistration(app: Application, n: Net)
    requires n == Run(Initial(0, app), FIRST)
    ensures Possible(Initial(0, app), FIRST)
    ensures n.now == 0 && n.interval == 60_001 && n.maxReturned == 50 && n.ackDue == Some(I) && n.checkDue == None
    ensures n.app == app && n.closes == 0 && n.nextConn == 1 && n.nextEpoch == 1
    ensures n.conns == map[P := Connection(0, 1, G, 0, 0, 1, false)]
    ensures exists item :: n.gateways == map[G := Gateway(0, [item], 0, None)]
  {
    hide Perform;
    var origin := Initial(0, app);
    var k := Perform(origin, FIRST[0]);
    PerformShort(origin, FIRST[0]);
    ReachedNone(0, app);
    ReachedOne(0, app, [], origin, FIRST[0], k);
    ReachedOne(0, app, [] + [FIRST[0]], k, FIRST[1], Perform(k, FIRST[1]));
    assert [] + [FIRST[0]] + [FIRST[1]] == FIRST;
    Opened(k, 1);
    assert n.gateways == map[G := Gateway(0, [FirstItem(k, 1)], 0, None)];
  }

  /** The same in one sequence of states, each a step from the last. */
  lemma Expires(n: Net, item: Item)
    requires n.now == 0 && n.interval == 60_001 && n.ackDue == Some(I) && n.checkDue == None
    requires n.conns == map[P := Connection(0, 1, G, 0, 0, 1, false)]
    requires n.gateways == map[G := Gateway(0, [item], 0, None)]
    ensures Possible(n, AGAIN[..5])
    ensures var m := Run(n, AGAIN[..5]);
      && m.conns == map[] && m.gateways == map[] && m.nextEpoch == n.nextEpoch && m.maxReturned == n.maxReturned
  {
    hide Perform, Enabled;
    var n1 := ClosedLast(n);
    var n2, n4 := n1.(now := I), AcksDone(n1.(now := I)).(now := I + CLIENT_KEEP_ALIVE_TIMEOUT_NS);
    WaitsFor(n1, I);
    IdleRound(n2);
    WaitsFor(AcksDone(n2), I + CLIENT_KEEP_ALIVE_TIMEOUT_NS);
    IdleCheck(n4);
    FiveSteps(n, AGAIN, n1, n2, AcksDone(n2), n4, n4.(gateways := map[], checkDue := None));
  }

  function AcksDone(n: Net): Net {
    n.(ackDue := Some(n.now + IntervalNs(n)), checkDue := Some(n.now + CLIENT_KEEP_ALIVE_TIMEOUT_NS))
  }

  lemma WaitsFor(n: Net, to: nat)
    requires n.now <= to && (n.ackDue.Some? ==> to <= n.ackDue.value) && (n.checkDue.Some? ==> to <= n.checkDue.value)
    ensures Enabled(n, Wait(to)) && Perform(n, Wait(to)) == n.(now := to)
  {
    Waited(n, to);
  }

  lemma ClosedLast(n: Net) returns (m: Net)
    requires n.conns.Keys == {P} && n.conns[P].gateway == G && n.conns[P].nonce == 1 && n.gateways.Keys == {G}
    ensures Enabled(n, WsClose(G, ClientKey(P, 1))) && m == Perform(n, WsClose(G, ClientKey(P, 1)))
    ensures m == n.(conns := map[], gateways := map[G := n.gateways[G].(emptiedAt := Some(n.now))],
        closes := n.closes + 1,
                    log := n.log + [OnClose(P)])
  {
    ClosePhases(n, G, ClientKey(P, 1));
    RemovedLast(n, 1);
    m := Perform(n, WsClose(G, ClientKey(P, 1)));
  }

  lemma FiveSteps(n: Net, s: seq<Step>, n1: Net, n2: Net, n3: Net, n4: Net, n5: Net)
    requires |s| >= 5
    requires Enabled(n, s[0]) && n1 == Perform(n, s[0]) && Enabled(n1, s[1]) && n2 == Perform(n1, s[1])
    requires Enabled(n2, s[2]) && n3 == Perform(n2, s[2]) && Enabled(n3, s[3]) && n4 == Perform(n3, s[3])
    requires Enabled(n4, s[4]) && n5 == Perform(n4, s[4])
    ensures Possible(n, s[..5]) && Run(n, s[..5]) == n5
  {
    hide Perform, Enabled;
    assert s[..0] == [];
    forall k | 0 <= k < 5 ensures s[..k + 1] == s[..k] + [s[k]] {}
    RunExtend(n, s[..0], s[0]);
    RunExtend(n, s[..1], s[1]);
    RunExtend(n, s[..2], s[2]);
    RunExtend(n, s[..3], s[3]);
    RunExtend(n, s[..4], s[4]);
  }

  /** The gateway's first registration, with one message, ends; the second starts over at
      nonce 0 with one message. A poller that read the first stands at cursor 1 and is told
      that there is nothing to read; it never receives that message. */
  lemma RestartLosesMessage(app: Application)
    ensures var n := Run(Initial(0, app), FIRST);
      && Possible(Initial(0, app), FIRST + AGAIN)
      && G in n.gateways && n.gateways[G].epoch == 0 && n.gateways[G].base == 0 && |n.gateways[G].sent| == 1
      && NextCursor(0, Answer(n, G, 0)) == 1
    ensures var m := Run(Initial(0, app), FIRST + AGAIN);
      && G in m.gateways && m.gateways[G].epoch == 1 && m.gateways[G].base == 0 && |m.gateways[G].sent| == 1
      && Answer(m, G, 1) == Batch(1, [], true) && Answer(m, G, 0) == Batch(0, m.gateways[G].sent, true)
      && forall moves :: !Delivered(Read(Reader(m, 1, []), G, moves).got, 0)
  {
    hide Perform, Enabled, Exec;
    var origin := Initial(0, app);
    var n := Run(origin, FIRST);
    FirstRegistration(app, n);
    var item :| n.gateways == map[G := Gateway(0, [item], 0, None)];
    Expires(n, item);
    var k := Run(n, AGAIN[..5]);
    Opened(k, 2);
    AlwaysEnabled(k, AGAIN[5]);
    RunExtend(n, AGAIN[..5], AGAIN[5]);
    assert AGAIN[..5] + [AGAIN[5]] == AGAIN;
    RunConcat(origin, FIRST, AGAIN);
    PossibleConcat(origin, FIRST, AGAIN);
    assert [item][0..1] == [item];
    assert [FirstItem(k, 2)][0..1] == [FirstItem(k, 2)];
    var late := Reader(Run(origin, FIRST + AGAIN), 1, []);
    forall moves ensures !Delivered(Read(late, G, moves).got, 0) {
      StaleCursorMisses(late, G, moves);
    }
  }

  lemma AlwaysEnabled(n: Net, s: Step)
    requires s.WsOpen?
    ensures Enabled(n, s)
  {}

  lemma {:induction false} PossibleConcat(start: Net, a: seq<Step>, b: seq<Step>)
    requires Possible(start, a) && Possible(Run(start, a), b)
    ensures Possible(start, a + b)
  {
    hide Perform, Enabled;
    if b == [] {
      assert a + b == a;
    } else {
      var before, s := b[..|b| - 1], b[|b| - 1];
      PossibleConcat(start, a, before);
      RunConcat(start, a, before);
      RunExtend(start, a + before, s);
      assert a + b == (a + before) + [s];
    }
  }

  // ---- a wiped canister ----

  const KEY: ClientKey := ClientKey(P, 1)

  function OpenedRaw(libs: Libraries): Raw {
    SendEffect(libs, Adding(InitialRaw(0), KEY, G), KEY, Encode(libs, Service(OpenMessage(KEY))), true)
  }

  function WipedRaw(libs: Libraries): Raw {
    var dropped := Dropping(OpenedRaw(libs), KEY);
    Cleared(dropped.(closes := dropped.closes + 1))
  }

  lemma OpenedAgrees(libs: Libraries, n: Net)
    requires n == Perform(Initial(0, libs.onClose), WsOpen(P, 1, G))
    ensures Inv(n) && Agrees(libs, OpenedRaw(libs), n)
  {
    hide Inv, Agrees, Emit, AddConnection, Adding, SendEffect, Perform, Initial;
    var origin := Initial(0, libs.onClose);
    var a := AddConnection(origin, P, 1, G);
    var open := Service(OpenMessage(KEY));
    QuietOrigin(libs.onClose);
    InitialInv(0, libs.onClose);
    InitialAgrees(libs, 0);
    OpenPhases(origin, P, 1, G);
    AddRefines(libs, InitialRaw(0), origin, KEY, G);
    SendRefines(libs, Adding(InitialRaw(0), KEY, G), a, KEY, open);
    RecordRefines(libs, OpenedRaw(libs), Emit(a, P, open), OnOpen(P));
  }

  lemma QuietOrigin(app: Application)
    ensures Initial(0, app).conns == map[] && Initial(0, app).gateways == map[] && P != ANONYMOUS
    ensures Initial(0, app).app == app && Initial(0, app).closes == 0
  {
    assert |P.text| != |ANONYMOUS.text|;
  }

  /** After one opening and a wipe the tree is empty but the certified data is still the
      root of the tree that held the open message: a different root, unless the hash of the
      empty tree is the same. */
  lemma WipeLeavesRoot(libs: Libraries)
    ensures var raw, steps := WipedRaw(libs), [WsOpen(P, 1, G), Wipe([P])];
      && Possible(Initial(0, libs.onClose), steps)
      && Agrees(libs, raw, Run(Initial(0, libs.onClose), steps))
      && raw.tree == map[] && raw.certified.tree.Some? && raw.certified.tree.value != map[]
      && raw.certified.data == libs.labeledRootHash(raw.certified.tree.value)
  {
    hide Inv, Agrees, Perform, Initial, Enabled, Exec, Dropping, DropConnection, OpenedRaw;
    var origin := Initial(0, libs.onClose);
    var n := Perform(origin, WsOpen(P, 1, G));
    OpenedAgrees(libs, n);
    OneClient(libs, n);
    var dropped, k := Dropping(OpenedRaw(libs), KEY), DropConnection(n, P);
    DropRefines(libs, OpenedRaw(libs), n, KEY);
    CallRefines(libs, dropped, k, P);
    WipedState(n);
    ClearRefines(libs, dropped.(closes := dropped.closes + 1), CallClose(k, P));
    AlwaysEnabled(origin, WsOpen(P, 1, G));
    RunExtend(origin, [], WsOpen(P, 1, G));
    RunExtend(origin, [] + [WsOpen(P, 1, G)], Wipe([P]));
    assert [] + [WsOpen(P, 1, G)] + [Wipe([P])] == [WsOpen(P, 1, G), Wipe([P])];
    RootOfOpened(libs);
  }

  lemma OneClient(libs: Libraries, n: Net)
    requires n == Perform(Initial(0, libs.onClose), WsOpen(P, 1, G))
    ensures n.conns.Keys == {P} && n.conns[P].gateway == G && n.conns[P].nonce == 1 && n.gateways.Keys == {G}
    ensures Holds(n, KEY)
  {
    QuietOrigin(libs.onClose);
    Opened(Initial(0, libs.onClose), 1);
  }

  lemma WipedState(n: Net)
    requires n.conns.Keys == {P} && n.conns[P].gateway == G && n.conns[P].nonce == 1 && n.gateways.Keys == {G}
    ensures Enabled(n, Wipe([P])) && CallClose(DropConnection(n, P), P).conns == map[]
    ensures Perform(n, Wipe([P])) == Act(CallClose(DropConnection(n, P), P), Clear)
  {
    hide Exec;
    assert [P][..0] == [];
    assert Removals([P], None, n.app, n.closes)
      == Removals([], None, n.app, n.closes) + Leaving(P, None, n.app, n.closes);
    assert Removals([P], None, n.app, n.closes) == Leaving(P, None, n.app, n.closes);
    Streams.WipeState(n, [P]);
    RemovedLast(n, 1);
    RemovedState(n);
  }

  lemma RootOfOpened(libs: Libraries)
    ensures var raw := WipedRaw(libs);
      && raw.tree == map[] && raw.certified.tree.Some? && raw.certified.tree.value != map[]
      && raw.certified.data == libs.labeledRootHash(raw.certified.tree.value)
  {
    var raw := Adding(InitialRaw(0), KEY, G);
    assert SendReply(raw, KEY).Ok? && DequesMatch(raw, KEY);
    var m := NextMessage(libs, raw, KEY, Encode(libs, Service(OpenMessage(KEY))), true);
    assert m.key in OpenedRaw(libs).tree;
    assert OpenedRaw(libs).certified == Renewed(libs, OpenedRaw(libs).tree);
  }
}
