/** The entry points and timer callbacks as scripts of atomic actions, and runs of them. */
module Protocol {
  import opened Types
  import opened Network

  datatype Step =
    | Wait(to: nat)
    | Init(interval: nat, maxReturned: nat)
    | WsOpen(caller: Principal, nonce: nat, gateway: Principal)
    | WsClose(caller: Principal, key: ClientKey)
    | WsMessage(
        caller: Principal,
        key: ClientKey,
        sequenceNum: nat,
        isService: bool,
        content: Bytes,
        decoded: Option<ServiceContent>)
    | Send(principal: Principal, bytes: Bytes)
    | Close(principal: Principal)
    | AckTimer(order: seq<Principal>)
    | CheckTimer(order: seq<Principal>)
    | Wipe(order: seq<Principal>)

  predicate Holds(n: Net, key: ClientKey) {
    Live(n.conns, key)
  }

  function Acks(order: seq<Principal>): seq<Atom> {
    if order == [] then [] else Acks(order[..|order| - 1]) + [Acknowledge(order[|order| - 1])]
  }

  function Pushes(sends: seq<(Principal, Bytes)>): seq<Atom> {
    if sends == [] then []
    else Pushes(sends[..|sends| - 1]) + [Push(sends[|sends| - 1].0, sends[|sends| - 1].1)]
  }

  /** A removal and then whatever the application's on_close handler sends, when it has
      been called `closes` times before. */
  function Leaving(p: Principal, reason: Option<CloseReason>, app: Application, closes: nat): seq<Atom> {
    [Remove(p, reason)] + Pushes(app(p, closes))
  }

  function Removals(order: seq<Principal>, reason: Option<CloseReason>, app: Application, closes: nat): seq<Atom> {
    if order == [] then []
    else
      var last := |order| - 1;
      Removals(order[..last], reason, app, closes) + Leaving(order[last], reason, app, closes + last)
  }

  /** What each entry point does to the state, as a sequence of atomic actions. */
  function Script(n: Net, s: Step): seq<Atom> {
    match s
    case Wait(to) => [Tick(to)]
    case Init(interval, maxReturned) => [Configure(interval, maxReturned)]
    case WsOpen(caller, nonce, gateway) =>
      if caller == ANONYMOUS || Holds(n, ClientKey(caller, nonce)) then []
      else if caller in n.conns then Leaving(caller, None, n.app, n.closes) + [Connect(caller, nonce, gateway)]
      else [Connect(caller, nonce, gateway)]
    case WsClose(caller, key) =>
      if caller in n.gateways && Holds(n, key) && n.conns[key.clientPrincipal].gateway == caller
      then Leaving(key.clientPrincipal, None, n.app, n.closes) else []
    case WsMessage(caller, key, sequenceNum, isService, content, decoded) =>
      if caller !in n.conns || KeyOf(n, caller) != key then []
      else if sequenceNum != n.conns[caller].received + 1 then
        Leaving(caller, Some(WrongSequenceNumber), n.app, n.closes)
      else if !isService then [Accept(caller), Announce(caller, content)]
      else if decoded.Some? && decoded.value.KeepAliveMessage? then [Accept(caller), Hear(caller)]
      else [Accept(caller)]
    case Send(p, bytes) => [Push(p, bytes)]
    case Close(p) => if p in n.conns then Leaving(p, Some(ClosedByApplication), n.app, n.closes) else []
    case AckTimer(order) => Acks(order) + [FinishAcks]
    case CheckTimer(order) => [ExpireGateways] + Removals(order, Some(KeepAliveTimeout), n.app, n.closes) +
      [FinishCheck]
    case Wipe(order) => Removals(order, None, n.app, n.closes) + [Clear]
  }

  /** What each entry point returns. */
  function Reply(n: Net, s: Step): Result<()> {
    match s
    case Init(interval, _) =>
      if interval <= CLIENT_KEEP_ALIVE_TIMEOUT_MS then Err(TrappedOnInvalidParameters) else Ok(())
    case WsOpen(caller, nonce, gateway) =>
      if caller == ANONYMOUS then Err(AnonymousPrincipalNotAllowed)
      else if Holds(n, ClientKey(caller, nonce)) then Err(ClientKeyAlreadyConnected(ClientKey(caller, nonce)))
      else Ok(())
    case WsClose(caller, key) =>
      if caller !in n.gateways then Err(GatewayNotRegistered(caller))
      else if !Holds(n, key) then Err(ClientKeyNotConnected(key))
      else if n.conns[key.clientPrincipal].gateway != caller then Err(ClientNotRegisteredToGateway(key, caller))
      else Ok(())
    case WsMessage(caller, key, sequenceNum, isService, content, decoded) =>
      if caller !in n.conns then Err(ClientPrincipalNotConnected(caller))
      else if KeyOf(n, caller) != key then Err(ClientKeyMessageMismatch(key))
      else if sequenceNum != n.conns[caller].received + 1 then
        Err(IncomingSequenceNumberWrong(n.conns[caller].received + 1, sequenceNum))
      else if isService && decoded.None? then Err(DecodeServiceMessageContent)
      else if isService && !decoded.value.KeepAliveMessage? then Err(InvalidServiceMessageError)
      else Ok(())
    case Send(p, _) => if p in n.conns then Ok(()) else Err(ClientPrincipalNotConnected(p))
    case Close(p) => if p in n.conns then Ok(()) else Err(ClientPrincipalNotConnected(p))
    case _ => Ok(())
  }

  ghost predicate Enumerates(order: seq<Principal>, s: set<Principal>) {
    && (forall i, j :: 0 <= i < j < |order| ==> order[i] != order[j])
    && (forall p :: p in order <==> p in s)
  }

  predicate TimedOut(n: Net, p: Principal) {
    p in n.conns && n.conns[p].waiting && n.now - n.conns[p].lastSeen > CLIENT_KEEP_ALIVE_TIMEOUT_NS
  }

  function Stale(n: Net): set<Principal> {
    set p | p in n.conns && TimedOut(n, p)
  }

  /** When a step can happen: time does not run past a pending timer, timers fire at
      their deadlines, and hash-map loops visit every key once, in any order. */
  ghost predicate Enabled(n: Net, s: Step) {
    match s
    case Wait(to) =>
      n.now <= to && (n.ackDue.Some? ==> to <= n.ackDue.value) && (n.checkDue.Some? ==> to <= n.checkDue.value)
    case AckTimer(order) => n.ackDue == Some(n.now) && Enumerates(order, n.conns.Keys)
    case CheckTimer(order) => n.checkDue == Some(n.now) && Enumerates(order, Stale(n))
    case Wipe(order) => Enumerates(order, n.conns.Keys)
    case _ => true
  }

  function Perform(n: Net, s: Step): Net {
    Exec(n, Script(n, s))
  }

  function Run(start: Net, steps: seq<Step>): Net {
    if steps == [] then start else Perform(Run(start, steps[..|steps| - 1]), steps[|steps| - 1])
  }

  ghost predicate Possible(start: Net, steps: seq<Step>) {
    steps == [] ||
    (Possible(start, steps[..|steps| - 1]) && Enabled(Run(start, steps[..|steps| - 1]), steps[|steps| - 1]))
  }

  /** The invariant holds after every run, from any starting time. */
  lemma {:induction false} RunInv(start: Net, steps: seq<Step>)
    requires Inv(start)
    ensures Inv(Run(start, steps))
  {
    if steps != [] {
      var before := Run(start, steps[..|steps| - 1]);
      RunInv(start, steps[..|steps| - 1]);
      ExecInv(before, Script(before, steps[|steps| - 1]));
    }
  }

  /** The state reached from an initial one by steps each of which was possible. */
  ghost predicate Reached(time: nat, app: Application, steps: seq<Step>, n: Net) {
    n == Run(Initial(time, app), steps) && Possible(Initial(time, app), steps)
  }

  lemma ReachedNone(time: nat, app: Application)
    ensures Reached(time, app, [], Initial(time, app))
  {}

  lemma ReachedOne(time: nat, app: Application, steps: seq<Step>, n: Net, s: Step, m: Net)
    requires Reached(time, app, steps, n) && Enabled(n, s) && m == Perform(n, s)
    ensures Reached(time, app, steps + [s], m)
  {}

  lemma RunOne(start: Net, steps: seq<Step>, s: Step)
    ensures Run(start, steps + [s]) == Perform(Run(start, steps), s)
  {}

  lemma RunExtend(start: Net, steps: seq<Step>, s: Step)
    ensures Run(start, steps + [s]) == Perform(Run(start, steps), s)
    ensures Possible(start, steps + [s]) <==> Possible(start, steps) && Enabled(Run(start, steps), s)
  {}

  lemma ExecOne(n: Net, a: Atom)
    ensures Exec(n, [a]) == Act(n, a)
  {}

  lemma ExecTwo(n: Net, a: Atom, b: Atom)
    ensures Exec(n, [a, b]) == Act(Act(n, a), b)
  {
    ExecOne(n, a);
    assert [a, b][..1] == [a];
  }

  /** Short scripts, action by action. */
  lemma PerformShort(n: Net, s: Step)
    ensures Script(n, s) == [] ==> Perform(n, s) == n
    ensures |Script(n, s)| == 1 ==> Perform(n, s) == Act(n, Script(n, s)[0])
    ensures |Script(n, s)| == 2 ==> Perform(n, s) == Act(Act(n, Script(n, s)[0]), Script(n, s)[1])
  {
    var atoms := Script(n, s);
    if |atoms| == 1 {
      assert atoms == [atoms[0]];
      ExecOne(n, atoms[0]);
    } else if |atoms| == 2 {
      assert atoms == [atoms[0], atoms[1]];
      ExecTwo(n, atoms[0], atoms[1]);
    }
  }

  /** Opening, from each state it can be called in. */
  lemma OpenPhases(n: Net, caller: Principal, nonce: nat, gateway: Principal)
    ensures var m := Perform(n, WsOpen(caller, nonce, gateway));
      if caller == ANONYMOUS || Holds(n, ClientKey(caller, nonce)) then m == n
      else if caller in n.conns then
        m == Act(Exec(n, Leaving(caller, None, n.app, n.closes)), Connect(caller, nonce, gateway))
      else m == Act(n, Connect(caller, nonce, gateway))
  {
    PerformShort(n, WsOpen(caller, nonce, gateway));
    ExecLast(n, Leaving(caller, None, n.app, n.closes), Connect(caller, nonce, gateway));
  }

  lemma ClosePhases(n: Net, caller: Principal, key: ClientKey)
    ensures Perform(n, WsClose(caller, key))
         == if Reply(n, WsClose(caller, key)).Ok? then Exec(n, Leaving(key.clientPrincipal, None, n.app, n.closes))
           else n
  {}

  lemma SendPhases(n: Net, p: Principal, bytes: Bytes)
    ensures Perform(n, Send(p, bytes)) == Emit(n, p, Data(bytes))
    ensures p !in n.conns ==> Perform(n, Send(p, bytes)) == n
  {
    PerformShort(n, Send(p, bytes));
  }

  lemma CloseNowPhases(n: Net, p: Principal)
    ensures Perform(n, Close(p))
      == if p in n.conns then Exec(n, Leaving(p, Some(ClosedByApplication), n.app, n.closes)) else n
  {}

  lemma EnabledWipe(n: Net, order: seq<Principal>)
    ensures Enabled(n, Wipe(order)) <==> Enumerates(order, n.conns.Keys)
  {}

  /** A message: refused, ending the connection, or accepted and then handled. */
  lemma MessagePhases(n: Net, s: Step)
    requires s.WsMessage?
    ensures var m := Perform(n, s);
      if s.caller !in n.conns || KeyOf(n, s.caller) != s.key then m == n
      else if s.sequenceNum != n.conns[s.caller].received + 1 then
        m == Exec(n, Leaving(s.caller, Some(WrongSequenceNumber), n.app, n.closes))
      else if !s.isService then m == Act(Act(n, Accept(s.caller)), Announce(s.caller, s.content))
      else if s.decoded.Some? && s.decoded.value.KeepAliveMessage? then
        m == Act(Act(n, Accept(s.caller)), Hear(s.caller))
      else m == Act(n, Accept(s.caller))
  {
    PerformShort(n, s);
  }

  lemma ExecLast(n: Net, atoms: seq<Atom>, a: Atom)
    ensures Exec(n, atoms + [a]) == Act(Exec(n, atoms), a)
  {}

  /** The keep-alive check as its three phases. */
  lemma CheckPhases(n: Net, order: seq<Principal>)
    ensures Perform(n, CheckTimer(order))
         == Act(Exec(Act(n, ExpireGateways), Removals(order, Some(KeepAliveTimeout), n.app, n.closes)), FinishCheck)
  {
    var removals := Removals(order, Some(KeepAliveTimeout), n.app, n.closes);
    ExecLast(n, [ExpireGateways] + removals, FinishCheck);
    ExecConcat(n, [ExpireGateways], removals);
    ExecOne(n, ExpireGateways);
  }

  // ---- what the atoms of a loop are ----

  lemma {:induction false} PushAtoms(sends: seq<(Principal, Bytes)>)
    ensures forall a :: a in Pushes(sends) ==> a.Push?
  {
    if sends != [] {
      PushAtoms(sends[..|sends| - 1]);
    }
  }

  lemma LeavingAtoms(p: Principal, reason: Option<CloseReason>, app: Application, closes: nat)
    ensures forall a :: a in Leaving(p, reason, app, closes) ==> a.Push? || a == Remove(p, reason)
  {
    PushAtoms(app(p, closes));
  }

  lemma {:induction false} RoundAtoms(order: seq<Principal>, reason: Option<CloseReason>, app: Application, closes: nat)
    ensures forall a :: a in Acks(order) ==> a.Acknowledge?
    ensures forall a :: a in Removals(order, reason, app, closes) ==> a.Push? || (a.Remove? && a.reason == reason)
  {
    hide Leaving;
    if order != [] {
      var last := |order| - 1;
      RoundAtoms(order[..last], reason, app, closes);
      LeavingAtoms(order[last], reason, app, closes + last);
    }
  }

  /** What the script of a step may contain: no action of another kind of step, and no
      removal for the reason that the code never gives. */
  predicate Belongs(s: Step, a: Atom) {
    && !a.Tick? && !a.Configure?
    && (a.Clear? ==> s.Wipe?)
    && (a.ExpireGateways? || a.FinishCheck? ==> s.CheckTimer?)
    && (a.FinishAcks? ==> s.AckTimer?)
    && (a.Hear? ==> s.WsMessage?)
    && (a.Remove? ==> a.reason != Some(InvalidServiceMessage))
  }

  lemma RoundScriptAtoms(n: Net, s: Step)
    requires s.AckTimer? || s.CheckTimer? || s.Wipe?
    ensures forall a :: a in Script(n, s) ==> Belongs(s, a)
  {
    hide Acks, Removals;
    RoundAtoms(s.order, None, n.app, n.closes);
    RoundAtoms(s.order, Some(KeepAliveTimeout), n.app, n.closes);
  }

  lemma ScriptAtoms(n: Net, s: Step)
    requires !s.Wait? && !s.Init?
    ensures forall a :: a in Script(n, s) ==> Belongs(s, a)
  {
    hide Leaving;
    match s
    case WsOpen(caller, _, _) => LeavingAtoms(caller, None, n.app, n.closes);
    case WsClose(_, key) => LeavingAtoms(key.clientPrincipal, None, n.app, n.closes);
    case WsMessage(caller, _, _, _, _, _) => LeavingAtoms(caller, Some(WrongSequenceNumber), n.app, n.closes);
    case Close(p) => LeavingAtoms(p, Some(ClosedByApplication), n.app, n.closes);
    case Send(_, _) =>
    case _ => RoundScriptAtoms(n, s);
  }

  /** Sending from a handler: connections, their ids and the gateways stay. */
  ghost predicate SameParties(n: Net, m: Net) {
    && m.conns.Keys == n.conns.Keys && m.gateways.Keys == n.gateways.Keys
    && m.app == n.app && m.closes == n.closes && m.now == n.now && m.nextConn == n.nextConn
    && forall p :: p in n.conns ==> m.conns[p] == n.conns[p].(sent := m.conns[p].sent)
  }

  lemma {:induction false} PushesKeepParties(n: Net, sends: seq<(Principal, Bytes)>)
    ensures SameParties(n, Exec(n, Pushes(sends)))
  {
    if sends != [] {
      var before, last := sends[..|sends| - 1], sends[|sends| - 1];
      PushesKeepParties(n, before);
      ExecLast(n, Pushes(before), Push(last.0, last.1));
    }
  }

  lemma LeavingPhases(n: Net, p: Principal, reason: Option<CloseReason>, app: Application, closes: nat)
    ensures Exec(n, Leaving(p, reason, app, closes)) == Exec(Act(n, Remove(p, reason)), Pushes(app(p, closes)))
    ensures SameParties(Act(n, Remove(p, reason)), Exec(n, Leaving(p, reason, app, closes)))
  {
    ExecConcat(n, [Remove(p, reason)], Pushes(app(p, closes)));
    ExecOne(n, Remove(p, reason));
    PushesKeepParties(Act(n, Remove(p, reason)), app(p, closes));
  }

  lemma RemovalsStep(n: Net, order: seq<Principal>, reason: Option<CloseReason>, p: Principal)
    ensures Exec(n, Removals(order + [p], reason, n.app, n.closes))
         == Exec(Exec(n, Removals(order, reason, n.app, n.closes)), Leaving(p, reason, n.app, n.closes + |order|))
  {
    hide Act, Exec;
    assert (order + [p])[..|order|] == order;
    ExecConcat(n, Removals(order, reason, n.app, n.closes), Leaving(p, reason, n.app, n.closes + |order|));
  }
}
