/** What a gateway receives by polling with its cursor, over whole runs. */
module Polling {
  import opened Types
  import opened Network
  import opened Protocol
  import opened Streams
  import opened Retention

  /** Messages `first`, `first` + 1, … of the gateway, and whether the queue ends there. */
  datatype Batch = Batch(first: nat, items: seq<Item>, atEnd: bool)

  function Clamp(x: nat, lo: nat, hi: nat): nat
    requires lo <= hi
  {
    if x <= lo then lo else if x >= hi then hi else x
  }

  /** The nonces a poll selects: from the cursor or the oldest message kept, at most
      `maxReturned` of them. */
  function PollRange(g: Gateway, nonce: nat, maxReturned: nat): (r: (nat, nat, bool))
    requires g.base <= |g.sent|
    ensures g.base <= r.0 <= r.1 <= |g.sent|
  {
    var start := Clamp(nonce, g.base, |g.sent|);
    if |g.sent| - start > maxReturned then (start, start + maxReturned, false)
    else (start, |g.sent|, true)
  }

  /** The reply to a poll; an empty reply always claims the end of the queue. */
  function Answer(n: Net, gateway: Principal, nonce: nat): Batch
    requires gateway in n.gateways ==> n.gateways[gateway].base <= |n.gateways[gateway].sent|
  {
    if gateway !in n.gateways then Batch(nonce, [], true)
    else
      var g := n.gateways[gateway];
      var (start, end, atEnd) := PollRange(g, nonce, n.maxReturned);
      if start == end then Batch(nonce, [], true) else Batch(start, g.sent[start..end], atEnd)
  }

  lemma AnswerIsRange(n: Net, gateway: Principal, nonce: nat, first: nat, end: nat, atEnd: bool)
    requires gateway in n.gateways && n.gateways[gateway].base <= |n.gateways[gateway].sent|
    requires (first, end, atEnd) == PollRange(n.gateways[gateway], nonce, n.maxReturned)
    ensures n.gateways[gateway].base <= first <= end <= |n.gateways[gateway].sent|
    ensures Answer(n, gateway, nonce)
         == if first == end then Batch(nonce, [], true) else Batch(first, n.gateways[gateway].sent[first..end], atEnd)
  {}

  /** How much a poll returns: the maximum, or what there is from the cursor on. */
  lemma AnswerLength(n: Net, gateway: Principal, nonce: nat)
    requires gateway in n.gateways && n.gateways[gateway].base <= |n.gateways[gateway].sent|
    ensures var g, b := n.gateways[gateway], Answer(n, gateway, nonce);
      var left := |g.sent| - Clamp(nonce, g.base, |g.sent|);
      && |b.items| == (if left <= n.maxReturned then left else n.maxReturned)
      && (b.items != [] ==> (b.atEnd <==> left <= n.maxReturned))
  {}

  /** The gateway's rule for its next poll: one past the last nonce it was given. */
  function NextCursor(cursor: nat, b: Batch): nat {
    if b.items == [] then cursor else b.first + |b.items|
  }

  // ---- the end-of-queue flag ----

  /** The flag tells the truth exactly unless the maximum is zero while messages remain. */
  lemma EndFlagTruth(n: Net, gateway: Principal, nonce: nat)
    requires gateway in n.gateways && n.gateways[gateway].base <= |n.gateways[gateway].sent|
    ensures var g, b := n.gateways[gateway], Answer(n, gateway, nonce);
      var start := Clamp(nonce, g.base, |g.sent|);
      (b.atEnd <==> start + |b.items| == |g.sent|) <==> !(n.maxReturned == 0 && start < |g.sent|)
  {}

  // ---- sending, then polling ----

  /** A message that was sent is what the next poll of a caught-up gateway returns: its
      bytes, under the next sequence number of its connection, and nothing else. */
  lemma SentIsPolled(n: Net, p: Principal, bytes: Bytes)
    requires Inv(n) && p in n.conns && n.maxReturned > 0
    ensures var gateway, m := n.conns[p].gateway, Perform(n, Send(p, bytes));
      && gateway in n.gateways && gateway in m.gateways && m.gateways[gateway].base <= |m.gateways[gateway].sent|
      && var next := |n.gateways[gateway].sent|;
         Answer(m, gateway, next)
         == Batch(next, [Item(n.conns[p].id, KeyOf(n, p), n.conns[p].sent + 1, n.now, Data(bytes))], true)
  {
    hide Exec, OnGateway;
    SendPhases(n, p, bytes);
    var gateway, m := n.conns[p].gateway, Emit(n, p, Data(bytes));
    assert QueueSound(n, n.gateways[gateway]);
    var next := |n.gateways[gateway].sent|;
    var sent := m.gateways[gateway].sent;
    assert sent[next..next + 1] == [sent[next]];
  }

  // ---- polling a quiescent queue ----

  /** Polling without anything else happening, until the end flag. */
  function PollToEnd(n: Net, gateway: Principal, cursor: nat): (items: seq<Item>)
    requires gateway in n.gateways && n.gateways[gateway].base <= |n.gateways[gateway].sent|
    requires n.maxReturned > 0
    decreases |n.gateways[gateway].sent| - cursor
  {
    var b := Answer(n, gateway, cursor);
    if b.atEnd then b.items else b.items + PollToEnd(n, gateway, NextCursor(cursor, b))
  }

  /** It terminates and yields exactly what the queue holds from the cursor on. */
  lemma {:induction false} PollToEndYieldsSuffix(n: Net, gateway: Principal, cursor: nat)
    requires gateway in n.gateways && n.gateways[gateway].base <= |n.gateways[gateway].sent|
    requires n.maxReturned > 0
    ensures var g := n.gateways[gateway];
      PollToEnd(n, gateway, cursor) == g.sent[Clamp(cursor, g.base, |g.sent|)..]
    decreases |n.gateways[gateway].sent| - cursor
  {
    var g := n.gateways[gateway];
    var b := Answer(n, gateway, cursor);
    if !b.atEnd {
      PollToEndYieldsSuffix(n, gateway, NextCursor(cursor, b));
      assert g.sent[b.first..] == b.items + g.sent[b.first + |b.items|..];
    }
  }

  // ---- polls interleaved with everything else ----

  datatype Move = Do(step: Step) | PollNow

  datatype Reader = Reader(net: Net, cursor: nat, got: seq<(nat, Item)>)

  function Numbered(b: Batch): (s: seq<(nat, Item)>)
    ensures |s| == |b.items|
    ensures forall k :: 0 <= k < |s| ==> s[k] == (b.first + k, b.items[k])
  {
    seq(|b.items|, k requires 0 <= k < |b.items| => (b.first + k, b.items[k]))
  }

  function MakeMove(r: Reader, gateway: Principal, move: Move): Reader {
    match move
    case Do(step) => r.(net := Perform(r.net, step))
    case PollNow =>
      if gateway in r.net.gateways && r.net.gateways[gateway].base > |r.net.gateways[gateway].sent| then r
      else
        var b := Answer(r.net, gateway, r.cursor);
        r.(cursor := NextCursor(r.cursor, b), got := r.got + Numbered(b))
  }

  function Read(start: Reader, gateway: Principal, moves: seq<Move>): Reader {
    if moves == [] then start
    else MakeMove(Read(start, gateway, moves[..|moves| - 1]), gateway, moves[|moves| - 1])
  }

  function StepsOf(moves: seq<Move>): seq<Step> {
    if moves == [] then []
    else
      var before := StepsOf(moves[..|moves| - 1]);
      match moves[|moves| - 1]
      case Do(step) => before + [step]
      case PollNow => before
  }

  predicate Delivered(got: seq<(nat, Item)>, i: nat) {
    exists k :: 0 <= k < |got| && got[k].0 == i
  }

  /** What a reader that started at nonce `from` has received is what was sent under those
      nonces, once each, in order; anything it passed over since has been deleted. */
  ghost predicate Faithful(r: Reader, g: Gateway, from: nat) {
    && (forall k, l :: 0 <= k < l < |r.got| ==> r.got[k].0 < r.got[l].0)
    && (forall k :: 0 <= k < |r.got| ==>
          from <= r.got[k].0 < r.cursor && r.got[k].0 < |g.sent| && g.sent[r.got[k].0] == r.got[k].1)
    && (forall i: nat :: from <= i < r.cursor ==> i < g.base || Delivered(r.got, i))
    && from <= r.cursor && (r.cursor == from || r.cursor <= |g.sent|)
  }

  lemma FaithfulLater(r: Reader, s: Reader, g: Gateway, h: Gateway, from: nat)
    requires Faithful(r, g, from) && s.got == r.got && s.cursor == r.cursor
    requires |g.sent| <= |h.sent| && h.sent[..|g.sent|] == g.sent && g.base <= h.base
    ensures Faithful(s, h, from)
  {}

  lemma PollCovers(r: Reader, g: Gateway, b: Batch, from: nat, i: nat)
    requires Faithful(r, g, from) && from <= i < b.first + |b.items|
    requires r.cursor >= b.first || b.first <= g.base
    ensures i < g.base || Delivered(r.got + Numbered(b), i)
  {
    var got := r.got + Numbered(b);
    if i >= b.first {
      assert got[|r.got| + (i - b.first)].0 == i;
    } else if i >= g.base {
      assert Delivered(r.got, i);
      var k :| 0 <= k < |r.got| && r.got[k].0 == i;
      assert got[k].0 == i;
    }
  }

  lemma PollMatches(r: Reader, g: Gateway, b: Batch, from: nat)
    requires Faithful(r, g, from) && r.cursor <= b.first && b.first + |b.items| <= |g.sent|
    requires b.items == g.sent[b.first..b.first + |b.items|]
    ensures var got := r.got + Numbered(b);
      && (forall k, l :: 0 <= k < l < |got| ==> got[k].0 < got[l].0)
      && (forall k :: 0 <= k < |got| ==>
            from <= got[k].0 < b.first + |b.items| && got[k].0 < |g.sent| && g.sent[got[k].0] == got[k].1)
  {}

  lemma PollFaithful(r: Reader, g: Gateway, first: nat, end: nat, b: Batch, from: nat)
    requires Faithful(r, g, from) && g.base <= |g.sent|
    requires first == Clamp(r.cursor, g.base, |g.sent|) && first < end <= |g.sent|
    requires b.first == first && b.items == g.sent[first..end]
    ensures Faithful(r.(cursor := NextCursor(r.cursor, b), got := r.got + Numbered(b)), g, from)
  {
    hide Numbered, Delivered;
    PollMatches(r, g, b, from);
    forall i: nat | from <= i < end
      ensures i < g.base || Delivered(r.got + Numbered(b), i)
    {
      PollCovers(r, g, b, from, i);
    }
  }

  /** A step leaves a continuing registration's messages in place. */
  lemma StepExtends(n: Net, s: Step, gateway: Principal)
    requires Inv(n) && gateway in n.gateways
    ensures var m := Perform(n, s);
      && n.nextEpoch <= m.nextEpoch
      && (gateway in m.gateways && m.gateways[gateway].epoch < n.nextEpoch ==>
            Drained(n.gateways[gateway], m.gateways[gateway], 0))
  {
    if s.Init? {
      ExecOne(n, Script(n, s)[0]);
      assert QueueSound(n, n.gateways[gateway]);
    } else {
      ScriptsDoNotConfigure(n, s);
      ExecDrains(n, Script(n, s), gateway, 0);
    }
  }

  lemma {:induction false} ReadInv(start: Reader, gateway: Principal, moves: seq<Move>)
    requires Inv(start.net)
    ensures Inv(Read(start, gateway, moves).net)
    ensures Read(start, gateway, moves).net == Run(start.net, StepsOf(moves))
  {
    if moves != [] {
      var r := Read(start, gateway, moves[..|moves| - 1]);
      ReadInv(start, gateway, moves[..|moves| - 1]);
      match moves[|moves| - 1]
      case Do(step) =>
        ExecInv(r.net, Script(r.net, step));
        RunExtend(start.net, StepsOf(moves[..|moves| - 1]), step);
      case PollNow =>
    }
  }

  /** The gateway's registration at the start is still the one at the end. */
  predicate SameRegistration(n: Net, m: Net, gateway: Principal) {
    gateway in n.gateways && gateway in m.gateways && m.gateways[gateway].epoch == n.gateways[gateway].epoch
  }

  /** Exactly-once delivery from any cursor: however polls interleave with sends, deletions,
      openings, closings and timers, as long as the gateway's registration lasts. */
  lemma {:induction false} ExactlyOnce(start: Reader, gateway: Principal, moves: seq<Move>)
    requires Inv(start.net) && gateway in start.net.gateways && start.got == []
    ensures var r := Read(start, gateway, moves);
      && start.net.nextEpoch <= r.net.nextEpoch
      && (SameRegistration(start.net, r.net, gateway) ==>
            && Faithful(r, r.net.gateways[gateway], start.cursor)
            && start.net.gateways[gateway].base <= r.net.gateways[gateway].base)
  {
    hide Exec;
    if moves != [] {
      var before, move := moves[..|moves| - 1], moves[|moves| - 1];
      var r, s := Read(start, gateway, before), Read(start, gateway, moves);
      ReadInv(start, gateway, before);
      ExactlyOnce(start, gateway, before);
      if move.Do? {
        ExecRegistration(r.net, Script(r.net, move.step), gateway);
        if SameRegistration(start.net, s.net, gateway) {
          StepExtends(r.net, move.step, gateway);
          FaithfulLater(r, s, r.net.gateways[gateway], s.net.gateways[gateway], start.cursor);
        }
      } else if SameRegistration(start.net, r.net, gateway) {
        PollStep(r, gateway, start.cursor);
      }
    }
  }

  /** Every message of the registration below the cursor was received or deleted. */
  ghost predicate NothingMissed(r: Reader, g: Gateway) {
    forall i: nat :: i < r.cursor ==> i < g.base || Delivered(r.got, i)
  }

  /** Which cursors are safe: a reader misses nothing exactly if it did not start beyond
      the messages still queued. */
  lemma MissesNothingIff(start: Reader, gateway: Principal, moves: seq<Move>)
    requires Inv(start.net) && gateway in start.net.gateways && start.got == []
    ensures var r := Read(start, gateway, moves);
      SameRegistration(start.net, r.net, gateway) ==>
        (NothingMissed(r, r.net.gateways[gateway]) <==> start.cursor <= r.net.gateways[gateway].base)
  {
    ExactlyOnce(start, gateway, moves);
    var r := Read(start, gateway, moves);
    if SameRegistration(start.net, r.net, gateway) && r.net.gateways[gateway].base < start.cursor {
      var oldest := r.net.gateways[gateway].base;
      assert oldest < r.cursor && !Delivered(r.got, oldest);
    }
  }

  /** What a poller can check beforehand: whatever happens while the registration lasts,
      nothing is missed, exactly if its cursor is not past the oldest queued message. On a
      new registration that means cursor 0. */
  lemma SafeCursors(start: Reader, gateway: Principal)
    requires Inv(start.net) && gateway in start.net.gateways && start.got == []
    ensures (forall moves :: SameRegistration(start.net, Read(start, gateway, moves).net, gateway) ==>
               NothingMissed(Read(start, gateway, moves), Read(start, gateway, moves).net.gateways[gateway]))
       <==> start.cursor <= start.net.gateways[gateway].base
  {
    forall moves
      ensures var r := Read(start, gateway, moves);
        SameRegistration(start.net, r.net, gateway) ==>
          && (NothingMissed(r, r.net.gateways[gateway]) <==> start.cursor <= r.net.gateways[gateway].base)
          && start.net.gateways[gateway].base <= r.net.gateways[gateway].base
    {
      ExactlyOnce(start, gateway, moves);
      MissesNothingIff(start, gateway, moves);
    }
    assert Read(start, gateway, []) == start;
  }

  /** A reader never receives a nonce below its cursor, whatever it polls, also when the
      gateway registers again in between and its nonces start over. */
  lemma {:induction false} StaleCursorMisses(start: Reader, gateway: Principal, moves: seq<Move>)
    ensures var r := Read(start, gateway, moves);
      && start.cursor <= r.cursor && start.got <= r.got
      && forall k :: |start.got| <= k < |r.got| ==> start.cursor <= r.got[k].0
  {
    if moves != [] {
      StaleCursorMisses(start, gateway, moves[..|moves| - 1]);
    }
  }

  lemma PollStep(r: Reader, gateway: Principal, from: nat)
    requires Inv(r.net) && gateway in r.net.gateways && Faithful(r, r.net.gateways[gateway], from)
    ensures Faithful(MakeMove(r, gateway, PollNow), r.net.gateways[gateway], from)
  {
    var g := r.net.gateways[gateway];
    assert QueueSound(r.net, g);
    var (first, end, atEnd) := PollRange(g, r.cursor, r.net.maxReturned);
    var b := Answer(r.net, gateway, r.cursor);
    if first < end {
      PollFaithful(r, g, first, end, b, from);
    } else {
      assert r.got + Numbered(b) == r.got;
    }
  }

  /** From the beginning of time: a nonce the reader passed without receiving it was
      deleted, at some earlier step, for having outlived the acknowledgement interval. */
  lemma SkippedWereOverdue(origin: Net, steps: seq<Step>, moves: seq<Move>, r: Reader, gateway: Principal, epoch: nat,
                           i: nat)
    requires origin == Initial(origin.now, origin.app) && Possible(origin, steps + StepsOf(moves))
    requires r == Read(Reader(Run(origin, steps), 0, []), gateway, moves)
    requires gateway in Run(origin, steps).gateways && Run(origin, steps).gateways[gateway].epoch == epoch
    requires gateway in r.net.gateways && r.net.gateways[gateway].epoch == epoch
    requires i < r.cursor && !Delivered(r.got, i)
    ensures var all := steps + StepsOf(moves);
      exists j :: 0 <= j < |all| && DeletedAt(origin, all, j, gateway, epoch, i)
  {
    RunInv(origin, steps);
    var start := Reader(Run(origin, steps), 0, []);
    ExactlyOnce(start, gateway, moves);
    ReadInv(start, gateway, moves);
    RunConcat(origin, steps, StepsOf(moves));
    DeletedOnlyByAge(origin, steps + StepsOf(moves), gateway, epoch, i);
  }

  lemma {:induction false} RunConcat(start: Net, a: seq<Step>, b: seq<Step>)
    ensures Run(start, a + b) == Run(Run(start, a), b)
  {
    hide Perform;
    if b == [] {
      assert a + b == a;
    } else {
      var before, s := b[..|b| - 1], b[|b| - 1];
      RunConcat(start, a, before);
      RunOne(start, a + before, s);
      RunOne(Run(start, a), before, s);
      assert a + b == (a + before) + [s] && b == before + [s];
    }
  }
}
