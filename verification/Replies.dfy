/** Polling as the gateway sees it: messages under string keys, and a cursor read back from
    the last key. Exactly-once delivery, stated on the replies of the canister. */
module Replies {
  import opened Types
  import opened Keys
  import opened Network
  import opened Protocol
  import opened Polling
  import opened Store
  import opened Witness

  /** The gateway's rule: one past the number after the underscore in the last key. */
  function KeyCursor(cursor: nat, messages: seq<CanisterOutputMessage>): nat {
    if messages == [] then cursor
    else
      match ParseKey(messages[|messages| - 1].key)
      case None => cursor
      case Some((_, nonce)) => nonce + 1
  }

  /** Reading the last key back is counting the batch. */
  lemma KeyCursorCounts(libs: Libraries, gateway: Principal, cursor: nat, b: Batch)
    ensures KeyCursor(cursor, Outputs(libs, gateway, b.first, b.items)) == NextCursor(cursor, b)
    ensures b.items != [] ==>
      ParseKey(Outputs(libs, gateway, b.first, b.items)[|b.items| - 1].key)
        == Some((gateway, NextCursor(cursor, b) - 1))
  {
    if b.items != [] {
      ParseFormat(gateway, b.first + (|b.items| - 1));
    }
  }

  datatype Poller = Poller(net: Net, cursor: nat, received: seq<CanisterOutputMessage>)

  function PollMove(libs: Libraries, p: Poller, gateway: Principal, move: Move): Poller {
    match move
    case Do(step) => p.(net := Perform(p.net, step))
    case PollNow =>
      if gateway in p.net.gateways && p.net.gateways[gateway].base > |p.net.gateways[gateway].sent| then p
      else
        var messages := Polled(libs, p.net, gateway, p.cursor);
        p.(cursor := KeyCursor(p.cursor, messages), received := p.received + messages)
  }

  function Follow(libs: Libraries, start: Poller, gateway: Principal, moves: seq<Move>): Poller {
    if moves == [] then start
    else PollMove(libs, Follow(libs, start, gateway, moves[..|moves| - 1]), gateway, moves[|moves| - 1])
  }

  /** The poller and the reader of Polling are at the same point. */
  ghost predicate Mirrors(libs: Libraries, p: Poller, r: Reader, gateway: Principal) {
    && p.net == r.net && p.cursor == r.cursor && |p.received| == |r.got|
    && forall k :: 0 <= k < |r.got| ==> p.received[k] == Output(libs, gateway, r.got[k].0, r.got[k].1)
  }

  lemma MoveMirrors(libs: Libraries, p: Poller, r: Reader, gateway: Principal, move: Move)
    requires Mirrors(libs, p, r, gateway)
    ensures Mirrors(libs, PollMove(libs, p, gateway, move), MakeMove(r, gateway, move), gateway)
  {
    hide Perform, Output, KeyCursor;
    if move.PollNow? && !(gateway in r.net.gateways && r.net.gateways[gateway].base > |r.net.gateways[gateway].sent|) {
      KeyCursorCounts(libs, gateway, r.cursor, Answer(r.net, gateway, r.cursor));
    }
  }

  lemma {:induction false} FollowMirrors(libs: Libraries, net: Net, cursor: nat, gateway: Principal, moves: seq<Move>)
    ensures Mirrors(libs, Follow(libs, Poller(net, cursor, []), gateway, moves),
        Read(Reader(net, cursor, []), gateway, moves), gateway)
  {
    hide MakeMove, PollMove;
    if moves != [] {
      var before := moves[..|moves| - 1];
      FollowMirrors(libs, net, cursor, gateway, before);
      MoveMirrors(libs, Follow(libs, Poller(net, cursor, []), gateway, before),
          Read(Reader(net, cursor, []), gateway, before),
                  gateway, moves[|moves| - 1]);
    }
  }

  /** The nonce in a message's key. */
  function NonceOf(m: CanisterOutputMessage): nat {
    match ParseKey(m.key)
    case None => 0
    case Some((_, nonce)) => nonce
  }

  /** What was received is what was sent: the nonces in the keys increase, each message is
      the one sent under its nonce, and any other below the cursor has been deleted. */
  ghost predicate ReceivedOnce(libs: Libraries, p: Poller, gateway: Principal, g: Gateway, from: nat) {
    && (forall k, l :: 0 <= k < l < |p.received| ==> NonceOf(p.received[k]) < NonceOf(p.received[l]))
    && (forall k :: 0 <= k < |p.received| ==>
          var i := NonceOf(p.received[k]);
          from <= i < p.cursor && i < |g.sent| && p.received[k] == Output(libs, gateway, i, g.sent[i]))
    && (forall i: nat :: from <= i < p.cursor && g.base <= i ==>
          i < |g.sent| && Output(libs, gateway, i, g.sent[i]) in p.received)
  }

  lemma NoncesRead(libs: Libraries, p: Poller, r: Reader, gateway: Principal)
    requires Mirrors(libs, p, r, gateway)
    ensures forall k :: 0 <= k < |p.received| ==> NonceOf(p.received[k]) == r.got[k].0
  {
    hide ParseKey, Format, Content;
    forall k | 0 <= k < |p.received| ensures NonceOf(p.received[k]) == r.got[k].0 {
      ParseFormat(gateway, r.got[k].0);
    }
  }

  lemma FaithfulReceived(libs: Libraries, p: Poller, r: Reader, gateway: Principal, g: Gateway, from: nat)
    requires Mirrors(libs, p, r, gateway) && Faithful(r, g, from)
    ensures ReceivedOnce(libs, p, gateway, g, from)
  {
    hide NonceOf, Output;
    NoncesRead(libs, p, r, gateway);
    forall i: nat | from <= i < p.cursor && g.base <= i
      ensures i < |g.sent| && Output(libs, gateway, i, g.sent[i]) in p.received
    {
      assert Delivered(r.got, i);
      var k :| 0 <= k < |r.got| && r.got[k].0 == i;
      assert p.received[k] == Output(libs, gateway, i, g.sent[i]);
    }
  }

  /** Exactly-once delivery on the canister's replies, from any cursor, for as long as the
      gateway's registration lasts and whatever happens between the polls. */
  lemma RepliesExactlyOnce(libs: Libraries, net: Net, cursor: nat, gateway: Principal, moves: seq<Move>)
    requires Inv(net) && gateway in net.gateways
    ensures var p := Follow(libs, Poller(net, cursor, []), gateway, moves);
      SameRegistration(net, p.net, gateway) ==> ReceivedOnce(libs, p, gateway, p.net.gateways[gateway], cursor)
  {
    hide Inv, Faithful, Read, Follow, ReceivedOnce;
    var start := Reader(net, cursor, []);
    ExactlyOnce(start, gateway, moves);
    FollowMirrors(libs, net, cursor, gateway, moves);
    var p, r := Follow(libs, Poller(net, cursor, []), gateway, moves), Read(start, gateway, moves);
    if SameRegistration(net, p.net, gateway) {
      FaithfulReceived(libs, p, r, gateway, p.net.gateways[gateway], cursor);
    }
  }

  // ---- what a send puts on the wire ----

  /** After a send, the next poll of a caught-up gateway returns the application's bytes,
      serialized under the connection's next sequence number, and nothing else. */
  lemma SentBytesArePolled(libs: Libraries, n: Net, p: Principal, bytes: Bytes)
    requires Inv(n) && p in n.conns && n.maxReturned > 0
    ensures var gateway, m := n.conns[p].gateway, Perform(n, Send(p, bytes));
      && gateway in n.gateways && gateway in m.gateways && m.gateways[gateway].base <= |m.gateways[gateway].sent|
      && var next := |n.gateways[gateway].sent|;
         Polled(libs, m, gateway, next) == [CanisterOutputMessage(KeyOf(n, p), Format(gateway, next),
           libs.cborSerialize(WebsocketMessage(KeyOf(n, p), n.conns[p].sent + 1, n.now, false, bytes)))]
  {
    hide Perform, Answer, Format, Inv;
    SentIsPolled(n, p, bytes);
  }
}
