/** The two records that the canister updates in place. A ghost constant remembers under
    which key each is registered, so that records under different keys are different objects. */
module Registered {
  import opened Types
  import opened Network
  import opened Retention
  import opened Store

  ghost predicate Sorted(times: seq<nat>) {
    forall i, j :: 0 <= i < j < |times| ==> times[i] <= times[j]
  }

  /** The first `k` are exactly the overdue ones among the first `n`. */
  ghost predicate OverdueAmongFirst(times: seq<nat>, k: nat, now: nat, limitMs: nat, n: nat) {
    forall i :: 0 <= i < |times| ==> (i < k <==> i < n && Overdue(times[i], now, limitMs))
  }

  class RegisteredGateway {
    ghost const principal: Principal
    var messagesQueue: seq<CanisterOutputMessage>
    var messagesToDelete: seq<nat>
    var outgoingMessageNonce: nat
    var connectedClientsCount: nat

    ghost function View(): GatewayRecord
      reads this
    {
      GatewayRecord(messagesQueue, messagesToDelete, outgoingMessageNonce, connectedClientsCount)
    }

    constructor (ghost principal: Principal)
      ensures this.principal == principal
      ensures View() == GatewayRecord([], [], INITIAL_OUTGOING_MESSAGE_NONCE, 0)
    {
      this.principal := principal;
      messagesQueue, messagesToDelete := [], [];
      outgoingMessageNonce, connectedClientsCount := INITIAL_OUTGOING_MESSAGE_NONCE, 0;
    }

    method IncrementNonce()
      modifies this
      ensures View() == old(View()).(nonce := old(View()).nonce + 1)
    {
      outgoingMessageNonce := outgoingMessageNonce + 1;
    }

    method IncrementClientsCount()
      modifies this
      ensures View() == old(View()).(count := old(View()).count + 1)
    {
      connectedClientsCount := connectedClientsCount + 1;
    }

    /** Saturates at zero. */
    method DecrementClientsCount() returns (count: nat)
      modifies this
      ensures count == if old(View()).count == 0 then 0 else old(View()).count - 1
      ensures View() == old(View()).(count := count)
    {
      connectedClientsCount := if connectedClientsCount == 0 then 0 else connectedClientsCount - 1;
      count := connectedClientsCount;
    }

    method AddMessageToQueue(message: CanisterOutputMessage, messageTimestamp: nat)
      modifies this
      ensures View()
        == old(View()).(queue := old(View()).queue + [message], times := old(View()).times + [messageTimestamp])
    {
      messagesQueue := messagesQueue + [message];
      messagesToDelete := messagesToDelete + [messageTimestamp];
    }

    /** Pops both deques while their front is overdue, at most `n` times. On deques sorted
        by time these are exactly the overdue ones among the first `n`. */
    method DeleteOldMessages(n: nat, messageMaxAgeMs: nat, time: nat) returns (deletedKeys: seq<string>)
      requires |messagesQueue| == |messagesToDelete|
      requires forall i :: 0 <= i < |messagesToDelete| ==> messagesToDelete[i] <= time
      modifies this
      ensures |deletedKeys| == LeadingOverdue(old(messagesToDelete), time, messageMaxAgeMs, n)
      ensures forall i :: 0 <= i < |deletedKeys| ==> deletedKeys[i] == old(messagesQueue)[i].key
      ensures View()
        == old(View()).(queue := old(messagesQueue)[|deletedKeys|..], times := old(messagesToDelete)[|deletedKeys|..])
      ensures Sorted(old(messagesToDelete)) ==>
        OverdueAmongFirst(old(messagesToDelete), |deletedKeys|, time, messageMaxAgeMs, n)
    {
      ghost var queue, times := messagesQueue, messagesToDelete;
      deletedKeys := [];
      for i := 0 to n
        invariant |deletedKeys| == i <= |queue| == |times|
        invariant messagesQueue == queue[i..] && messagesToDelete == times[i..]
        invariant forall j :: 0 <= j < i ==> deletedKeys[j] == queue[j].key
        invariant LeadingOverdue(times, time, messageMaxAgeMs, n)
          == i + LeadingOverdue(times[i..], time, messageMaxAgeMs, n - i)
        invariant outgoingMessageNonce == old(outgoingMessageNonce) &&
          connectedClientsCount == old(connectedClientsCount)
      {
        if messagesToDelete == [] {
          break;
        }
        var age: nat := time - messagesToDelete[0];
        if age > messageMaxAgeMs * NS_PER_MS {
          assert times[i..][1..] == times[i + 1..] && queue[i..][1..] == queue[i + 1..];
          deletedKeys := deletedKeys + [messagesQueue[0].key];
          messagesQueue := messagesQueue[1..];
          messagesToDelete := messagesToDelete[1..];
        } else {
          break;
        }
      }
      if Sorted(times) {
        LeadingOverdueExact(times, time, messageMaxAgeMs, n);
      }
    }
  }

  class RegisteredClient {
    ghost const key: ClientKey
    var lastKeepAliveTimestamp: nat
    const gatewayPrincipal: Principal

    ghost function View(): ClientRecord
      reads this
    {
      ClientRecord(lastKeepAliveTimestamp, gatewayPrincipal)
    }

    constructor (ghost key: ClientKey, gatewayPrincipal: Principal, time: nat)
      ensures this.key == key
      ensures View() == ClientRecord(time, gatewayPrincipal)
    {
      this.key := key;
      this.lastKeepAliveTimestamp := time;
      this.gatewayPrincipal := gatewayPrincipal;
    }

    method UpdateLastKeepAliveTimestamp(time: nat)
      modifies this
      ensures View() == old(View()).(lastKeepAlive := time)
    {
      lastKeepAliveTimestamp := time;
    }
  }
}
