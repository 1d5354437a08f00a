/** The certified part of a poll's reply. */
module Witness {
  import opened Types
  import opened Keys
  import opened Network
  import opened Polling
  import opened Store

  /** The entries of the tree between two keys, inclusive: what a range witness discloses. */
  function ValueRange(tree: map<string, Bytes>, first: string, last: string): map<string, Bytes> {
    map s | s in tree && InKeyRange(s, first, last) :: tree[s]
  }

  lemma WithinTree(tree: map<string, Bytes>, first: string, last: string, s: string)
    requires s in ValueRange(tree, first, last)
    ensures s in tree
  {}

  /** The queue entries for the nonces from `first` up to `end`. */
  function Outputs(libs: Libraries, gateway: Principal, first: nat, items: seq<Item>): (s: seq<CanisterOutputMessage>)
    ensures |s| == |items|
    ensures forall k :: 0 <= k < |s| ==> s[k] == Output(libs, gateway, first + k, items[k])
  {
    seq(|items|, k requires 0 <= k < |items| => Output(libs, gateway, first + k, items[k]))
  }

  /** The messages a poll returns. */
  function Polled(libs: Libraries, n: Net, gateway: Principal, nonce: nat): seq<CanisterOutputMessage>
    requires gateway in n.gateways ==> n.gateways[gateway].base <= |n.gateways[gateway].sent|
  {
    var b := Answer(n, gateway, nonce);
    Outputs(libs, gateway, b.first, b.items)
  }

  lemma NothingPolled(libs: Libraries, n: Net, gateway: Principal, nonce: nat)
    requires gateway !in n.gateways
    ensures Polled(libs, n, gateway, nonce) == [] && Answer(n, gateway, nonce) == Batch(nonce, [], true)
  {}

  /** The witness holds exactly the keys of the messages, each with the hash of its content. */
  ghost predicate ExactWitness(libs: Libraries, messages: seq<CanisterOutputMessage>, tree: map<string, Bytes>) {
    && (forall k :: 0 <= k < |messages| ==>
          messages[k].key in tree && tree[messages[k].key] == libs.sha256(messages[k].content))
    && (forall s :: s in tree ==> exists k :: 0 <= k < |messages| && s == messages[k].key)
  }

  /** The same, as the tree's keys and values. */
  lemma ExactMeans(libs: Libraries, messages: seq<CanisterOutputMessage>, tree: map<string, Bytes>)
    requires ExactWitness(libs, messages, tree)
    ensures forall s :: s in tree <==> exists m :: m in messages && m.key == s
    ensures forall m :: m in messages ==> tree[m.key] == libs.sha256(m.content)
  {
    forall s | s in tree ensures exists m :: m in messages && m.key == s {
      var k :| 0 <= k < |messages| && s == messages[k].key;
      assert messages[k] in messages;
    }
  }

  lemma RangeMembers(libs: Libraries, tree: map<string, Bytes>, gateways: map<Principal, Gateway>, gateway: Principal,
                     first: nat, last: nat, s: string)
    requires TreeAgrees(libs, tree, gateways) && gateway in gateways && |gateways[gateway].sent| <= U64_SIZE
    requires gateways[gateway].base <= first <= last < |gateways[gateway].sent|
    requires s in ValueRange(tree, Format(gateway, first), Format(gateway, last))
    ensures exists i: nat :: first <= i <= last && s == Format(gateway, i)
  {
    assert QueuedKey(gateways, s);
    var (g, i) := ParseKey(s).value;
    KeyRange(gateway, first, last, g, i);
  }

  lemma RangeIncludes(libs: Libraries, tree: map<string, Bytes>, gateways: map<Principal, Gateway>, gateway: Principal,
                      first: nat, last: nat, i: nat)
    requires TreeAgrees(libs, tree, gateways) && gateway in gateways && |gateways[gateway].sent| <= U64_SIZE
    requires gateways[gateway].base <= first <= i <= last < |gateways[gateway].sent|
    ensures var range := ValueRange(tree, Format(gateway, first), Format(gateway, last));
      Format(gateway, i) in range && range[Format(gateway, i)] == libs.sha256(Content(libs, gateways[gateway].sent[i]))
  {
    assert QueuedNonce(gateways, gateway, i);
    KeyRange(gateway, first, last, gateway, i);
  }

  lemma OutputKey(libs: Libraries, gateway: Principal, first: nat, items: seq<Item>, k: nat)
    requires k < |items|
    ensures Outputs(libs, gateway, first, items)[k].key == Format(gateway, first + k)
    ensures Outputs(libs, gateway, first, items)[k].content == Content(libs, items[k])
  {}

  /** Witness exactness: between the keys of the first and the last returned message lie
      exactly the returned messages' entries; no other gateway's key falls in between. */
  lemma WitnessExact(libs: Libraries, tree: map<string, Bytes>, gateways: map<Principal, Gateway>, gateway: Principal,
                     first: nat, end: nat,
                     messages: seq<CanisterOutputMessage>)
    requires TreeAgrees(libs, tree, gateways) && gateway in gateways && |gateways[gateway].sent| <= U64_SIZE
    requires gateways[gateway].base <= first < end <= |gateways[gateway].sent|
    requires messages == Outputs(libs, gateway, first, gateways[gateway].sent[first..end])
    ensures ExactWitness(libs, messages, ValueRange(tree, messages[0].key, messages[|messages| - 1].key))
  {
    hide TreeAgrees, ValueRange, Format, Content, Outputs;
    var items := gateways[gateway].sent[first..end];
    OutputKey(libs, gateway, first, items, 0);
    OutputKey(libs, gateway, first, items, |items| - 1);
    var range := ValueRange(tree, Format(gateway, first), Format(gateway, end - 1));
    forall k | 0 <= k < |messages|
      ensures messages[k].key in range && range[messages[k].key] == libs.sha256(messages[k].content)
    {
      OutputKey(libs, gateway, first, items, k);
      RangeIncludes(libs, tree, gateways, gateway, first, end - 1, first + k);
    }
    forall s | s in range ensures exists k :: 0 <= k < |messages| && s == messages[k].key {
      RangeMembers(libs, tree, gateways, gateway, first, end - 1, s);
      var i: nat :| first <= i <= end - 1 && s == Format(gateway, i);
      OutputKey(libs, gateway, first, items, i - first);
    }
  }

  /** Binary search for the first message whose key is not below the given one. */
  method PartitionPoint(queue: seq<CanisterOutputMessage>, smallestKey: string) returns (index: nat)
    requires forall i, j :: 0 <= i < j < |queue| && LexLess(queue[j].key, smallestKey) ==>
      LexLess(queue[i].key, smallestKey)
    ensures index <= |queue|
    ensures forall i :: 0 <= i < |queue| ==> (LexLess(queue[i].key, smallestKey) <==> i < index)
  {
    index := 0;
    var high := |queue|;
    while index < high
      invariant index <= high <= |queue|
      invariant forall i :: 0 <= i < index ==> LexLess(queue[i].key, smallestKey)
      invariant forall i :: high <= i < |queue| ==> !LexLess(queue[i].key, smallestKey)
    {
      var middle := index + (high - index) / 2;
      if LexLess(queue[middle].key, smallestKey) {
        index := middle + 1;
      } else {
        high := middle;
      }
    }
  }

  /** The string order on the keys of one queue is the order of the nonces. */
  lemma QueueOrder(libs: Libraries, gateway: Principal, r: GatewayRecord, g: Gateway, nonce: nat)
    requires QueueAgrees(libs, gateway, r, g) && nonce <= U64_SIZE && |g.sent| <= U64_SIZE
    ensures forall i :: 0 <= i < |r.queue| ==> (LexLess(r.queue[i].key, Format(gateway, nonce)) <==> g.base + i < nonce)
  {
    hide LexLess, Format;
    forall i | 0 <= i < |r.queue| ensures LexLess(r.queue[i].key, Format(gateway, nonce)) <==> g.base + i < nonce {
      SameGatewayOrder(gateway, g.base + i, nonce);
    }
  }

  /** The search on strings finds the clamped nonce. */
  lemma SearchIsClamp(libs: Libraries, gateway: Principal, r: GatewayRecord, g: Gateway, nonce: nat, index: nat)
    requires QueueAgrees(libs, gateway, r, g) && nonce <= U64_SIZE && |g.sent| <= U64_SIZE
    requires index <= |r.queue|
    requires forall i :: 0 <= i < |r.queue| ==> (LexLess(r.queue[i].key, Format(gateway, nonce)) <==> i < index)
    ensures g.base + index == Clamp(nonce, g.base, |g.sent|)
  {
    hide LexLess, Format, Output;
    QueueOrder(libs, gateway, r, g, nonce);
    if index < |r.queue| {
      assert !LexLess(r.queue[index].key, Format(gateway, nonce));
    }
    if index > 0 {
      assert LexLess(r.queue[index - 1].key, Format(gateway, nonce));
    }
  }

  /** A slice of the queue is a batch of what was sent. */
  lemma SliceIsBatch(libs: Libraries, gateway: Principal, r: GatewayRecord, g: Gateway, start: nat, end: nat)
    requires QueueAgrees(libs, gateway, r, g) && start <= end <= |r.queue|
    ensures r.queue[start..end] == Outputs(libs, gateway, g.base + start, g.sent[g.base + start..g.base + end])
  {}
}
