/** The canister: the source's global maps as fields, its functions as methods. Each
    public method is one step of the protocol, and after any sequence of public calls the
    state agrees with the run of those steps. */
module CanisterState {
  import opened Types
  import opened Keys
  import opened Network
  import Protocol
  import opened Polling
  import opened Store
  import opened Registered
  import opened Refinement
  import opened Outcomes
  import opened Witness
  import Coherence
  import Streams

  lemma DeletedElements(keys: seq<string>, queue: seq<CanisterOutputMessage>)
    requires |keys| <= |queue| && forall i :: 0 <= i < |keys| ==> keys[i] == queue[i].key
    ensures Elements(keys) == KeysOf(queue[..|keys|])
  {}

  /** A non-empty batch lies in the certified tree, between its first and its last key. */
  lemma CertifiedSlice(libs: Libraries, tree: map<string, Bytes>, certified: Certification,
                       gateways: map<Principal, Gateway>, gateway: Principal, first: nat, end: nat,
                       messages: seq<CanisterOutputMessage>)
    requires TreeAgrees(libs, tree, gateways) && Certified(libs, tree, certified)
    requires gateway in gateways && gateways[gateway].base <= first < end <= |gateways[gateway].sent| <= U64_SIZE
    requires messages == Outputs(libs, gateway, first, gateways[gateway].sent[first..end])
    ensures ExactWitness(libs, messages, ValueRange(tree, messages[0].key, messages[|messages| - 1].key))
    ensures certified.data == libs.labeledRootHash(tree)
  {
    hide TreeAgrees, ValueRange;
    WitnessExact(libs, tree, gateways, gateway, first, end, messages);
    assert messages[0].key in ValueRange(tree, messages[0].key, messages[|messages| - 1].key);
    WithinTree(tree, messages[0].key, messages[|messages| - 1].key, messages[0].key);
  }

  /** The slice of the queue that the search selects is what a poll returns. */
  lemma SliceIsPolled(libs: Libraries, raw: Raw, n: Net, gateway: Principal, nonce: nat, start: nat, end: nat,
                      atEnd: bool, messages: seq<CanisterOutputMessage>)
    requires Inv(n) && Agrees(libs, raw, n) && gateway in raw.gateways && gateway in n.gateways
    requires raw.gateways[gateway].nonce <= U64_SIZE && n.gateways[gateway].base <= |n.gateways[gateway].sent|
    requires var g := n.gateways[gateway];
      (g.base + start, g.base + end, atEnd) == PollRange(g, nonce, n.maxReturned)
    requires start <= end <= |raw.gateways[gateway].queue| && messages == raw.gateways[gateway].queue[start..end]
    ensures messages == Polled(libs, n, gateway, nonce)
    ensures messages == [] ==> Answer(n, gateway, nonce).items == [] && Answer(n, gateway, nonce).atEnd
    ensures messages != [] ==>
      && Answer(n, gateway, nonce).items != [] && Answer(n, gateway, nonce).atEnd == atEnd
      && ExactWitness(libs, messages, ValueRange(raw.tree, messages[0].key, messages[|messages| - 1].key))
      && raw.certified.data == libs.labeledRootHash(raw.tree)
  {
    hide Inv, Agrees, QueueAgrees, TreeAgrees, Certified, ExactWitness, ValueRange, Answer, PollRange;
    GatewayRegistered(libs, raw, n, gateway);
    var g := n.gateways[gateway];
    AnswerIsRange(n, gateway, nonce, g.base + start, g.base + end, atEnd);
    SliceIsBatch(libs, gateway, raw.gateways[gateway], g, start, end);
    if messages != [] {
      TreeCertified(libs, raw, n);
      CertifiedSlice(libs, raw.tree, raw.certified, n.gateways, gateway, g.base + start, g.base + end, messages);
    }
  }

  class Canister {
    const libs: Libraries
    var now: nat
    var params: Params
    var registeredClients: map<ClientKey, RegisteredClient>
    var currentClientKeyMap: map<Principal, ClientKey>
    var clientsWaitingForKeepAlive: set<ClientKey>
    var outgoingMessageToClientNumMap: map<ClientKey, nat>
    var incomingMessageFromClientNumMap: map<ClientKey, nat>
    var certTree: map<string, Bytes>
    var certifiedData: Bytes
    var registeredGateways: map<Principal, RegisteredGateway>
    var gatewaysToRemove: map<Principal, nat>
    var timers: Timers
    var closes: nat

    ghost const startTime: nat
    ghost var raw: Raw
    ghost var net: Net
    ghost var history: seq<Protocol.Step>
    ghost var Repr: set<object>

    /** Each client record is this canister's own, registered under its own key. */
    ghost predicate ClientsShape(records: map<ClientKey, ClientRecord>)
      reads this`registeredClients, this`Repr, Repr - {this}
    {
      && registeredClients.Keys == records.Keys
      && forall k :: k in registeredClients ==>
           registeredClients[k] in Repr && registeredClients[k].key == k && registeredClients[k].View() == records[k]
    }

    ghost predicate GatewaysShape(records: map<Principal, GatewayRecord>)
      reads this`registeredGateways, this`Repr, Repr - {this}
    {
      && registeredGateways.Keys == records.Keys
      && forall g :: g in registeredGateways ==>
           registeredGateways[g] in Repr && registeredGateways[g].principal == g &&
             registeredGateways[g].View() == records[g]
    }

    /** What only initialisation, the timers and the passage of time change. */
    ghost function Settings(): (nat, Params, Timers)
      reads this`now, this`params, this`timers
    {
      (now, params, timers)
    }

    ghost predicate FieldsShape()
      reads this`raw, this`now, this`params, this`currentClientKeyMap, this`clientsWaitingForKeepAlive
      reads this`outgoingMessageToClientNumMap, this`incomingMessageFromClientNumMap
      reads this`certTree, this`certifiedData, this`gatewaysToRemove, this`timers, this`closes
    {
      raw == Raw(now, params, raw.clients, currentClientKeyMap, clientsWaitingForKeepAlive,
                 outgoingMessageToClientNumMap, incomingMessageFromClientNumMap, certTree,
                 raw.certified.(data := certifiedData), raw.gateways, gatewaysToRemove, timers, closes)
    }

    /** The fields and the records hold the value `raw`. */
    ghost predicate Shape()
      reads this`raw, this`now, this`params, this`currentClientKeyMap, this`clientsWaitingForKeepAlive
      reads this`outgoingMessageToClientNumMap, this`incomingMessageFromClientNumMap
      reads this`certTree, this`certifiedData, this`gatewaysToRemove, this`timers, this`closes
      reads this`registeredClients, this`registeredGateways, this`Repr, Repr - {this}
    {
      this in Repr && FieldsShape() && ClientsShape(raw.clients) && GatewaysShape(raw.gateways)
    }

    /** Between atomic actions: the concrete state agrees with the abstract one. */
    ghost predicate Coherent()
      reads this, Repr
    {
      Shape() && Inv(net) && Agrees(libs, raw, net)
    }

    /** Between steps: the abstract state is the run of the public calls made so far. */
    ghost predicate Valid()
      reads this, Repr
    {
      Coherent() && Protocol.Reached(startTime, libs.onClose, history, net)
    }

    constructor (libs: Libraries, time: nat)
      ensures Valid() && fresh(Repr) && history == [] && startTime == time
      ensures this.libs == libs
      ensures now == time && params == Params(50, 300_000) && timers.pending == map[]
      ensures registeredClients == map[] && registeredGateways == map[] && certTree == map[]
    {
      hide Agrees, Inv, Protocol.Reached, Initial;
      this.libs := libs;
      now := time;
      params := Params(DEFAULT_MAX_NUMBER_OF_RETURNED_MESSAGES, DEFAULT_SEND_ACK_INTERVAL_MS);
      registeredClients, currentClientKeyMap, clientsWaitingForKeepAlive := map[], map[], {};
      outgoingMessageToClientNumMap, incomingMessageFromClientNumMap := map[], map[];
      certTree, certifiedData := map[], [];
      registeredGateways, gatewaysToRemove := map[], map[];
      timers, closes := Timers(None, None, map[], 0), 0;
      startTime, raw, net, history := time, InitialRaw(time), Initial(time, libs.onClose), [];
      Repr := {this};
      new;
      InitialAgrees(libs, time);
      InitialInv(time, libs.onClose);
      Protocol.ReachedNone(time, libs.onClose);
    }

    /** Updating one gateway's record in place updates that entry of the value. */
    twostate lemma GatewayUpdated()
      requires old(Shape())
      requires registeredGateways == old(registeredGateways) && registeredClients == old(registeredClients) &&
        Repr == old(Repr)
      ensures forall gateway ::
        gateway in registeredGateways
        && (forall o: object :: o in old(Repr) && o != this && o != registeredGateways[gateway] ==> unchanged(o)) ==>
          && ClientsShape(old(raw).clients)
          && GatewaysShape(old(raw).gateways[gateway := registeredGateways[gateway].View()])
    {
      forall gateway |
        gateway in registeredGateways
        && (forall o: object :: o in old(Repr) && o != this && o != registeredGateways[gateway] ==> unchanged(o))
        ensures ClientsShape(old(raw).clients)
        ensures GatewaysShape(old(raw).gateways[gateway := registeredGateways[gateway].View()])
      {
        forall g | g in registeredGateways && g != gateway
          ensures registeredGateways[g].View() == old(raw).gateways[g]
        {
          assert registeredGateways[g] != registeredGateways[gateway];
        }
      }
    }

    /** Likewise for a client's record. */
    twostate lemma ClientUpdated()
      requires old(Shape())
      requires registeredGateways == old(registeredGateways) && registeredClients == old(registeredClients) &&
        Repr == old(Repr)
      ensures forall key ::
        key in registeredClients
        && (forall o: object :: o in old(Repr) && o != this && o != registeredClients[key] ==> unchanged(o)) ==>
          && GatewaysShape(old(raw).gateways)
          && ClientsShape(old(raw).clients[key := registeredClients[key].View()])
    {
      forall key |
        key in registeredClients
        && (forall o: object :: o in old(Repr) && o != this && o != registeredClients[key] ==> unchanged(o))
        ensures GatewaysShape(old(raw).gateways)
        ensures ClientsShape(old(raw).clients[key := registeredClients[key].View()])
      {
        forall k | k in registeredClients && k != key ensures registeredClients[k].View() == old(raw).clients[k] {
          assert registeredClients[k] != registeredClients[key];
        }
      }
    }

    /** After any sequence of public calls the fields satisfy every law of Coherence. */
    lemma ValidIsSound()
      requires Valid()
      ensures Coherence.Sound(libs, raw)
      ensures raw == Raw(now, params, raw.clients, currentClientKeyMap, clientsWaitingForKeepAlive,
                         outgoingMessageToClientNumMap, incomingMessageFromClientNumMap, certTree,
                         raw.certified.(data := certifiedData), raw.gateways, gatewaysToRemove, timers, closes)
      ensures raw.clients.Keys == registeredClients.Keys && raw.gateways.Keys == registeredGateways.Keys
    {
      hide Inv, Agrees, Coherence.Sound, Protocol.Reached;
      Coherence.AgreeingIsSound(libs, raw, net);
    }

    /** Notes the value of the records after the registry itself has changed. */
    ghost method NoteGateways(records: map<Principal, GatewayRecord>)
      requires this in Repr && FieldsShape() && ClientsShape(raw.clients) && GatewaysShape(records)
      modifies this`raw
      ensures Shape() && raw == old(raw).(gateways := records)
    {
      hide ClientsShape, GatewaysShape;
      raw := raw.(gateways := records);
    }

    ghost method NoteClients(records: map<ClientKey, ClientRecord>)
      requires this in Repr && FieldsShape() && ClientsShape(records) && GatewaysShape(raw.gateways)
      modifies this`raw
      ensures Shape() && raw == old(raw).(clients := records)
    {
      hide ClientsShape, GatewaysShape;
      raw := raw.(clients := records);
    }

    // ---- lookups ----

    function GetRegisteredClient(key: ClientKey): (r: Result<RegisteredClient>)
      requires Shape()
      reads this, Repr
      ensures r.Ok? <==> key in raw.clients
      ensures r.Ok? ==> key in registeredClients && r.value == registeredClients[key] && r.value in Repr
      ensures r.Ok? ==> r.value.gatewayPrincipal == raw.clients[key].gateway && r.value.View() == raw.clients[key]
      ensures r.Err? ==> r.error == ClientKeyNotConnected(key)
    {
      if key in registeredClients then Ok(registeredClients[key]) else Err(ClientKeyNotConnected(key))
    }

    function GetRegisteredGateway(gateway: Principal): (r: Result<RegisteredGateway>)
      requires Shape()
      reads this, Repr
      ensures r.Ok? <==> gateway in raw.gateways
      ensures r.Ok? ==> gateway in registeredGateways && r.value == registeredGateways[gateway] && r.value in Repr
      ensures r.Ok? ==> r.value.View() == raw.gateways[gateway]
      ensures r.Err? ==> r.error == GatewayNotRegistered(gateway)
    {
      if gateway in registeredGateways then Ok(registeredGateways[gateway]) else Err(GatewayNotRegistered(gateway))
    }

    function GetClientKeyFromPrincipal(p: Principal): (r: Result<ClientKey>)
      requires Shape()
      reads this, Repr
      ensures r == if p in raw.current then Ok(raw.current[p]) else Err(ClientPrincipalNotConnected(p))
    {
      if p in currentClientKeyMap then Ok(currentClientKeyMap[p]) else Err(ClientPrincipalNotConnected(p))
    }

    function GetOutgoingMessageNonce(gateway: Principal): (r: Result<nat>)
      requires Shape()
      reads this, Repr
      ensures r == if gateway in raw.gateways then Ok(raw.gateways[gateway].nonce)
        else Err(GatewayNotRegistered(gateway))
    {
      if gateway in registeredGateways then Ok(registeredGateways[gateway].outgoingMessageNonce)
      else Err(GatewayNotRegistered(gateway))
    }

    function GetOutgoingMessageToClientNum(key: ClientKey): (r: Result<nat>)
      requires Shape()
      reads this, Repr
      ensures r == if key in raw.outgoing then Ok(raw.outgoing[key])
        else Err(OutgoingMessageToClientNumNotInitialized(key))
    {
      if key in outgoingMessageToClientNumMap then Ok(outgoingMessageToClientNumMap[key])
      else Err(OutgoingMessageToClientNumNotInitialized(key))
    }

    function GetExpectedIncomingMessageFromClientNum(key: ClientKey): (r: Result<nat>)
      requires Shape()
      reads this, Repr
      ensures r == if key in raw.incoming then Ok(raw.incoming[key])
        else Err(ExpectedIncomingMessageToClientNumNotInitialized(key))
    {
      if key in incomingMessageFromClientNumMap then Ok(incomingMessageFromClientNumMap[key])
      else Err(ExpectedIncomingMessageToClientNumNotInitialized(key))
    }

    function GetParams(): (r: Params)
      requires Shape()
      reads this, Repr
      ensures r == raw.params
    {
      params
    }

    function GetCurrentTime(): (time: nat)
      requires Shape()
      reads this, Repr
      ensures time == raw.now
    {
      now
    }

    // ---- sending ----

    method IncrementOutgoingMessageNonce(gateway: Principal) returns (r: Result<()>)
      requires Shape()
      modifies this`raw, Repr - {this}
      ensures Shape()
      ensures gateway in old(raw).gateways ==> r == Ok(()) && raw == BumpedNonce(old(raw), gateway)
      ensures gateway !in old(raw).gateways ==> r == Err(GatewayNotRegistered(gateway)) && raw == old(raw)
    {
      hide ClientsShape, GatewaysShape;
      var g :- GetRegisteredGateway(gateway);
      g.IncrementNonce();
      GatewayUpdated();
      raw := BumpedNonce(raw, gateway);
      return Ok(());
    }

    method IncrementOutgoingMessageToClientNum(key: ClientKey) returns (r: Result<()>)
      requires Shape()
      modifies this`raw, this`outgoingMessageToClientNumMap
      ensures Shape()
      ensures key in old(raw).outgoing ==> r == Ok(()) && raw == Counting(old(raw), key)
      ensures key !in old(raw).outgoing ==> r == Err(OutgoingMessageToClientNumNotInitialized(key)) && raw == old(raw)
    {
      if key !in outgoingMessageToClientNumMap {
        return Err(OutgoingMessageToClientNumNotInitialized(key));
      }
      outgoingMessageToClientNumMap := outgoingMessageToClientNumMap[key := outgoingMessageToClientNumMap[key] + 1];
      raw := Counting(raw, key);
      return Ok(());
    }

    method DeleteKeysFromCertTree(keys: seq<string>)
      requires Shape()
      modifies this`raw, this`certTree, this`certifiedData
      ensures Shape()
      ensures var tree := old(raw).tree - Elements(keys);
        raw == old(raw).(tree := tree, certified := Renewed(libs, tree))
    {
      hide ClientsShape, GatewaysShape;
      for i := 0 to |keys|
        invariant certTree == old(certTree) - Elements(keys[..i])
        invariant raw == old(raw)
      {
        assert keys[..i + 1] == keys[..i] + [keys[i]];
        certTree := certTree - {keys[i]};
      }
      assert keys[..|keys|] == keys;
      certifiedData := libs.labeledRootHash(certTree);
      raw := raw.(tree := certTree, certified := Renewed(libs, certTree));
    }

    method PutCertForMessage(key: string, value: Bytes)
      requires Shape()
      modifies this`raw, this`certTree, this`certifiedData
      ensures Shape() && raw == Certifying(libs, old(raw), key, value)
    {
      hide ClientsShape, GatewaysShape;
      certTree := certTree[key := libs.sha256(value)];
      certifiedData := libs.labeledRootHash(certTree);
      raw := Certifying(libs, raw, key, value);
    }

    /** The part of the deletion that works on the gateway's deques. */
    method TrimQueue(gateway: Principal, messageMaxAgeMs: nat) returns (r: Result<seq<string>>)
      requires Shape() && messageMaxAgeMs == raw.params.sendAckIntervalMs
      requires gateway in raw.gateways ==> CanTrim(raw, gateway)
      modifies this`raw, Repr - {this}
      ensures Shape()
      ensures gateway in old(raw).gateways ==>
        var g := old(raw).gateways[gateway];
        var k := Expired(old(raw), g);
        && r.Ok? && Elements(r.value) == KeysOf(g.queue[..k])
        && raw == old(raw).(gateways := old(raw).gateways[gateway := g.(queue := g.queue[k..], times := g.times[k..])])
      ensures gateway !in old(raw).gateways ==> r == Err(GatewayNotRegistered(gateway)) && raw == old(raw)
    {
      hide KeysOf, Elements, LeadingOverdue, Sorted, OverdueAmongFirst, ClientsShape, GatewaysShape;
      var g :- GetRegisteredGateway(gateway);
      ghost var record := raw.gateways[gateway];
      var deletedKeys := g.DeleteOldMessages(MESSAGES_TO_DELETE_COUNT, messageMaxAgeMs, GetCurrentTime());
      DeletedElements(deletedKeys, record.queue);
      GatewayUpdated();
      ghost var k := |deletedKeys|;
      raw := raw.(gateways := raw.gateways[gateway := record.(queue := record.queue[k..], times := record.times[k..])]);
      return Ok(deletedKeys);
    }

    method DeleteOldMessagesForGateway(gateway: Principal) returns (r: Result<()>)
      requires Shape()
      requires gateway in raw.gateways ==> CanTrim(raw, gateway)
      modifies this`raw, this`certTree, this`certifiedData, Repr - {this}
      ensures Shape()
      ensures gateway in old(raw).gateways ==> r == Ok(()) && raw == Trimming(libs, old(raw), gateway)
      ensures gateway !in old(raw).gateways ==> r == Err(GatewayNotRegistered(gateway)) && raw == old(raw)
    {
      hide Shape, KeysOf, Elements, Expired;
      var deletedMessagesKeys :- TrimQueue(gateway, GetParams().sendAckIntervalMs);
      DeleteKeysFromCertTree(deletedMessagesKeys);
      return Ok(());
    }

    method PushMessageInGatewayQueue(gateway: Principal, message: CanisterOutputMessage, timestamp: nat)
      returns (r: Result<()>)
      requires Shape()
      modifies this`raw, Repr - {this}
      ensures Shape()
      ensures gateway in old(raw).gateways ==> r == Ok(()) && raw == Pushing(old(raw), gateway, message, timestamp)
      ensures gateway !in old(raw).gateways ==> r == Err(GatewayNotRegistered(gateway)) && raw == old(raw)
    {
      hide ClientsShape, GatewaysShape;
      var g :- GetRegisteredGateway(gateway);
      g.AddMessageToQueue(message, timestamp);
      GatewayUpdated();
      raw := Pushing(raw, gateway, message, timestamp);
      return Ok(());
    }

    /** The nonce and the sequence number of the next message, both counters incremented. */
    method TakeNumbers(key: ClientKey, gateway: Principal) returns (r: Result<()>, nonce: nat, sequenceNum: nat)
      requires Shape()
      modifies this`raw, this`outgoingMessageToClientNumMap, Repr - {this}
      ensures Shape()
      ensures gateway !in old(raw).gateways ==> r == Err(GatewayNotRegistered(gateway)) && raw == old(raw)
      ensures gateway in old(raw).gateways && key !in old(raw).outgoing ==>
        r == Err(OutgoingMessageToClientNumNotInitialized(key)) && raw == BumpedNonce(old(raw), gateway)
      ensures gateway in old(raw).gateways && key in old(raw).outgoing ==>
        && r == Ok(()) && nonce == old(raw).gateways[gateway].nonce && sequenceNum == old(raw).outgoing[key] + 1
        && raw == Counting(BumpedNonce(old(raw), gateway), key)
    {
      hide Shape;
      nonce, sequenceNum := 0, 0;
      match GetOutgoingMessageNonce(gateway)
      case Err(e) => r := Err(e);
      case Ok(n) =>
        nonce := n;
        r := IncrementOutgoingMessageNonce(gateway);
        if r.Err? { return; }
        r := IncrementOutgoingMessageToClientNum(key);
        if r.Err? { return; }
        match GetOutgoingMessageToClientNum(key)
        case Err(e) => r := Err(e);
        case Ok(num) => sequenceNum := num;
    }

    method CertifyAndPush(gateway: Principal, message: CanisterOutputMessage, timestamp: nat) returns (r: Result<()>)
      requires Shape() && gateway in raw.gateways
      requires CanTrim(raw, gateway)
      modifies this`raw, this`certTree, this`certifiedData, Repr - {this}
      ensures Shape() && r == Ok(())
      ensures var trimmed := Certifying(libs, Trimming(libs, old(raw), gateway), message.key, message.content);
        gateway in trimmed.gateways && raw == Pushing(trimmed, gateway, message, timestamp)
    {
      hide Shape, Pushing;
      r := DeleteOldMessagesForGateway(gateway);
      if r.Err? { return; }
      PutCertForMessage(message.key, message.content);
      r := PushMessageInGatewayQueue(gateway, message, timestamp);
    }

    /** Nothing is rolled back on failure, but for a registered client of a registered
        gateway none of the later failures occurs. */
    method WsSend(key: ClientKey, msgBytes: Bytes, isServiceMessage: bool) returns (r: Result<()>)
      requires Shape() && DequesMatch(raw, key)
      modifies this`raw, this`outgoingMessageToClientNumMap, this`certTree, this`certifiedData, Repr - {this}
      ensures Shape()
      ensures r == SendReply(old(raw), key)
      ensures raw == SendEffect(libs, old(raw), key, msgBytes, isServiceMessage)
    {
      if SendReply(raw, key).Ok? {
        SendingSteps(libs, raw, key, msgBytes, isServiceMessage, raw.clients[key].gateway);
      }
      hide Shape, CanTrim, Sending, NextMessage, BumpedNonce, Counting, Trimming, Certifying, Pushing, Format;
      var registeredClient :- GetRegisteredClient(key);
      var gateway := registeredClient.gatewayPrincipal;
      var outgoingMessageNonce, sequenceNum;
      r, outgoingMessageNonce, sequenceNum := TakeNumbers(key, gateway);
      if r.Err? { return; }
      var messageKey := Format(gateway, outgoingMessageNonce);
      var messageTimestamp := GetCurrentTime();
      var content := libs.cborSerialize(WebsocketMessage(key, sequenceNum, messageTimestamp, isServiceMessage,
          msgBytes));
      r := CertifyAndPush(gateway, CanisterOutputMessage(key, messageKey, content), messageTimestamp);
    }

    /** Sending, seen from the abstract state: `body` is what the bytes encode. */
    method SendBody(key: ClientKey, msgBytes: Bytes, isServiceMessage: bool, ghost body: Body) returns (r: Result<()>)
      requires Coherent() && msgBytes == Encode(libs, body) && isServiceMessage == body.Service?
      modifies Repr
      ensures Coherent() && Repr == old(Repr) && history == old(history) && Settings() == old(Settings())
      ensures Protocol.Holds(old(net), key) ==> r == Ok(()) && net == Emit(old(net), key.clientPrincipal, body)
      ensures !Protocol.Holds(old(net), key) ==> r == Err(ClientKeyNotConnected(key)) && net == old(net)
      ensures Protocol.Holds(old(net), key) ==>
        && key in old(raw).clients && key in old(raw).outgoing && old(raw).clients[key].gateway in old(raw).gateways
        && var gateway := old(raw).clients[key].gateway;
        && gateway in raw.gateways && raw.gateways[gateway].queue != []
        && raw.gateways[gateway].queue[|raw.gateways[gateway].queue| - 1]
           == CanisterOutputMessage(key, Format(gateway, old(raw).gateways[gateway].nonce), libs.cborSerialize(
                WebsocketMessage(key, old(raw).outgoing[key] + 1, old(raw).now, isServiceMessage, msgBytes)))
        && raw.gateways[gateway].nonce == old(raw).gateways[gateway].nonce + 1
    {
      hide FieldsShape, ClientsShape, GatewaysShape, Inv, Agrees, Emit, SendEffect, SendReply, DequesMatch, Format;
      SendRefines(libs, raw, net, key, body);
      if Protocol.Holds(net, key) {
        SendableEntries(libs, raw, net, key);
        SendLast(libs, raw, key, msgBytes, isServiceMessage);
      }
      r := WsSend(key, msgBytes, isServiceMessage);
      if Protocol.Holds(net, key) {
        net := Emit(net, key.clientPrincipal, body);
      }
    }

    method SendServiceMessageToClient(key: ClientKey, message: ServiceContent) returns (r: Result<()>)
      requires Coherent()
      modifies Repr
      ensures Coherent() && Repr == old(Repr) && history == old(history) && Settings() == old(Settings())
      ensures Protocol.Holds(old(net), key) ==>
        r == Ok(()) && net == Emit(old(net), key.clientPrincipal, Service(message))
      ensures !Protocol.Holds(old(net), key) ==> r == Err(ClientKeyNotConnected(key)) && net == old(net)
      ensures Protocol.Holds(old(net), key) ==>
        && key in old(raw).clients && key in old(raw).outgoing && old(raw).clients[key].gateway in old(raw).gateways
        && var gateway := old(raw).clients[key].gateway;
        && gateway in raw.gateways && raw.gateways[gateway].queue != []
        && raw.gateways[gateway].queue[|raw.gateways[gateway].queue| - 1]
           == CanisterOutputMessage(key, Format(gateway, old(raw).gateways[gateway].nonce), libs.cborSerialize(
                WebsocketMessage(key, old(raw).outgoing[key] + 1, old(raw).now, true, libs.candidEncode(message))))
        && raw.gateways[gateway].nonce == old(raw).gateways[gateway].nonce + 1
    {
      hide Coherent, Emit, Format;
      var messageBytes := libs.candidEncode(message);
      r := SendBody(key, messageBytes, true, Service(message));
    }

    // ---- adding clients ----

    method Own(client: RegisteredClient)
      requires Shape()
      modifies this`Repr
      ensures Shape() && Repr == old(Repr) + {client}
    {
      hide FieldsShape;
      Repr := Repr + {client};
    }

    method InsertRecord(key: ClientKey, newClient: RegisteredClient)
      requires Shape() && newClient.key == key && newClient in Repr
      modifies this`raw, this`registeredClients
      ensures Shape() && raw == old(raw).(clients := old(raw).clients[key := newClient.View()])
    {
      hide FieldsShape, GatewaysShape;
      registeredClients := registeredClients[key := newClient];
      NoteClients(raw.clients[key := newClient.View()]);
    }

    method InsertClient(key: ClientKey, newClient: RegisteredClient)
      requires Shape() && newClient.key == key && newClient in Repr
      modifies this`raw, this`currentClientKeyMap, this`registeredClients
      ensures Shape()
      ensures raw == Inserting(old(raw), key, newClient.View())
    {
      hide ClientsShape, GatewaysShape;
      currentClientKeyMap := currentClientKeyMap[key.clientPrincipal := key];
      raw := raw.(current := currentClientKeyMap);
      InsertRecord(key, newClient);
    }

    method InitMessageNums(key: ClientKey)
      requires Shape()
      modifies this`raw, this`incomingMessageFromClientNumMap, this`outgoingMessageToClientNumMap
      ensures Shape() && raw == Numbering(old(raw), key)
    {
      hide ClientsShape, GatewaysShape;
      incomingMessageFromClientNumMap := incomingMessageFromClientNumMap[key := INITIAL_CLIENT_SEQUENCE_NUM];
      outgoingMessageToClientNumMap := outgoingMessageToClientNumMap[key := INITIAL_CANISTER_SEQUENCE_NUM];
      raw := Numbering(raw, key);
    }

    /** A gateway seen for the first time is registered with an empty record. */
    method EnsureGateway(gateway: Principal)
      requires Shape()
      modifies this`raw, this`registeredGateways, this`Repr
      ensures Shape() && fresh(Repr - old(Repr)) && old(Repr) <= Repr
      ensures raw == if gateway in old(raw).gateways then old(raw)
                     else old(raw).(gateways := old(raw).gateways[
                       gateway := GatewayRecord([], [], INITIAL_OUTGOING_MESSAGE_NONCE, 0)])
    {
      hide FieldsShape;
      if gateway !in registeredGateways {
        var g := new RegisteredGateway(gateway);
        registeredGateways := registeredGateways[gateway := g];
        Repr := Repr + {g};
        NoteGateways(raw.gateways[gateway := g.View()]);
      }
    }

    method CountOneMore(gateway: Principal)
      requires Shape() && gateway in raw.gateways
      modifies this`raw, this`gatewaysToRemove, Repr - {this}
      ensures Shape() && raw == Incrementing(old(raw), gateway)
    {
      hide ClientsShape, GatewaysShape;
      var g := GetRegisteredGateway(gateway).value;
      gatewaysToRemove := gatewaysToRemove - {gateway};
      g.IncrementClientsCount();
      GatewayUpdated();
      raw := Incrementing(raw, gateway);
    }

    method IncrementGatewayClientsCount(gateway: Principal)
      requires Shape()
      modifies Repr
      ensures Shape() && fresh(Repr - old(Repr)) && history == old(history) && net == old(net)
      ensures Settings() == old(Settings())
      ensures raw == Incrementing(old(raw), gateway)
    {
      hide FieldsShape, ClientsShape, GatewaysShape;
      EnsureGateway(gateway);
      CountOneMore(gateway);
    }

    method AddClient(key: ClientKey, newClient: RegisteredClient)
      requires Shape() && newClient.key == key && newClient.lastKeepAliveTimestamp == raw.now
      modifies Repr, newClient
      ensures Shape() && fresh(Repr - old(Repr) - {newClient}) && history == old(history) && net == old(net)
      ensures Settings() == old(Settings())
      ensures raw == Adding(old(raw), key, newClient.gatewayPrincipal)
    {
      hide FieldsShape, ClientsShape, GatewaysShape, Inserting, Numbering, Incrementing, Adding;
      AddingSteps(raw, key, newClient.gatewayPrincipal);
      Own(newClient);
      InsertClient(key, newClient);
      InitMessageNums(key);
      IncrementGatewayClientsCount(newClient.gatewayPrincipal);
    }

    // ---- removing clients ----

    method DecrementGatewayClientsCount(gateway: Principal)
      requires Shape()
      modifies this`raw, this`gatewaysToRemove, Repr - {this}
      ensures Shape() && raw == Decrementing(old(raw), gateway)
    {
      hide ClientsShape, GatewaysShape;
      var registeredGateway := GetRegisteredGateway(gateway);
      if registeredGateway.Ok? {
        var g := registeredGateway.value;
        var clientsCount := g.DecrementClientsCount();
        GatewayUpdated();
        if clientsCount == 0 {
          gatewaysToRemove := gatewaysToRemove[gateway := now];
        }
        raw := Decrementing(raw, gateway);
      }
    }

    method ForgetKey(key: ClientKey)
      requires Shape()
      modifies this`raw, this`clientsWaitingForKeepAlive, this`currentClientKeyMap
      ensures Shape()
      ensures raw == old(raw).(waiting := old(raw).waiting - {key}, current := old(raw).current - {key.clientPrincipal})
    {
      hide ClientsShape, GatewaysShape;
      clientsWaitingForKeepAlive := clientsWaitingForKeepAlive - {key};
      currentClientKeyMap := currentClientKeyMap - {key.clientPrincipal};
      raw := raw.(waiting := clientsWaitingForKeepAlive, current := currentClientKeyMap);
    }

    method ForgetMessageNums(key: ClientKey)
      requires Shape()
      modifies this`raw, this`outgoingMessageToClientNumMap, this`incomingMessageFromClientNumMap
      ensures Shape() && raw == old(raw).(outgoing := old(raw).outgoing - {key}, incoming := old(raw).incoming - {key})
    {
      hide ClientsShape, GatewaysShape;
      outgoingMessageToClientNumMap := outgoingMessageToClientNumMap - {key};
      incomingMessageFromClientNumMap := incomingMessageFromClientNumMap - {key};
      raw := raw.(outgoing := outgoingMessageToClientNumMap, incoming := incomingMessageFromClientNumMap);
    }

    method TakeClient(key: ClientKey) returns (removed: Result<RegisteredClient>)
      requires Shape()
      modifies this`raw, this`registeredClients
      ensures Shape() && raw == old(raw).(clients := old(raw).clients - {key})
      ensures removed.Ok? <==> key in old(raw).clients
      ensures removed.Ok? ==> removed.value.gatewayPrincipal == old(raw).clients[key].gateway
    {
      hide FieldsShape, GatewaysShape;
      removed := GetRegisteredClient(key);
      registeredClients := registeredClients - {key};
      NoteClients(raw.clients - {key});
    }

    /** Removes a client from every map, whether or not it is registered. */
    method DropClient(key: ClientKey) returns (removed: bool)
      requires Shape()
      modifies Repr
      ensures Shape() && Repr == old(Repr) && history == old(history) && net == old(net)
      ensures Settings() == old(Settings()) && raw == Dropping(old(raw), key)
      ensures removed <==> key in old(raw).clients
    {
      hide FieldsShape, ClientsShape, GatewaysShape, Decrementing, Dropping;
      DroppingSteps(raw, key);
      ForgetKey(key);
      ForgetMessageNums(key);
      var registeredClient := TakeClient(key);
      if registeredClient.Ok? {
        DecrementGatewayClientsCount(registeredClient.value.gatewayPrincipal);
      }
      return registeredClient.Ok?;
    }

    /** The public `send` without the bookkeeping of a step: what a handler calls. */
    method SendNow(principal: Principal, msgBytes: Bytes) returns (r: Result<()>)
      requires Coherent()
      modifies Repr
      ensures Coherent() && Repr == old(Repr) && history == old(history) && Settings() == old(Settings())
      ensures r == if principal in old(net).conns then Ok(()) else Err(ClientPrincipalNotConnected(principal))
      ensures net == Emit(old(net), principal, Data(msgBytes))
      ensures principal in old(raw).current ==> var key := old(raw).current[principal];
        && key in old(raw).clients && key in old(raw).outgoing && old(raw).clients[key].gateway in old(raw).gateways
        && var gateway := old(raw).clients[key].gateway;
        && gateway in raw.gateways && raw.gateways[gateway].queue != []
        && raw.gateways[gateway].queue[|raw.gateways[gateway].queue| - 1]
           == CanisterOutputMessage(key, Format(gateway, old(raw).gateways[gateway].nonce), libs.cborSerialize(
                WebsocketMessage(key, old(raw).outgoing[key] + 1, old(raw).now, false, msgBytes)))
    {
      hide FieldsShape, ClientsShape, GatewaysShape, Inv, Agrees, Format;
      CurrentKey(libs, raw, net, principal);
      match GetClientKeyFromPrincipal(principal) {
        case Err(e) => r := Err(e);
        case Ok(key) => r := SendBody(key, msgBytes, false, Data(msgBytes));
      }
    }

    method CountCall()
      requires Shape()
      modifies this`raw, this`closes
      ensures Shape() && raw == old(raw).(closes := old(raw).closes + 1)
    {
      hide ClientsShape, GatewaysShape;
      closes := closes + 1;
      raw := raw.(closes := closes);
    }

    /** Calls the application's on_close handler, which may send messages. */
    method CallOnClose(principal: Principal)
      requires Coherent()
      modifies Repr
      ensures Coherent() && Repr == old(Repr) && history == old(history) && Settings() == old(Settings())
      ensures net == Exec(CallClose(old(net), principal), Protocol.Pushes(old(net).app(principal, old(net).closes)))
    {
      hide FieldsShape, ClientsShape, GatewaysShape, Inv, Agrees, Emit, Exec, Protocol.Pushes;
      CallRefines(libs, raw, net, principal);
      SameFields();
      var sends := libs.onClose(principal, closes);
      CountCall();
      net := CallClose(net, principal);
      ghost var before := net;
      NoPushes(before);
      assert sends[..0] == [];
      for i := 0 to |sends|
        invariant Coherent() && Repr == old(Repr) && history == old(history) && Settings() == old(Settings())
        invariant net == Exec(before, Protocol.Pushes(sends[..i]))
      {
        PushesGrow(before, sends, i);
        var _ := SendNow(sends[i].0, sends[i].1);
      }
      assert sends[..|sends|] == sends;
    }

    /** Every caller has found the client registered. */
    method RemoveClient(key: ClientKey, closeReason: Option<CloseReason>)
      requires Coherent() && Protocol.Holds(net, key)
      modifies Repr
      ensures Coherent() && Repr == old(Repr) && history == old(history) && Settings() == old(Settings())
      ensures net == Exec(old(net), Protocol.Leaving(key.clientPrincipal, closeReason, old(net).app, old(net).closes))
      ensures key.clientPrincipal !in net.conns && net.closes == old(net).closes + 1 && net.app == old(net).app
    {
      hide FieldsShape, ClientsShape, GatewaysShape, Inv, Agrees, Emit, DropConnection, Act, Dropping, Exec,
        Protocol.Leaving;
      ghost var p := key.clientPrincipal;
      LeavingCounts(net, p, closeReason);
      Protocol.LeavingPhases(net, p, closeReason, net.app, net.closes);
      RemoveSteps(net, key, closeReason);
      if closeReason.Some? {
        var _ := SendServiceMessageToClient(key, CloseMessage(closeReason.value));
      }
      DropRefines(libs, raw, net, key);
      var removed := DropClient(key);
      DropKeepsApp(net, p);
      net := DropConnection(net, p);
      if removed {
        CallOnClose(key.clientPrincipal);
      }
    }

    /** Registers the client and sends it its open message; the message is always sent. */
    method OpenConnection(key: ClientKey, gatewayPrincipal: Principal) returns (r: Result<()>)
      requires Coherent() && key.clientPrincipal !in net.conns
      modifies Repr
      ensures Coherent() && fresh(Repr - old(Repr)) && history == old(history)
      ensures Settings() == old(Settings())
      ensures r == Ok(()) && net == Act(old(net), Connect(key.clientPrincipal, key.clientNonce, gatewayPrincipal))
      ensures gatewayPrincipal in raw.gateways && raw.gateways[gatewayPrincipal].queue != []
      ensures raw.gateways[gatewayPrincipal].nonce > 0
      ensures var g := raw.gateways[gatewayPrincipal];
        g.queue[|g.queue| - 1] == CanisterOutputMessage(key, Format(gatewayPrincipal, g.nonce - 1), libs.cborSerialize(
          WebsocketMessage(key, 1, old(raw).now, true, libs.candidEncode(OpenMessage(key)))))
    {
      hide FieldsShape, ClientsShape, GatewaysShape, Inv, Agrees, Emit, AddConnection, Act, Adding, Format,
        Protocol.Holds;
      AddRefines(libs, raw, net, key, gatewayPrincipal);
      AddingEntries(raw, key, gatewayPrincipal);
      var newClient := new RegisteredClient(key, gatewayPrincipal, GetCurrentTime());
      AddClient(key, newClient);
      net := AddConnection(net, key.clientPrincipal, key.clientNonce, gatewayPrincipal);
      r := SendServiceMessageToClient(key, OpenMessage(key));
      if r.Err? { return; }
      RecordRefines(libs, raw, net, OnOpen(key.clientPrincipal));
      net := Record(net, OnOpen(key.clientPrincipal));
    }

    // ---- incoming messages ----

    method IncrementExpectedIncomingMessageFromClientNum(key: ClientKey) returns (r: Result<()>)
      requires Shape()
      modifies this`raw, this`incomingMessageFromClientNumMap
      ensures Shape() && raw == Accepting(old(raw), key)
      ensures r == if key in old(raw).incoming then Ok(())
        else Err(ExpectedIncomingMessageToClientNumNotInitialized(key))
    {
      if key !in incomingMessageFromClientNumMap {
        return Err(ExpectedIncomingMessageToClientNumNotInitialized(key));
      }
      var next := incomingMessageFromClientNumMap[key] + 1;
      incomingMessageFromClientNumMap := incomingMessageFromClientNumMap[key := next];
      raw := Accepting(raw, key);
      return Ok(());
    }

    method HandleKeepAliveClientMessage(key: ClientKey)
      requires Shape()
      modifies this`raw, Repr - {this}
      ensures Shape() && raw == Hearing(old(raw), key)
    {
      hide ClientsShape, GatewaysShape;
      var clientMetadata := GetRegisteredClient(key);
      if clientMetadata.Ok? {
        clientMetadata.value.UpdateLastKeepAliveTimestamp(GetCurrentTime());
        ClientUpdated();
        raw := Hearing(raw, key);
      }
    }

    method AcceptNext(key: ClientKey) returns (r: Result<()>)
      requires Coherent() && Protocol.Holds(net, key)
      modifies Repr
      ensures Settings() == old(Settings())
      ensures Coherent() && Repr == old(Repr) && history == old(history) && Protocol.Holds(net, key)
      ensures r == Ok(()) && net == Act(old(net), Accept(key.clientPrincipal))
    {
      hide FieldsShape, ClientsShape, GatewaysShape, Inv, Agrees, Act, Accepting, Protocol.Holds;
      AcceptRefines(libs, raw, net, key);
      ExpectedNumber(libs, raw, net, key);
      r := IncrementExpectedIncomingMessageFromClientNum(key);
      net := Act(net, Accept(key.clientPrincipal));
    }

    /** Only a keep-alive is a service message that a client may send. */
    method HandleReceivedServiceMessage(key: ClientKey, content: Bytes) returns (r: Result<()>)
      requires Coherent() && Protocol.Holds(net, key)
      modifies Repr
      ensures Settings() == old(Settings())
      ensures Coherent() && Repr == old(Repr) && history == old(history)
      ensures var decoded := libs.candidDecode(content);
        if decoded.None? then r == Err(DecodeServiceMessageContent) && net == old(net)
        else if decoded.value.KeepAliveMessage? then r == Ok(()) && net == Act(old(net), Hear(key.clientPrincipal))
        else r == Err(InvalidServiceMessageError) && net == old(net)
    {
      hide FieldsShape, ClientsShape, GatewaysShape, Inv, Agrees, Act, Hearing, Protocol.Holds;
      var decoded := libs.candidDecode(content);
      if decoded.None? {
        return Err(DecodeServiceMessageContent);
      }
      match decoded.value
      case OpenMessage(_) => return Err(InvalidServiceMessageError);
      case AckMessage(_) => return Err(InvalidServiceMessageError);
      case CloseMessage(_) => return Err(InvalidServiceMessageError);
      case KeepAliveMessage(_) =>
        HearRefines(libs, raw, net, key);
        HandleKeepAliveClientMessage(key);
        net := Act(net, Hear(key.clientPrincipal));
        return Ok(());
    }

    /** Calls the application's on_message handler. */
    ghost method CallOnMessage(principal: Principal, content: Bytes)
      requires Coherent()
      modifies this`net
      ensures Coherent() && net == Act(old(net), Announce(principal, content))
    {
      hide FieldsShape, ClientsShape, GatewaysShape, Inv, Agrees;
      RecordRefines(libs, raw, net, OnMessage(principal, content));
      net := Record(net, OnMessage(principal, content));
    }

    // ---- the entry points ----

    /** Notes that a step is complete. */
    ghost method Finish(before: Net, step: Protocol.Step)
      requires Coherent() && Protocol.Reached(startTime, libs.onClose, history, before)
      requires Protocol.Enabled(before, step) && net == Protocol.Perform(before, step)
      modifies this`history
      ensures Valid() && history == old(history) + [step]
    {
      hide FieldsShape, ClientsShape, GatewaysShape, Inv, Agrees, Protocol.Perform, Protocol.Reached, Protocol.Enabled;
      Protocol.ReachedOne(startTime, libs.onClose, history, before, step, net);
      history := history + [step];
    }

    method WsOpen(caller: Principal, clientNonce: nat, gatewayPrincipal: Principal) returns (r: Result<()>)
      requires Valid()
      modifies Repr
      ensures now == old(now) && params == old(params) && timers == old(timers)
      ensures Valid() && fresh(Repr - old(Repr))
      ensures history == old(history) + [Protocol.WsOpen(caller, clientNonce, gatewayPrincipal)]
      ensures r == Protocol.Reply(old(net), Protocol.WsOpen(caller, clientNonce, gatewayPrincipal))
      ensures var key := ClientKey(caller, clientNonce);
        r == if caller == Principal("2vxsx-fae") then Err(AnonymousPrincipalNotAllowed)
             else if key in old(registeredClients) then Err(ClientKeyAlreadyConnected(key))
             else Ok(())
      ensures r.Err? ==> net == old(net)
      ensures r.Ok? ==>
        var key := ClientKey(caller, clientNonce);
        && (forall k :: k in registeredClients <==>
              k == key || (k in old(registeredClients) && k.clientPrincipal != caller))
        && key in registeredClients && registeredClients[key].gatewayPrincipal == gatewayPrincipal
        && registeredClients[key].lastKeepAliveTimestamp == old(now)
        && key in incomingMessageFromClientNumMap && incomingMessageFromClientNumMap[key] == 1
        && key in outgoingMessageToClientNumMap && outgoingMessageToClientNumMap[key] == 1
        && caller in currentClientKeyMap && currentClientKeyMap[caller] == key
      ensures r.Ok? ==>
        var key := ClientKey(caller, clientNonce);
        && gatewayPrincipal in registeredGateways && gatewayPrincipal !in gatewaysToRemove
        && var g := registeredGateways[gatewayPrincipal];
        && |g.messagesQueue| > 0 && g.outgoingMessageNonce > 0
        && g.messagesQueue[|g.messagesQueue| - 1]
           == CanisterOutputMessage(key, Format(gatewayPrincipal, g.outgoingMessageNonce - 1), libs.cborSerialize(
                WebsocketMessage(key, 1, old(now), true, libs.candidEncode(OpenMessage(key)))))
    {
      hide Valid, Coherent, Shape, FieldsShape, ClientsShape, GatewaysShape, Inv, Agrees, Exec, Format,
        Protocol.Perform, Protocol.Leaving, Protocol.Reply, Protocol.Reached;
      ghost var before, was := net, raw;
      var key := ClientKey(caller, clientNonce);
      ValidParts();
      ValidFields();
      r := WsOpenStep(caller, clientNonce, gatewayPrincipal);
      ValidParts();
      Protocol.OpenPhases(before, caller, clientNonce, gatewayPrincipal);
      RegisteredKey(libs, was, before, key);
      if r.Ok? {
        OpenOutcome(libs, was, before, raw, net, key, gatewayPrincipal);
      }
      ValidFields();
    }

    method WsOpenStep(caller: Principal, clientNonce: nat, gatewayPrincipal: Principal) returns (r: Result<()>)
      requires Valid()
      modifies Repr
      ensures Settings() == old(Settings())
      ensures Valid() && fresh(Repr - old(Repr))
      ensures var step := Protocol.WsOpen(caller, clientNonce, gatewayPrincipal);
        && history == old(history) + [step] && net == Protocol.Perform(old(net), step)
        && r == Protocol.Reply(old(net), step)
      ensures r == if caller == ANONYMOUS then Err(AnonymousPrincipalNotAllowed)
                   else if ClientKey(caller, clientNonce) in old(raw).clients then
                     Err(ClientKeyAlreadyConnected(ClientKey(caller, clientNonce)))
                   else Ok(())
      ensures r.Ok? ==>
        && gatewayPrincipal in raw.gateways && raw.gateways[gatewayPrincipal].nonce > 0
        && var key, g := ClientKey(caller, clientNonce), raw.gateways[gatewayPrincipal];
        && g.queue != []
        && g.queue[|g.queue| - 1] == CanisterOutputMessage(key, Format(gatewayPrincipal, g.nonce - 1),
             libs.cborSerialize(
               WebsocketMessage(key, 1, old(raw).now, true, libs.candidEncode(OpenMessage(key)))))
    {
      hide FieldsShape, ClientsShape, GatewaysShape, Inv, Agrees, Act, Exec, Format, Protocol.Perform, Protocol.Leaving,
        Protocol.Reached;
      ghost var step := Protocol.WsOpen(caller, clientNonce, gatewayPrincipal);
      ghost var before, was := net, raw;
      Protocol.OpenPhases(before, caller, clientNonce, gatewayPrincipal);
      var key := ClientKey(caller, clientNonce);
      RegisteredKey(libs, raw, net, key);
      CurrentKey(libs, raw, net, caller);
      if caller == ANONYMOUS {
        Finish(before, step);
        return Err(AnonymousPrincipalNotAllowed);
      }
      if GetRegisteredClient(key).Ok? {
        Finish(before, step);
        return Err(ClientKeyAlreadyConnected(key));
      }
      match GetClientKeyFromPrincipal(caller) {
        case Err(_) =>
        case Ok(oldClientKey) =>
          RemoveClient(oldClientKey, None);
          LeavingMoment(before, caller);
      }
      SameTime(libs, was, before);
      SameTime(libs, raw, net);
      r := OpenConnection(key, gatewayPrincipal);
      Finish(before, step);
    }

    method WsClose(caller: Principal, key: ClientKey) returns (r: Result<()>)
      requires Valid()
      modifies Repr
      ensures now == old(now) && params == old(params) && timers == old(timers)
      ensures Valid() && Repr == old(Repr)
      ensures history == old(history) + [Protocol.WsClose(caller, key)]
      ensures r == Protocol.Reply(old(net), Protocol.WsClose(caller, key))
      ensures r ==
        if caller !in old(registeredGateways) then Err(GatewayNotRegistered(caller))
        else if key !in old(registeredClients) then Err(ClientKeyNotConnected(key))
        else if old(registeredClients)[key].gatewayPrincipal != caller then
          Err(ClientNotRegisteredToGateway(key, caller))
        else Ok(())
      ensures r.Err? ==> net == old(net)
      ensures r.Ok? ==>
        && registeredClients.Keys == old(registeredClients).Keys - {key}
        && key.clientPrincipal !in currentClientKeyMap
        && ((forall k :: k in old(registeredClients) && k != key ==>
               old(registeredClients)[k].gatewayPrincipal != caller) ==>
              caller in gatewaysToRemove && gatewaysToRemove[caller] == old(now))
    {
      hide Valid, Coherent, Shape, FieldsShape, ClientsShape, GatewaysShape, Inv, Agrees, Exec, Format,
        Protocol.Perform, Protocol.Leaving, Protocol.Reply, Protocol.Reached;
      ghost var before, was := net, raw;
      ValidParts();
      ValidFields();
      r := WsCloseStep(caller, key);
      ValidParts();
      Protocol.ClosePhases(before, caller, key);
      if r.Ok? {
        LeaveOutcome(libs, was, before, raw, net, key, None);
        EmptiedOutcome(libs, was, before, raw, net, key, None);
      }
      ValidFields();
    }

    method WsCloseStep(caller: Principal, key: ClientKey) returns (r: Result<()>)
      requires Valid()
      modifies Repr
      ensures Settings() == old(Settings())
      ensures Valid() && Repr == old(Repr)
      ensures history == old(history) + [Protocol.WsClose(caller, key)]
      ensures net == Protocol.Perform(old(net), Protocol.WsClose(caller, key))
      ensures r == Protocol.Reply(old(net), Protocol.WsClose(caller, key))
      ensures r ==
        if caller !in old(raw).gateways then Err(GatewayNotRegistered(caller))
        else if key !in old(raw).clients then Err(ClientKeyNotConnected(key))
        else if old(raw).clients[key].gateway != caller then Err(ClientNotRegisteredToGateway(key, caller))
        else Ok(())
      ensures r.Ok? ==> Protocol.Holds(old(net), key)
    {
      hide FieldsShape, ClientsShape, GatewaysShape, Inv, Agrees, Exec, Protocol.Perform, Protocol.Leaving,
        Protocol.Reached;
      ghost var before := net;
      Protocol.ClosePhases(before, caller, key);
      GatewayKnown(libs, raw, net, caller);
      RegisteredKey(libs, raw, net, key);
      ClientGateway(libs, raw, net, key);
      r := CheckClosable(caller, key);
      if r.Ok? {
        RemoveClient(key, None);
      }
      Finish(before, Protocol.WsClose(caller, key));
    }

    /** The checks of WsClose, in their order. */
    method CheckClosable(caller: Principal, key: ClientKey) returns (r: Result<()>)
      requires Shape()
      ensures r ==
        if caller !in raw.gateways then Err(GatewayNotRegistered(caller))
        else if key !in raw.clients then Err(ClientKeyNotConnected(key))
        else if raw.clients[key].gateway != caller then Err(ClientNotRegisteredToGateway(key, caller))
        else Ok(())
    {
      var _ :- GetRegisteredGateway(caller);
      var registeredClient :- GetRegisteredClient(key);
      if registeredClient.gatewayPrincipal != caller {
        return Err(ClientNotRegisteredToGateway(key, caller));
      }
      return Ok(());
    }

    function MessageStep(caller: Principal, msg: WebsocketMessage): Protocol.Step {
      Protocol.WsMessage(caller, msg.clientKey, msg.sequenceNum, msg.isServiceMessage, msg.content,
          libs.candidDecode(msg.content))
    }

    /** A message from the client's current key: its number decides. */
    method HandleNumbered(msg: WebsocketMessage) returns (r: Result<()>)
      requires Coherent() && Protocol.Holds(net, msg.clientKey)
      modifies Repr
      ensures Settings() == old(Settings())
      ensures Coherent() && Repr == old(Repr) && history == old(history)
      ensures var p, expected := msg.clientKey.clientPrincipal,
        old(net).conns[msg.clientKey.clientPrincipal].received + 1;
        var accepted, decoded := Act(old(net), Accept(p)), libs.candidDecode(msg.content);
        if msg.sequenceNum != expected then
          r == Err(IncomingSequenceNumberWrong(expected, msg.sequenceNum)) && 
          net == Exec(old(net), Protocol.Leaving(p, Some(WrongSequenceNumber), old(net).app, old(net).closes))
        else if !msg.isServiceMessage then r == Ok(()) && net == Act(accepted, Announce(p, msg.content))
        else if decoded.None? then r == Err(DecodeServiceMessageContent) && net == accepted
        else if decoded.value.KeepAliveMessage? then r == Ok(()) && net == Act(accepted, Hear(p))
        else r == Err(InvalidServiceMessageError) && net == accepted
    {
      hide FieldsShape, ClientsShape, GatewaysShape, Inv, Agrees, Act;
      var key := msg.clientKey;
      ExpectedNumber(libs, raw, net, key);
      match GetExpectedIncomingMessageFromClientNum(key)
      case Err(e) => r := Err(e);
      case Ok(expectedSequenceNum) =>
        if msg.sequenceNum != expectedSequenceNum {
          RemoveClient(key, Some(WrongSequenceNumber));
          return Err(IncomingSequenceNumberWrong(expectedSequenceNum, msg.sequenceNum));
        }
        r := AcceptNext(key);
        if r.Err? { return; }
        if msg.isServiceMessage {
          r := HandleReceivedServiceMessage(key, msg.content);
        } else {
          CallOnMessage(key.clientPrincipal, msg.content);
        }
    }

    method WsMessage(caller: Principal, msg: WebsocketMessage) returns (r: Result<()>)
      requires Valid()
      modifies Repr
      ensures now == old(now) && params == old(params) && timers == old(timers)
      ensures Valid() && Repr == old(Repr)
      ensures var step := MessageStep(caller, msg);
        history == old(history) + [step] && r == Protocol.Reply(old(net), step)
      ensures caller !in old(currentClientKeyMap) ==>
        r == Err(ClientPrincipalNotConnected(caller)) && net == old(net)
      ensures caller in old(currentClientKeyMap) && msg.clientKey != old(currentClientKeyMap)[caller] ==>
        r == Err(ClientKeyMessageMismatch(msg.clientKey)) && net == old(net)
      ensures caller in old(currentClientKeyMap) && msg.clientKey == old(currentClientKeyMap)[caller] ==>
        var key := msg.clientKey;
        && key in old(registeredClients) && key in old(incomingMessageFromClientNumMap)
        && var expected := old(incomingMessageFromClientNumMap)[key];
        if msg.sequenceNum != expected then
          && r == Err(IncomingSequenceNumberWrong(expected, msg.sequenceNum))
          && registeredClients.Keys == old(registeredClients).Keys - {key} && caller !in currentClientKeyMap
          && key in old(outgoingMessageToClientNumMap)
          && var gateway := old(registeredClients)[key].gatewayPrincipal;
          && gateway in old(registeredGateways) && gateway in registeredGateways
          && CanisterOutputMessage(key, Format(gateway, old(registeredGateways[gateway].outgoingMessageNonce)),
               libs.cborSerialize(
                 WebsocketMessage(key, old(outgoingMessageToClientNumMap)[key] + 1, old(now), true,
                                  libs.candidEncode(CloseMessage(WrongSequenceNumber)))))
             in registeredGateways[gateway].messagesQueue
        else
          && registeredClients.Keys == old(registeredClients).Keys && key in registeredClients
          && key in incomingMessageFromClientNumMap && incomingMessageFromClientNumMap[key] == expected + 1
          && caller in old(net).conns
          && var accepted := [Accepted(old(net).conns[caller].id, expected)];
          && var unseen := registeredClients[key].lastKeepAliveTimestamp
                           == old(registeredClients[msg.clientKey].lastKeepAliveTimestamp);
          if !msg.isServiceMessage then
            r == Ok(()) && net.log == old(net).log + accepted + [OnMessage(caller, msg.content)] && unseen
          else
            && net.log == old(net).log + accepted
            && match libs.candidDecode(msg.content)
               case None => r == Err(DecodeServiceMessageContent) && unseen
               case Some(KeepAliveMessage(_)) =>
                 r == Ok(()) && registeredClients[key].lastKeepAliveTimestamp == old(now)
               case Some(_) => r == Err(InvalidServiceMessageError) && unseen
    {
      hide Valid, Coherent, Shape, FieldsShape, ClientsShape, GatewaysShape, Inv, Agrees, Exec, Format,
        Protocol.Perform, Protocol.Leaving, Protocol.Reply, Protocol.Reached;
      ghost var step, before, was := MessageStep(caller, msg), net, raw;
      ValidParts();
      ValidFields();
      MessageReply(libs, raw, net, step);
      r := WsMessageStep(caller, msg);
      ValidParts();
      Protocol.MessagePhases(before, step);
      CurrentKey(libs, was, before, caller);
      if caller in was.current && msg.clientKey == was.current[caller] {
        ExpectedNumber(libs, was, before, msg.clientKey);
        if msg.sequenceNum != was.incoming[msg.clientKey] {
          FarewellOutcome(libs, was, before, raw, net, msg.clientKey, WrongSequenceNumber);
          LeaveOutcome(libs, was, before, raw, net, msg.clientKey, Some(WrongSequenceNumber));
        } else {
          MessageOutcome(libs, was, before, raw, net, step);
        }
      }
      ValidFields();
    }

    method WsMessageStep(caller: Principal, msg: WebsocketMessage) returns (r: Result<()>)
      requires Valid()
      modifies Repr
      ensures Settings() == old(Settings())
      ensures Valid() && Repr == old(Repr)
      ensures var step := MessageStep(caller, msg);
        && history == old(history) + [step] && net == Protocol.Perform(old(net), step)
        && r == Protocol.Reply(old(net), step)
    {
      hide FieldsShape, ClientsShape, GatewaysShape, Inv, Agrees, Act, Exec, Protocol.Perform, Protocol.Leaving,
        Protocol.Reached;
      ghost var step := MessageStep(caller, msg);
      ghost var before := net;
      Protocol.MessagePhases(before, step);
      CurrentKey(libs, raw, net, caller);
      var registeredClientKey := GetClientKeyFromPrincipal(caller);
      if registeredClientKey.Err? {
        Finish(before, step);
        return Err(ClientPrincipalNotConnected(caller));
      }
      if msg.clientKey != registeredClientKey.value {
        Finish(before, step);
        return Err(ClientKeyMessageMismatch(msg.clientKey));
      }
      r := HandleNumbered(msg);
      Finish(before, step);
    }

    method Send(principal: Principal, msgBytes: Bytes) returns (r: Result<()>)
      requires Valid()
      modifies Repr
      ensures now == old(now) && params == old(params) && timers == old(timers)
      ensures Valid() && Repr == old(Repr)
      ensures history == old(history) + [Protocol.Send(principal, msgBytes)]
      ensures r == Protocol.Reply(old(net), Protocol.Send(principal, msgBytes))
      ensures r == if principal in old(currentClientKeyMap) then Ok(()) else Err(ClientPrincipalNotConnected(principal))
      ensures r.Err? ==> net == old(net)
      ensures r.Ok? ==>
        var key := old(currentClientKeyMap)[principal];
        && key in old(registeredClients) && key in old(outgoingMessageToClientNumMap)
        && var gateway := old(registeredClients)[key].gatewayPrincipal;
        && gateway in old(registeredGateways) && gateway in registeredGateways
        && var queue := registeredGateways[gateway].messagesQueue;
           queue != [] && queue[|queue| - 1]
           == CanisterOutputMessage(key, Format(gateway, old(registeredGateways[gateway].outgoingMessageNonce)),
                libs.cborSerialize(
                  WebsocketMessage(key, old(outgoingMessageToClientNumMap)[key] + 1, old(now), false, msgBytes)))
    {
      hide FieldsShape, ClientsShape, GatewaysShape, Inv, Agrees, Emit, Format, Protocol.Perform, Protocol.Reached;
      SameFields();
      SameRecords();
      CurrentKey(libs, raw, net, principal);
      ghost var step := Protocol.Send(principal, msgBytes);
      ghost var before := net;
      Protocol.SendPhases(before, principal, msgBytes);
      r := SendNow(principal, msgBytes);
      SameRecords();
      Finish(before, step);
    }

    method Close(principal: Principal) returns (r: Result<()>)
      requires Valid()
      modifies Repr
      ensures now == old(now) && params == old(params) && timers == old(timers)
      ensures Valid() && Repr == old(Repr)
      ensures history == old(history) + [Protocol.Close(principal)]
      ensures r == Protocol.Reply(old(net), Protocol.Close(principal))
      ensures r == if principal in old(currentClientKeyMap) then Ok(()) else Err(ClientPrincipalNotConnected(principal))
      ensures r.Err? ==> net == old(net)
      ensures r.Ok? ==>
        var key := old(currentClientKeyMap)[principal];
        && key in old(registeredClients) && key in old(outgoingMessageToClientNumMap)
        && registeredClients.Keys == old(registeredClients).Keys - {key} && principal !in currentClientKeyMap
        && var gateway := old(registeredClients)[key].gatewayPrincipal;
        && gateway in old(registeredGateways) && gateway in registeredGateways
        && CanisterOutputMessage(key, Format(gateway, old(registeredGateways[gateway].outgoingMessageNonce)),
             libs.cborSerialize(
               WebsocketMessage(key, old(outgoingMessageToClientNumMap)[key] + 1, old(now), true,
                                libs.candidEncode(CloseMessage(ClosedByApplication)))))
           in registeredGateways[gateway].messagesQueue
    {
      hide Valid, Coherent, Shape, FieldsShape, ClientsShape, GatewaysShape, Inv, Agrees, Exec, Format,
        Protocol.Perform, Protocol.Leaving, Protocol.Reply, Protocol.Reached;
      ghost var before, was := net, raw;
      ValidParts();
      ValidFields();
      CurrentKey(libs, raw, net, principal);
      r := CloseStep(principal);
      ValidParts();
      Protocol.CloseNowPhases(before, principal);
      if r.Ok? {
        CurrentRegistered(libs, was, before, principal);
        ghost var key := was.current[principal];
        FarewellOutcome(libs, was, before, raw, net, key, ClosedByApplication);
        LeaveOutcome(libs, was, before, raw, net, key, Some(ClosedByApplication));
      }
      ValidFields();
    }

    method CloseStep(principal: Principal) returns (r: Result<()>)
      requires Valid()
      modifies Repr
      ensures Settings() == old(Settings())
      ensures Valid() && Repr == old(Repr)
      ensures history == old(history) + [Protocol.Close(principal)]
      ensures net == Protocol.Perform(old(net), Protocol.Close(principal))
      ensures r == Protocol.Reply(old(net), Protocol.Close(principal))
      ensures r == if principal in old(net).conns then Ok(()) else Err(ClientPrincipalNotConnected(principal))
    {
      hide FieldsShape, ClientsShape, GatewaysShape, Inv, Agrees, Exec, Protocol.Perform, Protocol.Leaving,
        Protocol.Reached;
      ghost var before := net;
      Protocol.CloseNowPhases(before, principal);
      CurrentKey(libs, raw, net, principal);
      r := Ok(());
      match GetClientKeyFromPrincipal(principal) {
        case Err(e) => r := Err(e);
        case Ok(key) => RemoveClient(key, Some(ClosedByApplication));
      }
      Finish(before, Protocol.Close(principal));
    }

    // ---- initialisation and time ----

    method SetParams(newParams: Params)
      requires Shape()
      modifies this`raw, this`params
      ensures Shape() && raw == old(raw).(params := newParams)
    {
      hide ClientsShape, GatewaysShape;
      params := newParams;
      raw := raw.(params := newParams);
    }

    method SetTimers(newTimers: Timers)
      requires Shape()
      modifies this`raw, this`timers
      ensures Shape() && timers == newTimers && raw == old(raw).(timers := newTimers)
    {
      hide ClientsShape, GatewaysShape;
      timers := newTimers;
      raw := raw.(timers := newTimers);
    }

    method CancelAckTimer()
      requires Shape()
      modifies this`raw, this`timers
      ensures Shape() && raw == old(raw).(timers := timers)
      ensures timers.ack == None && timers.keepAlive == old(timers).keepAlive && timers.next == old(timers).next
      ensures forall id :: id in timers.pending <==> id in old(timers).pending && old(timers).ack != Some(id)
      ensures forall id :: id in timers.pending ==> timers.pending[id] == old(timers).pending[id]
    {
      hide ClientsShape, GatewaysShape;
      match timers.ack
      case None =>
      case Some(id) => SetTimers(timers.(ack := None, pending := timers.pending - {id}));
    }

    method CancelKeepAliveTimer()
      requires Shape()
      modifies this`raw, this`timers
      ensures Shape() && raw == old(raw).(timers := timers)
      ensures timers.keepAlive == None && timers.ack == old(timers).ack && timers.next == old(timers).next
      ensures forall id :: id in timers.pending <==> id in old(timers).pending && old(timers).keepAlive != Some(id)
      ensures forall id :: id in timers.pending ==> timers.pending[id] == old(timers).pending[id]
    {
      hide ClientsShape, GatewaysShape;
      match timers.keepAlive
      case None =>
      case Some(id) => SetTimers(timers.(keepAlive := None, pending := timers.pending - {id}));
    }

    /** Afterwards no id is stored and neither stored timer is pending; where the stored ids
        covered everything, as they always do, nothing is pending at all. */
    method CancelTimers()
      requires Shape()
      modifies this`raw, this`timers
      ensures Shape() && raw == old(raw).(timers := timers)
      ensures Cancelled(old(timers), timers)
      ensures Coherence.TimersDisciplined(old(timers)) ==> timers.pending == map[]
    {
      hide FieldsShape, ClientsShape, GatewaysShape;
      CancelAckTimer();
      CancelKeepAliveTimer();
    }

    /** One more timer is pending, due after the interval and every interval from then on,
        and it is the stored one; every other pending timer is as before. */
    method ScheduleSendAckToClients()
      requires Shape()
      modifies this`raw, this`timers
      ensures Shape() && raw == old(raw).(timers := timers)
      ensures AcksScheduled(old(timers), timers, now, params.sendAckIntervalMs * NS_PER_MS)
      ensures old(timers).next !in old(timers).pending ==> |timers.pending| == |old(timers).pending| + 1
    {
      hide ClientsShape, GatewaysShape;
      var interval := params.sendAckIntervalMs * NS_PER_MS;
      var id := timers.next;
      SetTimers(timers.(pending := timers.pending[id := Timer(SendAcks, now + interval, Some(interval))],
          next := id + 1));
      SetTimers(timers.(ack := Some(id)));
      if id !in old(timers).pending {
        OneMorePending(old(timers), timers, now, interval);
      }
    }

    /** Invalid parameters trap before anything is changed. */
    method Init(newParams: Params) returns (r: Result<()>)
      requires Valid()
      modifies Repr
      ensures now == old(now) && raw == old(raw).(params := params, timers := timers)
      ensures Valid() && Repr == old(Repr)
      ensures var step := Protocol.Init(newParams.sendAckIntervalMs, newParams.maxNumberOfReturnedMessages);
        history == old(history) + [step] && r == Protocol.Reply(old(net), step)
      ensures r == if newParams.sendAckIntervalMs <= 60_000 then Err(TrappedOnInvalidParameters) else Ok(())
      ensures r.Ok? ==>
        && params == newParams && timers.ack.Some?
        && var interval := newParams.sendAckIntervalMs * 1_000_000;
           timers.pending == map[timers.ack.value := Timer(SendAcks, old(now) + interval, Some(interval))]
      ensures r.Err? ==> params == old(params) && timers == old(timers) && net == old(net)
    {
      hide FieldsShape, ClientsShape, GatewaysShape, Inv, Agrees, Cancelled, AcksScheduled, Protocol.Reached;
      ghost var step := Protocol.Init(newParams.sendAckIntervalMs, newParams.maxNumberOfReturnedMessages);
      ghost var before := net;
      Protocol.PerformShort(before, step);
      hide Protocol.Perform;
      SameFields();
      if newParams.sendAckIntervalMs <= CLIENT_KEEP_ALIVE_TIMEOUT_MS {
        Finish(before, step);
        return Err(TrappedOnInvalidParameters);
      }
      SetParams(newParams);
      CancelTimers();
      ghost var cancelled := timers;
      SameFields();
      ScheduleSendAckToClients();
      InitRefines(libs, old(raw), net, newParams, cancelled, timers);
      net := Protocol.Perform(net, step);
      Finish(before, step);
      return Ok(());
    }

    /** Time passes, but not beyond the deadline of a pending timer. */
    method AdvanceTime(to: nat)
      requires Valid() && now <= to && forall id :: id in timers.pending ==> to <= timers.pending[id].deadline
      modifies Repr
      ensures raw == old(raw).(now := to)
      ensures Valid() && Repr == old(Repr) && now == to
      ensures history == old(history) + [Protocol.Wait(to)] && net == old(net).(now := to)
    {
      hide ClientsShape, GatewaysShape, Inv, Agrees, Protocol.Perform, Protocol.Reached;
      ghost var step := Protocol.Wait(to);
      ghost var before := net;
      TickRefines(libs, raw, net, to);
      now := to;
      raw := raw.(now := to);
      net := net.(now := to);
      Finish(before, step);
    }

    // ---- the acknowledgement timer ----

    method AddClientToWaitForKeepAlive(key: ClientKey)
      requires Shape()
      modifies this`raw, this`clientsWaitingForKeepAlive
      ensures Shape() && raw == old(raw).(waiting := old(raw).waiting + {key})
    {
      hide ClientsShape, GatewaysShape;
      clientsWaitingForKeepAlive := clientsWaitingForKeepAlive + {key};
      raw := raw.(waiting := clientsWaitingForKeepAlive);
    }

    /** The expected number is at least one, so the subtraction does not underflow, and
        neither error that the source ignores occurs. */
    method AckOne(key: ClientKey)
      requires Coherent() && Protocol.Holds(net, key)
      modifies Repr
      ensures Coherent() && Repr == old(Repr) && history == old(history) && Settings() == old(Settings())
      ensures net == Act(old(net), Acknowledge(key.clientPrincipal))
    {
      hide FieldsShape, ClientsShape, GatewaysShape, Inv, Agrees, Emit, Act;
      ExpectedNumber(libs, raw, net, key);
      AcknowledgeShape(net, key.clientPrincipal);
      match GetExpectedIncomingMessageFromClientNum(key)
      case Err(_) =>
      case Ok(expectedIncomingSequenceNum) =>
        var lastIncomingSequenceNum: nat := expectedIncomingSequenceNum - 1;
        EmitHolds(net, key.clientPrincipal, Service(AckMessage(lastIncomingSequenceNum)), key);
        var sent := SendServiceMessageToClient(key, AckMessage(lastIncomingSequenceNum));
        if sent.Ok? {
          WaitRefines(libs, raw, net, key);
          AddClientToWaitForKeepAlive(key);
          net := net.(conns := net.conns[key.clientPrincipal := net.conns[key.clientPrincipal].(waiting := true)]);
        }
    }

    method SendAckToClients() returns (ghost order: seq<Principal>)
      requires Coherent()
      modifies Repr
      ensures Coherent() && Repr == old(Repr) && history == old(history) && Settings() == old(Settings())
      ensures Protocol.Enumerates(order, old(net).conns.Keys)
      ensures net == Exec(old(net), Protocol.Acks(order))
    {
      hide FieldsShape, ClientsShape, GatewaysShape, Inv, Agrees, Act, AllHeld, Principals;
      ghost var before := net;
      ConnectedKeys(libs, raw, net);
      ghost var all := raw.clients.Keys;
      var remaining := RegisteredKeys();
      order := [];
      while remaining != {}
        invariant Coherent() && Repr == old(Repr) && history == old(history) && Settings() == old(Settings())
        invariant Visited(order, all, remaining) && AllHeld(before, all) && AllHeld(net, all)
        invariant net == Exec(before, Protocol.Acks(order))
      {
        var key :| key in remaining;
        HeldOne(net, all, key);
        AcksGrow(before, order, key.clientPrincipal);
        AckHolds(net, key.clientPrincipal, all);
        VisitOne(net, order, all, remaining, key);
        AckOne(key);
        remaining := remaining - {key};
        order := order + [key.clientPrincipal];
      }
      VisitedAll(order, all);
    }

    function RegisteredKeys(): (keys: set<ClientKey>)
      requires Shape()
      reads this, Repr
      ensures keys == raw.clients.Keys
    {
      registeredClients.Keys
    }

    /** The acknowledgement timer fires: a round of acks, the check scheduled, and the
        interval timer re-armed. */
    method AckTimerFires(id: nat) returns (ghost order: seq<Principal>, ghost acks: map<ClientKey, Ack>)
      requires Valid() && id in timers.pending && timers.pending[id].kind == SendAcks
      requires timers.pending[id].deadline == now
      modifies Repr
      ensures now == old(now) && params == old(params)
      ensures Valid() && Repr == old(Repr)
      ensures history == old(history) + [Protocol.AckTimer(order)]
      ensures registeredClients.Keys == old(registeredClients).Keys == acks.Keys
      ensures clientsWaitingForKeepAlive == old(registeredClients).Keys
      ensures forall key :: key in old(registeredClients) ==>
        && key in old(outgoingMessageToClientNumMap)
        && acks[key].sequenceNum == old(outgoingMessageToClientNumMap)[key] + 1
        && key in old(incomingMessageFromClientNumMap)
        && acks[key].last + 1 == old(incomingMessageFromClientNumMap)[key]
      ensures forall key :: key in old(registeredClients) ==>
        var gateway := old(registeredClients)[key].gatewayPrincipal;
        && gateway in old(registeredGateways) && gateway in registeredGateways
        && old(registeredGateways[gateway].outgoingMessageNonce) <= acks[key].nonce
        && CanisterOutputMessage(key, Format(gateway, acks[key].nonce), libs.cborSerialize(
             WebsocketMessage(key, acks[key].sequenceNum, old(now), true,
                              libs.candidEncode(AckMessage(acks[key].last)))))
           in registeredGateways[gateway].messagesQueue
      ensures id in timers.pending && timers.keepAlive.Some? && timers.keepAlive.value in timers.pending
      ensures timers.pending[id] == Timer(SendAcks, old(now) + params.sendAckIntervalMs * 1_000_000,
                                          Some(params.sendAckIntervalMs * 1_000_000))
      ensures timers.pending[timers.keepAlive.value] == Timer(CheckKeepAlive, old(now) + 60_000_000_000, None)
    {
      hide FieldsShape, ClientsShape, GatewaysShape, Inv, Agrees, Format, Protocol.Perform, Protocol.Enabled,
        Protocol.Reached, Streams.Ledger, ServiceOnWire, Acked;
      ghost var before, was := net, raw;
      ReachedSound(startTime, libs.onClose, history, net);
      ValidFields();
      order := PerformRound(id);
      RoundAcked(libs, was, before, net, order);
      AllOnWire(libs, raw, net);
      RoundKeeps(libs, was, before, raw, net, order);
      Finish(before, Protocol.AckTimer(order));
      ValidFields();
      acks := RoundOutcome(libs, was, before, raw, net, was.clients.Keys);
    }

    /** A round of acks, the check scheduled, and the interval timer re-armed. */
    method PerformRound(id: nat) returns (ghost order: seq<Principal>)
      requires Coherent() && id in timers.pending && timers.pending[id].kind == SendAcks
      requires timers.pending[id].deadline == now
      modifies Repr
      ensures now == old(now) && params == old(params)
      ensures Coherent() && Repr == old(Repr) && history == old(history)
      ensures Protocol.Enabled(old(net), Protocol.AckTimer(order))
      ensures net == Protocol.Perform(old(net), Protocol.AckTimer(order))
      ensures id in timers.pending && timers.keepAlive.Some? && timers.keepAlive.value in timers.pending
      ensures timers.pending[id] == Timer(SendAcks, old(now) + params.sendAckIntervalMs * 1_000_000,
                                          Some(params.sendAckIntervalMs * 1_000_000))
      ensures timers.pending[timers.keepAlive.value] == Timer(CheckKeepAlive, old(now) + 60_000_000_000, None)
    {
      hide FieldsShape, ClientsShape, GatewaysShape, Inv, Agrees, Act, Exec, Protocol.Perform, Rescheduled;
      ghost var before := net;
      SameFields();
      SameTime(libs, raw, net);
      DueTimer(libs, raw, net, id);
      order := SendAckToClients();
      StillDue(before, order, None);
      AckPhases(before, order);
      SameFields();
      SameTime(libs, raw, net);
      FinishAcksRefines(libs, raw, net);
      DueTimer(libs, raw, net, id);
      RearmedTimers(raw.timers, id, net.now, IntervalNs(net));
      ScheduleCheckAndRearm(id);
      SameFields();
      net := Act(net, FinishAcks);
    }

    lemma SameFields()
      requires Shape()
      ensures timers == raw.timers && now == raw.now && params == raw.params && closes == raw.closes
      ensures certTree == raw.tree && certifiedData == raw.certified.data
      ensures currentClientKeyMap == raw.current && clientsWaitingForKeepAlive == raw.waiting
      ensures outgoingMessageToClientNumMap == raw.outgoing && incomingMessageFromClientNumMap == raw.incoming
      ensures gatewaysToRemove == raw.toRemove
    {}

    /** The fields and the records hold the value `raw`. */
    lemma ValidFields()
      requires Valid()
      ensures timers == raw.timers && now == raw.now && params == raw.params && certTree == raw.tree
      ensures gatewaysToRemove == raw.toRemove
      ensures currentClientKeyMap == raw.current && clientsWaitingForKeepAlive == raw.waiting
      ensures outgoingMessageToClientNumMap == raw.outgoing && incomingMessageFromClientNumMap == raw.incoming
      ensures registeredClients.Keys == raw.clients.Keys && registeredGateways.Keys == raw.gateways.Keys
      ensures forall k :: k in registeredClients ==>
        && registeredClients[k].gatewayPrincipal == raw.clients[k].gateway
        && registeredClients[k].lastKeepAliveTimestamp == raw.clients[k].lastKeepAlive
      ensures forall g :: g in registeredGateways ==>
        && registeredGateways[g].messagesQueue == raw.gateways[g].queue
        && registeredGateways[g].outgoingMessageNonce == raw.gateways[g].nonce
    {
      hide FieldsShape, ClientsShape, GatewaysShape, Inv, Agrees, Protocol.Reached;
      SameFields();
      SameRecords();
    }

    lemma ValidParts()
      requires Valid()
      ensures Coherent() && Inv(net) && Agrees(libs, raw, net)
    {}

    lemma SameRecords()
      requires Shape()
      ensures registeredClients.Keys == raw.clients.Keys && registeredGateways.Keys == raw.gateways.Keys
      ensures forall k :: k in registeredClients ==>
        && registeredClients[k].gatewayPrincipal == raw.clients[k].gateway
        && registeredClients[k].lastKeepAliveTimestamp == raw.clients[k].lastKeepAlive
      ensures forall g :: g in registeredGateways ==>
        && registeredGateways[g].messagesQueue == raw.gateways[g].queue
        && registeredGateways[g].outgoingMessageNonce == raw.gateways[g].nonce
    {}

    /** The check is scheduled, and the interval timer is due again after its own period. */
    method ScheduleCheckAndRearm(id: nat)
      requires Shape() && raw.timers.ack == Some(id) && id in raw.timers.pending && raw.timers.pending[id].period.Some?
      modifies this`raw, this`timers
      ensures Shape()
      ensures raw == old(raw).(timers := Rescheduled(old(raw).timers, raw.now,
          old(raw).timers.pending[id].period.value))
    {
      hide ClientsShape, GatewaysShape;
      var period := timers.pending[id].period.value;
      var check := timers.next;
      var due := now + CLIENT_KEEP_ALIVE_TIMEOUT_NS;
      SetTimers(timers.(pending := timers.pending[check := Timer(CheckKeepAlive, due, None)], next := check + 1));
      SetTimers(timers.(keepAlive := Some(check)));
      SetTimers(timers.(pending := timers.pending[id := Timer(SendAcks, now + period, Some(period))]));
    }

    // ---- the keep-alive timer ----

    /** Takes the gateways that were emptied too long ago off the list. */
    method TakeExpired() returns (expired: seq<Principal>)
      requires Shape() && forall g :: g in raw.toRemove ==> raw.toRemove[g] <= raw.now
      modifies this`raw, this`gatewaysToRemove
      ensures Shape() && raw == old(raw).(toRemove := old(raw).toRemove - ExpiredGateways(old(raw)))
      ensures forall i, j :: 0 <= i < j < |expired| ==> expired[i] != expired[j]
      ensures forall g :: g in expired <==> g in ExpiredGateways(old(raw))
    {
      hide ClientsShape, GatewaysShape;
      var ackIntervalMs, time := params.sendAckIntervalMs, now;
      ghost var listed, all := gatewaysToRemove, ExpiredGateways(raw);
      var remaining := gatewaysToRemove.Keys;
      expired := [];
      while remaining != {}
        invariant raw == old(raw) && remaining <= listed.Keys
        invariant forall g :: g in expired <==> g in all && g !in remaining
        invariant forall i, j :: 0 <= i < j < |expired| ==> expired[i] != expired[j]
        invariant gatewaysToRemove == listed - (all - remaining)
      {
        var g :| g in remaining;
        assert g in gatewaysToRemove && gatewaysToRemove[g] == listed[g];
        var age: nat := time - gatewaysToRemove[g];
        if age > ackIntervalMs * NS_PER_MS {
          expired := expired + [g];
          gatewaysToRemove := gatewaysToRemove - {g};
        }
        remaining := remaining - {g};
      }
      raw := raw.(toRemove := gatewaysToRemove);
    }

    method TakeGateway(gateway: Principal) returns (queue: seq<CanisterOutputMessage>)
      requires Shape() && gateway in raw.gateways
      modifies this`raw, this`registeredGateways
      ensures Shape() && raw == old(raw).(gateways := old(raw).gateways - {gateway})
      ensures queue == old(raw).gateways[gateway].queue
    {
      hide FieldsShape, ClientsShape;
      queue := GetRegisteredGateway(gateway).value.messagesQueue;
      registeredGateways := registeredGateways - {gateway};
      NoteGateways(raw.gateways - {gateway});
    }

    /** Unregisters a gateway and deletes its queued messages' keys from the tree. */
    method UnregisterGateway(gateway: Principal)
      requires Shape() && gateway in raw.gateways
      modifies this`raw, this`registeredGateways, this`certTree, this`certifiedData
      ensures Shape() && raw == Unregistering(libs, old(raw), {gateway})
    {
      hide FieldsShape, ClientsShape, GatewaysShape, KeysOfGateways, Elements;
      var queue := TakeGateway(gateway);
      var keys := seq(|queue|, i requires 0 <= i < |queue| => queue[i].key);
      KeysOfOne(old(raw).gateways, gateway, keys);
      DeleteKeysFromCertTree(keys);
    }

    method UnregisterAll(gateways: seq<Principal>, ghost gs: set<Principal>)
      requires Shape() && forall g :: g in gateways <==> g in gs
      requires gs <= raw.gateways.Keys && forall i, j :: 0 <= i < j < |gateways| ==> gateways[i] != gateways[j]
      modifies this`raw, this`registeredGateways, this`certTree, this`certifiedData
      ensures Shape() && raw == Unregistering(libs, old(raw), gs)
    {
      hide FieldsShape, ClientsShape, GatewaysShape, KeysOfGateways;
      UnregisterNone(libs, raw);
      ghost var done := {};
      for i := 0 to |gateways|
        invariant Shape() && raw == Unregistering(libs, old(raw), done)
        invariant done <= gs && forall g :: g in done <==> g in gateways[..i]
      {
        assert gateways[i] !in gateways[..i];
        UnregisterOneMore(libs, old(raw), done, gateways[i]);
        UnregisterGateway(gateways[i]);
        done := done + {gateways[i]};
      }
      assert done == gs;
    }

    method RemoveEmptyExpiredGateways()
      requires Coherent()
      modifies Repr
      ensures Coherent() && Repr == old(Repr) && history == old(history) && Settings() == old(Settings())
      ensures net == Act(old(net), ExpireGateways)
    {
      hide FieldsShape, ClientsShape, GatewaysShape, Inv, Agrees, Act, Unregistering, ExpiredGateways;
      ExpireRefines(libs, raw, net);
      ghost var gs := ExpiredGateways(raw);
      ListedExpired(raw);
      var gatewayPrincipalsToRemove := TakeExpired();
      UnregisterAll(gatewayPrincipalsToRemove, gs);
      net := Act(net, ExpireGateways);
    }

    /** The clients to which an ack was sent and which have been silent for too long. */
    function ClientKeysToRemove(): (keys: set<ClientKey>)
      requires Shape() && forall k :: k in raw.clients ==> raw.clients[k].lastKeepAlive <= raw.now
      reads this, Repr
      ensures keys == SilentKeys(raw)
    {
      set k | k in clientsWaitingForKeepAlive && k in registeredClients &&
        var silence: nat := now - registeredClients[k].lastKeepAliveTimestamp; silence > CLIENT_KEEP_ALIVE_TIMEOUT_NS
    }

    method RemoveAll(keys: set<ClientKey>, closeReason: Option<CloseReason>) returns (ghost order: seq<Principal>)
      requires Coherent() && AllHeld(net, keys)
      modifies Repr
      ensures Coherent() && Repr == old(Repr) && history == old(history) && Settings() == old(Settings())
      ensures Protocol.Enumerates(order, Principals(keys))
      ensures net == Exec(old(net), Protocol.Removals(order, closeReason, old(net).app, old(net).closes))
    {
      hide FieldsShape, ClientsShape, GatewaysShape, Inv, Agrees, Act, Exec, Protocol.Removals, Protocol.Leaving,
        AllHeld, Principals;
      ghost var before := net;
      NoRemovals(before, closeReason);
      var remaining := keys;
      order := [];
      while remaining != {}
        invariant Coherent() && Repr == old(Repr) && history == old(history) && Settings() == old(Settings())
        invariant Visited(order, keys, remaining) && AllHeld(before, keys) && AllHeld(net, remaining)
        invariant net.app == before.app && net.closes == before.closes + |order|
        invariant net == Exec(before, Protocol.Removals(order, closeReason, before.app, before.closes))
      {
        var key :| key in remaining;
        HeldOne(net, remaining, key);
        Protocol.RemovalsStep(before, order, closeReason, key.clientPrincipal);
        VisitOne(before, order, keys, remaining, key);
        HeldFewer(net, remaining, key);
        RemoveHolds(net, key.clientPrincipal, closeReason, net.app, net.closes, remaining - {key});
        RemoveClient(key, closeReason);
        remaining := remaining - {key};
        order := order + [key.clientPrincipal];
      }
      VisitedAll(order, keys);
    }

    /** The keep-alive timer fires; it is one-shot, so it is no longer pending afterwards. */
    method CheckKeepAliveTimerFires(id: nat) returns (ghost order: seq<Principal>)
      requires Valid() && id in timers.pending && timers.pending[id].kind == CheckKeepAlive &&
        timers.pending[id].deadline == now
      modifies Repr
      ensures now == old(now) && params == old(params)
      ensures Valid() && Repr == old(Repr)
      ensures history == old(history) + [Protocol.CheckTimer(order)]
      ensures forall key :: key in registeredClients <==>
        && key in old(registeredClients)
        && !(key in old(clientsWaitingForKeepAlive)
             && old(now) - old(registeredClients[key].lastKeepAliveTimestamp) > 60_000_000_000)
      ensures forall key :: key in old(registeredClients) && key !in registeredClients ==>
        var gateway := old(registeredClients)[key].gatewayPrincipal;
        && gateway in registeredGateways
        && exists nonce: nat, sequenceNum: nat ::
             CanisterOutputMessage(key, Format(gateway, nonce), libs.cborSerialize(
               WebsocketMessage(key, sequenceNum, old(now), true, libs.candidEncode(CloseMessage(KeepAliveTimeout)))))
             in registeredGateways[gateway].messagesQueue
      ensures forall g :: g in registeredGateways <==>
        && g in old(registeredGateways)
        && !(g in old(gatewaysToRemove)
             && old(now) - old(gatewaysToRemove)[g] > old(params).sendAckIntervalMs * 1_000_000)
      ensures timers == old(timers).(pending := old(timers).pending - {id})
    {
      hide FieldsShape, ClientsShape, GatewaysShape, Inv, Agrees, Act, AllHeld, Principals, SilentKeys, Protocol.Stale,
        Exec, Format, Protocol.Perform, Protocol.Reached;
      ghost var before, was := net, raw;
      SameFields();
      SameRecords();
      SameTime(libs, raw, net);
      DueTimer(libs, raw, net, id);
      order := CheckClients();
      StillDue(before, order, Some(KeepAliveTimeout));
      Protocol.CheckPhases(before, order);
      SameFields();
      FinishCheckRefines(libs, raw, net);
      SetTimers(timers.(pending := timers.pending - {id}));
      net := Act(net, FinishCheck);
      CheckOutcome(libs, was, before, raw, net, order);
      ExpiryOutcome(libs, was, before, raw, net, order);
      SameFields();
      SameRecords();
      Finish(before, Protocol.CheckTimer(order));
    }

    method CheckClients() returns (ghost order: seq<Principal>)
      requires Coherent()
      modifies Repr
      ensures Coherent() && Repr == old(Repr) && history == old(history) && Settings() == old(Settings())
      ensures Protocol.Enumerates(order, Protocol.Stale(old(net)))
      ensures net == Exec(Act(old(net), ExpireGateways),
                          Protocol.Removals(order, Some(KeepAliveTimeout), old(net).app, old(net).closes))
    {
      hide FieldsShape, ClientsShape, GatewaysShape, Inv, Agrees, Act, AllHeld, Principals, SilentKeys, Protocol.Stale;
      StaleUnexpired(net);
      ExpireKeepsApp(net);
      RemoveEmptyExpiredGateways();
      SilentExact(libs, raw, net);
      var clientKeysToRemove := ClientKeysToRemove();
      order := RemoveAll(clientKeysToRemove, Some(KeepAliveTimeout));
    }

    // ---- wiping ----

    method ClearKeys()
      requires Shape()
      modifies this`raw, this`currentClientKeyMap, this`clientsWaitingForKeepAlive
      ensures Shape() && raw == old(raw).(current := map[], waiting := {})
    {
      hide ClientsShape, GatewaysShape;
      currentClientKeyMap, clientsWaitingForKeepAlive := map[], {};
      raw := raw.(current := map[], waiting := {});
    }

    method ClearMessageNums()
      requires Shape()
      modifies this`raw, this`outgoingMessageToClientNumMap, this`incomingMessageFromClientNumMap
      ensures Shape() && raw == old(raw).(outgoing := map[], incoming := map[])
    {
      hide ClientsShape, GatewaysShape;
      outgoingMessageToClientNumMap, incomingMessageFromClientNumMap := map[], map[];
      raw := raw.(outgoing := map[], incoming := map[]);
    }

    method ClearTree()
      requires Shape()
      modifies this`raw, this`certTree
      ensures Shape() && raw == old(raw).(tree := map[], certified := old(raw).certified.(renewed := false))
      ensures certTree == map[]
    {
      hide ClientsShape, GatewaysShape;
      certTree := map[];
      raw := raw.(tree := map[], certified := raw.certified.(renewed := false));
    }

    method ClearGateways()
      requires Shape()
      modifies this`raw, this`registeredGateways
      ensures Shape() && raw == old(raw).(gateways := map[]) && registeredGateways == map[]
    {
      hide FieldsShape, ClientsShape;
      registeredGateways := map[];
      NoteGateways(map[]);
    }

    method ClearRemovals()
      requires Shape()
      modifies this`raw, this`gatewaysToRemove
      ensures Shape() && raw == old(raw).(toRemove := map[]) && gatewaysToRemove == map[]
    {
      hide ClientsShape, GatewaysShape;
      gatewaysToRemove := map[];
      raw := raw.(toRemove := map[]);
    }

    method ClearMaps()
      requires Shape()
      modifies Repr
      ensures Settings() == old(Settings())
      ensures Shape() && Repr == old(Repr) && history == old(history) && net == old(net) && raw == Cleared(old(raw))
      ensures registeredClients == old(registeredClients)
      ensures registeredGateways == map[] && certTree == map[] && gatewaysToRemove == map[]
    {
      hide FieldsShape, ClientsShape, GatewaysShape;
      ClearKeys();
      ClearMessageNums();
      ClearTree();
      ClearGateways();
      ClearRemovals();
    }

    /** Every client is removed, its handler called, before the maps are cleared. The
        certified data is not renewed, although the tree is. */
    method Wipe() returns (ghost order: seq<Principal>)
      requires Valid()
      modifies Repr
      ensures now == old(now) && params == old(params) && timers == old(timers)
      ensures Valid() && Repr == old(Repr)
      ensures history == old(history) + [Protocol.Wipe(order)]
      ensures registeredClients == map[] && registeredGateways == map[] && certTree == map[] &&
        gatewaysToRemove == map[]
    {
      hide FieldsShape, ClientsShape, GatewaysShape, Inv, Agrees, Act, AllHeld, Principals, Cleared,
        Protocol.Perform, Protocol.Reached;
      ghost var before := net;
      ConnectedKeys(libs, raw, net);
      var clientKeysToRemove := RegisteredKeys();
      order := RemoveAll(clientKeysToRemove, None);
      Protocol.EnabledWipe(before, order);
      Streams.WipeState(before, order);
      NoClients(libs, raw, net);
      assert RegisteredKeys() == {};
      ClearRefines(libs, raw, net);
      ClearMaps();
      net := Act(net, Clear);
      Finish(before, Protocol.Wipe(order));
    }

    // ---- polling ----

    ghost predicate Pollable(gateway: Principal, nonce: nat)
      reads this`raw
    {
      nonce < U64_SIZE && (gateway in raw.gateways ==> raw.gateways[gateway].nonce <= U64_SIZE)
    }

    /** The binary search on string keys and the arithmetic on nonces select the same range. */
    method GetMessagesForGatewayRange(gateway: Principal, nonce: nat)
      returns (startIndex: nat, endIndex: nat, isEndOfQueue: bool)
      requires Coherent() && gateway in raw.gateways && Pollable(gateway, nonce)
      ensures gateway in net.gateways && net.gateways[gateway].base <= |net.gateways[gateway].sent|
      ensures startIndex <= endIndex <= |raw.gateways[gateway].queue|
      ensures var g := net.gateways[gateway];
        (g.base + startIndex, g.base + endIndex, isEndOfQueue) == PollRange(g, nonce, net.maxReturned)
      ensures var queueLen := |raw.gateways[gateway].queue|;
        var oldest, max := raw.gateways[gateway].nonce - queueLen, raw.params.maxNumberOfReturnedMessages;
        && startIndex == (if nonce <= oldest then 0
                          else if nonce - oldest >= queueLen then queueLen
                          else nonce - oldest)
        && endIndex - startIndex == (if queueLen - startIndex <= max then queueLen - startIndex else max)
        && (isEndOfQueue <==> queueLen - startIndex <= max)
    {
      hide FieldsShape, ClientsShape, GatewaysShape, Inv, Agrees, QueueAgrees, LexLess, Format;
      SameTime(libs, raw, net);
      GatewayRegistered(libs, raw, net, gateway);
      var maxNumberOfReturnedMessages := GetParams().maxNumberOfReturnedMessages;
      var messagesQueue := GetRegisteredGateway(gateway).value.messagesQueue;
      var queueLen := |messagesQueue|;
      var smallestKey := Format(gateway, nonce);
      QueueOrder(libs, gateway, raw.gateways[gateway], net.gateways[gateway], nonce);
      startIndex := PartitionPoint(messagesQueue, smallestKey);
      SearchIsClamp(libs, gateway, raw.gateways[gateway], net.gateways[gateway], nonce, startIndex);
      if queueLen - startIndex > maxNumberOfReturnedMessages {
        endIndex, isEndOfQueue := startIndex + maxNumberOfReturnedMessages, false;
      } else {
        endIndex, isEndOfQueue := queueLen, true;
      }
    }

    method GetMessagesForGateway(gateway: Principal, startIndex: nat, endIndex: nat)
      returns (messages: seq<CanisterOutputMessage>)
      requires Shape() && gateway in raw.gateways && startIndex <= endIndex <= |raw.gateways[gateway].queue|
      ensures messages == raw.gateways[gateway].queue[startIndex..endIndex]
    {
      hide FieldsShape, ClientsShape, GatewaysShape;
      var messagesQueue := GetRegisteredGateway(gateway).value.messagesQueue;
      messages := [];
      for index := startIndex to endIndex
        invariant messages == messagesQueue[startIndex..index]
      {
        messages := messages + [messagesQueue[index]];
      }
    }

    function GetCertForRange(first: string, last: string): (Bytes, map<string, Bytes>)
      reads this`certTree, this`certifiedData
    {
      (libs.dataCertificate(certifiedData), ValueRange(certTree, first, last))
    }

    /** A poll returns the messages the abstract queue holds from the cursor on, and a
        certificate of the root of the tree with a witness of exactly those messages. */
    method WsGetMessages(caller: Principal, nonce: nat) returns (r: CanisterOutputCertifiedMessages)
      requires Valid() && Pollable(caller, nonce)
      ensures caller in net.gateways ==> net.gateways[caller].base <= |net.gateways[caller].sent|
      ensures var b := Answer(net, caller, nonce);
        && r.messages == Polled(libs, net, caller, nonce) && r.isEndOfQueue == b.atEnd
        && if b.items == [] then r == EMPTY_POLL
           else ExactWitness(libs, r.messages, r.tree) && r.cert == libs.dataCertificate(libs.labeledRootHash(certTree))
      ensures caller !in registeredGateways ==> r == CanisterOutputCertifiedMessages([], [], map[], true)
      ensures caller in registeredGateways ==>
        var g, max := registeredGateways[caller], params.maxNumberOfReturnedMessages;
        var queue := g.messagesQueue;
        var oldest := g.outgoingMessageNonce - |queue|;
        var start := if nonce <= oldest then 0 else if nonce - oldest >= |queue| then |queue| else nonce - oldest;
        var left := |queue| - start;
        && 0 <= start <= |queue|
        && r.messages == queue[start..start + if left <= max then left else max]
        && (if r.messages != [] then r.isEndOfQueue <==> left <= max else r.isEndOfQueue)
      ensures r.messages != [] ==>
        && (forall s :: s in r.tree <==> exists m :: m in r.messages && m.key == s)
        && (forall m :: m in r.messages ==> r.tree[m.key] == libs.sha256(m.content))
        && r.cert == libs.dataCertificate(libs.labeledRootHash(certTree))
    {
      hide Valid, Coherent, Shape, FieldsShape, ClientsShape, GatewaysShape, Inv, Agrees, ExactWitness, ValueRange,
        Answer, Polled, Protocol.Reached;
      ValidParts();
      ValidFields();
      GatewayKnown(libs, raw, net, caller);
      if GetRegisteredGateway(caller).Err? {
        NothingPolled(libs, net, caller, nonce);
        return EMPTY_POLL;
      }
      r := GetCertMessages(caller, nonce);
      if r.messages != [] {
        ExactMeans(libs, r.messages, r.tree);
      }
    }

    method GetCertMessages(gateway: Principal, nonce: nat) returns (r: CanisterOutputCertifiedMessages)
      requires Coherent() && gateway in raw.gateways && Pollable(gateway, nonce)
      ensures gateway in net.gateways && net.gateways[gateway].base <= |net.gateways[gateway].sent|
      ensures var b := Answer(net, gateway, nonce);
        && r.messages == Polled(libs, net, gateway, nonce) && r.isEndOfQueue == b.atEnd
        && if b.items == [] then r == EMPTY_POLL
           else ExactWitness(libs, r.messages, r.tree) && r.cert == libs.dataCertificate(libs.labeledRootHash(certTree))
      ensures var g, max := raw.gateways[gateway], raw.params.maxNumberOfReturnedMessages;
        var queue := g.queue;
        var oldest := g.nonce - |queue|;
        var start := if nonce <= oldest then 0 else if nonce - oldest >= |queue| then |queue| else nonce - oldest;
        var left := |queue| - start;
        && 0 <= start <= |queue|
        && r.messages == queue[start..start + if left <= max then left else max]
        && (if r.messages != [] then r.isEndOfQueue <==> left <= max else r.isEndOfQueue)
    {
      hide FieldsShape, ClientsShape, GatewaysShape, Inv, Agrees, ExactWitness, ValueRange, Answer, Polled, PollRange;
      var startIndex, endIndex, isEndOfQueue := GetMessagesForGatewayRange(gateway, nonce);
      var messages := GetMessagesForGateway(gateway, startIndex, endIndex);
      SliceIsPolled(libs, raw, net, gateway, nonce, startIndex, endIndex, isEndOfQueue, messages);
      if messages == [] {
        return EMPTY_POLL;
      }
      var (cert, tree) := GetCertForRange(messages[0].key, messages[|messages| - 1].key);
      SameFields();
      return CanisterOutputCertifiedMessages(messages, cert, tree, isEndOfQueue);
    }
  }
}
