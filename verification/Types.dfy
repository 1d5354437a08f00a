/** The values the canister exchanges and stores, its protocol constants, and the
    library functions it calls (Candid, CBOR, SHA-256, the certification tree's root
    hash), which enter as arbitrary functions. */
module Types {

  datatype Option<+T> = None | Some(value: T)

  datatype Result<+T> = Ok(value: T) | Err(error: WsError) {
    predicate IsFailure() {
      Err?
    }

    function PropagateFailure<U>(): Result<U>
      requires Err?
    {
      Err(error)
    }

    function Extract(): T
      requires Ok?
    {
      value
    }
  }

  const NS_PER_MS: nat := 1_000_000
  const COMMUNICATION_LATENCY_BOUND_MS: nat := 30_000
  const CLIENT_KEEP_ALIVE_TIMEOUT_MS: nat := 2 * COMMUNICATION_LATENCY_BOUND_MS
  const CLIENT_KEEP_ALIVE_TIMEOUT_NS: nat := CLIENT_KEEP_ALIVE_TIMEOUT_MS * NS_PER_MS
  const DEFAULT_SEND_ACK_INTERVAL_MS: nat := 300_000
  const DEFAULT_MAX_NUMBER_OF_RETURNED_MESSAGES: nat := 50
  const INITIAL_OUTGOING_MESSAGE_NONCE: nat := 0
  const INITIAL_CLIENT_SEQUENCE_NUM: nat := 1
  const INITIAL_CANISTER_SEQUENCE_NUM: nat := 0
  const MESSAGES_TO_DELETE_COUNT: nat := 5
  const U64_SIZE: nat := 0x1_0000_0000_0000_0000

  type U64 = n: nat | n < U64_SIZE

  type Byte = b: int | 0 <= b < 256

  type Bytes = seq<Byte>

  /** The characters of a principal's text: lower-case base32 (section 6 of RFC 4648)
      and the dashes between groups. In particular no underscore. */
  predicate IsPrincipalChar(c: char) {
    'a' <= c <= 'z' || '2' <= c <= '7' || c == '-'
  }

  type PrincipalText = s: string | forall i :: 0 <= i < |s| ==> IsPrincipalChar(s[i]) witness ""

  /** Principals are identified with their text. */
  datatype Principal = Principal(text: PrincipalText)

  const ANONYMOUS: Principal := Principal("2vxsx-fae")

  datatype ClientKey = ClientKey(clientPrincipal: Principal, clientNonce: nat)

  datatype CloseReason =
    | WrongSequenceNumber
    | InvalidServiceMessage
    | KeepAliveTimeout
    | ClosedByApplication

  datatype ServiceContent =
    | OpenMessage(clientKey: ClientKey)
    | AckMessage(lastIncomingSequenceNum: nat)
    | KeepAliveMessage(lastIncomingSequenceNum: nat)
    | CloseMessage(reason: CloseReason)

  datatype WebsocketMessage = WebsocketMessage(
    clientKey: ClientKey,
    sequenceNum: nat,
    timestamp: nat,
    isServiceMessage: bool,
    content: Bytes)

  datatype CanisterOutputMessage = CanisterOutputMessage(clientKey: ClientKey, key: string, content: Bytes)

  /** `tree` is the witness before it is labelled and serialized: the entries of the
      certification tree it discloses. */
  datatype CanisterOutputCertifiedMessages = CanisterOutputCertifiedMessages(
    messages: seq<CanisterOutputMessage>,
    cert: Bytes,
    tree: map<string, Bytes>,
    isEndOfQueue: bool)

  const EMPTY_POLL: CanisterOutputCertifiedMessages := CanisterOutputCertifiedMessages([], [], map[], true)

  datatype WsError =
    | AnonymousPrincipalNotAllowed
    | ClientKeyAlreadyConnected(clientKey: ClientKey)
    | ClientKeyMessageMismatch(clientKey: ClientKey)
    | ClientKeyNotConnected(clientKey: ClientKey)
    | ClientNotRegisteredToGateway(clientKey: ClientKey, gateway: Principal)
    | ClientPrincipalNotConnected(principal: Principal)
    | DecodeServiceMessageContent
    | ExpectedIncomingMessageToClientNumNotInitialized(clientKey: ClientKey)
    | GatewayNotRegistered(gateway: Principal)
    | InvalidServiceMessageError
    | IncomingSequenceNumberWrong(expected: nat, actual: nat)
    | OutgoingMessageToClientNumNotInitialized(clientKey: ClientKey)
    | TrappedOnInvalidParameters

  /** The application's on_close handler: the messages it sends, and to whom, when it is
      called for a principal after so many earlier calls. */
  type Application = (Principal, nat) -> seq<(Principal, Bytes)>

  datatype Libraries = Libraries(
    candidEncode: ServiceContent -> Bytes,
    candidDecode: Bytes -> Option<ServiceContent>,
    cborSerialize: WebsocketMessage -> Bytes,
    sha256: Bytes -> Bytes,
    labeledRootHash: map<string, Bytes> -> Bytes,
    dataCertificate: Bytes -> Bytes,
    onClose: Application)
}
