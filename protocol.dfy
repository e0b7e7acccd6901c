/**
 * The values the relay handles: receivers, the envelopes read from a connection,
 * and the messages it sends. WebSocket connections and clocks are not modelled:
 * a connection is an opaque number, a timestamp an opaque integer.
 */
module Protocol {
  import opened Wrappers
  import opened Validation

  /** Identity of one WebSocket connection. */
  type ConnId = nat

  /** A wall-clock instant (`time.Now()`), informational only. */
  type Timestamp = int

  /** A joined receiver; its fields never change after the join. */
  datatype Receiver = Receiver(id: string, name: string, publicKey: string, conn: ConnId, connectedAt: Timestamp)

  /** The display-safe projection of a receiver sent to the host (no connection). */
  datatype ReceiverInfo = ReceiverInfo(id: string, name: string, publicKey: string, connectedAt: Timestamp)

  /** A JSON value the relay carries without looking inside; `Null` is JSON null. */
  datatype Json = Null | Value(token: nat)

  /**
   * The keys of a JSON object payload that the relay and the join handshake read.
   * A routing or name field is `None` when the key is absent or its value is not a
   * string (Go's decoder leaves "" in both cases); an opaque field is `None` when
   * the key is absent.
   */
  datatype Fields = Fields(
    senderId: Option<string>, receiverId: Option<string>, peerId: Option<string>,
    offer: Option<Json>, answer: Option<Json>, candidate: Option<Json>,
    name: Option<string>, publicKey: Option<string>)

  const NoFields: Fields := Fields(None, None, None, None, None, None, None, None)

  /** An envelope's payload: a JSON object, or anything else (array, string, number, null). */
  datatype Payload = NotObject | Object(fields: Fields)

  /** An envelope read from a connection: `{type, payload}`. */
  datatype Message = Message(kind: string, payload: Payload)

  /** A message the server writes onto a connection. */
  datatype Outgoing =
    | UploadCreated(id: string)
    | FileMetadata(meta: Metadata)
    | ReceiversUpdate(receivers: seq<ReceiverInfo>)
    | Signal(kind: string, payload: Payload)

  /** Where a message is written: the session's host, or one receiver's connection. */
  datatype Target = Host | ToReceiver(receiver: Receiver)

  /** One write of a message onto a connection; write errors are ignored by the server. */
  datatype Delivery = Delivery(target: Target, message: Outgoing)

  const JoinRequestKind: string := "join_request"
  const GetReceiversKind: string := "get_receivers"
  const OfferKind: string := "webrtc_offer"
  const AnswerKind: string := "webrtc_answer"
  const CandidateKind: string := "webrtc_ice_candidate"

  /** The sender/peer tag that stands for the host in relayed messages. */
  const HostMarker: string := "host"
}
