# Signaling relay of a peer-to-peer file-transfer service, in Dafny

This project models the server core of a file-sharing service in which a host
advertises a file and receivers join to fetch it over a direct peer-to-peer
(WebRTC) connection. The server only relays the handshake: it keeps a table of
upload sessions, each session's ordered list of joined receivers, and forwards
offers, answers and ICE candidates between the host and a receiver.

Modules, one per component of `backend/main.go`:

- `Validation` (`validation.dfy`): the query validation of `GET /api/upload`,
  with `ParseInt64` modelling Go's `strconv.ParseInt(s, 10, 64)` (optional sign,
  decimal digits, signed 64-bit range).
- `HexId` (`hexid.dfy`): session and receiver ids as hexadecimal spellings of
  4 and 8 random bytes.
- `Protocol` (`protocol.dfy`): receivers, envelopes `{type, payload}`, the
  abstract JSON payload and the messages the server writes.
- `Roster` (`roster.dfy`): pure functions over a receiver list: the membership
  projection, the first receiver with a given id, removal of the first match.
- `Relay` (`relay.dfy`): the host and receiver read-loop dispatch and the routing
  decision of `handleWebRTCSignaling`, as functions over a snapshot of the list.
- `Session` (`session.dfy`): the class `Upload`, whose receiver list is changed in
  place by joins and disconnects, and the join handshake gate.
- `Registry` (`registry.dfy`): the class `UploadRegistry`, the map from session id
  to `Upload` changed in place by creation and host teardown.

A payload is either not a JSON object or an object whose relevant keys are kept:
the routing strings `sender_id`, `receiver_id`, `peer_id`, the opaque `offer`,
`answer` and `candidate` values, and the join fields `name` and `public_key`. A
routing string that is absent or not a string decodes to "", and an absent opaque
value is relayed as JSON null, as Go's decoder and encoder do. Every send is a
returned `Delivery(target, message)`: the host's connection or one receiver's.

Points where the code departs from what the service is meant to do; the model
follows the code:

- A negative `filesize` is accepted (`ParseInt` takes a sign and nothing checks
  non-negativity), although a file size is meant to be non-negative.
- The membership update also carries each receiver's `public_key`, beyond the
  id, name and join time a host needs for display.
- Nothing checks that a fresh session id is unused: creating a session under a
  live id replaces the older entry, and a later teardown of the older host
  deletes the newer session (teardown deletes by id).
- A `join_request` whose payload is malformed is not refused: the receiver is
  registered with an empty name.

## Model

| member | source | states |
|---|---|---|
| Validation.ParseInt64 | backend/main.go:98-103 | an accepted size lies in the signed 64-bit range and was spelled as an optional sign followed by one or more decimal digits, so a bare sign is refused |
| Validation.FormatNat | backend/main.go:99 | the reference decimal spelling is non-empty, all digits, and its digit value is the number |
| Validation.ParseFormatRoundTrip | backend/main.go:99 | every signed 64-bit integer, negative ones included, parses back exactly from its decimal spelling |
| Validation.ParseAcceptsSpelling | backend/main.go:99-103 | every optional sign ("", "+", "-") followed by one or more digits, leading zeros and "-0" included, is accepted with its signed digit value when that fits 64 bits |
| Validation.ParseRejectsOutOfRange | backend/main.go:99-103 | a well-formed sign and digits whose value does not fit 64 bits is refused (the range error becomes "invalid filesize") |
| Validation.ParseRejectsNonDigit | backend/main.go:99-103 | a character that is neither a digit nor a leading sign makes the size invalid |
| Validation.ValidateUpload | backend/main.go:86-103 | missing parameters exactly when one of name, type, size is empty; invalid size exactly when all are present and the size does not parse; otherwise metadata with exactly the given name, type and parsed size |
| Validation.ValidateAcceptsEveryInt64 | backend/main.go:92-103 | every 64-bit size, negative ones included, is accepted and kept exactly |
| HexId.HexEncode | backend/main.go:73-83 | the id has two characters per random byte, all from `0-9a-f` |
| HexId.HexEncodeInjective | backend/main.go:73-83 | different random bytes give different ids |
| HexId.SessionId | backend/main.go:73-77 | a session id is 8 lower-case hex characters |
| HexId.ReceiverId | backend/main.go:79-83 | a receiver id is 16 lower-case hex characters |
| Roster.InfoForgetsOnlyConn | backend/main.go:302-307 | two receivers have the same display-safe record exactly when they differ at most in their connection |
| Roster.Project | backend/main.go:299-308 | the snapshot has the list's length and order; entry i carries exactly the id, name, public_key and connected_at of receiver i |
| Roster.FirstMatch | backend/main.go:328-334 | the lookup finds the first receiver with the id, or reports that no receiver has it |
| Roster.RemoveFirst | backend/main.go:279-285 | the disconnect removes one receiver when some receiver has the id and changes nothing otherwise, never adding a receiver |
| Roster.RemoveFirstSplice | backend/main.go:279-285 | removal deletes exactly the first receiver with the id and keeps all others in order; with no such receiver the list is unchanged |
| Roster.RemoveFirstTwice | backend/main.go:279-285 | when the id occurs at most once, a second removal changes nothing |
| Roster.RemoveFirstActive | backend/main.go:278-289 | the active receiver stays unless it is the one leaving, in which case the next-oldest becomes active |
| Roster.Remaining | backend/main.go:278-286 | the survivors of a set of disconnects are receivers of the list whose ids are not among the departed |
| Roster.RemainingAppend | backend/main.go:227-230 | a join after some disconnects puts the newcomer last among the survivors |
| Roster.ReplayIsStillJoined | backend/main.go:227-285 | after any trace of joins and disconnects from a new session, with fresh ids, the list holds exactly the receivers still joined, in join order |
| Roster.RemoveFirstRemaining | backend/main.go:278-286 | with distinct ids, successive disconnects leave exactly the still-joined receivers in join order |
| Relay.DecodeIndistinguishable | backend/main.go:319-321 | decoding reads a non-object payload like an empty object, never reads the join keys, and reads an opaque key set to null like an absent one |
| Relay.Relay | backend/main.go:318-401 | only handshake messages are sent; to a receiver only when host-originated, never for an answer, and only to a joined receiver; to the host only when receiver-originated and never for an offer; an offer or host candidate is delivered iff some receiver has the named id; a receiver's answer or candidate always reaches the host |
| Relay.OnHostMessage | backend/main.go:158-169 | the host loop sends something only for `get_receivers`, offers and candidates; only offers and candidates go to a receiver, and always to a joined one; `get_receivers` always answers the host |
| Relay.StampSender | backend/main.go:260-262 | stamping an object payload makes the relay read the receiver's own id as sender_id and changes nothing else it reads; a non-object payload is left alone |
| Relay.StampPeer | backend/main.go:268-270 | stamping an object payload makes the relay read the receiver's own id as peer_id and changes nothing else it reads; a non-object payload is left alone |
| Relay.OnReceiverMessage | backend/main.go:256-275 | a receiver loop sends something exactly for answers and candidates, and always to the host |
| Relay.HostOfferRouting | backend/main.go:323-350 | a host offer is delivered iff some receiver has the payload's receiver_id, to the first such receiver only, with sender_id "host" and the offer carried over |
| Relay.ReceiverOfferDropped | backend/main.go:256-275 | an offer from a receiver is never delivered |
| Relay.ReceiverAnswerRouting | backend/main.go:257-264 | a receiver's object answer reaches the host with receiver_id equal to that receiver's id, whatever value its exact `sender_id` key held, and the answer carried over |
| Relay.ReceiverNonObjectAnswer | backend/main.go:352-363 | a non-object answer is not stamped and reaches the host with an empty receiver_id and a null answer |
| Relay.HostAnswerDropped | backend/main.go:163-164 | an answer from the host is dispatched and dropped |
| Relay.HostCandidateRouting | backend/main.go:365-388 | a host candidate is delivered iff some receiver has the payload's peer_id, to the first such receiver, with peer_id "host" |
| Relay.ReceiverCandidateRouting | backend/main.go:265-272 | a receiver's object candidate reaches the host with peer_id stamped as that receiver's id |
| Relay.GetReceiversReply | backend/main.go:159-160 | `get_receivers` answers the host with the membership snapshot, whose element 0 is the active receiver |
| Relay.HostUnknownIgnored | backend/main.go:158-169 | the host loop delivers nothing for any other message kind |
| Relay.ReceiverUnknownIgnored | backend/main.go:256-275 | a receiver loop delivers nothing for kinds other than answer and candidate |
| Relay.OfferToDepartedDropped | backend/main.go:323-350 | with distinct ids, an offer to a receiver that has just disconnected reaches no one |
| Session.JoinGate | backend/main.go:202-225 | a receiver is registered iff the first read succeeds with kind `join_request`; it carries the given id, connection and time, and the payload's name and public key or "" when malformed |
| Session.MalformedJoinRegistered | backend/main.go:214-225 | a non-object join payload registers a receiver with an empty name |
| Session.Upload.constructor | backend/main.go:116-123 | a new session has the given id, host, metadata and time and no receivers |
| Session.Upload.Join | backend/main.go:227-230 | a join appends at the end; earlier receivers keep their indices and the active receiver |
| Session.Upload.Remove | backend/main.go:278-286 | the search loop leaves exactly the list with the first matching receiver removed, and no change when none matches |
| Session.Upload.Snapshot | backend/main.go:293-308 | the snapshot loop yields each receiver's display-safe projection, in order |
| Session.Upload.ReceiverConnected | backend/main.go:198-242 | on a valid join the receiver is appended, gets the file metadata and the host gets the updated membership; otherwise nothing changes and nothing is sent |
| Session.Upload.ReceiverDisconnected | backend/main.go:278-289 | a disconnect removes the receiver by id and sends the host the updated membership |
| Registry.UploadRegistry.constructor | backend/main.go:62-65 | the table starts empty |
| Registry.UploadRegistry.Create | backend/main.go:85-134 | an invalid request or failed upgrade changes nothing; otherwise a fresh session with no receivers is stored under the id, overwriting any entry there, and the host is told the id |
| Registry.UploadRegistry.Lookup | backend/main.go:177-179 | lookup finds exactly the session stored under the id |
| Registry.UploadRegistry.OpenJoin | backend/main.go:173-192 | an unknown id is refused as not found; a known id gives its session when the upgrade succeeds |
| Registry.UploadRegistry.Teardown | backend/main.go:142-148 | host teardown deletes the entry under the session's id, so a later join is not found, and keeps every other entry |

## Left out

- WebSocket upgrade and I/O, HTTP routing and error responses, `main` and its
  flags, logging: the upgrade outcome is a boolean parameter, a send is a
  returned `Delivery`, and write errors (ignored by the server) are not modelled.
- The read loops themselves (they end only on a read error): each iteration is
  one step, `Relay.OnHostMessage` or `Relay.OnReceiverMessage`, applied to the
  session's current receiver list.
- Goroutines and the `sync.RWMutex` locks: every operation is one atomic
  sequential step on the registry or on a session.
- `crypto/rand` and `time.Now()`: random bytes, ids and timestamps are parameters;
  a collision of a fresh id with a live session is represented by passing that id.
- Relay.ReceiverAnswerRouting: holds only for payloads whose keys match `sender_id`
  exactly. Go's decoder matches keys by case folding and the last match wins after
  the stamped map is re-encoded with sorted keys, so a key such as `ſender_id`
  (U+017F folds to `s`) sorts after the stamp and overrides it: the host then
  receives the forged `receiver_id`. The `peer_id` stamp has no such variant.
- JSON text: payloads are abstract records. Go's case-insensitive matching of
  object keys and the re-encoding of numbers through float64 inside opaque values
  are not modelled; opaque values are carried unchanged.
