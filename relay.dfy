/**
 * Message dispatch on the host and receiver read loops, and the routing decision
 * of `handleWebRTCSignaling`: from the message kind, the direction and the current
 * receiver list, which connection gets which rewritten payload. A result of `None`
 * means nothing is written anywhere.
 */
module Relay {
  import opened Wrappers
  import opened Protocol
  import opened Roster

  /** The three handshake kinds that reach the relay. */
  datatype SignalKind = Offer | Answer | IceCandidate

  /**
   * The payload as decoded into the relay's fixed record: routing strings default
   * to "" and opaque values to JSON null; a payload that is not a JSON object
   * decodes to all defaults (the decoding error is ignored).
   */
  datatype Signaling = Signaling(senderId: string, receiverId: string, peerId: string, offer: Json, answer: Json, candidate: Json)

  function Decode(p: Payload): Signaling {
    match p
    case NotObject => Signaling("", "", "", Null, Null, Null)
    case Object(f) =>
      Signaling(f.senderId.GetOr(""), f.receiverId.GetOr(""), f.peerId.GetOr(""),
                f.offer.GetOr(Null), f.answer.GetOr(Null), f.candidate.GetOr(Null))
  }

  /**
   * What decoding cannot tell apart: a non-object payload reads like an empty object,
   * the join keys are never read, and an opaque key set to null reads like an absent one.
   */
  lemma DecodeIndistinguishable(f: Fields, n: Option<string>, k: Option<string>)
    ensures Decode(NotObject) == Decode(Object(NoFields))
    ensures Decode(Object(f.(name := n, publicKey := k))) == Decode(Object(f))
    ensures Decode(Object(f.(offer := Some(Null)))) == Decode(Object(f.(offer := None)))
    ensures Decode(Object(f.(answer := Some(Null)))) == Decode(Object(f.(answer := None)))
    ensures Decode(Object(f.(candidate := Some(Null)))) == Decode(Object(f.(candidate := None)))
  {
  }

  /** `handleWebRTCSignaling(upload, msg, isFromHost)` over a snapshot of the receivers. */
  function Relay(kind: SignalKind, fromHost: bool, p: Payload, receivers: seq<Receiver>): (r: Option<Delivery>)
    ensures r.Some? ==> r.value.message.Signal?
    ensures r.Some? && r.value.target.ToReceiver? ==>
      fromHost && kind != Answer && r.value.target.receiver in receivers
    ensures r.Some? && r.value.target.Host? ==> !fromHost && kind != Offer
    ensures kind == Offer ==>
      (r.Some? <==> fromHost && exists i :: 0 <= i < |receivers| && receivers[i].id == Decode(p).receiverId)
    ensures kind == IceCandidate && fromHost ==>
      (r.Some? <==> exists i :: 0 <= i < |receivers| && receivers[i].id == Decode(p).peerId)
    ensures !fromHost && kind != Offer ==> r.Some?
  {
    var m := Decode(p);
    match kind
    case Offer =>
      if !fromHost then None
      else
        (match FirstMatch(receivers, m.receiverId)
         case None => None
         case Some(k) =>
           Some(Delivery(ToReceiver(receivers[k]),
             Signal(OfferKind, Object(NoFields.(senderId := Some(HostMarker), offer := Some(m.offer)))))))
    case Answer =>
      if fromHost then None
      else
        Some(Delivery(Host,
          Signal(AnswerKind, Object(NoFields.(receiverId := Some(m.senderId), answer := Some(m.answer))))))
    case IceCandidate =>
      if fromHost then
        (match FirstMatch(receivers, m.peerId)
         case None => None
         case Some(k) =>
           Some(Delivery(ToReceiver(receivers[k]),
             Signal(CandidateKind, Object(NoFields.(peerId := Some(HostMarker), candidate := Some(m.candidate)))))))
      else
        Some(Delivery(Host,
          Signal(CandidateKind, Object(NoFields.(peerId := Some(m.peerId), candidate := Some(m.candidate))))))
  }

  /** One iteration of the host's read loop. */
  function OnHostMessage(msg: Message, receivers: seq<Receiver>): (r: Option<Delivery>)
    ensures r.Some? ==> msg.kind in {GetReceiversKind, OfferKind, CandidateKind}
    ensures r.Some? && r.value.target.ToReceiver? ==>
      msg.kind in {OfferKind, CandidateKind} && r.value.target.receiver in receivers
    ensures msg.kind == GetReceiversKind ==> r.Some? && r.value.target == Host
  {
    if msg.kind == GetReceiversKind then Some(Delivery(Host, ReceiversUpdate(Project(receivers))))
    else if msg.kind == OfferKind then Relay(Offer, true, msg.payload, receivers)
    else if msg.kind == AnswerKind then Relay(Answer, true, msg.payload, receivers)
    else if msg.kind == CandidateKind then Relay(IceCandidate, true, msg.payload, receivers)
    else None
  }

  /** Overwrite one routing key of an object payload; any other payload is left alone. */
  function StampSender(p: Payload, id: string): (r: Payload)
    ensures p.NotObject? ==> r == p
    ensures p.Object? ==> Decode(r) == Decode(p).(senderId := id)
  {
    match p
    case NotObject => NotObject
    case Object(f) => Object(f.(senderId := Some(id)))
  }

  function StampPeer(p: Payload, id: string): (r: Payload)
    ensures p.NotObject? ==> r == p
    ensures p.Object? ==> Decode(r) == Decode(p).(peerId := id)
  {
    match p
    case NotObject => NotObject
    case Object(f) => Object(f.(peerId := Some(id)))
  }

  /** One iteration of a joined receiver's read loop. */
  function OnReceiverMessage(self: Receiver, msg: Message, receivers: seq<Receiver>): (r: Option<Delivery>)
    ensures r.Some? <==> msg.kind in {AnswerKind, CandidateKind}
    ensures r.Some? ==> r.value.target == Host
  {
    if msg.kind == AnswerKind then Relay(Answer, false, StampSender(msg.payload, self.id), receivers)
    else if msg.kind == CandidateKind then Relay(IceCandidate, false, StampPeer(msg.payload, self.id), receivers)
    else None
  }

  /**
   * A host offer goes to the first receiver whose id is the payload's receiver_id,
   * tagged sender_id = "host" with the offer carried over; with no such receiver,
   * nothing is delivered.
   */
  lemma HostOfferRouting(p: Payload, s: seq<Receiver>)
    ensures var d := OnHostMessage(Message(OfferKind, p), s);
      var rid := Decode(p).receiverId;
      && (d.Some? <==> exists i :: 0 <= i < |s| && s[i].id == rid)
      && forall k :: IsFirstWithId(s, rid, k) ==>
           d == Some(Delivery(ToReceiver(s[k]),
             Signal(OfferKind, Object(NoFields.(senderId := Some(HostMarker), offer := Some(Decode(p).offer))))))
  {
    var rid := Decode(p).receiverId;
    forall k | IsFirstWithId(s, rid, k)
      ensures OnHostMessage(Message(OfferKind, p), s) == Some(Delivery(ToReceiver(s[k]),
             Signal(OfferKind, Object(NoFields.(senderId := Some(HostMarker), offer := Some(Decode(p).offer))))))
    {
      FirstMatchIsFirst(s, rid, k);
    }
  }

  /** An offer sent by a receiver is never delivered: the read loop ignores it, and so would the relay. */
  lemma ReceiverOfferDropped(self: Receiver, p: Payload, s: seq<Receiver>)
    ensures OnReceiverMessage(self, Message(OfferKind, p), s) == None
    ensures Relay(Offer, false, p, s) == None
  {
  }

  /**
   * A receiver's answer with an object payload reaches the host tagged with that
   * receiver's own id, whatever sender_id it claimed; the answer is carried over.
   */
  lemma ReceiverAnswerRouting(self: Receiver, f: Fields, s: seq<Receiver>)
    ensures OnReceiverMessage(self, Message(AnswerKind, Object(f)), s) ==
      Some(Delivery(Host, Signal(AnswerKind,
        Object(NoFields.(receiverId := Some(self.id), answer := Some(f.answer.GetOr(Null)))))))
  {
  }

  /** A non-object answer is not stamped: it reaches the host with an empty receiver_id and a null answer. */
  lemma ReceiverNonObjectAnswer(self: Receiver, s: seq<Receiver>)
    ensures OnReceiverMessage(self, Message(AnswerKind, NotObject), s) ==
      Some(Delivery(Host, Signal(AnswerKind, Object(NoFields.(receiverId := Some(""), answer := Some(Null))))))
  {
  }

  /** An answer from the host is dispatched to the relay and dropped there. */
  lemma HostAnswerDropped(p: Payload, s: seq<Receiver>)
    ensures OnHostMessage(Message(AnswerKind, p), s) == None
  {
  }

  /**
   * A host candidate goes to the first receiver whose id is the payload's peer_id,
   * tagged peer_id = "host", or nowhere when no receiver has that id.
   */
  lemma HostCandidateRouting(p: Payload, s: seq<Receiver>)
    ensures var d := OnHostMessage(Message(CandidateKind, p), s);
      var pid := Decode(p).peerId;
      && (d.Some? <==> exists i :: 0 <= i < |s| && s[i].id == pid)
      && forall k :: IsFirstWithId(s, pid, k) ==>
           d == Some(Delivery(ToReceiver(s[k]),
             Signal(CandidateKind, Object(NoFields.(peerId := Some(HostMarker), candidate := Some(Decode(p).candidate))))))
  {
    var pid := Decode(p).peerId;
    forall k | IsFirstWithId(s, pid, k)
      ensures OnHostMessage(Message(CandidateKind, p), s) == Some(Delivery(ToReceiver(s[k]),
             Signal(CandidateKind, Object(NoFields.(peerId := Some(HostMarker), candidate := Some(Decode(p).candidate))))))
    {
      FirstMatchIsFirst(s, pid, k);
    }
  }

  /** A receiver's candidate with an object payload reaches the host with peer_id stamped as that receiver's id. */
  lemma ReceiverCandidateRouting(self: Receiver, f: Fields, s: seq<Receiver>)
    ensures OnReceiverMessage(self, Message(CandidateKind, Object(f)), s) ==
      Some(Delivery(Host, Signal(CandidateKind,
        Object(NoFields.(peerId := Some(self.id), candidate := Some(f.candidate.GetOr(Null)))))))
  {
  }

  /** `get_receivers` answers the host with the membership snapshot; its element 0 is the active receiver. */
  lemma GetReceiversReply(p: Payload, s: seq<Receiver>)
    ensures OnHostMessage(Message(GetReceiversKind, p), s) == Some(Delivery(Host, ReceiversUpdate(Project(s))))
    ensures s != [] ==> Project(s)[0].id == Active(s).value.id
  {
  }

  /** The host loop ignores every kind but `get_receivers` and the three handshake kinds. */
  lemma HostUnknownIgnored(msg: Message, s: seq<Receiver>)
    requires msg.kind !in {GetReceiversKind, OfferKind, AnswerKind, CandidateKind}
    ensures OnHostMessage(msg, s) == None
  {
  }

  /** A receiver's loop ignores every kind but an answer and a candidate. */
  lemma ReceiverUnknownIgnored(self: Receiver, msg: Message, s: seq<Receiver>)
    requires msg.kind !in {AnswerKind, CandidateKind}
    ensures OnReceiverMessage(self, msg, s) == None
  {
  }

  /**
   * An offer aimed at a receiver that has just disconnected is delivered to no one,
   * provided receiver ids are distinct.
   */
  lemma OfferToDepartedDropped(s: seq<Receiver>, gone: Receiver, p: Payload)
    requires DistinctIds(s) && gone in s && Decode(p).receiverId == gone.id
    ensures OnHostMessage(Message(OfferKind, p), RemoveFirst(s, gone.id)) == None
  {
    var k :| 0 <= k < |s| && s[k] == gone;
    FirstMatchIsFirst(s, gone.id, k);
    RemoveFirstSplice(s, gone.id);
    var t := RemoveFirst(s, gone.id);
    assert t == s[..k] + s[k + 1..];
    forall j | 0 <= j < |t| ensures t[j].id != gone.id {
      if j < k {
        assert t[j] == s[j];
      } else {
        assert t[j] == s[j + 1];
      }
    }
  }
}
