/**
 * One upload session and its receiver connection handler. The session's receiver
 * list is changed in place: a join appends, a disconnect splices out the first
 * receiver with the leaving id. Each operation is one atomic step (the source
 * runs it under the session's lock).
 */
module Session {
  import opened Wrappers
  import opened Validation
  import opened Protocol
  import opened Roster

  /**
   * The join handshake: only a first message of kind `join_request` registers a
   * receiver. Its payload is decoded leniently: a payload that is not an object,
   * or a name or public key that is not a string, leaves that field empty.
   * `None` for `first` is a failed first read.
   */
  function JoinGate(first: Option<Message>, rid: string, conn: ConnId, now: Timestamp): (r: Option<Receiver>)
    ensures r.Some? <==> first.Some? && first.value.kind == JoinRequestKind
    ensures r.Some? ==> r.value.id == rid && r.value.conn == conn && r.value.connectedAt == now
    ensures r.Some? && first.value.payload.NotObject? ==> r.value.name == "" && r.value.publicKey == ""
    ensures r.Some? && first.value.payload.Object? ==>
      && r.value.name == first.value.payload.fields.name.GetOr("")
      && r.value.publicKey == first.value.payload.fields.publicKey.GetOr("")
  {
    match first
    case None => None
    case Some(msg) =>
      if msg.kind != JoinRequestKind then None
      else
        var name := if msg.payload.Object? then msg.payload.fields.name.GetOr("") else "";
        var key := if msg.payload.Object? then msg.payload.fields.publicKey.GetOr("") else "";
        Some(Receiver(rid, name, key, conn, now))
  }

  /** A malformed join request is not refused: the receiver is registered with an empty name. */
  lemma MalformedJoinRegistered(rid: string, conn: ConnId, now: Timestamp)
    ensures JoinGate(Some(Message(JoinRequestKind, NotObject)), rid, conn, now) == Some(Receiver(rid, "", "", conn, now))
  {
  }

  /** An `Upload`: the host's session, its file metadata and its joined receivers, oldest first. */
  class Upload {
    const id: string
    const host: ConnId
    const meta: Metadata
    const createdAt: Timestamp
    var receivers: seq<Receiver>

    constructor (id: string, host: ConnId, meta: Metadata, createdAt: Timestamp)
      ensures this.id == id && this.host == host && this.meta == meta && this.createdAt == createdAt
      ensures receivers == []
    {
      this.id := id;
      this.host := host;
      this.meta := meta;
      this.createdAt := createdAt;
      receivers := [];
    }

    /** A join appends at the end: every earlier receiver keeps its index, so the active one stays active. */
    method Join(r: Receiver)
      modifies this
      ensures receivers == old(receivers) + [r]
      ensures forall i :: 0 <= i < |old(receivers)| ==> receivers[i] == old(receivers)[i]
      ensures Active(receivers) == if old(receivers) == [] then Some(r) else Active(old(receivers))
    {
      receivers := receivers + [r];
    }

    /** A disconnect: scan for the first receiver with id `rid` and splice it out. */
    method Remove(rid: string)
      modifies this
      ensures receivers == RemoveFirst(old(receivers), rid)
      ensures (forall j :: 0 <= j < |old(receivers)| ==> old(receivers)[j].id != rid) ==> receivers == old(receivers)
    {
      ghost var s := receivers;
      RemoveFirstSplice(s, rid);
      var i := 0;
      while i < |receivers|
        invariant i <= |receivers|
        invariant receivers == s
        invariant forall j :: 0 <= j < i ==> s[j].id != rid
      {
        if receivers[i].id == rid {
          FirstMatchIsFirst(s, rid, i);
          receivers := receivers[..i] + receivers[i + 1..];
          return;
        }
        i := i + 1;
      }
    }

    /** `sendReceiversUpdate`'s snapshot: a copy of the list projected to display-safe fields. */
    method Snapshot() returns (infos: seq<ReceiverInfo>)
      ensures |infos| == |receivers|
      ensures forall i :: 0 <= i < |receivers| ==> infos[i] == Info(receivers[i])
      ensures infos == Project(receivers)
    {
      var copy := receivers;
      var safe := new ReceiverInfo[|copy|];
      for i := 0 to |copy|
        invariant forall j :: 0 <= j < i ==> safe[j] == Info(copy[j])
      {
        safe[i] := Info(copy[i]);
      }
      infos := safe[..];
    }

    /**
     * `handleReceiverConnection` up to its read loop: the join gate, then on success
     * the append, the file metadata to the receiver and the membership update to the host.
     */
    method ReceiverConnected(first: Option<Message>, rid: string, conn: ConnId, now: Timestamp)
      returns (joined: Option<Receiver>, sent: seq<Delivery>)
      modifies this
      ensures joined == JoinGate(first, rid, conn, now)
      ensures joined.None? ==> receivers == old(receivers) && sent == []
      ensures joined.Some? ==>
        && receivers == old(receivers) + [joined.value]
        && sent == [Delivery(ToReceiver(joined.value), FileMetadata(meta)),
                    Delivery(Host, ReceiversUpdate(Project(receivers)))]
    {
      joined := JoinGate(first, rid, conn, now);
      sent := [];
      if joined.Some? {
        Join(joined.value);
        var infos := Snapshot();
        sent := [Delivery(ToReceiver(joined.value), FileMetadata(meta)), Delivery(Host, ReceiversUpdate(infos))];
      }
    }

    /** The end of `handleReceiverConnection`: removal by id, then the membership update to the host. */
    method ReceiverDisconnected(rid: string) returns (update: Delivery)
      modifies this
      ensures receivers == RemoveFirst(old(receivers), rid)
      ensures update == Delivery(Host, ReceiversUpdate(Project(receivers)))
    {
      Remove(rid);
      var infos := Snapshot();
      update := Delivery(Host, ReceiversUpdate(infos));
    }
  }
}
