/**
 * The process-wide table of live upload sessions, keyed by session id, and the two
 * HTTP entry points that use it. Ids are drawn at random by the source and are
 * parameters here; nothing checks that an id is free, so creating a session under
 * a live id replaces the older entry. Teardown deletes by id.
 */
module Registry {
  import opened Wrappers
  import opened Validation
  import opened Protocol
  import opened Session

  /** Why `GET /api/upload` is refused. */
  datatype CreateError = Rejected(reason: UploadError) | CouldNotUpgrade

  /** Why `GET /api/join/{id}` is refused. */
  datatype JoinError = NotFound | JoinCouldNotUpgrade

  class UploadRegistry {
    var uploads: map<string, Upload>

    constructor ()
      ensures uploads == map[]
    {
      uploads := map[];
    }

    /**
     * `handleNewFileUpload`: validate the query, then (when the WebSocket upgrade
     * succeeds) store a new session with no receivers under `id` and tell the host
     * its id. A refused request leaves the table unchanged.
     */
    method Create(fileName: string, fileType: string, fileSize: string, id: string,
                  upgraded: bool, host: ConnId, now: Timestamp)
      returns (r: Result<Delivery, CreateError>)
      modifies this
      ensures ValidateUpload(fileName, fileType, fileSize).Failure? ==>
        r == Failure(Rejected(ValidateUpload(fileName, fileType, fileSize).error)) && uploads == old(uploads)
      ensures ValidateUpload(fileName, fileType, fileSize).Success? && !upgraded ==>
        r == Failure(CouldNotUpgrade) && uploads == old(uploads)
      ensures ValidateUpload(fileName, fileType, fileSize).Success? && upgraded ==>
        && r == Success(Delivery(Host, UploadCreated(id)))
        && id in uploads && fresh(uploads[id])
        && uploads == old(uploads)[id := uploads[id]]
        && uploads[id].id == id && uploads[id].host == host && uploads[id].createdAt == now
        && uploads[id].meta == ValidateUpload(fileName, fileType, fileSize).value
        && uploads[id].receivers == []
    {
      var v := ValidateUpload(fileName, fileType, fileSize);
      if v.Failure? {
        return Failure(Rejected(v.error));
      }
      if !upgraded {
        return Failure(CouldNotUpgrade);
      }
      var upload := new Upload(id, host, v.value, now);
      uploads := uploads[id := upload];
      r := Success(Delivery(Host, UploadCreated(id)));
    }

    /** The registry read of `handleJoinUpload`. */
    method Lookup(id: string) returns (r: Option<Upload>)
      ensures r.Some? <==> id in uploads
      ensures r.Some? ==> r.value == uploads[id]
    {
      if id in uploads {
        r := Some(uploads[id]);
      } else {
        r := None;
      }
    }

    /** `handleJoinUpload`: an unknown id is "not found" before any upgrade is tried. */
    method OpenJoin(id: string, upgraded: bool) returns (r: Result<Upload, JoinError>)
      ensures id !in uploads ==> r == Failure(NotFound)
      ensures id in uploads && !upgraded ==> r == Failure(JoinCouldNotUpgrade)
      ensures id in uploads && upgraded ==> r == Success(uploads[id])
    {
      var found := Lookup(id);
      if found.None? {
        return Failure(NotFound);
      }
      if !upgraded {
        return Failure(JoinCouldNotUpgrade);
      }
      r := Success(found.value);
    }

    /**
     * The deferred cleanup of `handleHostConnection`: the entry under the session's
     * id is deleted and every other entry is kept. When a later session replaced
     * this one under the same id, it is that later session that disappears.
     */
    method Teardown(upload: Upload)
      modifies this
      ensures uploads == old(uploads) - {upload.id}
      ensures upload.id !in uploads
      ensures forall k :: k in old(uploads) && k != upload.id ==> k in uploads && uploads[k] == old(uploads)[k]
    {
      uploads := uploads - {upload.id};
    }
  }
}
