/**
 * Pure functions over a session's receiver list, oldest first. Element 0 is the
 * "active" receiver, the one the host pairs with.
 */
module Roster {
  import opened Wrappers
  import opened Protocol

  /** The active receiver: the oldest one still joined. */
  function Active(s: seq<Receiver>): Option<Receiver> {
    if s == [] then None else Some(s[0])
  }

  function Info(x: Receiver): ReceiverInfo {
    ReceiverInfo(x.id, x.name, x.publicKey, x.connectedAt)
  }

  /** The display-safe record forgets the connection and nothing else. */
  lemma InfoForgetsOnlyConn(x: Receiver, y: Receiver)
    ensures Info(x) == Info(y) <==> x.(conn := y.conn) == y
  {
  }

  /** The membership snapshot: each receiver projected to its display-safe fields, in order. */
  function Project(s: seq<Receiver>): (r: seq<ReceiverInfo>)
    ensures |r| == |s|
    ensures forall i :: 0 <= i < |s| ==>
      r[i].id == s[i].id && r[i].name == s[i].name &&
      r[i].publicKey == s[i].publicKey && r[i].connectedAt == s[i].connectedAt
  {
    if s == [] then [] else [Info(s[0])] + Project(s[1..])
  }

  /** Index of the first receiver whose id is `id`, if any. */
  function FirstMatch(s: seq<Receiver>, id: string): (r: Option<nat>)
    ensures r.Some? ==> IsFirstWithId(s, id, r.value)
    ensures r.None? ==> forall j :: 0 <= j < |s| ==> s[j].id != id
  {
    if s == [] then None
    else if s[0].id == id then Some(0)
    else match FirstMatch(s[1..], id)
      case None => None
      case Some(k) => Some(k + 1)
  }

  /** The first index holding a receiver with id `id`. */
  predicate IsFirstWithId(s: seq<Receiver>, id: string, k: int) {
    0 <= k < |s| && s[k].id == id && forall j :: 0 <= j < k ==> s[j].id != id
  }

  lemma FirstMatchIsFirst(s: seq<Receiver>, id: string, k: int)
    requires IsFirstWithId(s, id, k)
    ensures FirstMatch(s, id) == Some(k)
  {
    assert FirstMatch(s, id).Some?;
  }

  /** The list after a disconnect: the first receiver with that id is dropped. */
  function RemoveFirst(s: seq<Receiver>, id: string): (r: seq<Receiver>)
    ensures (exists i :: 0 <= i < |s| && s[i].id == id) ==> |r| == |s| - 1
    ensures (forall i :: 0 <= i < |s| ==> s[i].id != id) ==> r == s
    ensures multiset(r) <= multiset(s)
  {
    if s == [] then []
    else if s[0].id == id then
      assert s == [s[0]] + s[1..];
      s[1..]
    else
      assert s == [s[0]] + s[1..];
      [s[0]] + RemoveFirst(s[1..], id)
  }

  /** Removal splices out exactly the first match and keeps everything else in order. */
  lemma {:induction false} RemoveFirstSplice(s: seq<Receiver>, id: string)
    ensures FirstMatch(s, id).None? ==> RemoveFirst(s, id) == s
    ensures FirstMatch(s, id).Some? ==>
      var k := FirstMatch(s, id).value;
      RemoveFirst(s, id) == s[..k] + s[k + 1..]
  {
    if s != [] && s[0].id != id {
      RemoveFirstSplice(s[1..], id);
      match FirstMatch(s[1..], id)
      case None =>
      case Some(k) =>
        assert s[..k + 1] == [s[0]] + s[1..][..k];
        assert s[k + 2..] == s[1..][k + 1..];
    }
  }

  /** No receiver in `s` has id `id` at two positions. */
  predicate AtMostOnce(s: seq<Receiver>, id: string) {
    forall i, j :: 0 <= i < j < |s| && s[i].id == id ==> s[j].id != id
  }

  /** A second disconnect of the same receiver changes nothing. */
  lemma {:induction false} RemoveFirstTwice(s: seq<Receiver>, id: string)
    requires AtMostOnce(s, id)
    ensures RemoveFirst(RemoveFirst(s, id), id) == RemoveFirst(s, id)
  {
    RemoveFirstSplice(s, id);
    var t := RemoveFirst(s, id);
    if FirstMatch(s, id).Some? {
      var k := FirstMatch(s, id).value;
      assert t == s[..k] + s[k + 1..];
      forall j | 0 <= j < |t| ensures t[j].id != id {
        if j < k {
          assert t[j] == s[j];
        } else {
          assert t[j] == s[j + 1];
          assert s[k].id == id;
        }
      }
    }
    assert FirstMatch(t, id).None?;
    RemoveFirstSplice(t, id);
  }

  /** Who becomes active after a disconnect. */
  lemma RemoveFirstActive(s: seq<Receiver>, id: string)
    requires s != []
    ensures s[0].id == id ==> Active(RemoveFirst(s, id)) == Active(s[1..])
    ensures s[0].id != id ==> Active(RemoveFirst(s, id)) == Active(s)
  {
  }

  /** No two receivers share an id. */
  predicate DistinctIds(s: seq<Receiver>) {
    forall i, j :: 0 <= i < j < |s| ==> s[i].id != s[j].id
  }

  /** The receivers whose ids are not in `gone`, in join order. */
  function Remaining(s: seq<Receiver>, gone: set<string>): (r: seq<Receiver>)
    ensures forall i :: 0 <= i < |r| ==> r[i] in s && r[i].id !in gone
  {
    if s == [] then []
    else if s[0].id in gone then Remaining(s[1..], gone)
    else [s[0]] + Remaining(s[1..], gone)
  }

  /** A join after some disconnects: a newcomer not among the departed ends up last among the survivors. */
  lemma {:induction false} RemainingAppend(s: seq<Receiver>, r: Receiver, gone: set<string>)
    requires r.id !in gone
    ensures Remaining(s + [r], gone) == Remaining(s, gone) + [r]
  {
    if s == [] {
      assert s + [r] == [r];
    } else {
      assert (s + [r])[1..] == s[1..] + [r];
      RemainingAppend(s[1..], r, gone);
    }
  }

  lemma {:induction false} RemainingNoMatch(s: seq<Receiver>, gone: set<string>, id: string)
    requires forall j :: 0 <= j < |s| ==> s[j].id != id
    ensures Remaining(s, gone) == Remaining(s, gone + {id})
    ensures RemoveFirst(Remaining(s, gone), id) == Remaining(s, gone)
  {
    if s != [] {
      RemainingNoMatch(s[1..], gone, id);
    }
  }

  /**
   * Disconnecting receivers one after another leaves exactly the still-connected
   * receivers, in join order: with distinct ids, removing `id` from the survivors
   * of `gone` gives the survivors of `gone + {id}`.
   */
  lemma {:induction false} RemoveFirstRemaining(s: seq<Receiver>, gone: set<string>, id: string)
    requires DistinctIds(s)
    ensures RemoveFirst(Remaining(s, gone), id) == Remaining(s, gone + {id})
  {
    if s != [] {
      assert DistinctIds(s[1..]);
      if s[0].id == id {
        RemainingNoMatch(s[1..], gone, id);
        if id !in gone {
          assert Remaining(s, gone) == [s[0]] + Remaining(s[1..], gone);
        }
      } else {
        RemoveFirstRemaining(s[1..], gone, id);
      }
    }
  }

  /** What happens to a session's receiver list: a join or a disconnect by id. */
  datatype Event = Joined(receiver: Receiver) | Left(id: string)

  /** The receiver list after a trace of events, starting from a new session. */
  function Replay(es: seq<Event>): seq<Receiver> {
    if es == [] then []
    else
      var before := Replay(es[..|es| - 1]);
      match es[|es| - 1]
      case Joined(r) => before + [r]
      case Left(id) => RemoveFirst(before, id)
  }

  /** Every receiver that joined during the trace, in join order. */
  function JoinsOf(es: seq<Event>): seq<Receiver> {
    if es == [] then []
    else
      var before := JoinsOf(es[..|es| - 1]);
      match es[|es| - 1]
      case Joined(r) => before + [r]
      case Left(_) => before
  }

  /** The ids that disconnected during the trace. */
  function LeftIds(es: seq<Event>): set<string> {
    if es == [] then {}
    else
      var before := LeftIds(es[..|es| - 1]);
      match es[|es| - 1]
      case Joined(_) => before
      case Left(id) => before + {id}
  }

  /** No receiver in `s` has id `id`. */
  predicate IdAbsent(s: seq<Receiver>, id: string) {
    forall j :: 0 <= j < |s| ==> s[j].id != id
  }

  /** Every join brings an id that has neither joined nor left before (ids are fresh). */
  predicate FreshJoins(es: seq<Event>) {
    es == [] ||
    (FreshJoins(es[..|es| - 1]) &&
     match es[|es| - 1]
     case Joined(r) =>
       r.id !in LeftIds(es[..|es| - 1]) && IdAbsent(JoinsOf(es[..|es| - 1]), r.id)
     case Left(_) => true)
  }

  /**
   * After any trace of joins and disconnects with fresh ids, the list holds exactly
   * the receivers still joined, in join order.
   */
  lemma {:induction false} ReplayIsStillJoined(es: seq<Event>)
    requires FreshJoins(es)
    ensures DistinctIds(JoinsOf(es))
    ensures Replay(es) == Remaining(JoinsOf(es), LeftIds(es))
  {
    if es != [] {
      var pre := es[..|es| - 1];
      ReplayIsStillJoined(pre);
      match es[|es| - 1]
      case Joined(r) =>
        RemainingAppend(JoinsOf(pre), r, LeftIds(pre));
      case Left(id) =>
        RemoveFirstRemaining(JoinsOf(pre), LeftIds(pre), id);
    }
  }
}
