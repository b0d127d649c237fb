/**
 * What both coordinators share about connections: the handler context,
 * client ids, the calls into the execution manager, fanning one payload out
 * to the registered ids of a record's client list, and dropping one id from
 * that list.
 */
module Broadcast {
  import opened Types

  /** What a connection's handlers capture: the session code, the owner uuid, the client id and the socket. */
  datatype ConnCtx = ConnCtx(code: string, uuid: string, clientId: string, ws: Conn)

  /** The client id `${uuid}-${suffix}`, the suffix being random. */
  function ClientId(uuid: string, suffix: string): string
  {
    uuid + "-" + suffix
  }

  /** A call from a coordinator into the execution manager; its effect on the manager is not part of the step. */
  datatype VmCall = Exec(code: string, uuid: string, script: Value, serverRootPath: string) | Stop(code: string, uuid: string)

  /** How the coordinator's `await ExecCodeTest(...)` ends: with the manager's result string, or rejected. */
  datatype ExecAnswer = Answered(result: string) | Rejected

  /**
   * The frames that `for (const id of ids) if (clients.has(id)) clients.get(id).send(p)`
   * writes, in order: one per listed id that is registered, none for the others.
   */
  function BroadcastEvents<R>(ids: seq<string>, conns: map<string, Conn>, p: Payload<R>): seq<Event<R>>
  {
    if ids == [] then []
    else (if ids[0] in conns then [Send(conns[ids[0]], p)] else []) + BroadcastEvents(ids[1..], conns, p)
  }

  /** Broadcasting to a concatenated id list is broadcasting to each part in turn. */
  lemma {:induction false} BroadcastAppend<R>(a: seq<string>, b: seq<string>, conns: map<string, Conn>, p: Payload<R>)
    ensures BroadcastEvents(a + b, conns, p) == BroadcastEvents(a, conns, p) + BroadcastEvents(b, conns, p)
  {
    if a != [] {
      assert (a + b)[0] == a[0] && (a + b)[1..] == a[1..] + b;
      BroadcastAppend(a[1..], b, conns, p);
    } else {
      assert a + b == b;
    }
  }

  /**
   * Every frame goes to the connection of a listed, registered id and carries the
   * given payload; every listed, registered id receives it; no socket is closed.
   */
  lemma {:induction false} BroadcastReaches<R>(ids: seq<string>, conns: map<string, Conn>, p: Payload<R>, e: Event<R>)
    ensures e in BroadcastEvents(ids, conns, p) <==>
            exists i :: 0 <= i < |ids| && ids[i] in conns && e == Send(conns[ids[i]], p)
  {
    if ids != [] {
      BroadcastReaches(ids[1..], conns, p, e);
      if e in BroadcastEvents(ids[1..], conns, p) {
        var i :| 0 <= i < |ids[1..]| && ids[1..][i] in conns && e == Send(conns[ids[1..][i]], p);
        assert ids[i + 1] == ids[1..][i];
      }
      if exists i :: 0 <= i < |ids| && ids[i] in conns && e == Send(conns[ids[i]], p) {
        var i :| 0 <= i < |ids| && ids[i] in conns && e == Send(conns[ids[i]], p);
        if i > 0 {
          assert ids[1..][i - 1] == ids[i];
        }
      }
    }
  }

  /** A broadcast writes at most one frame per listed id, and exactly one per id when all are registered. */
  lemma {:induction false} BroadcastLength<R>(ids: seq<string>, conns: map<string, Conn>, p: Payload<R>)
    ensures |BroadcastEvents(ids, conns, p)| <= |ids|
    ensures (forall i :: 0 <= i < |ids| ==> ids[i] in conns) ==> |BroadcastEvents(ids, conns, p)| == |ids|
  {
    if ids != [] {
      BroadcastLength(ids[1..], conns, p);
      if forall i :: 0 <= i < |ids| ==> ids[i] in conns {
        assert forall i :: 0 <= i < |ids[1..]| ==> ids[1..][i] == ids[i + 1];
      }
    }
  }

  /** The positions of `ids` that hold a registered id. */
  function RegisteredPositions(ids: seq<string>, conns: map<string, Conn>): set<int>
  {
    set i | 0 <= i < |ids| && ids[i] in conns
  }

  /** A broadcast writes exactly one frame per listed position whose id is registered. */
  lemma {:induction false} BroadcastCount<R>(ids: seq<string>, conns: map<string, Conn>, p: Payload<R>)
    ensures |BroadcastEvents(ids, conns, p)| == |RegisteredPositions(ids, conns)|
    decreases |ids|
  {
    if ids == [] {
      assert RegisteredPositions(ids, conns) == {};
    } else {
      var front, x := ids[..|ids| - 1], ids[|ids| - 1];
      assert ids == front + [x];
      BroadcastAppend(front, [x], conns, p);
      BroadcastCount(front, conns, p);
      assert [x][1..] == [];
      assert BroadcastEvents([x], conns, p) == if x in conns then [Send(conns[x], p)] else [];
      assert RegisteredPositions(ids, conns) ==
             RegisteredPositions(front, conns) + (if x in conns then {|front|} else {}) by {
        assert forall i :: 0 <= i < |front| ==> ids[i] == front[i];
      }
      assert |front| !in RegisteredPositions(front, conns);
    }
  }

  /** `ids.filter((x) => x !== id)`. */
  function Without(ids: seq<string>, id: string): seq<string>
  {
    if ids == [] then []
    else (if ids[0] == id then [] else [ids[0]]) + Without(ids[1..], id)
  }

  /** Filtering a concatenation filters each part, so the kept ids stay in their order. */
  lemma {:induction false} WithoutAppend(a: seq<string>, b: seq<string>, id: string)
    ensures Without(a + b, id) == Without(a, id) + Without(b, id)
  {
    if a != [] {
      assert (a + b)[0] == a[0] && (a + b)[1..] == a[1..] + b;
      WithoutAppend(a[1..], b, id);
    } else {
      assert a + b == b;
    }
  }

  /** Exactly the given id is dropped: every other listed id remains. */
  lemma {:induction false} WithoutMembers(ids: seq<string>, id: string, x: string)
    ensures x in Without(ids, id) <==> x in ids && x != id
  {
    if ids != [] {
      WithoutMembers(ids[1..], id, x);
      assert ids == [ids[0]] + ids[1..];
    }
  }

  /** Filtering out an id that is not listed leaves the list as it was. */
  lemma {:induction false} WithoutAbsent(ids: seq<string>, id: string)
    requires id !in ids
    ensures Without(ids, id) == ids
  {
    if ids != [] {
      WithoutAbsent(ids[1..], id);
      assert ids == [ids[0]] + ids[1..];
    }
  }

  /**
   * Connect appends a fresh id and close filters it out again: the pair
   * restores the client list.
   */
  lemma JoinThenLeave(ids: seq<string>, id: string)
    requires id !in ids
    ensures Without(ids + [id], id) == ids
  {
    WithoutAppend(ids, [id], id);
    WithoutAbsent(ids, id);
    assert Without([id], id) == [];
  }
}
