/**
 * The WebSocket session coordinator of the older checkout
 * (`src/server/websocket/index.ts`). It has the same handlers as the newer
 * one, with these differences: the dialogue of a session-shaped frame is
 * persisted as sent, without the tutor; the record keeps nine fields;
 * the empty-code log entry comes from `updateLog` and carries no id; and
 * there is no error handling, so with a missing record the first read of
 * one of its fields throws and the handler ends before it has any effect.
 */
module Legacy {
  import opened Wrappers
  import opened Types
  import opened Broadcast
  import opened Vm

  /** The persisted record of the older checkout. */
  datatype LegacyValue = LegacyValue(
    sessioncode: string,
    uuid: string,
    workspace: string,
    dialogue: seq<Dialogue>,
    createdAt: Time,
    updatedAt: Time,
    isVMRunning: bool,
    clients: seq<string>,
    language: string)

  /** A parsed inbound frame: session-shaped with a `workspace`, a command, or both. */
  datatype LegacyIncoming = LegacyIncoming(
    sessioncode: string,
    uuid: string,
    workspace: Option<string>,
    dialogue: seq<Dialogue>,
    request: string,
    value: Value)

  type Ev = Event<LegacyValue>

  /**
   * `updateLog`: a new record whose dialogue is the old one plus a final
   * `log` entry, not by the user, without an id; every other field is the
   * old record's, and removing that entry gives the old record back.
   */
  function UpdateLog(message: string, data: LegacyValue): (r: LegacyValue)
    ensures |r.dialogue| == |data.dialogue| + 1
    ensures r.dialogue[..|data.dialogue|] == data.dialogue
    ensures r.dialogue[|data.dialogue|] == Dialogue(None, "log", false, message)
    ensures r.(dialogue := data.dialogue) == data
  {
    data.(dialogue := data.dialogue + [Dialogue(None, "log", false, message)])
  }

  /**
   * `dataToPut`: the frame's code, owner uuid, workspace and dialogue,
   * verbatim; the stored record's creation time, run flag, client list and
   * language.
   */
  function DataToPut(cur: LegacyValue, msg: LegacyIncoming, now: Time): (r: LegacyValue)
    requires msg.workspace.Some?
    ensures r.sessioncode == msg.sessioncode && r.uuid == msg.uuid
    ensures r.workspace == msg.workspace.value && r.dialogue == msg.dialogue
    ensures r.createdAt == cur.createdAt && r.isVMRunning == cur.isVMRunning
    ensures r.clients == cur.clients && r.language == cur.language
    ensures r.updatedAt == now
  {
    LegacyValue(msg.sessioncode, msg.uuid, msg.workspace.value, msg.dialogue, cur.createdAt, now,
                cur.isVMRunning, cur.clients, cur.language)
  }

  /** The frames of a session-shaped frame: the mismatch error and close, then the record broadcast. */
  function WorkspaceEvents(ws: Conn, cur: LegacyValue, msg: LegacyIncoming, rec: LegacyValue, conns: map<string, Conn>): seq<Ev>
  {
    (if cur.uuid != msg.uuid then [Send(ws, Text("Invalid uuid")), Close(ws)] else []) +
    BroadcastEvents(cur.clients, conns, Record(rec))
  }

  /**
   * The record an `open` request leaves persisted: for the empty program,
   * not running and with one more `log` entry; otherwise running exactly
   * when the execution manager answered `"Valid uuid"`. There is none when
   * the manager's call rejected.
   */
  function OpenRecord(cur: LegacyValue, value: Value, exec: ExecAnswer, emptyText: string): (r: Option<LegacyValue>)
    ensures r.None? <==> !IsEmptyCode(value) && exec.Rejected?
    ensures r.Some? ==> r.value.isVMRunning == (!IsEmptyCode(value) && exec.result == "Valid uuid")
    ensures IsEmptyCode(value) ==> r.Some? && r.value.dialogue == cur.dialogue + [Dialogue(None, "log", false, emptyText)]
    ensures r.Some? && !IsEmptyCode(value) ==> r.value.dialogue == cur.dialogue
    ensures r.Some? ==> r.value.(isVMRunning := cur.isVMRunning, dialogue := cur.dialogue) == cur
  {
    if IsEmptyCode(value) then
      Some(UpdateLog(emptyText, cur.(isVMRunning := false)))
    else
      match exec
      case Rejected => None
      case Answered(result) => Some(cur.(isVMRunning := result == "Valid uuid"))
  }

  /**
   * The frames of an `open` request, all to the stored record's registered
   * clients: for the empty program the cleared record, the `false` flag,
   * then the record with the log entry (its update is not awaited);
   * otherwise the updated record, then its flag. None when the manager's
   * call rejected.
   */
  function OpenEvents(cur: LegacyValue, value: Value, exec: ExecAnswer, emptyText: string, conns: map<string, Conn>): seq<Ev>
  {
    match OpenRecord(cur, value, exec, emptyText)
    case None => []
    case Some(r) =>
      if IsEmptyCode(value) then
        BroadcastEvents(cur.clients, conns, Record(cur.(isVMRunning := false))) +
        BroadcastEvents(cur.clients, conns, Msg(SendIsWorkspaceRunning(false))) +
        BroadcastEvents(cur.clients, conns, Record(r))
      else
        BroadcastEvents(cur.clients, conns, Record(r)) +
        BroadcastEvents(cur.clients, conns, Msg(SendIsWorkspaceRunning(r.isVMRunning)))
  }

  /** The execution-manager calls of an `open` request: none for the empty program. */
  function OpenCalls(code: string, cur: LegacyValue, value: Value): seq<VmCall>
  {
    if IsEmptyCode(value) then [] else [Exec(code, cur.uuid, value, "/vm/" + code)]
  }

  class LegacyCoordinator {
    var store: map<string, LegacyValue>
    var clients: map<string, Conn>
    var outbox: seq<Ev>
    var vmCalls: seq<VmCall>
    /** The language i18next was last switched to. */
    var language: string

    constructor (store: map<string, LegacyValue>, language: string)
      ensures this.store == store && clients == map[] && outbox == [] && vmCalls == []
      ensures this.language == language
    {
      this.store := store;
      clients := map[];
      outbox := [];
      vmCalls := [];
      this.language := language;
    }

    /** `sendToAllClients`: the message, or else the whole record, to each listed id that is registered. */
    method SendToAllClients(session: LegacyValue, message: Option<WSMessage>)
      modifies this`outbox
      ensures outbox == old(outbox) +
                BroadcastEvents(session.clients, clients, if message.Some? then Msg(message.value) else Record(session))
    {
      var p: Payload<LegacyValue> := if message.Some? then Msg(message.value) else Record(session);
      var ids := session.clients;
      var i := 0;
      while i < |ids|
        invariant 0 <= i <= |ids|
        invariant outbox == old(outbox) + BroadcastEvents(ids[..i], clients, p)
      {
        var id := ids[i];
        BroadcastAppend(ids[..i], [id], clients, p);
        assert ids[..i + 1] == ids[..i] + [id];
        if id in clients {
          outbox := outbox + [Send(clients[id], p)];
        }
        i := i + 1;
      }
      assert ids[..|ids|] == ids;
    }

    /** `updateDatabase`: persists the record, then sends it to its registered clients. */
    method UpdateDatabase(code: string, newData: LegacyValue)
      modifies this`store, this`outbox
      ensures store == old(store)[code := newData]
      ensures outbox == old(outbox) + BroadcastEvents(newData.clients, clients, Record(newData))
    {
      store := store[code := newData];
      SendToAllClients(newData, None);
    }

    /**
     * The connect handler. With a missing record, reading its uuid throws: nothing
     * is sent or registered. Another owner: `"Invalid uuid"` and a close.
     * Otherwise the new id is registered, appended to the record's client
     * list and persisted only when absent from it, i18next switches to the
     * record's language, and the new socket alone receives the run flag.
     */
    method Connect(code: string, uuid: string, ws: Conn, suffix: string) returns (ctx: Option<ConnCtx>)
      modifies this
      ensures vmCalls == old(vmCalls)
      ensures code !in old(store) ==>
                ctx == None && store == old(store) && clients == old(clients) && language == old(language) &&
                outbox == old(outbox)
      ensures code in old(store) && old(store)[code].uuid != uuid ==>
                ctx == None && store == old(store) && clients == old(clients) && language == old(language) &&
                outbox == old(outbox) + [Send(ws, Text("Invalid uuid")), Close(ws)]
      ensures code in old(store) && old(store)[code].uuid == uuid ==>
                var data := old(store)[code];
                var id := ClientId(uuid, suffix);
                ctx == Some(ConnCtx(code, uuid, id, ws)) &&
                clients == old(clients)[id := ws] &&
                store == (if id in data.clients then old(store)
                          else old(store)[code := data.(clients := data.clients + [id])]) &&
                id in store[code].clients &&
                language == data.language &&
                outbox == old(outbox) + [Send(ws, Msg(SendIsWorkspaceRunning(data.isVMRunning)))]
    {
      if code !in store {
        return None;
      }
      var data := store[code];
      if data.uuid != uuid {
        outbox := outbox + [Send(ws, Text("Invalid uuid")), Close(ws)];
        return None;
      }
      var clientId := ClientId(uuid, suffix);
      clients := clients[clientId := ws];
      if clientId !in data.clients {
        data := data.(clients := data.clients + [clientId]);
        store := store[code := data];
      }
      language := data.language;
      outbox := outbox + [Send(ws, Msg(SendIsWorkspaceRunning(data.isVMRunning)))];
      return Some(ConnCtx(code, uuid, clientId, ws));
    }

    /** The session-shaped part of a frame: merge, persist and broadcast; no tutor. */
    method HandleWorkspace(ctx: ConnCtx, cur: LegacyValue, msg: LegacyIncoming, now: Time)
      requires msg.workspace.Some?
      modifies this`store, this`outbox
      ensures var rec := DataToPut(cur, msg, now);
              store == old(store)[ctx.code := rec] &&
              outbox == old(outbox) + WorkspaceEvents(ctx.ws, cur, msg, rec, clients)
    {
      if cur.uuid != msg.uuid {
        outbox := outbox + [Send(ctx.ws, Text("Invalid uuid")), Close(ctx.ws)];
      }
      var dataToPut := DataToPut(cur, msg, now);
      UpdateDatabase(ctx.code, dataToPut);
    }

    /**
     * An `open` request, against the record read when the frame arrived. When
     * the execution manager's call rejects, the request persists and sends
     * nothing and `ok` is false.
     */
    method HandleOpen(ctx: ConnCtx, cur: LegacyValue, value: Value, exec: ExecAnswer, emptyText: string) returns (ok: bool)
      modifies this`store, this`outbox, this`vmCalls
      ensures ok <==> OpenRecord(cur, value, exec, emptyText).Some?
      ensures store == if ok then old(store)[ctx.code := OpenRecord(cur, value, exec, emptyText).value] else old(store)
      ensures outbox == old(outbox) + OpenEvents(cur, value, exec, emptyText, clients)
      ensures vmCalls == old(vmCalls) + OpenCalls(ctx.code, cur, value)
    {
      if IsEmptyCode(value) {
        var cleared := cur.(isVMRunning := false);
        UpdateDatabase(ctx.code, cleared);
        var withLog := UpdateLog(emptyText, cleared);
        store := store[ctx.code := withLog];
        SendToAllClients(cleared, Some(SendIsWorkspaceRunning(false)));
        SendToAllClients(withLog, None);
        return true;
      }
      vmCalls := vmCalls + [Exec(ctx.code, cur.uuid, value, "/vm/" + ctx.code)];
      if exec.Rejected? {
        return false;
      }
      var updated := cur.(isVMRunning := exec.result == "Valid uuid");
      UpdateDatabase(ctx.code, updated);
      SendToAllClients(updated, Some(SendIsWorkspaceRunning(updated.isVMRunning)));
      return true;
    }

    /** A `stop` request: the manager is asked to stop, the `false` flag is broadcast, nothing is persisted. */
    method HandleStop(ctx: ConnCtx, cur: LegacyValue)
      modifies this`outbox, this`vmCalls
      ensures outbox == old(outbox) + BroadcastEvents(cur.clients, clients, Msg(SendIsWorkspaceRunning(false)))
      ensures vmCalls == old(vmCalls) + [Stop(ctx.code, ctx.uuid)]
    {
      vmCalls := vmCalls + [Stop(ctx.code, ctx.uuid)];
      var stopped := cur.(isVMRunning := false);
      SendToAllClients(stopped, Some(SendIsWorkspaceRunning(false)));
    }

    /**
     * The message handler. With a missing record, reading its run flag throws: nothing
     * happens. Otherwise the session-shaped part runs first; an `open` or
     * `stop` request then works on the record as read before it. A rejected
     * `ExecCodeTest` is not caught: the `open` part then persists and sends
     * nothing.
     */
    method OnMessage(ctx: ConnCtx, msg: LegacyIncoming, now: Time, exec: ExecAnswer, emptyText: string)
      modifies this
      ensures clients == old(clients) && language == old(language)
      ensures ctx.code !in old(store) ==>
                store == old(store) && vmCalls == old(vmCalls) && outbox == old(outbox)
      ensures ctx.code in old(store) ==>
                var cur := old(store)[ctx.code];
                var stored := if SentString(msg.workspace) then old(store)[ctx.code := DataToPut(cur, msg, now)] else old(store);
                var sent := if SentString(msg.workspace) then WorkspaceEvents(ctx.ws, cur, msg, DataToPut(cur, msg, now), clients) else [];
                var openRec := OpenRecord(cur, msg.value, exec, emptyText);
                if msg.request == "open" then
                  store == (if openRec.Some? then old(store)[ctx.code := openRec.value] else stored) &&
                  outbox == old(outbox) + sent + OpenEvents(cur, msg.value, exec, emptyText, clients) &&
                  vmCalls == old(vmCalls) + OpenCalls(ctx.code, cur, msg.value)
                else if msg.request == "stop" then
                  store == stored &&
                  outbox == old(outbox) + sent + BroadcastEvents(cur.clients, clients, Msg(SendIsWorkspaceRunning(false))) &&
                  vmCalls == old(vmCalls) + [Stop(ctx.code, ctx.uuid)]
                else
                  store == stored && outbox == old(outbox) + sent && vmCalls == old(vmCalls)
    {
      if ctx.code !in store {
        return;
      }
      var cur := store[ctx.code];
      if SentString(msg.workspace) {
        HandleWorkspace(ctx, cur, msg, now);
      }
      if msg.request == "open" {
        var _ := HandleOpen(ctx, cur, msg.value, exec, emptyText);
      }
      if msg.request == "stop" {
        HandleStop(ctx, cur);
      }
    }

    /**
     * The close handler: the closing id, and only it, leaves the record's
     * client list and the registry, and the record is persisted. With a
     * missing record, reading its client list throws before anything changes.
     */
    method OnClose(ctx: ConnCtx)
      modifies this
      ensures outbox == old(outbox) && vmCalls == old(vmCalls) && language == old(language)
      ensures ctx.code !in old(store) ==> store == old(store) && clients == old(clients)
      ensures ctx.code in old(store) ==>
                var cur := old(store)[ctx.code];
                store == old(store)[ctx.code := cur.(clients := Without(cur.clients, ctx.clientId))] &&
                clients == old(clients) - {ctx.clientId}
    {
      if ctx.code !in store {
        return;
      }
      var cur := store[ctx.code];
      store := store[ctx.code := cur.(clients := Without(cur.clients, ctx.clientId))];
      clients := clients - {ctx.clientId};
    }
  }
}
