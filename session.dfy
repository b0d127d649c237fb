/**
 * The WebSocket session coordinator of the newer checkout
 * (`src/server/session/websocket/index.ts`): connect, message and close
 * handlers over the session store, the connection registry and the frames
 * sent. Each handler runs as one atomic step.
 *
 * External collaborators are parameters: the random client-id suffix, the
 * clock, how the tutor call ends, the result string of `ExecCodeTest` and the
 * localised empty-code text. Calls into the execution manager and the tutor
 * are recorded, not run.
 */
module Session {
  import opened Wrappers
  import opened Types
  import opened Broadcast
  import opened Vm

  /**
   * A parsed inbound frame. A session-shaped frame carries a `workspace`; a
   * command frame carries `request` (`""` when absent) and `value`. One frame
   * may carry both, and the handler then runs both parts.
   */
  datatype Incoming = Incoming(
    sessioncode: string,
    uuid: string,
    workspace: Option<string>,
    dialogue: seq<Dialogue>,
    tutorial: Tutorial,
    llmContext: string,
    request: string,
    value: Value)

  /** The tutor's structured reply; an absent block id or block name is `""`. */
  datatype Reply = Reply(response: string, blockId: string, blockName: string, progress: int)

  /**
   * How the `await invokeLLM(...)` of the handler ends: with a reply object;
   * with a falsy value that is not nullish (`""`, `0`, `false`), whose
   * `blockId` reads as `undefined`; or with a throw, either because it
   * rejected or because it gave `null` or `undefined`, whose `blockId` cannot
   * be read.
   */
  datatype TutorOutcome = Replied(reply: Reply) | FalsyReply | TutorThrew

  /** The result of `updateDialogueLLM`. */
  datatype LLMUpdate = LLMUpdate(dialogue: seq<Dialogue>, isreplying: bool, progress: int)

  type Ev = Event<SessionValue>

  /**
   * The dialogue after `updateDialogue(content, data, contentType)`: one entry,
   * not by the user, numbered one past the length.
   */
  function UpdateDialogue(content: string, d: seq<Dialogue>, contentType: string): seq<Dialogue>
  {
    d + [Dialogue(Some(|d| + 1), contentType, false, content)]
  }

  /**
   * The condition under which the tutor is invoked:
   * `data.dialogue !== currentDataJson.dialogue && data.dialogue.length > 0 && lastMessage.isuser`.
   * The first conjunct compares two separately parsed arrays and always
   * holds, so only the last two matter.
   */
  predicate TutorGate(d: seq<Dialogue>)
  {
    |d| > 0 && d[|d| - 1].isuser
  }

  /** The entries that follow the `ai` entry: the block id, then the block name, each when present. */
  function BlockEntries(firstId: int, reply: Reply): seq<Dialogue>
  {
    (if reply.blockId != "" then [Dialogue(Some(firstId), "blockId", false, reply.blockId)] else []) +
    (if reply.blockName != "" then
       [Dialogue(Some(if reply.blockId != "" then firstId + 1 else firstId), "blockName", false, reply.blockName)]
     else [])
  }

  /**
   * `updateDialogueLLM`, with its four reply branches. Without the gate, or
   * with a falsy reply, the dialogue is returned as it came and the progress
   * is the incoming one. With the gate and a reply, the dialogue gains the
   * `ai` entry, then a `blockId` entry if there is a block id, then a
   * `blockName` entry if there is a block name, numbered consecutively, and
   * the progress is the reply's. With the gate and a throwing tutor there is
   * no result (`None`).
   */
  function UpdateDialogueLLM(msg: Incoming, tutor: TutorOutcome): (u: Option<LLMUpdate>)
    ensures u.None? <==> TutorGate(msg.dialogue) && tutor.TutorThrew?
    ensures u.Some? ==> !u.value.isreplying
    ensures !TutorGate(msg.dialogue) || tutor.FalsyReply? ==>
              u == Some(LLMUpdate(msg.dialogue, false, msg.tutorial.progress))
    ensures TutorGate(msg.dialogue) && tutor.Replied? ==>
              u.Some? && u.value.progress == tutor.reply.progress &&
              u.value.dialogue == msg.dialogue + [Dialogue(Some(|msg.dialogue| + 1), "ai", false, tutor.reply.response)] +
                                  BlockEntries(|msg.dialogue| + 2, tutor.reply)
  {
    if TutorGate(msg.dialogue) then
      match tutor
      case TutorThrew => None
      case FalsyReply => Some(LLMUpdate(msg.dialogue, false, msg.tutorial.progress))
      case Replied(rp) =>
        if rp.blockId != "" && rp.blockName != "" then
          var withResponse := UpdateDialogue(rp.response, msg.dialogue, "ai");
          var withBlockId := UpdateDialogue(rp.blockId, withResponse, "blockId");
          var withBlockName := UpdateDialogue(rp.blockName, withBlockId, "blockName");
          Some(LLMUpdate(withBlockName, false, rp.progress))
        else if rp.blockId != "" then
          var withResponse := UpdateDialogue(rp.response, msg.dialogue, "ai");
          var withBlockId := UpdateDialogue(rp.blockId, withResponse, "blockId");
          Some(LLMUpdate(withBlockId, false, rp.progress))
        else if rp.blockName != "" then
          var withResponse := UpdateDialogue(rp.response, msg.dialogue, "ai");
          var withBlockName := UpdateDialogue(rp.blockName, withResponse, "blockName");
          Some(LLMUpdate(withBlockName, false, rp.progress))
        else
          Some(LLMUpdate(UpdateDialogue(rp.response, msg.dialogue, "ai"), false, rp.progress))
    else
      Some(LLMUpdate(msg.dialogue, false, msg.tutorial.progress))
  }

  /**
   * `dataToPut`: the run flag, the client list, the creation time and the
   * language are the stored record's; the code, the owner uuid, the
   * workspace, the tutor context and the tutorial are the frame's, with the
   * tutorial's progress overwritten; the dialogue is the tutor-updated one.
   * There is none when the tutor threw.
   */
  function DataToPut(cur: SessionValue, msg: Incoming, tutor: TutorOutcome, now: Time): (r: Option<SessionValue>)
    requires msg.workspace.Some?
    ensures r.None? <==> TutorGate(msg.dialogue) && tutor.TutorThrew?
    ensures r.Some? ==>
              var v := r.value;
              v.createdAt == cur.createdAt && v.isVMRunning == cur.isVMRunning &&
              v.clients == cur.clients && v.language == cur.language &&
              v.sessioncode == msg.sessioncode && v.uuid == msg.uuid &&
              v.workspace == msg.workspace.value && v.llmContext == msg.llmContext &&
              v.tutorial.rest == msg.tutorial.rest &&
              v.tutorial.progress == (if TutorGate(msg.dialogue) && tutor.Replied? then tutor.reply.progress
                                      else msg.tutorial.progress) &&
              v.dialogue == UpdateDialogueLLM(msg, tutor).value.dialogue &&
              !v.isReplying && v.updatedAt == now
  {
    match UpdateDialogueLLM(msg, tutor)
    case None => None
    case Some(updatedData) =>
      Some(SessionValue(
        msg.sessioncode, msg.uuid, msg.workspace.value, updatedData.dialogue, updatedData.isreplying,
        cur.createdAt, now, cur.isVMRunning, cur.clients, cur.language, msg.llmContext,
        Tutorial(msg.tutorial.rest, updatedData.progress)))
  }

  /**
   * A session-shaped frame whose uuid is not the owner's is answered with an
   * error and a close, yet its record, carrying the sender's uuid, is still
   * persisted unless the tutor threw.
   */
  lemma MismatchedWorkspaceStillPersisted(cur: SessionValue, msg: Incoming, tutor: TutorOutcome, now: Time)
    requires msg.workspace.Some? && cur.uuid != msg.uuid
    requires !(TutorGate(msg.dialogue) && tutor.TutorThrew?)
    ensures DataToPut(cur, msg, tutor, now).Some?
    ensures DataToPut(cur, msg, tutor, now).value.uuid == msg.uuid != cur.uuid
  {
  }

  /** The frames answering a session-shaped frame from another uuid: the error, then a close. */
  function MismatchEvents(ws: Conn, cur: SessionValue, msg: Incoming): seq<Ev>
  {
    if cur.uuid != msg.uuid then [Send(ws, Text("Invalid uuid")), Close(ws)] else []
  }

  /** The frames of a session-shaped frame: the mismatch error and close, then the record broadcast. */
  function WorkspaceEvents(ws: Conn, cur: SessionValue, msg: Incoming, rec: SessionValue, conns: map<string, Conn>): seq<Ev>
  {
    MismatchEvents(ws, cur, msg) + BroadcastEvents(cur.clients, conns, Record(rec))
  }

  /** The record an `open` request with the empty program first persists: not running. */
  function EmptyCodeCleared(cur: SessionValue): SessionValue
  {
    cur.(isVMRunning := false)
  }

  /**
   * The record an `open` request leaves persisted. The empty program clears
   * the flag and adds one `log` entry with the localised text; any other
   * value sets the flag to whether the execution manager answered
   * `"Valid uuid"`. There is none when the manager's call rejected.
   */
  function OpenRecord(cur: SessionValue, value: Value, exec: ExecAnswer, emptyText: string): (r: Option<SessionValue>)
    ensures r.None? <==> !IsEmptyCode(value) && exec.Rejected?
    ensures r.Some? ==> r.value.isVMRunning == (!IsEmptyCode(value) && exec.result == "Valid uuid")
    ensures IsEmptyCode(value) ==> r.Some? && r.value.dialogue == cur.dialogue + [Dialogue(Some(|cur.dialogue| + 1), "log", false, emptyText)]
    ensures r.Some? && !IsEmptyCode(value) ==> r.value.dialogue == cur.dialogue
    ensures r.Some? ==> r.value.(isVMRunning := cur.isVMRunning, dialogue := cur.dialogue) == cur
  {
    if IsEmptyCode(value) then
      var cleared := EmptyCodeCleared(cur);
      Some(cleared.(dialogue := UpdateDialogue(emptyText, cleared.dialogue, "log")))
    else
      match exec
      case Rejected => None
      case Answered(result) => Some(cur.(isVMRunning := result == "Valid uuid"))
  }

  /**
   * The frames of an `open` request, all to the stored record's registered
   * clients. The empty program: the cleared record, the `false` flag, then
   * the record with the log entry (its update is not awaited). Otherwise:
   * the updated record, then its flag. None when the manager's call rejected.
   */
  function OpenEvents(cur: SessionValue, value: Value, exec: ExecAnswer, emptyText: string, conns: map<string, Conn>): seq<Ev>
  {
    match OpenRecord(cur, value, exec, emptyText)
    case None => []
    case Some(r) =>
      if IsEmptyCode(value) then
        BroadcastEvents(cur.clients, conns, Record(EmptyCodeCleared(cur))) +
        BroadcastEvents(cur.clients, conns, Msg(SendIsWorkspaceRunning(false))) +
        BroadcastEvents(cur.clients, conns, Record(r))
      else
        BroadcastEvents(cur.clients, conns, Record(r)) +
        BroadcastEvents(cur.clients, conns, Msg(SendIsWorkspaceRunning(r.isVMRunning)))
  }

  /** The execution-manager calls of an `open` request: none for the empty program. */
  function OpenCalls(code: string, cur: SessionValue, value: Value): seq<VmCall>
  {
    if IsEmptyCode(value) then [] else [Exec(code, cur.uuid, value, "/vm/" + code)]
  }

  /** Every frame an `open` request sends reaches a client listed in the record and registered. */
  lemma OpenEventsReachListedClients(cur: SessionValue, value: Value, exec: ExecAnswer, emptyText: string,
                                     conns: map<string, Conn>, e: Ev)
    requires e in OpenEvents(cur, value, exec, emptyText, conns)
    ensures exists i :: 0 <= i < |cur.clients| && cur.clients[i] in conns && e.Send? && e.to == conns[cur.clients[i]]
  {
    var ids := cur.clients;
    var rec := OpenRecord(cur, value, exec, emptyText);
    if rec.Some? {
      var r := rec.value;
      if IsEmptyCode(value) {
        var a := BroadcastEvents(ids, conns, Record(EmptyCodeCleared(cur)));
        var b := BroadcastEvents(ids, conns, Msg(SendIsWorkspaceRunning(false)));
        if e in a {
          BroadcastReaches(ids, conns, Record(EmptyCodeCleared(cur)), e);
        } else if e in b {
          BroadcastReaches(ids, conns, Msg(SendIsWorkspaceRunning(false)), e);
        } else {
          BroadcastReaches(ids, conns, Record(r), e);
        }
      } else {
        var a := BroadcastEvents(ids, conns, Record(r));
        if e in a {
          BroadcastReaches(ids, conns, Record(r), e);
        } else {
          BroadcastReaches(ids, conns, Msg(SendIsWorkspaceRunning(r.isVMRunning)), e);
        }
      }
    }
  }

  /** The connection registry `clients`, the session store, and what has been observed. */
  class Coordinator {
    var store: map<string, SessionValue>
    var clients: map<string, Conn>
    var outbox: seq<Ev>
    var vmCalls: seq<VmCall>
    /** The frames the tutor was invoked with. */
    var tutorCalls: seq<Incoming>
    /** The language i18next was last switched to. */
    var language: string

    constructor (store: map<string, SessionValue>, language: string)
      ensures this.store == store && clients == map[] && outbox == [] && vmCalls == [] && tutorCalls == []
      ensures this.language == language
    {
      this.store := store;
      clients := map[];
      outbox := [];
      vmCalls := [];
      tutorCalls := [];
      this.language := language;
    }

    /** `sendToAllClients`: the message, or else the whole record, to each listed id that is registered. */
    method SendToAllClients(session: SessionValue, message: Option<WSMessage>)
      modifies this`outbox
      ensures outbox == old(outbox) +
                BroadcastEvents(session.clients, clients, if message.Some? then Msg(message.value) else Record(session))
    {
      var p: Payload<SessionValue> := if message.Some? then Msg(message.value) else Record(session);
      var ids := session.clients;
      var i := 0;
      while i < |ids|
        invariant 0 <= i <= |ids|
        invariant outbox == old(outbox) + BroadcastEvents(ids[..i], clients, p)
      {
        var id := ids[i];
        BroadcastAppend(ids[..i], [id], clients, p);
        assert ids[..i + 1] == ids[..i] + [id];
        if id in clients {
          outbox := outbox + [Send(clients[id], p)];
        }
        i := i + 1;
      }
      assert ids[..|ids|] == ids;
    }

    /** `updateDatabase`: persists the record, then sends it to its registered clients. */
    method UpdateDatabase(code: string, newData: SessionValue)
      modifies this`store, this`outbox
      ensures store == old(store)[code := newData]
      ensures outbox == old(outbox) + BroadcastEvents(newData.clients, clients, Record(newData))
    {
      store := store[code := newData];
      SendToAllClients(newData, None);
    }

    /**
     * The connect handler. No record: `"Invalid code"` and a close; another
     * owner: `"Invalid uuid"` and a close; neither registers anything.
     * Otherwise the new id is registered, appended to the record's client
     * list and persisted only when absent from it, i18next switches to the
     * record's language, and the new socket alone receives the run flag.
     */
    method Connect(code: string, uuid: string, ws: Conn, suffix: string) returns (ctx: Option<ConnCtx>)
      modifies this
      ensures vmCalls == old(vmCalls) && tutorCalls == old(tutorCalls)
      ensures code !in old(store) ==>
                ctx == None && store == old(store) && clients == old(clients) && language == old(language) &&
                outbox == old(outbox) + [Send(ws, Text("Invalid code")), Close(ws)]
      ensures code in old(store) && old(store)[code].uuid != uuid ==>
                ctx == None && store == old(store) && clients == old(clients) && language == old(language) &&
                outbox == old(outbox) + [Send(ws, Text("Invalid uuid")), Close(ws)]
      ensures code in old(store) && old(store)[code].uuid == uuid ==>
                var data := old(store)[code];
                var id := ClientId(uuid, suffix);
                ctx == Some(ConnCtx(code, uuid, id, ws)) &&
                clients == old(clients)[id := ws] &&
                store == (if id in data.clients then old(store)
                          else old(store)[code := data.(clients := data.clients + [id])]) &&
                id in store[code].clients &&
                language == data.language &&
                outbox == old(outbox) + [Send(ws, Msg(SendIsWorkspaceRunning(data.isVMRunning)))]
    {
      if code !in store {
        outbox := outbox + [Send(ws, Text("Invalid code")), Close(ws)];
        return None;
      }
      var data := store[code];
      if data.uuid != uuid {
        outbox := outbox + [Send(ws, Text("Invalid uuid")), Close(ws)];
        return None;
      }
      var clientId := ClientId(uuid, suffix);
      clients := clients[clientId := ws];
      if clientId !in data.clients {
        data := data.(clients := data.clients + [clientId]);
        store := store[code := data];
      }
      language := data.language;
      outbox := outbox + [Send(ws, Msg(SendIsWorkspaceRunning(data.isVMRunning)))];
      return Some(ConnCtx(code, uuid, clientId, ws));
    }

    /**
     * The session-shaped part of a frame: the mismatch answer, the tutor call,
     * then the merge, persisted and broadcast. When the tutor throws, nothing
     * is persisted or broadcast and `ok` is false.
     */
    method HandleWorkspace(ctx: ConnCtx, cur: SessionValue, msg: Incoming, tutor: TutorOutcome, now: Time)
      returns (ok: bool)
      requires msg.workspace.Some?
      modifies this`store, this`outbox, this`tutorCalls
      ensures ok <==> DataToPut(cur, msg, tutor, now).Some?
      ensures ok ==>
                var rec := DataToPut(cur, msg, tutor, now).value;
                store == old(store)[ctx.code := rec] &&
                outbox == old(outbox) + WorkspaceEvents(ctx.ws, cur, msg, rec, clients)
      ensures !ok ==> store == old(store) && outbox == old(outbox) + MismatchEvents(ctx.ws, cur, msg)
      ensures tutorCalls == old(tutorCalls) + if TutorGate(msg.dialogue) then [msg] else []
    {
      outbox := outbox + MismatchEvents(ctx.ws, cur, msg);
      if TutorGate(msg.dialogue) {
        tutorCalls := tutorCalls + [msg];
      }
      var dataToPut := DataToPut(cur, msg, tutor, now);
      if dataToPut.None? {
        return false;
      }
      UpdateDatabase(ctx.code, dataToPut.value);
      return true;
    }

    /**
     * An `open` request, against the record read when the frame arrived. When
     * the execution manager's call rejects, the request persists and sends
     * nothing and `ok` is false.
     */
    method HandleOpen(ctx: ConnCtx, cur: SessionValue, value: Value, exec: ExecAnswer, emptyText: string) returns (ok: bool)
      modifies this`store, this`outbox, this`vmCalls
      ensures ok <==> OpenRecord(cur, value, exec, emptyText).Some?
      ensures store == if ok then old(store)[ctx.code := OpenRecord(cur, value, exec, emptyText).value] else old(store)
      ensures outbox == old(outbox) + OpenEvents(cur, value, exec, emptyText, clients)
      ensures vmCalls == old(vmCalls) + OpenCalls(ctx.code, cur, value)
    {
      if IsEmptyCode(value) {
        var cleared := EmptyCodeCleared(cur);
        UpdateDatabase(ctx.code, cleared);
        var withLog := cleared.(dialogue := UpdateDialogue(emptyText, cleared.dialogue, "log"));
        store := store[ctx.code := withLog];
        SendToAllClients(cleared, Some(SendIsWorkspaceRunning(false)));
        SendToAllClients(withLog, None);
        return true;
      }
      vmCalls := vmCalls + [Exec(ctx.code, cur.uuid, value, "/vm/" + ctx.code)];
      if exec.Rejected? {
        return false;
      }
      var updated := cur.(isVMRunning := exec.result == "Valid uuid");
      UpdateDatabase(ctx.code, updated);
      SendToAllClients(updated, Some(SendIsWorkspaceRunning(updated.isVMRunning)));
      return true;
    }

    /** A `stop` request: the manager is asked to stop, the `false` flag is broadcast, nothing is persisted. */
    method HandleStop(ctx: ConnCtx, cur: SessionValue)
      modifies this`outbox, this`vmCalls
      ensures outbox == old(outbox) + BroadcastEvents(cur.clients, clients, Msg(SendIsWorkspaceRunning(false)))
      ensures vmCalls == old(vmCalls) + [Stop(ctx.code, ctx.uuid)]
    {
      vmCalls := vmCalls + [Stop(ctx.code, ctx.uuid)];
      var stopped := cur.(isVMRunning := false);
      SendToAllClients(stopped, Some(SendIsWorkspaceRunning(false)));
    }

    /**
     * The message handler. A missing record, a tutor that throws or a
     * rejected `ExecCodeTest` is caught and answered with `"Server error"`;
     * what the handler had done before the throw stays done.
     * Otherwise the session-shaped part runs first, when a non-empty
     * workspace is sent; an `open` or `stop` request then works on the record
     * as read before it, so an `open` overwrites what the session-shaped part
     * persisted, and a `stop` persists nothing.
     */
    method OnMessage(ctx: ConnCtx, msg: Incoming, now: Time, tutor: TutorOutcome, exec: ExecAnswer, emptyText: string)
      modifies this
      ensures clients == old(clients) && language == old(language)
      ensures ctx.code !in old(store) ==>
                store == old(store) && vmCalls == old(vmCalls) && tutorCalls == old(tutorCalls) &&
                outbox == old(outbox) + [Send(ctx.ws, Text("Server error"))]
      ensures ctx.code in old(store) ==>
                tutorCalls == old(tutorCalls) + (if SentString(msg.workspace) && TutorGate(msg.dialogue) then [msg] else [])
      ensures ctx.code in old(store) && SentString(msg.workspace) && TutorGate(msg.dialogue) && tutor.TutorThrew? ==>
                var cur := old(store)[ctx.code];
                store == old(store) && vmCalls == old(vmCalls) &&
                outbox == old(outbox) + MismatchEvents(ctx.ws, cur, msg) + [Send(ctx.ws, Text("Server error"))]
      ensures ctx.code in old(store) && !(SentString(msg.workspace) && TutorGate(msg.dialogue) && tutor.TutorThrew?) ==>
                var cur := old(store)[ctx.code];
                var rec := if SentString(msg.workspace) then DataToPut(cur, msg, tutor, now) else None;
                var stored := if rec.Some? then old(store)[ctx.code := rec.value] else old(store);
                var sent := if rec.Some? then WorkspaceEvents(ctx.ws, cur, msg, rec.value, clients) else [];
                var openRec := OpenRecord(cur, msg.value, exec, emptyText);
                if msg.request == "open" then
                  store == (if openRec.Some? then old(store)[ctx.code := openRec.value] else stored) &&
                  outbox == old(outbox) + sent + OpenEvents(cur, msg.value, exec, emptyText, clients) +
                            (if openRec.None? then [Send(ctx.ws, Text("Server error"))] else []) &&
                  vmCalls == old(vmCalls) + OpenCalls(ctx.code, cur, msg.value)
                else if msg.request == "stop" then
                  store == stored &&
                  outbox == old(outbox) + sent + BroadcastEvents(cur.clients, clients, Msg(SendIsWorkspaceRunning(false))) &&
                  vmCalls == old(vmCalls) + [Stop(ctx.code, ctx.uuid)]
                else
                  store == stored && outbox == old(outbox) + sent && vmCalls == old(vmCalls)
    {
      if ctx.code !in store {
        outbox := outbox + [Send(ctx.ws, Text("Server error"))];
        return;
      }
      var cur := store[ctx.code];
      if SentString(msg.workspace) {
        var ok := HandleWorkspace(ctx, cur, msg, tutor, now);
        if !ok {
          outbox := outbox + [Send(ctx.ws, Text("Server error"))];
          return;
        }
      }
      if msg.request == "open" {
        var ok := HandleOpen(ctx, cur, msg.value, exec, emptyText);
        if !ok {
          outbox := outbox + [Send(ctx.ws, Text("Server error"))];
          return;
        }
      }
      if msg.request == "stop" {
        HandleStop(ctx, cur);
      }
    }

    /**
     * The close handler: the closing id, and only it, leaves the record's
     * client list and the registry, and the record is persisted; no frame is
     * sent. With a missing record, reading its client list throws before anything changes,
     * so the id then stays registered.
     */
    method OnClose(ctx: ConnCtx)
      modifies this
      ensures outbox == old(outbox) && vmCalls == old(vmCalls) && tutorCalls == old(tutorCalls)
      ensures language == old(language)
      ensures ctx.code !in old(store) ==> store == old(store) && clients == old(clients)
      ensures ctx.code in old(store) ==>
                var cur := old(store)[ctx.code];
                store == old(store)[ctx.code := cur.(clients := Without(cur.clients, ctx.clientId))] &&
                clients == old(clients) - {ctx.clientId}
    {
      if ctx.code !in store {
        return;
      }
      var cur := store[ctx.code];
      store := store[ctx.code := cur.(clients := Without(cur.clients, ctx.clientId))];
      clients := clients - {ctx.clientId};
    }
  }
}
