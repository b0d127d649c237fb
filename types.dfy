/**
 * The records exchanged by the session server, with the fields the newer
 * coordinator builds when it persists a record (`dataToPut` in
 * `src/server/session/websocket/index.ts`), and the events a socket can observe.
 * JSON parsing and serialisation are left out: records are values.
 */
module Types {
  import opened Wrappers

  /** An opaque timestamp (a JavaScript `Date`). */
  type Time = int

  /** An opaque handle for one WebSocket connection object. */
  type Conn = nat

  /**
   * One dialogue entry. The newer checkout numbers its entries (`id`);
   * the entries that the older checkout's `updateLog` creates carry none.
   */
  datatype Dialogue = Dialogue(id: Option<int>, contentType: string, isuser: bool, content: string)

  /** A primitive JSON value, as far as the code inspects one. */
  datatype Value = Undefined | Null | Str(s: string) | Bool(b: bool)

  /** A command envelope: `{request, value}`. */
  datatype WSMessage = WSMessage(request: string, value: Value)

  /** The tutorial state: `progress` and every other field, kept opaquely in `rest`. */
  datatype Tutorial = Tutorial(rest: string, progress: int)

  /** The persisted session record of the newer checkout. */
  datatype SessionValue = SessionValue(
    sessioncode: string,
    uuid: string,
    workspace: string,
    dialogue: seq<Dialogue>,
    isReplying: bool,
    createdAt: Time,
    updatedAt: Time,
    isVMRunning: bool,
    clients: seq<string>,
    language: string,
    llmContext: string,
    tutorial: Tutorial)

  /** What is written to a socket: a plain-text frame, a command envelope or a whole record. */
  datatype Payload<R> = Text(s: string) | Msg(m: WSMessage) | Record(r: R)

  /** What a socket observes: a frame sent to it, or `ws.close()`. */
  datatype Event<R> = Send(to: Conn, payload: Payload<R>) | Close(to: Conn)

  /** JavaScript truthiness of an optional string field: present and not empty. */
  predicate SentString(o: Option<string>)
  {
    o.Some? && o.value != ""
  }

  /** JavaScript truthiness of a primitive value. */
  predicate Truthy(v: Value)
  {
    match v
    case Undefined => false
    case Null => false
    case Str(s) => s != ""
    case Bool(b) => b
  }

  /** The JavaScript `a || b`: the first operand when it is truthy, otherwise the second. */
  function JsOr(a: Value, b: Value): Value
  {
    if Truthy(a) then a else b
  }

  /**
   * The right-hand side of the empty-code test `value === (undefined || null || "")`
   * in both coordinators.
   */
  function EmptyCodeSentinel(): Value
  {
    JsOr(JsOr(Undefined, Null), Str(""))
  }

  /**
   * The empty-code test: the operand evaluates to `""`, so only the empty
   * string passes it; `undefined` and `null` do not.
   */
  predicate IsEmptyCode(v: Value)
  {
    v == EmptyCodeSentinel()
  }

  lemma EmptyCodeIsOnlyEmptyString(v: Value)
    ensures IsEmptyCode(v) <==> v == Str("")
    ensures !IsEmptyCode(Undefined) && !IsEmptyCode(Null)
  {
  }
}
