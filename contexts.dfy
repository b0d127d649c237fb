/**
 * The host primitives installed in every sandbox's global object (the
 * `jail`), and the process-wide table of message handlers keyed by uuid.
 * The sandbox is not run here: calling a primitive is calling the method
 * of the same name.
 */
module Contexts {
  import opened Logging

  /**
   * The arguments of a call joined with single spaces, as
   * `args.map((arg) => arg.toString()).join(" ")`; each argument is taken as
   * its string form.
   */
  function Join(args: seq<string>): string
  {
    if args == [] then ""
    else if |args| == 1 then args[0]
    else args[0] + " " + Join(args[1..])
  }

  /** The index of the first space in `s`, or `|s|` when there is none. */
  function FirstSpace(s: string): (i: nat)
    ensures i <= |s|
    ensures forall k :: 0 <= k < i ==> s[k] != ' '
    ensures i < |s| ==> s[i] == ' '
  {
    if s == [] then 0
    else if s[0] == ' ' then 0
    else 1 + FirstSpace(s[1..])
  }

  /** The inverse of `Join`: a line cut at every space. */
  function Split(s: string): (parts: seq<string>)
    decreases |s|
  {
    var i := FirstSpace(s);
    if i == |s| then [s] else [s[..i]] + Split(s[i + 1..])
  }

  predicate NoSpace(s: string)
  {
    forall k :: 0 <= k < |s| ==> s[k] != ' '
  }

  lemma FirstSpaceAfterWord(a: string, t: string)
    requires NoSpace(a)
    ensures FirstSpace(a + " " + t) == |a|
  {
    var s := a + " " + t;
    assert s[|a|] == ' ';
    assert forall k :: 0 <= k < |a| ==> s[k] == a[k];
  }

  /**
   * A line formed from arguments that contain no space can be cut back into
   * exactly those arguments: `Join` loses nothing but the separators.
   */
  lemma {:induction false} SplitJoin(args: seq<string>)
    requires args != []
    requires forall j :: 0 <= j < |args| ==> NoSpace(args[j])
    ensures Split(Join(args)) == args
  {
    if |args| == 1 {
      assert FirstSpace(args[0]) == |args[0]|;
    } else {
      var a, t := args[0], Join(args[1..]);
      var s := a + " " + t;
      FirstSpaceAfterWord(a, t);
      assert s[..|a|] == a;
      assert s[|a| + 1..] == t;
      SplitJoin(args[1..]);
      assert args == [a] + args[1..];
    }
  }

  /** The primitive `log(...args)`: exactly one line, the joined arguments, is queued. */
  method Log(buf: LogBuffer, args: seq<string>)
    requires buf.Valid()
    modifies buf
    ensures buf.Valid()
    ensures buf.buffer == old(buf.buffer) + [Join(args)]
    ensures buf.interval == old(buf.interval) && buf.handedOver == old(buf.handedOver)
    ensures buf.added == old(buf.added) + [Join(args)]
  {
    buf.Add(Join(args));
  }

  /** The primitive `error(...args)`: the same as `log`, into the same buffer. */
  method Error(buf: LogBuffer, args: seq<string>)
    requires buf.Valid()
    modifies buf
    ensures buf.Valid()
    ensures buf.buffer == old(buf.buffer) + [Join(args)]
    ensures buf.interval == old(buf.interval) && buf.handedOver == old(buf.handedOver)
    ensures buf.added == old(buf.added) + [Join(args)]
  {
    buf.Add(Join(args));
  }

  /** A handler's identity, standing for the sandbox function passed to `onmessage`. */
  type HandlerId = nat

  /** What `onmessage` was given: a callable, or a falsy value such as `null`. */
  datatype Handler = Falsy | Callable(id: HandlerId)

  /** A message passed across the sandbox boundary, kept opaque. */
  type Message = string

  /** One invocation of a handler. */
  datatype Delivery = Delivery(handler: HandlerId, message: Message)

  /** The module-level `messageHandlers` map, with a record of every handler invocation. */
  class MessageHandlers {
    var handlers: map<string, Handler>
    var deliveries: seq<Delivery>

    constructor ()
      ensures handlers == map[] && deliveries == []
    {
      handlers := map[];
      deliveries := [];
    }

    /** `onmessage(h)` from the sandbox of `uuid`: `h` replaces any earlier handler of that uuid only. */
    method OnMessage(uuid: string, h: Handler)
      modifies this
      ensures handlers == old(handlers)[uuid := h]
      ensures old(handlers).Keys <= handlers.Keys
      ensures deliveries == old(deliveries)
    {
      handlers := handlers[uuid := h];
    }

    /**
     * `sendMessageToMain(m)` from the sandbox of `uuid`: the handler of that
     * uuid, and no other, is invoked once with `m`; nothing happens when that
     * uuid has no callable handler. The table is not changed.
     */
    method HandleMessageFromVM(uuid: string, m: Message)
      modifies this
      ensures handlers == old(handlers)
      ensures uuid in handlers && handlers[uuid].Callable? ==>
                deliveries == old(deliveries) + [Delivery(handlers[uuid].id, m)]
      ensures !(uuid in handlers && handlers[uuid].Callable?) ==> deliveries == old(deliveries)
    {
      if uuid in handlers {
        var handler := handlers[uuid];
        if handler.Callable? {
          deliveries := deliveries + [Delivery(handler.id, m)];
        }
      }
    }
  }

  /** What a global of the sandbox is bound to. */
  datatype HostValue =
    | GlobalRef                   // the global object itself
    | Copy(s: string)             // a string copied into the sandbox
    | LogFn(buf: LogBuffer)       // `log`, writing into `buf`
    | ErrorFn(buf: LogBuffer)     // `error`, writing into `buf`
    | SleepFn                     // `sleep`, a timer primitive
    | SendMessageToMainFn(uuid: string)
    | OnMessageFn(uuid: string)

  /** The sandbox's global object, a map from names to values. */
  class Jail {
    var globals: map<string, HostValue>

    constructor ()
      ensures globals == map[]
    {
      globals := map[];
    }

    /** `jail.set(name, v)`. */
    method Set(name: string, v: HostValue)
      modifies this
      ensures globals == old(globals)[name := v]
    {
      globals := globals[name := v];
    }
  }

  /** The globals `AddDefaultContexts` binds, for a sandbox of `uuid` logging into `buf`. */
  function DefaultGlobals(code: string, uuid: string, serverRootPath: string, buf: LogBuffer): map<string, HostValue>
  {
    map[
      "global" := GlobalRef,
      "code" := Copy(code),
      "uuid" := Copy(uuid),
      "serverRootPath" := Copy(serverRootPath),
      "log" := LogFn(buf),
      "error" := ErrorFn(buf),
      "sleep" := SleepFn,
      "sendMessageToMain" := SendMessageToMainFn(uuid),
      "onmessage" := OnMessageFn(uuid)]
  }

  /** Binding the default globals one after the other, in the order of the source, yields `DefaultGlobals`. */
  lemma DefaultGlobalsInOrder(g: map<string, HostValue>, code: string, uuid: string, serverRootPath: string, buf: LogBuffer)
    ensures g["global" := GlobalRef]["code" := Copy(code)]["uuid" := Copy(uuid)]
             ["serverRootPath" := Copy(serverRootPath)]["log" := LogFn(buf)]["error" := ErrorFn(buf)]
             ["sleep" := SleepFn]["sendMessageToMain" := SendMessageToMainFn(uuid)]["onmessage" := OnMessageFn(uuid)]
            == g + DefaultGlobals(code, uuid, serverRootPath, buf)
  {
  }

  /**
   * Installs the default globals, one `jail.set` at a time: `global` is the
   * global object itself, `code`, `uuid` and `serverRootPath` are copies of
   * the arguments, `log` and `error` write to `buf`, and the messaging pair
   * is bound to `uuid`. Every other global is left as it was.
   */
  method AddDefaultContexts(jail: Jail, code: string, uuid: string, serverRootPath: string, buf: LogBuffer)
    modifies jail
    ensures jail.globals == old(jail.globals) + DefaultGlobals(code, uuid, serverRootPath, buf)
  {
    ghost var g := jail.globals;
    jail.Set("global", GlobalRef);
    jail.Set("code", Copy(code));
    jail.Set("uuid", Copy(uuid));
    jail.Set("serverRootPath", Copy(serverRootPath));
    jail.Set("log", LogFn(buf));
    jail.Set("error", ErrorFn(buf));
    jail.Set("sleep", SleepFn);
    jail.Set("sendMessageToMain", SendMessageToMainFn(uuid));
    jail.Set("onmessage", OnMessageFn(uuid));
    DefaultGlobalsInOrder(g, code, uuid, serverRootPath, buf);
  }
}
