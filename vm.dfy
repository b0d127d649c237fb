/**
 * The execution manager: the per-uuid table of sandbox instances, starting
 * and stopping them, pruning the sandbox router, and the log-flush callback
 * that turns log lines into dialogue entries.
 *
 * The isolate is an opaque handle; whether compiling or running the user's
 * script threw is an input. The session store is a map given to each call.
 */
module Vm {
  import opened Wrappers
  import opened Types
  import opened Logging
  import opened Contexts

  /** An opaque isolated-vm object: an isolate, a context or a compiled script. */
  type Handle = nat

  datatype VMInstance = VMInstance(isolate: Handle, context: Handle, script: Option<Handle>, running: bool)

  /** One layer of the sandbox router's stack, reduced to `layer.route?.path?.toString()`. */
  datatype Layer = Layer(routePath: Option<string>)

  datatype StopResult = StopResult(message: string, error: string)

  /** How the synchronous compile-and-run of the user's script ended. */
  datatype RunOutcome = Completed | CompileThrew(err: string) | RunThrew(err: string)

  /**
   * The manager's state: the `vmInstances` table, the router stack, and the
   * isolates released with `dispose()`, in order.
   */
  datatype VmState = VmState(instances: map<string, VMInstance>, stack: seq<Layer>, disposed: seq<Handle>)

  const StoppedResult := StopResult("Script execution stopped successfully.", "")
  const NotRunningResult := StopResult("Script is not running.", "Script is not running.")
  const InvalidSessionResult := StopResult("Invalid session", "Invalid session")
  const InvalidUuidResult := StopResult("Invalid uuid", "Invalid uuid")

  /** The line queued when the script throws; the template literal puts the label in double quotes. */
  function ErrorLine(err: string): string
  {
    "\"VM error: \"" + err
  }

  // ---------------------------------------------------------------------
  // Substring test and router pruning

  predicate StartsWith(s: string, prefix: string)
  {
    |prefix| <= |s| && s[..|prefix|] == prefix
  }

  /** `s.includes(sub)`, searched position by position. */
  predicate Includes(s: string, sub: string)
    decreases |s|
  {
    StartsWith(s, sub) || (s != [] && Includes(s[1..], sub))
  }

  /** `sub` occurs in `s` at index `i`. */
  predicate OccursAt(s: string, sub: string, i: int)
  {
    0 <= i <= |s| - |sub| && s[i..i + |sub|] == sub
  }

  /** `Includes` agrees with the definition by position: `sub` occurs at some index of `s`. */
  lemma {:induction false} IncludesIffOccurs(s: string, sub: string)
    ensures Includes(s, sub) <==> exists i :: OccursAt(s, sub, i)
    decreases |s|
  {
    if s != [] {
      IncludesIffOccurs(s[1..], sub);
    }
    if StartsWith(s, sub) {
      assert OccursAt(s, sub, 0);
    } else if s != [] && Includes(s[1..], sub) {
      var j :| OccursAt(s[1..], sub, j);
      assert s[j + 1..j + 1 + |sub|] == s[1..][j..j + |sub|];
      assert OccursAt(s, sub, j + 1);
    }
    if exists i :: OccursAt(s, sub, i) {
      var i :| OccursAt(s, sub, i);
      if i == 0 {
        assert StartsWith(s, sub);
      } else {
        assert s[1..][i - 1..i - 1 + |sub|] == s[i..i + |sub|];
        assert OccursAt(s[1..], sub, i - 1);
      }
    }
  }

  /** A layer is removed when it has a route whose path contains the session code. */
  predicate RouteOf(layer: Layer, code: string)
  {
    layer.routePath.Some? && Includes(layer.routePath.value, code)
  }

  /** The router stack without the layers of `code`, the others in their original order. */
  function KeepLayers(stack: seq<Layer>, code: string): seq<Layer>
  {
    if stack == [] then []
    else (if RouteOf(stack[0], code) then [] else [stack[0]]) + KeepLayers(stack[1..], code)
  }

  /** Pruning a concatenation prunes each part: the kept layers keep their order. */
  lemma {:induction false} KeepLayersAppend(a: seq<Layer>, b: seq<Layer>, code: string)
    ensures KeepLayers(a + b, code) == KeepLayers(a, code) + KeepLayers(b, code)
  {
    if a != [] {
      assert (a + b)[0] == a[0] && (a + b)[1..] == a[1..] + b;
      KeepLayersAppend(a[1..], b, code);
    } else {
      assert a + b == b;
    }
  }

  /** Exactly the layers of `code` are removed. */
  lemma {:induction false} KeepLayersMembers(stack: seq<Layer>, code: string, l: Layer)
    ensures l in KeepLayers(stack, code) <==> l in stack && !RouteOf(l, code)
  {
    if stack != [] {
      KeepLayersMembers(stack[1..], code, l);
      assert stack == [stack[0]] + stack[1..];
    }
  }

  /** A stack with no layer of `code` is left exactly as it was. */
  lemma {:induction false} KeepLayersNone(stack: seq<Layer>, code: string)
    requires forall k :: 0 <= k < |stack| ==> !RouteOf(stack[k], code)
    ensures KeepLayers(stack, code) == stack
  {
    if stack != [] {
      KeepLayersNone(stack[1..], code);
      assert stack == [stack[0]] + stack[1..];
    }
  }

  // ---------------------------------------------------------------------
  // The log-flush callback

  /**
   * The `for (const log of logs)` loop of the callback: each line becomes a
   * `log` entry, not by the user, numbered one past the dialogue's length at
   * the time it is pushed, so the new ids continue the old numbering.
   */
  method AppendLogLines(dialogue: seq<Dialogue>, logs: seq<string>) returns (d: seq<Dialogue>)
    ensures |d| == |dialogue| + |logs|
    ensures d[..|dialogue|] == dialogue
    ensures forall k :: 0 <= k < |logs| ==> d[|dialogue| + k] == Dialogue(Some(|dialogue| + k + 1), "log", false, logs[k])
  {
    d := dialogue;
    var i := 0;
    while i < |logs|
      invariant 0 <= i <= |logs|
      invariant |d| == |dialogue| + i
      invariant d[..|dialogue|] == dialogue
      invariant forall k :: 0 <= k < i ==> d[|dialogue| + k] == Dialogue(Some(|dialogue| + k + 1), "log", false, logs[k])
    {
      d := d + [Dialogue(Some(|d| + 1), "log", false, logs[i])];
      i := i + 1;
    }
  }

  /**
   * The callback a sandbox's log buffer flushes into. With no record for
   * `code` it does nothing; otherwise it hands the record, with the lines
   * appended to its dialogue and nothing else changed, to the database
   * updater (the result here).
   */
  method FlushToSession(store: map<string, SessionValue>, code: string, logs: seq<string>)
    returns (update: Option<SessionValue>)
    ensures code !in store ==> update == None
    ensures code in store ==> update.Some? && update.value.(dialogue := store[code].dialogue) == store[code]
    ensures code in store ==>
      var old_d := store[code].dialogue;
      var d := update.value.dialogue;
      |d| == |old_d| + |logs| && d[..|old_d|] == old_d &&
      forall k :: 0 <= k < |logs| ==> d[|old_d| + k] == Dialogue(Some(|old_d| + k + 1), "log", false, logs[k])
  {
    if code !in store {
      return None;
    }
    var sessionValue := store[code];
    var d := AppendLogLines(sessionValue.dialogue, logs);
    return Some(sessionValue.(dialogue := d));
  }

  // ---------------------------------------------------------------------
  // Specification of starting and stopping

  /** The instance stored by a run: the script handle exists unless compiling threw. */
  function NewInstance(isolate: Handle, context: Handle, script: Handle, outcome: RunOutcome): VMInstance
  {
    VMInstance(isolate, context, if outcome.CompileThrew? then None else Some(script), true)
  }

  /**
   * `StopCodeTest`. Only a running instance is acted on: it is marked not
   * running and its isolate disposed before the session is checked; a
   * missing session or another owner then leaves the entry in the table.
   * Otherwise the entry is deleted and the router pruned.
   */
  function StopSpec(s: VmState, store: map<string, SessionValue>, code: string, uuid: string): (r: (VmState, StopResult))
    ensures r.1 == NotRunningResult <==> !(uuid in s.instances && s.instances[uuid].running)
    ensures r.1 == NotRunningResult ==> r.0 == s
    ensures r.1 != NotRunningResult ==>
              r.0.disposed == s.disposed + [s.instances[uuid].isolate] &&
              r.0.instances - {uuid} == s.instances - {uuid}
    ensures r.1 == StoppedResult <==>
              uuid in s.instances && s.instances[uuid].running && code in store && store[code].uuid == uuid
    ensures r.1 == StoppedResult ==> uuid !in r.0.instances && r.0.stack == KeepLayers(s.stack, code)
    ensures uuid in s.instances && s.instances[uuid].running && code !in store ==> r.1 == InvalidSessionResult
    ensures uuid in s.instances && s.instances[uuid].running && code in store && store[code].uuid != uuid ==>
              r.1 == InvalidUuidResult
    ensures r.1 in {InvalidSessionResult, InvalidUuidResult} ==>
              uuid in r.0.instances && r.0.instances[uuid] == s.instances[uuid].(running := false) &&
              r.0.stack == s.stack
  {
    if uuid in s.instances && s.instances[uuid].running then
      var instance := s.instances[uuid];
      var s1 := s.(instances := s.instances[uuid := instance.(running := false)],
                   disposed := s.disposed + [instance.isolate]);
      if code !in store then (s1, InvalidSessionResult)
      else if store[code].uuid != uuid then (s1, InvalidUuidResult)
      else (s1.(instances := s1.instances - {uuid}, stack := KeepLayers(s1.stack, code)), StoppedResult)
    else (s, NotRunningResult)
  }

  /**
   * `ExecCodeTest`. A missing session or another owner is reported and
   * changes nothing. Otherwise the result is `"Valid uuid"` whether or not
   * the script threw, and the new instance, marked running, replaces any
   * entry of `uuid`; when the script threw, the previous entry of `uuid` is
   * first stopped as by `StopCodeTest`.
   */
  function ExecSpec(s: VmState, store: map<string, SessionValue>, code: string, uuid: string,
                    isolate: Handle, context: Handle, script: Handle, outcome: RunOutcome): (r: (VmState, string))
    ensures r.1 == "Valid uuid" <==> code in store && store[code].uuid == uuid
    ensures code !in store ==> r == (s, "Invalid session")
    ensures code in store && store[code].uuid != uuid ==> r == (s, "Invalid uuid")
    ensures r.1 == "Valid uuid" ==>
              uuid in r.0.instances && r.0.instances[uuid] == NewInstance(isolate, context, script, outcome) &&
              r.0.instances[uuid].running
    ensures r.1 == "Valid uuid" ==> r.0.instances == s.instances[uuid := NewInstance(isolate, context, script, outcome)]
    ensures r.1 == "Valid uuid" && (outcome.Completed? || !(uuid in s.instances && s.instances[uuid].running)) ==>
              r.0.stack == s.stack && r.0.disposed == s.disposed
  {
    if code !in store then (s, "Invalid session")
    else if store[code].uuid != uuid then (s, "Invalid uuid")
    else
      var afterError := if outcome.Completed? then s else StopSpec(s, store, code, uuid).0;
      (afterError.(instances := afterError.instances[uuid := NewInstance(isolate, context, script, outcome)]), "Valid uuid")
  }

  /** A stop followed at once by another: the second finds nothing running and changes nothing. */
  lemma StopTwice(s: VmState, store: map<string, SessionValue>, code: string, uuid: string)
    ensures var s1 := StopSpec(s, store, code, uuid).0;
            StopSpec(s1, store, code, uuid) == (s1, NotRunningResult)
  {
  }

  /** A valid run followed at once by a stop leaves no instance for the owner, and disposes the run's isolate. */
  lemma ExecThenStop(s: VmState, store: map<string, SessionValue>, code: string, uuid: string,
                     isolate: Handle, context: Handle, script: Handle, outcome: RunOutcome)
    requires code in store && store[code].uuid == uuid
    ensures var s1 := ExecSpec(s, store, code, uuid, isolate, context, script, outcome).0;
            var (s2, r) := StopSpec(s1, store, code, uuid);
            r == StoppedResult && uuid !in s2.instances && s2.disposed == s1.disposed + [isolate]
  {
  }

  /**
   * A second run that does not throw replaces the owner's running instance
   * without disposing its isolate: nothing is disposed and the router is
   * not pruned.
   */
  lemma ExecLeaksPrevious(s: VmState, store: map<string, SessionValue>, code: string, uuid: string,
                          isolate: Handle, context: Handle, script: Handle)
    requires code in store && store[code].uuid == uuid
    requires uuid in s.instances && s.instances[uuid].running
    ensures var s1 := ExecSpec(s, store, code, uuid, isolate, context, script, Completed).0;
            s1.disposed == s.disposed && s1.stack == s.stack &&
            s1.instances == s.instances[uuid := NewInstance(isolate, context, script, Completed)]
  {
  }

  /**
   * A run that throws stops the owner's previous running instance (its
   * isolate is disposed and the router pruned) before storing the new one,
   * whose own isolate is not disposed.
   */
  lemma ExecErrorStopsPrevious(s: VmState, store: map<string, SessionValue>, code: string, uuid: string,
                               isolate: Handle, context: Handle, script: Handle, outcome: RunOutcome)
    requires code in store && store[code].uuid == uuid
    requires !outcome.Completed?
    requires uuid in s.instances && s.instances[uuid].running
    ensures var s1 := ExecSpec(s, store, code, uuid, isolate, context, script, outcome).0;
            s1.disposed == s.disposed + [s.instances[uuid].isolate] &&
            s1.stack == KeepLayers(s.stack, code) &&
            s1.instances == s.instances[uuid := NewInstance(isolate, context, script, outcome)]
  {
  }

  /** The envelope telling clients whether the workspace's script runs. */
  function SendIsWorkspaceRunning(isrunning: bool): WSMessage
  {
    WSMessage("updateState_isrunning", Bool(isrunning))
  }

  // ---------------------------------------------------------------------
  // The manager itself

  /** The module-level `vmInstances` table and `vmExpress` router, with the isolates disposed so far. */
  class VmHost {
    var instances: map<string, VMInstance>
    var stack: seq<Layer>
    var disposed: seq<Handle>

    function State(): VmState
      reads this
    {
      VmState(instances, stack, disposed)
    }

    constructor (routes: seq<Layer>)
      ensures State() == VmState(map[], routes, [])
    {
      instances := map[];
      stack := routes;
      disposed := [];
    }

    /** The backward `splice` loop: removes the layers of `code`, keeping the others in order. */
    method PruneRoutes(code: string)
      modifies this`stack
      ensures stack == KeepLayers(old(stack), code)
    {
      ghost var s0 := stack;
      var i := |stack| - 1;
      while i >= 0
        invariant -1 <= i < |s0|
        invariant stack == s0[..i + 1] + KeepLayers(s0[i + 1..], code)
      {
        assert stack[i] == s0[i];
        assert s0[i..][0] == s0[i] && s0[i..][1..] == s0[i + 1..];
        var layer := stack[i];
        if RouteOf(layer, code) {
          assert stack[..i] == s0[..i];
          assert stack[i + 1..] == KeepLayers(s0[i + 1..], code);
          stack := stack[..i] + stack[i + 1..];
        } else {
          assert s0[..i + 1] == s0[..i] + [s0[i]];
        }
        i := i - 1;
      }
      assert s0[0..] == s0;
    }

    method StopCodeTest(store: map<string, SessionValue>, code: string, uuid: string) returns (r: StopResult)
      modifies this
      ensures (State(), r) == StopSpec(old(State()), store, code, uuid)
    {
      if uuid in instances && instances[uuid].running {
        var instance := instances[uuid];
        instances := instances[uuid := instance.(running := false)];
        disposed := disposed + [instance.isolate];
        if code !in store {
          return InvalidSessionResult;
        }
        if store[code].uuid != uuid {
          return InvalidUuidResult;
        }
        instances := instances - {uuid};
        PruneRoutes(code);
        return StoppedResult;
      }
      return NotRunningResult;
    }

    /**
     * Starts the user's script for `uuid`. On a valid session it also returns
     * the sandbox's new log buffer, started on `timer` and holding the error
     * line if the script threw, and the sandbox's global object with the
     * default primitives bound to that buffer and uuid.
     */
    method ExecCodeTest(store: map<string, SessionValue>, code: string, uuid: string, serverRootPath: string,
                        isolate: Handle, context: Handle, script: Handle, outcome: RunOutcome, timer: Timer)
      returns (result: string, logBuffer: LogBuffer?, jail: Jail?)
      modifies this
      ensures (State(), result) == ExecSpec(old(State()), store, code, uuid, isolate, context, script, outcome)
      ensures result != "Valid uuid" ==> logBuffer == null && jail == null
      ensures result == "Valid uuid" ==>
                logBuffer != null && jail != null && fresh(logBuffer) && fresh(jail) &&
                logBuffer.Valid() && logBuffer.code == code && logBuffer.interval == Some(timer) &&
                logBuffer.buffer == (if outcome.Completed? then [] else [ErrorLine(outcome.err)]) &&
                jail.globals == DefaultGlobals(code, uuid, serverRootPath, logBuffer)
    {
      if code !in store {
        return "Invalid session", null, null;
      }
      if store[code].uuid != uuid {
        return "Invalid uuid", null, null;
      }
      var buf := new LogBuffer(code);
      var j := new Jail();
      AddDefaultContexts(j, code, uuid, serverRootPath, buf);
      var compiled: Option<Handle> := None;
      if !outcome.CompileThrew? {
        compiled := Some(script);
      }
      if !outcome.Completed? {
        buf.Add(ErrorLine(outcome.err));
        var _ := StopCodeTest(store, code, uuid);
      }
      instances := instances[uuid := VMInstance(isolate, context, compiled, true)];
      buf.Start(timer);
      return "Valid uuid", buf, j;
    }
  }
}
