/**
 * The log buffer of a sandbox: lines accumulate in a queue and a periodic
 * timer drains the whole queue into the persistence callback.
 *
 * The timer is explicit: `Start` takes the handle `setInterval` would return,
 * and each timer tick is one call of `Flush`. The callback itself is not run
 * here; `Flush` returns the `(code, lines)` batch it is handed. A failure
 * of the callback is caught and only logged, so it changes nothing here.
 */
module Logging {
  import opened Wrappers

  /** An opaque timer handle (a `NodeJS.Timeout`). */
  type Timer = nat

  /** The arguments of one call of the persistence callback. */
  datatype Batch = Batch(code: string, logs: seq<string>)

  class LogBuffer {
    /** The session code the callback is called with. */
    const code: string
    /** The queued lines, oldest first. */
    var buffer: seq<string>
    /** The periodic timer, `null` when stopped. */
    var interval: Option<Timer>

    /** Every line ever added, in order. */
    ghost var added: seq<string>
    /** The concatenation of every batch handed to the callback, in order. */
    ghost var handedOver: seq<string>

    /** No line is lost or duplicated: what was added is what was handed over followed by what is queued. */
    ghost predicate Valid()
      reads this
    {
      added == handedOver + buffer
    }

    constructor (code: string)
      ensures Valid()
      ensures this.code == code && buffer == [] && interval == None
      ensures added == [] && handedOver == []
    {
      this.code := code;
      buffer := [];
      interval := None;
      added := [];
      handedOver := [];
    }

    /** Starts the timer unless one is already set; a second call changes nothing. */
    method Start(timer: Timer)
      requires Valid()
      modifies this
      ensures Valid()
      ensures interval == if old(interval).Some? then old(interval) else Some(timer)
      ensures buffer == old(buffer) && added == old(added) && handedOver == old(handedOver)
    {
      if interval.Some? {
        return;
      }
      interval := Some(timer);
    }

    /** Clears the timer; when already stopped, changes nothing. */
    method Stop()
      requires Valid()
      modifies this
      ensures Valid()
      ensures interval == None
      ensures buffer == old(buffer) && added == old(added) && handedOver == old(handedOver)
    {
      if interval.Some? {
        interval := None;
      }
    }

    /** Appends one line at the end of the queue; the timer is untouched. */
    method Add(line: string)
      requires Valid()
      modifies this
      ensures Valid()
      ensures buffer == old(buffer) + [line]
      ensures interval == old(interval)
      ensures added == old(added) + [line] && handedOver == old(handedOver)
    {
      buffer := buffer + [line];
      added := added + [line];
    }

    /**
     * One timer tick. An empty queue invokes nothing and changes nothing.
     * Otherwise the queue is replaced by an empty one before the callback is
     * awaited, and the callback receives the code and exactly the queued lines;
     * a failure of the callback is swallowed, so the batch is never queued again.
     */
    method Flush() returns (call: Option<Batch>)
      requires Valid()
      modifies this
      ensures Valid()
      ensures old(buffer) == [] ==> call == None && handedOver == old(handedOver)
      ensures old(buffer) != [] ==> call == Some(Batch(code, old(buffer))) && handedOver == old(handedOver) + old(buffer)
      ensures buffer == [] && interval == old(interval) && added == old(added)
    {
      if |buffer| == 0 {
        return None;
      }
      var logsToSave := buffer;
      buffer := [];
      handedOver := handedOver + logsToSave;
      call := Some(Batch(code, logsToSave));
    }
  }

  /**
   * `n` lines added to a fresh buffer reach the callback in a single batch, in
   * insertion order, on the next tick; a second tick without an intervening
   * `add` invokes nothing.
   */
  method AddThenTickTwice(code: string, lines: seq<string>, timer: Timer)
    returns (first: Option<Batch>, second: Option<Batch>)
    ensures lines != [] ==> first == Some(Batch(code, lines))
    ensures lines == [] ==> first == None
    ensures second == None
  {
    var b := new LogBuffer(code);
    b.Start(timer);
    var i := 0;
    while i < |lines|
      invariant 0 <= i <= |lines|
      invariant b.Valid() && b.code == code
      invariant b.buffer == lines[..i]
    {
      b.Add(lines[i]);
      assert lines[..i + 1] == lines[..i] + [lines[i]];
      i := i + 1;
    }
    assert lines[..|lines|] == lines;
    first := b.Flush();
    second := b.Flush();
  }
}
