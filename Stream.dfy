/**
 * The streamable value that the server action hands back to the client:
 * one writer pushes string values with `update` and closes the stream once
 * with `done` or `error`; one reader receives those events in order.
 * The value is modelled as the append-only log of what was written.
 */
module Stream {

  /** A JavaScript `Error` object, identified by its message. */
  datatype ErrorValue = ErrorValue(message: string)

  /** One write to the stream. */
  datatype StreamEvent = Update(value: string) | Done | Error(error: ErrorValue)
  {
    predicate IsTerminal() { !Update? }
  }

  /** No event but the last one closes the stream: nothing is written after
      `done` or `error`. */
  ghost predicate WellFormedLog(log: seq<StreamEvent>) {
    forall i :: 0 <= i < |log| - 1 ==> log[i].Update?
  }

  /** Number of terminal events (`done` or `error`) in a log. */
  function TerminalCount(log: seq<StreamEvent>): nat {
    if log == [] then 0
    else TerminalCount(log[..|log| - 1]) + (if log[|log| - 1].IsTerminal() then 1 else 0)
  }

  /** The log written by `update(v)` for each value of `values`, in order. */
  function UpdatesOf(values: seq<string>): (log: seq<StreamEvent>)
    ensures |log| == |values|
  {
    if values == [] then []
    else UpdatesOf(values[..|values| - 1]) + [Update(values[|values| - 1])]
  }

  /** The values carried by the `Update` events of a log, in order. */
  function ValuesOf(log: seq<StreamEvent>): seq<string> {
    if log == [] then []
    else ValuesOf(log[..|log| - 1]) + (if log[|log| - 1].Update? then [log[|log| - 1].value] else [])
  }

  /** Index of the first terminal event, or `|log|` when there is none. */
  function FirstTerminal(log: seq<StreamEvent>): (k: nat)
    ensures k <= |log|
    ensures forall j :: 0 <= j < k ==> log[j].Update?
    ensures k < |log| ==> log[k].IsTerminal()
  {
    if log == [] then 0
    else if log[0].IsTerminal() then 0
    else 1 + FirstTerminal(log[1..])
  }

  /** The `update` calls are recorded one event each, in call order:
      the i-th update of a log written by `UpdatesOf` carries the i-th value. */
  lemma {:induction false} UpdatesOfAt(values: seq<string>, i: nat)
    requires i < |values|
    ensures UpdatesOf(values)[i] == Update(values[i])
  {
    if i < |values| - 1 {
      UpdatesOfAt(values[..|values| - 1], i);
    }
  }

  /** Reading back the values of an update-only log gives the values written,
      and such a log holds no terminal event. */
  lemma {:induction false} UpdatesOfRoundTrip(values: seq<string>)
    ensures ValuesOf(UpdatesOf(values)) == values
    ensures TerminalCount(UpdatesOf(values)) == 0
  {
    if values != [] {
      var front := values[..|values| - 1];
      UpdatesOfRoundTrip(front);
      assert UpdatesOf(values)[..|values| - 1] == UpdatesOf(front);
      assert front + [values[|values| - 1]] == values;
    }
  }

  /** The library's streamable value, seen as its write log. */
  class StreamableValue {
    var log: seq<StreamEvent>

    ghost predicate Valid()
      reads this
    {
      WellFormedLog(log)
    }

    /** The stream has been closed by `done` or `error`. */
    predicate Closed()
      reads this
    {
      |log| > 0 && log[|log| - 1].IsTerminal()
    }

    constructor ()
      ensures Valid() && !Closed() && log == []
    {
      log := [];
    }

    /** `stream.update(value)`; the library refuses writes to a closed stream. */
    method Update(value: string)
      requires Valid() && !Closed()
      modifies this
      ensures Valid() && !Closed()
      ensures log == old(log) + [StreamEvent.Update(value)]
    {
      log := log + [StreamEvent.Update(value)];
    }

    /** `stream.done()`: closes the stream normally. */
    method Done()
      requires Valid() && !Closed()
      modifies this
      ensures Valid() && Closed()
      ensures log == old(log) + [StreamEvent.Done]
    {
      log := log + [StreamEvent.Done];
    }

    /** `stream.error(error)`: closes the stream with an error. */
    method Error(error: ErrorValue)
      requires Valid() && !Closed()
      modifies this
      ensures Valid() && Closed()
      ensures log == old(log) + [StreamEvent.Error(error)]
    {
      log := log + [StreamEvent.Error(error)];
    }
  }
}
