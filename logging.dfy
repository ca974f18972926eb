/**
 * The two log4j loggers ("TransactionLogger" and "FileAccessLogger") as one sink that
 * records, per message, its channel, its severity and what it reports. Message text,
 * stack traces and currency formatting are not modelled.
 */
module Logging {
  import opened Records

  datatype Channel = TransactionChannel | FileChannel

  datatype Severity = Debug | Info | Warn | Error

  datatype Message =
    | ImportStarted            // "import data from <file>"
    | Imported(p: Purchase)    // "imported transaction <purchase>"
    | FileDoesNotExist         // "file <file> does not exist - skip"
    | ReadProblem              // "problem reading file <file>"
    | DateProblem              // "cannot parse date from string ..."
    | NumberProblem            // "cannot parse double from string ..."
    | OtherProblem             // "exception reading data from file ..."
    | CloseProblem             // "cannot close reader used to access <file>"
    | ImportedCount(n: nat)    // "<n> transactions imported"
    | TotalValue(v: real)      // "total value: <v>"
    | MaxValue(v: real)        // "max value: <v>"

  datatype Event = Event(channel: Channel, severity: Severity, message: Message)

  /** How many of `events` have severity `s`. */
  function CountSeverity(events: seq<Event>, s: Severity): (n: nat)
    ensures n <= |events|
    ensures n == 0 <==> forall i :: 0 <= i < |events| ==> events[i].severity != s
  {
    if |events| == 0 then 0
    else CountSeverity(events[..|events| - 1], s) + (if events[|events| - 1].severity == s then 1 else 0)
  }

  lemma {:induction false} CountSeverityAppend(a: seq<Event>, b: seq<Event>, s: Severity)
    ensures CountSeverity(a + b, s) == CountSeverity(a, s) + CountSeverity(b, s)
  {
    if |b| == 0 {
      assert a + b == a;
    } else {
      assert (a + b)[..|a + b| - 1] == a + b[..|b| - 1];
      CountSeverityAppend(a, b[..|b| - 1], s);
    }
  }

  /** The log sink; every call appends one event. */
  class Logger {
    var events: seq<Event>

    constructor ()
      ensures events == []
    {
      events := [];
    }

    method Log(e: Event)
      modifies this
      ensures events == old(events) + [e]
    {
      events := events + [e];
    }
  }
}
