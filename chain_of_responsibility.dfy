/** The chain-of-responsibility demo: loggers linked in a chain; each writes a
    message whose level reaches its threshold, and every one passes the
    message on to its successor. What a logger writes is returned as a line
    instead of being printed. */
module ChainOfResponsibility {

  /** Log levels, in increasing severity. */
  const Info: int := 0
  const Warning: int := 1
  const Error: int := 2

  lemma LevelsOrdered()
    ensures Info < Warning < Error
  {
  }

  datatype LoggerKind = ConsoleLogger | ErrorLogger

  class Logger {
    const kind: LoggerKind
    const level: int
    var next: Logger?

    constructor (kind: LoggerKind, level: int)
      ensures this.kind == kind && this.level == level && next == null
    {
      this.kind := kind;
      this.level := level;
      next := null;
    }

    /** The line this logger writes for a message. */
    function Line(message: string): string {
      match kind
      case ConsoleLogger => "Writing to console: " + message
      case ErrorLogger => "Writing to error log: " + message
    }

    /** A line names this logger's destination and ends with the message, so
        different messages give the same logger different lines. */
    lemma LineLayout(message: string, other: string)
      ensures kind == ConsoleLogger ==> Line(message)[..20] == "Writing to console: " && Line(message)[20..] == message
      ensures kind == ErrorLogger ==> Line(message)[..22] == "Writing to error log: " && Line(message)[22..] == message
      ensures Line(message) == Line(other) <==> message == other
    {
      if Line(message) == Line(other) {
        var n := if kind == ConsoleLogger then 20 else 22;
        assert Line(message)[n..] == message;
        assert Line(other)[n..] == other;
      }
    }

    /** Replaces the successor. */
    method SetNext(next: Logger?)
      modifies this
      ensures this.next == next
    {
      this.next := next;
    }

    /** Writes when this logger's threshold is at most the message's level,
        then hands the message to the successor, if any. */
    method LogMessage(level: int, message: string, ghost chain: seq<Logger>) returns (written: seq<string>)
      requires IsChain(this, chain)
      ensures written == Written(chain, level, message)
      decreases |chain|
    {
      written := [];
      if this.level <= level {
        written := [Line(message)];
      }
      if next != null {
        var rest := next.LogMessage(level, message, chain[1..]);
        written := written + rest;
      }
    }
  }

  /** A console line and an error-log line never coincide: they differ in
      the word after "Writing to ". */
  lemma KindsWriteDifferently(c: Logger, e: Logger, m1: string, m2: string)
    requires c.kind == ConsoleLogger && e.kind == ErrorLogger
    ensures c.Line(m1) != e.Line(m2)
  {
    assert c.Line(m1)[11] == 'c';
    assert e.Line(m2)[11] == 'e';
  }

  /** chain lists the loggers reached from first by following next, up to the
      nil at the end. */
  ghost predicate IsChain(first: Logger?, chain: seq<Logger>)
    reads set i | 0 <= i < |chain| :: chain[i]
    decreases |chain|
  {
    if chain == [] then first == null
    else first == chain[0] && IsChain(chain[0].next, chain[1..])
  }

  /** The lines written for a message by a chain of loggers, in chain order. */
  function Written(chain: seq<Logger>, level: int, message: string): seq<string> {
    if chain == [] then []
    else (if chain[0].level <= level then [chain[0].Line(message)] else [])
         + Written(chain[1..], level, message)
  }

  /** A single logger writes its line exactly when its threshold is at most
      the message's level. */
  lemma WrittenByOne(h: Logger, level: int, message: string)
    ensures h.level <= level ==> Written([h], level, message) == [h.Line(message)]
    ensures level < h.level ==> Written([h], level, message) == []
  {
    assert [h][1..] == [];
  }

  /** When every threshold is reached, every logger writes, in chain order. */
  lemma {:induction false} AllWrite(chain: seq<Logger>, level: int, message: string)
    requires forall i :: 0 <= i < |chain| ==> chain[i].level <= level
    ensures |Written(chain, level, message)| == |chain|
    ensures forall i :: 0 <= i < |chain| ==> Written(chain, level, message)[i] == chain[i].Line(message)
    decreases |chain|
  {
    if chain != [] {
      AllWrite(chain[1..], level, message);
    }
  }

  /** When no threshold is reached, nothing is written. */
  lemma {:induction false} NoneWrite(chain: seq<Logger>, level: int, message: string)
    requires forall i :: 0 <= i < |chain| ==> level < chain[i].level
    ensures Written(chain, level, message) == []
    decreases |chain|
  {
    if chain != [] {
      NoneWrite(chain[1..], level, message);
    }
  }

  /** The chain's output for a message is the first logger's output followed
      by the rest of the chain's. */
  lemma {:induction false} WrittenAppend(a: seq<Logger>, b: seq<Logger>, level: int, message: string)
    ensures Written(a + b, level, message) == Written(a, level, message) + Written(b, level, message)
    decreases |a|
  {
    if a == [] {
      assert a + b == b;
    } else {
      assert (a + b)[1..] == a[1..] + b;
      WrittenAppend(a[1..], b, level, message);
    }
  }

  /** A more severe message is written by at least as many loggers. */
  lemma {:induction false} WrittenMonotone(chain: seq<Logger>, low: int, high: int, message: string)
    requires low <= high
    ensures |Written(chain, low, message)| <= |Written(chain, high, message)|
    decreases |chain|
  {
    if chain != [] {
      WrittenMonotone(chain[1..], low, high, message);
    }
  }

  /** An Info message sent down the demo's chain is written by the console
      logger only. */
  lemma DemoInfo(c: Logger, e: Logger)
    requires c.kind == ConsoleLogger && c.level == Info
    requires e.kind == ErrorLogger && e.level == Error
    ensures Written([c, e], Info, "This is an informational message.")
            == ["Writing to console: " + "This is an informational message."]
  {
    var m := "This is an informational message.";
    assert [c, e] == [c] + [e];
    WrittenAppend([c], [e], Info, m);
    WrittenByOne(c, Info, m);
    WrittenByOne(e, Info, m);
  }

  /** An Error message sent down the demo's chain is written by both loggers,
      console first. */
  lemma DemoError(c: Logger, e: Logger)
    requires c.kind == ConsoleLogger && c.level == Info
    requires e.kind == ErrorLogger && e.level == Error
    ensures Written([c, e], Error, "This is an error message.")
            == ["Writing to console: " + "This is an error message.",
                "Writing to error log: " + "This is an error message."]
  {
    var m := "This is an error message.";
    assert [c, e] == [c] + [e];
    WrittenAppend([c], [e], Error, m);
    WrittenByOne(c, Error, m);
    WrittenByOne(e, Error, m);
  }

  /** The demo: a console logger at Info followed by an error logger at
      Error, sent one Info and one Error message. */
  method Demo() returns (forInfo: seq<string>, forError: seq<string>)
    ensures forInfo == ["Writing to console: " + "This is an informational message."]
    ensures forError == ["Writing to console: " + "This is an error message.",
                         "Writing to error log: " + "This is an error message."]
  {
    var consoleLogger := new Logger(ConsoleLogger, Info);
    var errorLogger := new Logger(ErrorLogger, Error);
    consoleLogger.SetNext(errorLogger);
    assert IsChain(consoleLogger, [consoleLogger, errorLogger]) by {
      assert IsChain(errorLogger, [errorLogger]) by {
        assert [errorLogger][1..] == [];
      }
      assert [consoleLogger, errorLogger][1..] == [errorLogger];
    }
    forInfo := consoleLogger.LogMessage(Info, "This is an informational message.", [consoleLogger, errorLogger]);
    forError := consoleLogger.LogMessage(Error, "This is an error message.", [consoleLogger, errorLogger]);
    DemoInfo(consoleLogger, errorLogger);
    DemoError(consoleLogger, errorLogger);
  }
}
