/**
 * `readData`: import the purchases of one file into a caller-owned list.
 *
 * The file is either missing or a sequence of lines that ends either normally or with a
 * read error. Each line is split on commas and a purchase is built from fields 0, 1 and 2,
 * evaluated left to right. The `try` block encloses the whole reading loop, so the first
 * fault of any kind ends the import of that file; records appended before it stay.
 */
module Ingestion {
  import opened Results
  import opened Records
  import opened Logging
  import JavaText

  /** How the stream ends once its lines are exhausted: `readLine` returns null, or throws. */
  datatype Tail = EndOfFile | ReadError

  /** A named input file, as `new FileReader(file)` and `readLine` would find it. */
  datatype Source =
    | Missing
    | Readable(lines: seq<string>, tail: Tail, closeFails: bool)

  /** The catch clause that handles a fault, in the order they are tried. */
  datatype Fault =
    | FileNotFound   // FileNotFoundException
    | ReadFailure    // IOException
    | BadDate        // ParseException
    | BadNumber      // NumberFormatException
    | Unexpected     // any other Exception (here: an array index out of bounds)

  /** What one call of `readData` adds to the list, and the fault that ended it, if any. */
  datatype Contribution = Contribution(added: seq<Purchase>, fault: Option<Fault>)

  /**
   * One line turned into a purchase, or the fault its evaluation throws first:
   * `values[0]`, then `values[1]` and `Double.parseDouble`, then `values[2]` and the date parse.
   */
  function ParseLine(line: string, p: Parsers): (r: Result<Purchase, Fault>)
    ensures r.Failure? ==> r.error in {BadNumber, BadDate, Unexpected}
    ensures r.Success? ==> |JavaText.Split(line)| >= 3
  {
    var values := JavaText.Split(line);
    if |values| < 1 then Failure(Unexpected)
    else if |values| < 2 then Failure(Unexpected)
    else match p.parseAmount(values[1])
      case None => Failure(BadNumber)
      case Some(amount) =>
        if |values| < 3 then Failure(Unexpected)
        else match p.parseDate(values[2])
          case None => Failure(BadDate)
          case Some(date) => Success(Purchase(values[0], amount, date))
  }

  /** How each line is turned into a purchase; `readData` uses `ParseLine`. */
  type LineParser = string -> Result<Purchase, Fault>

  function LineParserOf(p: Parsers): LineParser
  {
    line => ParseLine(line, p)
  }

  /**
   * The contribution of the lines still to be read, given how the stream ends and how
   * each line is parsed: the first fault ends it.
   */
  function ParseLines(lines: seq<string>, tail: Tail, parse: LineParser): (r: Contribution)
    ensures |r.added| <= |lines|
    ensures r.fault == None ==> |r.added| == |lines| && tail == EndOfFile
  {
    if |lines| == 0 then
      Contribution([], if tail == ReadError then Some(ReadFailure) else None)
    else match parse(lines[0])
      case Failure(kind) => Contribution([], Some(kind))
      case Success(purchase) =>
        var rest := ParseLines(lines[1..], tail, parse);
        Contribution([purchase] + rest.added, rest.fault)
  }

  /** What importing `src` contributes, on its own. */
  function Ingest(src: Source, p: Parsers): Contribution
  {
    match src
    case Missing => Contribution([], Some(FileNotFound))
    case Readable(lines, tail, _) => ParseLines(lines, tail, LineParserOf(p))
  }

  /** The message each catch clause logs. */
  function FaultEvent(fault: Fault): (e: Event)
    ensures e.channel == FileChannel
    ensures e.severity == Warn <==> fault == FileNotFound
    ensures e.severity == Error <==> fault != FileNotFound
  {
    match fault
    case FileNotFound => Event(FileChannel, Warn, FileDoesNotExist)
    case ReadFailure => Event(FileChannel, Error, ReadProblem)
    case BadDate => Event(FileChannel, Error, DateProblem)
    case BadNumber => Event(FileChannel, Error, NumberProblem)
    case Unexpected => Event(FileChannel, Error, OtherProblem)
  }

  /** The catch clause's message, when an exception was caught at all. */
  function FaultEvents(fault: Option<Fault>): seq<Event>
  {
    if fault.Some? then [FaultEvent(fault.value)] else []
  }

  /** One debug message per imported purchase, in import order. */
  function DebugEvents(added: seq<Purchase>): (r: seq<Event>)
    ensures |r| == |added|
  {
    if |added| == 0 then [] else DebugEvents(added[..|added| - 1]) + [Event(FileChannel, Debug, Imported(added[|added| - 1]))]
  }

  /** Everything one call of `readData` logs, in order. */
  function FileEvents(src: Source, p: Parsers): (r: seq<Event>)
    ensures |r| >= 1 && r[0] == Event(FileChannel, Info, ImportStarted)
    ensures |r| == 1 + |Ingest(src, p).added| + |FaultEvents(Ingest(src, p).fault)| + |CloseEvents(src)|
  {
    var c := Ingest(src, p);
    [Event(FileChannel, Info, ImportStarted)]
      + DebugEvents(c.added)
      + FaultEvents(c.fault)
      + CloseEvents(src)
  }

  /** The message of the `finally` block: only an opened reader is closed, and it may fail. */
  function CloseEvents(src: Source): (r: seq<Event>)
    ensures |r| <= 1
    ensures |r| == 1 <==> src.Readable? && src.closeFails
    ensures forall e :: e in r ==> e.channel == FileChannel && e.severity == Error
  {
    if src.Readable? && src.closeFails then [Event(FileChannel, Error, CloseProblem)] else []
  }

  /** The caller-owned `List<Purchase>`; `Add` appends at the end. */
  class PurchaseList {
    var items: seq<Purchase>

    constructor ()
      ensures items == []
    {
      items := [];
    }

    method Add(purchase: Purchase)
      modifies this
      ensures items == old(items) + [purchase]
    {
      items := items + [purchase];
    }
  }

  /** What one `readLine` call does: a line, end of stream (null), or an IOException. */
  datatype ReadOutcome = Line(text: string) | EndOfStream | ReadFailed

  /** The `BufferedReader` opened on a readable file. */
  class LineReader {
    const lines: seq<string>
    const tail: Tail
    const closeFails: bool
    var pos: nat          // lines returned so far
    var closeCalls: nat   // how often `close` was called

    ghost predicate Valid()
      reads this
    {
      pos <= |lines|
    }

    constructor Open(lines: seq<string>, tail: Tail, closeFails: bool)
      ensures Valid()
      ensures this.lines == lines && this.tail == tail && this.closeFails == closeFails
      ensures pos == 0 && closeCalls == 0
    {
      this.lines := lines;
      this.tail := tail;
      this.closeFails := closeFails;
      pos := 0;
      closeCalls := 0;
    }

    method ReadLine() returns (r: ReadOutcome)
      requires Valid()
      modifies this`pos
      ensures Valid()
      ensures old(pos) < |lines| ==> r == Line(lines[old(pos)]) && pos == old(pos) + 1
      ensures old(pos) == |lines| ==> pos == old(pos)
      ensures old(pos) == |lines| ==> r == (if tail == EndOfFile then EndOfStream else ReadFailed)
    {
      if pos < |lines| {
        r := Line(lines[pos]);
        pos := pos + 1;
      } else if tail == EndOfFile {
        r := EndOfStream;
      } else {
        r := ReadFailed;
      }
    }

    /** Releases the reader; `failed` is the IOException that `close` may throw. */
    method Close() returns (failed: bool)
      modifies this`closeCalls
      ensures closeCalls == old(closeCalls) + 1
      ensures failed == closeFails
    {
      closeCalls := closeCalls + 1;
      failed := closeFails;
    }
  }

  /**
   * Regroups the log of one import as the old log followed by `FileEvents`; proved on its
   * own, it keeps this step out of the larger proof of `ReadData`.
   */
  lemma ConcatAssoc<T>(a: seq<T>, b: seq<T>, c: seq<T>, d: seq<T>, e: seq<T>)
    ensures a + b + c + d + e == a + (b + c + d + e)
  {
  }

  /** Unfolds `ParseLines` at the line the reader will return next. */
  lemma ParseLinesAt(lines: seq<string>, pos: nat, tail: Tail, parse: LineParser)
    requires pos < |lines|
    ensures ParseLines(lines[pos..], tail, parse) ==
      match parse(lines[pos])
      case Failure(kind) => Contribution([], Some(kind))
      case Success(purchase) =>
        var rest := ParseLines(lines[pos + 1..], tail, parse);
        Contribution([purchase] + rest.added, rest.fault)
  {
    assert lines[pos..][0] == lines[pos] && lines[pos..][1..] == lines[pos + 1..];
  }

  /**
   * The bookkeeping of one appended purchase: it moves from the records still to come
   * to those imported, and its debug message goes at the end of the log.
   */
  lemma AppendStep(added: seq<Purchase>, purchase: Purchase, later: seq<Purchase>)
    ensures added + ([purchase] + later) == (added + [purchase]) + later
    ensures DebugEvents(added + [purchase]) == DebugEvents(added) + [Event(FileChannel, Debug, Imported(purchase))]
  {
    assert (added + [purchase])[..|added|] == added;
  }

  /**
   * One turn of the `while` loop of `readData`: read a line, turn it into a purchase with
   * `parse`, append it and log it. `stopped` when the stream has ended or something threw;
   * `fault` is then the exception, if any.
   */
  method ImportNextLine(reader: LineReader, transactions: PurchaseList, log: Logger, parse: LineParser)
    returns (stopped: bool, fault: Option<Fault>)
    requires reader.Valid()
    modifies reader`pos, transactions, log
    ensures reader.Valid() && old(reader.pos) <= reader.pos
    ensures
      var rest := ParseLines(reader.lines[old(reader.pos)..], reader.tail, parse);
      if stopped then
        && rest == Contribution([], fault)
        && transactions.items == old(transactions.items)
        && log.events == old(log.events)
      else
        && reader.pos == old(reader.pos) + 1
        && fault == None
        && |rest.added| > 0
        && var later := ParseLines(reader.lines[reader.pos..], reader.tail, parse);
        && var purchase := rest.added[0];
        && rest == Contribution([purchase] + later.added, later.fault)
        && transactions.items == old(transactions.items) + [purchase]
        && log.events == old(log.events) + [Event(FileChannel, Debug, Imported(purchase))]
  {
    ghost var before := reader.pos;
    var r := reader.ReadLine();
    match r {
      case EndOfStream =>
        assert reader.lines[before..] == [];
        stopped, fault := true, None;
      case ReadFailed =>
        assert reader.lines[before..] == [];
        stopped, fault := true, Some(ReadFailure);
      case Line(line) =>
        ParseLinesAt(reader.lines, before, reader.tail, parse);
        match parse(line) {
          case Failure(kind) =>
            stopped, fault := true, Some(kind);
          case Success(purchase) =>
            transactions.Add(purchase);
            log.Log(Event(FileChannel, Debug, Imported(purchase)));
            stopped, fault := false, None;
        }
    }
  }

  /**
   * The `while` loop of `readData`, run until the stream ends or something throws;
   * `fault` is the exception that left the loop.
   */
  method ImportLines(reader: LineReader, transactions: PurchaseList, log: Logger, parse: LineParser)
    returns (fault: Option<Fault>)
    requires reader.Valid()
    modifies reader`pos, transactions, log
    ensures reader.Valid()
    ensures
      var c := ParseLines(reader.lines[old(reader.pos)..], reader.tail, parse);
      && transactions.items == old(transactions.items) + c.added
      && log.events == old(log.events) + DebugEvents(c.added)
      && fault == c.fault
  {
    ghost var start := ParseLines(reader.lines[reader.pos..], reader.tail, parse);
    ghost var added: seq<Purchase> := [];
    ghost var rest := start;
    fault := None;
    var stopped := false;
    while !stopped
      invariant reader.Valid()
      invariant transactions.items == old(transactions.items) + added
      invariant log.events == old(log.events) + DebugEvents(added)
      invariant start.added == added + rest.added && start.fault == rest.fault
      invariant !stopped ==> rest == ParseLines(reader.lines[reader.pos..], reader.tail, parse)
      invariant stopped ==> rest == Contribution([], fault)
      decreases |reader.lines| - reader.pos, !stopped
    {
      stopped, fault := ImportNextLine(reader, transactions, log, parse);
      if stopped {
        assert added + [] == added;
      } else {
        var later := ParseLines(reader.lines[reader.pos..], reader.tail, parse);
        AppendStep(added, rest.added[0], later.added);
        added := added + [rest.added[0]];
        rest := later;
      }
    }
    assert added + [] == added;
  }

  /**
   * `readData(fileName, transactions)`. Returns the reader it opened, or null when the
   * file could not be opened, so that its release can be stated.
   */
  method ReadData(src: Source, transactions: PurchaseList, log: Logger, p: Parsers)
    returns (reader: LineReader?)
    modifies transactions, log
    ensures transactions.items == old(transactions.items) + Ingest(src, p).added
    ensures log.events == old(log.events) + FileEvents(src, p)
    ensures reader == null <==> src.Missing?
    ensures reader != null ==> fresh(reader) && reader.closeCalls == 1
  {
    ghost var c := Ingest(src, p);
    log.Log(Event(FileChannel, Info, ImportStarted));
    reader := null;
    var fault: Option<Fault>;
    if src.Missing? {
      fault := Some(FileNotFound);
    } else {
      reader := new LineReader.Open(src.lines, src.tail, src.closeFails);
      assert reader.lines[reader.pos..] == src.lines;
      fault := ImportLines(reader, transactions, log, LineParserOf(p));
    }
    assert fault == c.fault;
    ghost var afterLoop := log.events;
    assert afterLoop == old(log.events) + [Event(FileChannel, Info, ImportStarted)] + DebugEvents(c.added);
    // the catch clauses
    if fault.Some? {
      log.Log(FaultEvent(fault.value));
    }
    ghost var afterCatch := log.events;
    assert afterCatch == afterLoop + FaultEvents(c.fault);
    // the finally block
    if reader != null {
      var failed := reader.Close();
      if failed {
        log.Log(Event(FileChannel, Error, CloseProblem));
      }
    }
    assert log.events == afterCatch + CloseEvents(src);
    ConcatAssoc(old(log.events), [Event(FileChannel, Info, ImportStarted)], DebugEvents(c.added), FaultEvents(c.fault), CloseEvents(src));
  }

  // Properties of one import

  /**
   * The records added are exactly those of the longest prefix of lines that parse, in file
   * order; the line after that prefix, if any, supplies the fault; otherwise the way the
   * stream ends does.
   */
  lemma {:induction false} LongestParsedPrefix(lines: seq<string>, tail: Tail, parse: LineParser)
    ensures var c := ParseLines(lines, tail, parse);
      && |c.added| <= |lines|
      && (forall i :: 0 <= i < |c.added| ==> parse(lines[i]) == Success(c.added[i]))
      && (|c.added| < |lines| ==>
            parse(lines[|c.added|]).Failure? && c.fault == Some(parse(lines[|c.added|]).error))
      && (|c.added| == |lines| ==>
            c.fault == if tail == ReadError then Some(ReadFailure) else None)
  {
    if |lines| > 0 && parse(lines[0]).Success? {
      LongestParsedPrefix(lines[1..], tail, parse);
      var c := ParseLines(lines, tail, parse);
      var rest := ParseLines(lines[1..], tail, parse);
      assert c.added == [parse(lines[0]).value] + rest.added;
      forall i | 0 < i < |c.added|
        ensures parse(lines[i]) == Success(c.added[i])
      {
        assert lines[i] == lines[1..][i - 1];
      }
      if |c.added| < |lines| {
        assert lines[|c.added|] == lines[1..][|rest.added|];
      }
    }
  }

  /** The first line that fails ends the import: nothing after it is read or added. */
  lemma {:induction false} LinesAfterFailureIgnored(
    lines: seq<string>, more: seq<string>, tail: Tail, otherTail: Tail, parse: LineParser, k: nat)
    requires k < |lines| && parse(lines[k]).Failure?
    ensures ParseLines(lines + more, otherTail, parse) == ParseLines(lines, tail, parse)
  {
    assert (lines + more)[0] == lines[0];
    if parse(lines[0]).Success? {
      assert (lines + more)[1..] == lines[1..] + more;
      LinesAfterFailureIgnored(lines[1..], more, tail, otherTail, parse, k - 1);
    }
  }

  /**
   * A read error after the lines changes only the reported fault: the records read
   * before it are kept, exactly as if the file had ended there.
   */
  lemma {:induction false} ReadErrorKeepsRecords(lines: seq<string>, parse: LineParser)
    ensures ParseLines(lines, ReadError, parse).added == ParseLines(lines, EndOfFile, parse).added
    ensures ParseLines(lines, EndOfFile, parse).fault.None? ==>
      ParseLines(lines, ReadError, parse).fault == Some(ReadFailure)
    ensures ParseLines(lines, EndOfFile, parse).fault.Some? ==>
      ParseLines(lines, ReadError, parse).fault == ParseLines(lines, EndOfFile, parse).fault
  {
    if |lines| > 0 && parse(lines[0]).Success? {
      ReadErrorKeepsRecords(lines[1..], parse);
    }
  }

  /**
   * Which exception a line throws is decided by evaluating the constructor's arguments
   * left to right: too few fields for `values[1]`, then a bad amount, then too few fields
   * for `values[2]`, then a bad date.
   */
  lemma Classification(line: string, p: Parsers)
    ensures var values := JavaText.Split(line);
      && (ParseLine(line, p) == Failure(BadNumber) <==>
            |values| >= 2 && p.parseAmount(values[1]).None?)
      && (ParseLine(line, p) == Failure(BadDate) <==>
            |values| >= 3 && p.parseAmount(values[1]).Some? && p.parseDate(values[2]).None?)
      && (ParseLine(line, p) == Failure(Unexpected) <==>
            |values| < 2 || (|values| == 2 && p.parseAmount(values[1]).Some?))
      && (ParseLine(line, p).Success? <==>
            |values| >= 3 && p.parseAmount(values[1]).Some? && p.parseDate(values[2]).Some?)
      && (ParseLine(line, p).Success? ==>
            ParseLine(line, p).value ==
              Purchase(values[0], p.parseAmount(values[1]).value, p.parseDate(values[2]).value))
  {
  }

  /** Fields after the third are never looked at. */
  lemma ExtraFieldsIgnored(line: string, extra: string, p: Parsers)
    requires |JavaText.Split(line)| >= 3
    ensures ParseLine(line + "," + extra, p) == ParseLine(line, p)
  {
    JavaText.SplitKeepsLeadingFields(line, extra);
    var a := JavaText.Split(line);
    var b := JavaText.Split(line + "," + extra);
    assert a[0] == a[..3][0] && a[1] == a[..3][1] && a[2] == a[..3][2];
    assert b[0] == b[..3][0] && b[1] == b[..3][1] && b[2] == b[..3][2];
  }

  /** A missing file adds nothing and is reported by exactly one warning, its only one. */
  lemma MissingFileAddsNothing(p: Parsers)
    ensures Ingest(Missing, p) == Contribution([], Some(FileNotFound))
    ensures FileEvents(Missing, p) ==
      [Event(FileChannel, Info, ImportStarted), Event(FileChannel, Warn, FileDoesNotExist)]
    ensures CountSeverity(FileEvents(Missing, p), Warn) == 1
  {
    assert DebugEvents([]) == [];
    var events := FileEvents(Missing, p);
    assert events[..1] == [Event(FileChannel, Info, ImportStarted)];
    assert events[..1][..0] == [];
  }

  lemma {:induction false} DebugEventsHaveNoWarning(added: seq<Purchase>)
    ensures CountSeverity(DebugEvents(added), Warn) == 0
  {
    if |added| > 0 {
      DebugEventsHaveNoWarning(added[..|added| - 1]);
      CountSeverityAppend(DebugEvents(added[..|added| - 1]), [Event(FileChannel, Debug, Imported(added[|added| - 1]))], Warn);
      assert [Event(FileChannel, Debug, Imported(added[|added| - 1]))][..0] == [];
    }
  }

  /** A file that can be opened never produces a warning, whatever goes wrong while reading it. */
  lemma ReadableFileNeverWarns(src: Source, p: Parsers)
    requires src.Readable?
    ensures CountSeverity(FileEvents(src, p), Warn) == 0
  {
    var c := Ingest(src, p);
    LongestParsedPrefix(src.lines, src.tail, LineParserOf(p));
    if c.fault.Some? {
      if |c.added| < |src.lines| {
        assert LineParserOf(p)(src.lines[|c.added|]) == ParseLine(src.lines[|c.added|], p);
      }
      assert c.fault.value != FileNotFound;
    }
    DebugEventsHaveNoWarning(c.added);
    var start := [Event(FileChannel, Info, ImportStarted)];
    assert start[..0] == [];
    var f := FaultEvents(c.fault);
    var cl := CloseEvents(src);
    assert forall i :: 0 <= i < |f| ==> f[i].severity != Warn;
    assert forall i :: 0 <= i < |cl| ==> cl[i].severity != Warn;
    CountSeverityAppend(start, DebugEvents(c.added), Warn);
    CountSeverityAppend(start + DebugEvents(c.added), f, Warn);
    CountSeverityAppend(start + DebugEvents(c.added) + f, cl, Warn);
  }

  /**
   * A failing `close` is only logged: it adds one error message at the very end and
   * changes nothing else.
   */
  lemma CloseFailureOnlyLogged(lines: seq<string>, tail: Tail, p: Parsers)
    ensures Ingest(Readable(lines, tail, true), p) == Ingest(Readable(lines, tail, false), p)
    ensures FileEvents(Readable(lines, tail, true), p) ==
      FileEvents(Readable(lines, tail, false), p) + [Event(FileChannel, Error, CloseProblem)]
  {
  }
}
