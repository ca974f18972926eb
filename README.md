# MergeTransactions in Dafny

A model of `MergeTransactions`, a small batch utility. It imports purchase records from
four comma-separated files into one shared list. Then it logs how many were imported,
their total value and their maximum value.

The model covers:

- **`readData`**: the per-file import. A file is either missing, or a sequence of lines
  that ends normally or with a read error. `String.split(",")` is modelled with Java's
  limit-0 rules. `Double.parseDouble` and the `dd-MM-yyyy` date parser are partial
  functions passed in as parameters. Every exception becomes one of five classified
  faults. The import itself is a method over a mutable purchase list, a reader object
  and a log sink. It is proved against a pure specification (`Ingest`, `FileEvents`).
- **`main`**: four `readData` calls that share one list, then three summary messages.
- **`computeTotalValue` / `computeMaxValue`**: accumulator loops, proved against `Total`
  and `MaxFromZero`.

Module layout:

| file | module | models |
|---|---|---|
| `results.dfy` | `Results` | `Option` and `Result` values |
| `text.dfy` | `JavaText` | `String.split(",")` |
| `records.dfy` | `Records` | `Purchase`, the date value and the two library parsers |
| `logging.dfy` | `Logging` | the two log4j loggers, as one sink of (channel, severity, message) events |
| `ingestion.dfy` | `Ingestion` | `readData` |
| `aggregates.dfy` | `Aggregates` | `computeTotalValue`, `computeMaxValue` |
| `merge_transactions.dfy` | `MergeTransactions` | `main` |

Behaviour of the code that a reader of the class might not expect, which the model keeps:

- **A bad line ends the file.** A malformed line is not skipped. The `try` block wraps
  the whole `while` loop, so the first faulty line ends the import of that file. Records
  appended before it stay in the list (`LongestParsedPrefix`, `LinesAfterFailureIgnored`).
- **Extra fields are accepted.** Nothing checks that a line has exactly three fields.
  Fields beyond the third are never read, so longer lines are imported (`ExtraFieldsIgnored`).
- **The label is not checked.** An empty first field is accepted, so `",4.5,01-01-2020"`
  gives a purchase with an empty name.
- **The fault depends on evaluation order.** When a line has several problems, the
  reported fault is the first one met while evaluating the constructor's arguments left
  to right (`Classification`).
- **Only the maximum is reported.** The class comment (lines 17-23) promises the
  highest and lowest amount, but `main` logs only the count, the total and the maximum.

The maximum starts at `0.0`, so a list whose amounts are all negative reports `0.0`. The
model keeps this behaviour (`AllNegativeMaxIsZero`).

`Run` is `main`. Its ensures fixes the list and the log as functions of the four files
and the parsers. So two runs over the same unchanged files give equal lists in the same
order.

## Model

| member | source | states |
|---|---|---|
| `JavaText.Fields` | src/main/java/nz/ac/vuw/swen301/tuts/log4j/MergeTransactions.java:74 | cutting a line at its commas always yields at least one field |
| `JavaText.FieldsHaveNoComma` | src/main/java/nz/ac/vuw/swen301/tuts/log4j/MergeTransactions.java:74 | no field produced by the split contains the separator |
| `JavaText.OneFieldIffNoComma` | src/main/java/nz/ac/vuw/swen301/tuts/log4j/MergeTransactions.java:74 | a line has a single field exactly when it contains no comma (both directions) |
| `JavaText.NoCommaIsOneField` | src/main/java/nz/ac/vuw/swen301/tuts/log4j/MergeTransactions.java:74 | a comma-free line is its own single field |
| `JavaText.JoinFields` | src/main/java/nz/ac/vuw/swen301/tuts/log4j/MergeTransactions.java:74 | joining the fields with commas gives back the line: the split loses and invents nothing |
| `JavaText.FieldsJoin` | src/main/java/nz/ac/vuw/swen301/tuts/log4j/MergeTransactions.java:74 | splitting comma-free fields joined by commas gives back those fields (the other round trip) |
| `JavaText.FieldsAppend` | src/main/java/nz/ac/vuw/swen301/tuts/log4j/MergeTransactions.java:74 | the fields of `a + "," + b` are the fields of `a` followed by the fields of `b` |
| `JavaText.DropTrailingEmptyIsPrefix` | src/main/java/nz/ac/vuw/swen301/tuts/log4j/MergeTransactions.java:74 | removing trailing empty fields keeps a prefix, drops only empty fields, and leaves no empty last field |
| `JavaText.DropTrailingEmptyPrefix` | src/main/java/nz/ac/vuw/swen301/tuts/log4j/MergeTransactions.java:74 | appending fields never shortens or changes what survived the removal of trailing empty fields |
| `JavaText.SplitIsFieldsWithoutTrailingEmpties` | src/main/java/nz/ac/vuw/swen301/tuts/log4j/MergeTransactions.java:74 | `split(",")` returns the whole line when it has no comma; otherwise its fields up to the last non-empty one |
| `JavaText.Split` | src/main/java/nz/ac/vuw/swen301/tuts/log4j/MergeTransactions.java:74 | defines `line.split(",")`: the whole line when it has no comma, otherwise its fields with trailing empty ones removed (its properties are the lemmas below) |
| `JavaText.SplitKeepsLeadingFields` | src/main/java/nz/ac/vuw/swen301/tuts/log4j/MergeTransactions.java:74 | text appended after another comma leaves the first three fields of a three-field line unchanged |
| `Ingestion.ParseLine` | src/main/java/nz/ac/vuw/swen301/tuts/log4j/MergeTransactions.java:74-79 | defines how one line becomes a purchase, in Java's left-to-right evaluation order; a line only ever throws what the date, number and generic catch clauses handle (never a file fault), and a purchase is built only from a line with at least three fields |
| `Ingestion.Classification` | src/main/java/nz/ac/vuw/swen301/tuts/log4j/MergeTransactions.java:74-79 | a line gives a number fault iff it has 2+ fields and a bad amount; a date fault iff it has 3+ fields, a good amount and a bad date; the generic fault iff it has fewer than 2 fields, or exactly 2 with a good amount; otherwise a purchase built from fields 0, 1 and 2 |
| `Ingestion.ExtraFieldsIgnored` | src/main/java/nz/ac/vuw/swen301/tuts/log4j/MergeTransactions.java:74-79 | a line with at least three fields parses exactly as it would with more fields appended |
| `Ingestion.ParseLines` | src/main/java/nz/ac/vuw/swen301/tuts/log4j/MergeTransactions.java:71-110 | defines what the unread lines contribute, the first fault ending the import; at most one record per line, and no fault only when every line became a record and the stream ended normally |
| `Ingestion.Ingest` | src/main/java/nz/ac/vuw/swen301/tuts/log4j/MergeTransactions.java:64-110 | defines what one file contributes: nothing and the file-not-found fault for a missing file, otherwise `ParseLines` over its lines with `ParseLine` |
| `Ingestion.FaultEvent` | src/main/java/nz/ac/vuw/swen301/tuts/log4j/MergeTransactions.java:85-110 | each catch clause logs once on the file channel: a warning exactly for a missing file, an error for every other fault |
| `Ingestion.DebugEvents` | src/main/java/nz/ac/vuw/swen301/tuts/log4j/MergeTransactions.java:81-82 | one debug message per imported purchase, in import order |
| `Ingestion.CloseEvents` | src/main/java/nz/ac/vuw/swen301/tuts/log4j/MergeTransactions.java:111-120 | the `finally` block logs at most one message, an error on the file channel, exactly when an opened reader fails to close |
| `Ingestion.FileEvents` | src/main/java/nz/ac/vuw/swen301/tuts/log4j/MergeTransactions.java:64-121 | everything one `readData` call logs starts with the import notice; then one message per record, one per caught fault and one per failed close |
| `Ingestion.PurchaseList.constructor` | src/main/java/nz/ac/vuw/swen301/tuts/log4j/MergeTransactions.java:32 | a new list is empty |
| `Ingestion.PurchaseList.Add` | src/main/java/nz/ac/vuw/swen301/tuts/log4j/MergeTransactions.java:80 | `add` appends the purchase at the end and changes nothing else |
| `Ingestion.LineReader.Open` | src/main/java/nz/ac/vuw/swen301/tuts/log4j/MergeTransactions.java:72 | a freshly opened reader is at the first line and has not been closed |
| `Ingestion.LineReader.ReadLine` | src/main/java/nz/ac/vuw/swen301/tuts/log4j/MergeTransactions.java:73 | returns the next line and advances by one; once the lines are exhausted returns end of stream or throws, as the file ends, without advancing |
| `Ingestion.LineReader.Close` | src/main/java/nz/ac/vuw/swen301/tuts/log4j/MergeTransactions.java:111-120 | each call counts one release and reports whether `close` threw |
| `Ingestion.ImportNextLine` | src/main/java/nz/ac/vuw/swen301/tuts/log4j/MergeTransactions.java:73-83 | one loop turn: the stream ended, or threw, or the line failed, with nothing appended; or the next purchase of the specification is appended and logged at debug level |
| `Ingestion.ImportLines` | src/main/java/nz/ac/vuw/swen301/tuts/log4j/MergeTransactions.java:71-84 | the loop appends exactly the records the specification gives for the unread lines, logs one debug message per record, and leaves with the specified fault |
| `Ingestion.ReadData` | src/main/java/nz/ac/vuw/swen301/tuts/log4j/MergeTransactions.java:64-121 | the list becomes its old contents followed by the file's contribution; the log gains exactly the file's messages; a reader is opened iff the file exists and is then closed exactly once |
| `Ingestion.LongestParsedPrefix` | src/main/java/nz/ac/vuw/swen301/tuts/log4j/MergeTransactions.java:71-84 | the records added are those of the longest prefix of lines that parse, in file order; the first failing line supplies the fault; otherwise the end of the stream does |
| `Ingestion.LinesAfterFailureIgnored` | src/main/java/nz/ac/vuw/swen301/tuts/log4j/MergeTransactions.java:71-110 | once a line fails, no later line of the file (and not how the file ends) changes the outcome |
| `Ingestion.ReadErrorKeepsRecords` | src/main/java/nz/ac/vuw/swen301/tuts/log4j/MergeTransactions.java:90-94 | a read error after the lines keeps every record read before it, and is reported unless a line failed first |
| `Ingestion.MissingFileAddsNothing` | src/main/java/nz/ac/vuw/swen301/tuts/log4j/MergeTransactions.java:85-89 | a missing file adds no record and logs only the import notice and exactly one warning |
| `Ingestion.ReadableFileNeverWarns` | src/main/java/nz/ac/vuw/swen301/tuts/log4j/MergeTransactions.java:85-110 | a file that opens never produces a warning, whatever fails while reading or closing it |
| `Ingestion.CloseFailureOnlyLogged` | src/main/java/nz/ac/vuw/swen301/tuts/log4j/MergeTransactions.java:111-120 | a failing `close` leaves the imported records unchanged and adds one error message at the end |
| `Logging.Logger.Log` | src/main/java/nz/ac/vuw/swen301/tuts/log4j/MergeTransactions.java:28-29 | each logging call appends one event to the log |
| `Aggregates.Total` | src/main/java/nz/ac/vuw/swen301/tuts/log4j/MergeTransactions.java:47-53 | defines the total value: the amounts added up from the front of the list, starting at 0 |
| `Aggregates.MaxFromZero` | src/main/java/nz/ac/vuw/swen301/tuts/log4j/MergeTransactions.java:55-61 | defines the reported maximum: the running maximum of the amounts, started at 0.0 instead of at the first amount |
| `Aggregates.ComputeTotalValue` | src/main/java/nz/ac/vuw/swen301/tuts/log4j/MergeTransactions.java:47-53 | the accumulator loop returns the sum of the amounts (0 for an empty list) |
| `Aggregates.TotalAppend` | src/main/java/nz/ac/vuw/swen301/tuts/log4j/MergeTransactions.java:47-53 | the total of a concatenation is the sum of the totals |
| `Aggregates.ComputeMaxValue` | src/main/java/nz/ac/vuw/swen301/tuts/log4j/MergeTransactions.java:55-61 | the accumulator loop returns the running maximum of the amounts, started at 0.0 |
| `Aggregates.MaxFromZeroBounds` | src/main/java/nz/ac/vuw/swen301/tuts/log4j/MergeTransactions.java:55-61 | the reported maximum is at least 0, at least every amount, and either 0 or one of the amounts |
| `Aggregates.AllNegativeMaxIsZero` | src/main/java/nz/ac/vuw/swen301/tuts/log4j/MergeTransactions.java:56-58 | a list whose amounts are all negative reports a maximum of 0 |
| `Aggregates.MaxAppend` | src/main/java/nz/ac/vuw/swen301/tuts/log4j/MergeTransactions.java:55-61 | the maximum of a concatenation is the larger of the two maxima |
| `MergeTransactions.SummaryEvents` | src/main/java/nz/ac/vuw/swen301/tuts/log4j/MergeTransactions.java:41-43 | defines the three summary messages of `main` on the transaction channel: the count, `Total` and `MaxFromZero` of the list |
| `MergeTransactions.Run` | src/main/java/nz/ac/vuw/swen301/tuts/log4j/MergeTransactions.java:31-45 | the list is the four files' contributions concatenated in call order; the log is each file's messages in order, then count, total and maximum |
| `MergeTransactions.LogSummary` | src/main/java/nz/ac/vuw/swen301/tuts/log4j/MergeTransactions.java:40-43 | logs the number of purchases, their total and their maximum, in that order, on the transaction channel |
| `MergeTransactions.MergedAppend` | src/main/java/nz/ac/vuw/swen301/tuts/log4j/MergeTransactions.java:34-38 | importing two groups of files gives the concatenation of what each group gives alone |
| `MergeTransactions.RunIsMerge` | src/main/java/nz/ac/vuw/swen301/tuts/log4j/MergeTransactions.java:34-38 | the four calls of `main` import the same list as merging the four files in order |
| `MergeTransactions.MergedSummary` | src/main/java/nz/ac/vuw/swen301/tuts/log4j/MergeTransactions.java:41-43 | the total of the merged list is the sum of the per-file totals, and its maximum is the largest per-file maximum |

## Left out

- File-system and stream I/O (`File`, `FileReader`, `BufferedReader`) are replaced by a
  `Source` value. It is either missing, or a list of lines that ends normally or with a
  read error, plus whether `close` throws. Other ways of failing to open a file (a
  directory, no permission) all become `FileNotFoundException` in Java, so they appear
  here as `Missing`.
- `Double.parseDouble` and `SimpleDateFormat.parse` are parameters (`Parsers`). Which
  strings they accept, including the lenient date parsing, is not modelled.
- Floating-point arithmetic: amounts are exact reals. Rounding in the sum, and NaN or
  infinities in `Math.max`, are not modelled.
- Message text, `printStackTrace`, currency formatting and `Purchase.toString` are not
  modelled. The log records only (channel, severity, kind of message). This includes the
  offending line in the date, number and generic error messages.
- The source of the `Purchase` class is not part of this model. `Purchase` is modelled as a plain record
  (name, amount, date) whose construction never throws.
- The static `DATE_FORMAT` and `CURRENCY_FORMAT` fields have no behavioural role in a
  single-threaded run and are left out.
- Ingestion.ReadData: returns the reader it opened (null when the file is missing). The
  Java method returns nothing; the result exists only so that the release can be stated.
- MergeTransactions.Run: takes the four files as parameters, instead of the hard-coded
  names `transactions1.csv` … `transactions4.csv`.
