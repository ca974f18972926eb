/**
 * `main`: one shared list threaded through four imports, in a fixed order, followed by
 * three summary messages on the transaction channel.
 */
module MergeTransactions {
  import opened Records
  import opened Logging
  import opened Ingestion
  import opened Aggregates

  /** The summary that `main` logs once every file has been imported. */
  function SummaryEvents(transactions: seq<Purchase>): seq<Event>
  {
    [ Event(TransactionChannel, Info, ImportedCount(|transactions|)),
      Event(TransactionChannel, Info, TotalValue(Total(transactions))),
      Event(TransactionChannel, Info, MaxValue(MaxFromZero(transactions))) ]
  }

  /**
   * `main`, with the four files `transactions1.csv` … `transactions4.csv` as parameters.
   * The list ends as the concatenation, in call order, of what each file contributes on
   * its own; no import can undo or reorder what an earlier one added.
   */
  method Run(file1: Source, file2: Source, file3: Source, file4: Source, p: Parsers)
    returns (transactions: PurchaseList, log: Logger)
    ensures fresh(transactions) && fresh(log)
    ensures transactions.items ==
      Ingest(file1, p).added + Ingest(file2, p).added + Ingest(file3, p).added + Ingest(file4, p).added
    ensures log.events ==
      FileEvents(file1, p) + FileEvents(file2, p) + FileEvents(file3, p) + FileEvents(file4, p)
        + SummaryEvents(transactions.items)
  {
    transactions := new PurchaseList();
    log := new Logger();
    var _ := ReadData(file1, transactions, log, p);
    EmptyConcat(Ingest(file1, p).added);
    EmptyConcat(FileEvents(file1, p));
    var _ := ReadData(file2, transactions, log, p);
    var _ := ReadData(file3, transactions, log, p);
    var _ := ReadData(file4, transactions, log, p);
    LogSummary(transactions.items, log);
  }

  /** The three summary messages at the end of `main`: count, total value, maximum value. */
  method LogSummary(transactions: seq<Purchase>, log: Logger)
    modifies log
    ensures log.events == old(log.events) + SummaryEvents(transactions)
  {
    log.Log(Event(TransactionChannel, Info, ImportedCount(|transactions|)));
    var total := ComputeTotalValue(transactions);
    log.Log(Event(TransactionChannel, Info, TotalValue(total)));
    var max := ComputeMaxValue(transactions);
    log.Log(Event(TransactionChannel, Info, MaxValue(max)));
  }

  /**
   * The first import starts from an empty list and an empty log; proved on its own, it
   * keeps this step out of the larger proof of `Run`.
   */
  lemma EmptyConcat<T>(s: seq<T>)
    ensures [] + s == s
  {
  }

  /** What `main` imports from a list of files, in order. */
  function Merged(files: seq<Source>, p: Parsers): seq<Purchase>
  {
    if |files| == 0 then [] else Merged(files[..|files| - 1], p) + Ingest(files[|files| - 1], p).added
  }

  /** Merging is compositional: each group of files contributes independently of the other. */
  lemma {:induction false} MergedAppend(a: seq<Source>, b: seq<Source>, p: Parsers)
    ensures Merged(a + b, p) == Merged(a, p) + Merged(b, p)
  {
    if |b| == 0 {
      assert a + b == a;
    } else {
      assert (a + b)[..|a + b| - 1] == a + b[..|b| - 1];
      MergedAppend(a, b[..|b| - 1], p);
    }
  }

  /** The list `main` builds is the merge of its four files, in call order. */
  lemma RunIsMerge(file1: Source, file2: Source, file3: Source, file4: Source, p: Parsers)
    ensures Merged([file1, file2, file3, file4], p) ==
      Ingest(file1, p).added + Ingest(file2, p).added + Ingest(file3, p).added + Ingest(file4, p).added
  {
    var fs := [file1, file2, file3, file4];
    assert fs[..3] == [file1, file2, file3];
    assert [file1, file2, file3][..2] == [file1, file2];
    assert [file1, file2][..1] == [file1];
    assert [file1][..0] == [];
    assert Merged([file1], p) == Ingest(file1, p).added;
    assert Merged([file1, file2], p) == Ingest(file1, p).added + Ingest(file2, p).added;
    assert Merged(fs[..3], p) == Ingest(file1, p).added + Ingest(file2, p).added + Ingest(file3, p).added;
  }

  /**
   * The reported total and maximum of the merged list are those computed file by file:
   * the sum of the per-file totals and the largest per-file maximum.
   */
  lemma {:induction false} MergedSummary(files: seq<Source>, p: Parsers)
    ensures Total(Merged(files, p)) == TotalPerFile(files, p)
    ensures MaxFromZero(Merged(files, p)) == MaxPerFile(files, p)
  {
    if |files| > 0 {
      var init := files[..|files| - 1];
      MergedSummary(init, p);
      TotalAppend(Merged(init, p), Ingest(files[|files| - 1], p).added);
      MaxAppend(Merged(init, p), Ingest(files[|files| - 1], p).added);
    }
  }

  function TotalPerFile(files: seq<Source>, p: Parsers): real
  {
    if |files| == 0 then 0.0
    else TotalPerFile(files[..|files| - 1], p) + Total(Ingest(files[|files| - 1], p).added)
  }

  function MaxPerFile(files: seq<Source>, p: Parsers): real
  {
    if |files| == 0 then 0.0
    else Max(MaxPerFile(files[..|files| - 1], p), MaxFromZero(Ingest(files[|files| - 1], p).added))
  }
}
