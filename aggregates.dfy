/**
 * `computeTotalValue` and `computeMaxValue`: accumulator loops over the amounts of the
 * imported purchases, in list order. Amounts are exact reals, so the sum has no rounding.
 */
module Aggregates {
  import opened Records

  /** The sum of the amounts, added up from the front as the loop does. */
  function Total(ps: seq<Purchase>): real
  {
    if |ps| == 0 then 0.0 else Total(ps[..|ps| - 1]) + ps[|ps| - 1].amount
  }

  function Max(a: real, b: real): real
  {
    if a >= b then a else b
  }

  /** The running maximum of the amounts, started at 0.0 rather than at the first amount. */
  function MaxFromZero(ps: seq<Purchase>): real
  {
    if |ps| == 0 then 0.0 else Max(MaxFromZero(ps[..|ps| - 1]), ps[|ps| - 1].amount)
  }

  /** `computeTotalValue(transactions)`. */
  method ComputeTotalValue(transactions: seq<Purchase>) returns (v: real)
    ensures v == Total(transactions)
  {
    v := 0.0;
    for i := 0 to |transactions|
      invariant v == Total(transactions[..i])
    {
      assert transactions[..i + 1][..i] == transactions[..i];
      v := v + transactions[i].amount;
    }
    assert transactions[..|transactions|] == transactions;
  }

  /** `computeMaxValue(transactions)`. */
  method ComputeMaxValue(transactions: seq<Purchase>) returns (v: real)
    ensures v == MaxFromZero(transactions)
  {
    v := 0.0;
    for i := 0 to |transactions|
      invariant v == MaxFromZero(transactions[..i])
    {
      assert transactions[..i + 1][..i] == transactions[..i];
      v := Max(v, transactions[i].amount);
    }
    assert transactions[..|transactions|] == transactions;
  }

  /** The total of a concatenation is the sum of the totals. */
  lemma {:induction false} TotalAppend(a: seq<Purchase>, b: seq<Purchase>)
    ensures Total(a + b) == Total(a) + Total(b)
  {
    if |b| == 0 {
      assert a + b == a;
    } else {
      assert (a + b)[..|a + b| - 1] == a + b[..|b| - 1];
      TotalAppend(a, b[..|b| - 1]);
    }
  }

  /**
   * The reported maximum is never negative, is at least every amount, and is either 0.0
   * or one of the amounts.
   */
  lemma {:induction false} MaxFromZeroBounds(ps: seq<Purchase>)
    ensures MaxFromZero(ps) >= 0.0
    ensures forall i :: 0 <= i < |ps| ==> ps[i].amount <= MaxFromZero(ps)
    ensures MaxFromZero(ps) == 0.0 || exists i :: 0 <= i < |ps| && ps[i].amount == MaxFromZero(ps)
  {
    if |ps| > 0 {
      var init := ps[..|ps| - 1];
      MaxFromZeroBounds(init);
      forall i | 0 <= i < |init|
        ensures ps[i].amount <= MaxFromZero(ps)
      {
        assert ps[i] == init[i];
      }
      if MaxFromZero(ps) != 0.0 && MaxFromZero(ps) != ps[|ps| - 1].amount {
        var j :| 0 <= j < |init| && init[j].amount == MaxFromZero(init);
        assert ps[j] == init[j];
      }
    }
  }

  /** So, as documented, a list whose amounts are all negative reports a maximum of 0.0. */
  lemma AllNegativeMaxIsZero(ps: seq<Purchase>)
    requires forall i :: 0 <= i < |ps| ==> ps[i].amount < 0.0
    ensures MaxFromZero(ps) == 0.0
  {
    MaxFromZeroBounds(ps);
  }

  /** The maximum of a concatenation is the larger of the two maxima. */
  lemma {:induction false} MaxAppend(a: seq<Purchase>, b: seq<Purchase>)
    ensures MaxFromZero(a + b) == Max(MaxFromZero(a), MaxFromZero(b))
  {
    if |b| == 0 {
      assert a + b == a;
      MaxFromZeroBounds(a);
    } else {
      assert (a + b)[..|a + b| - 1] == a + b[..|b| - 1];
      MaxAppend(a, b[..|b| - 1]);
    }
  }
}
