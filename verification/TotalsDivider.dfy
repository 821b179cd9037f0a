/**
  The bar that closes a test report: three widths in proportion to the test cases failed,
  failed as expected and passed, adjusted to fill the console line exactly.
 */
module TotalsDivider {

  const CONSOLE_WIDTH := 80
  const SIZE_LIMIT := 0x1_0000_0000_0000_0000

  /** The share of the line for `number` out of `total`, at least 1 for something; the product wraps at 64 bits. */
  function MakeRatio(number: nat, total: nat): nat {
    var ratio := if total > 0 then CONSOLE_WIDTH * number % SIZE_LIMIT / total else 0;
    if ratio == 0 && number > 0 then 1 else ratio
  }

  datatype Which = First | Second | Third

  /** Which of the three is largest, the last one among equals. */
  function FindMax(i: nat, j: nat, k: nat): (w: Which)
    ensures var m := if w == First then i else if w == Second then j else k; i <= m && j <= m && k <= m
  {
    if i > j && i > k then First else if j > k then Second else Third
  }

  /** A width is positive exactly when its count is. */
  predicate Shows(count: nat, width: nat) {
    (count > 0 ==> width >= 1) && (count == 0 ==> width == 0)
  }

  /**
    The three widths of the divider.  They fill the line but for one column, nothing that
    happened disappears, and nothing that did not happen shows.
   */
  method Widths(failed: nat, failedButOk: nat, passed: nat) returns (f: nat, b: nat, p: nat)
    requires 0 < failed + failedButOk + passed < SIZE_LIMIT
    ensures f + b + p == CONSOLE_WIDTH - 1
    ensures Shows(failed, f) && Shows(failedButOk, b) && Shows(passed, p)
  {
    var total := failed + failedButOk + passed;
    f, b, p := MakeRatio(failed, total), MakeRatio(failedButOk, total), MakeRatio(passed, total);
    RatioShows(failed, total);
    RatioShows(failedButOk, total);
    RatioShows(passed, total);
    hide MakeRatio;
    while f + b + p < CONSOLE_WIDTH - 1
      invariant Shows(failed, f) && Shows(failedButOk, b) && Shows(passed, p)
      decreases CONSOLE_WIDTH - (f + b + p)
    {
      match FindMax(f, b, p) {
        case First => f := f + 1;
        case Second => b := b + 1;
        case Third => p := p + 1;
      }
    }
    while f + b + p > CONSOLE_WIDTH - 1
      invariant f + b + p >= CONSOLE_WIDTH - 1
      invariant Shows(failed, f) && Shows(failedButOk, b) && Shows(passed, p)
      decreases f + b + p
    {
      match FindMax(f, b, p) {
        case First => f := f - 1;
        case Second => b := b - 1;
        case Third => p := p - 1;
      }
    }
  }

  lemma RatioShows(number: nat, total: nat)
    requires number <= total && 0 < total
    ensures Shows(number, MakeRatio(number, total))
  {
    if number == 0 {
      assert CONSOLE_WIDTH * number % SIZE_LIMIT / total == 0;
    }
  }
}
