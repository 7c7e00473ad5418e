/** The integer rules of `go`'s loop: when it evaluates, where the evaluation seed is cut
    from, and how much of the held-out data it measures. */
module Schedule {
  import opened Common
  import Slicing

  datatype ScheduleError =
    | ZeroTestEvery    // `i % test_every` with `test_every == 0` raises ZeroDivisionError
    | HeldOutTooShort  // `random.randint(0, n)` with `n < 0` raises ValueError

  /** Python's `a % b`: the remainder takes the sign of the divisor. */
  function PyMod(a: int, b: int): (r: int)
    requires b != 0
    ensures a == (if a % b != 0 && b < 0 then a / b - 1 else a / b) * b + r
    ensures r == 0 <==> a % b == 0
    ensures b > 0 ==> 0 <= r < b
    ensures b < 0 ==> b < r <= 0
  {
    var e := a % b;
    assert a == (a / b) * b + e;
    if e != 0 && b < 0 then
      assert (a / b - 1) * b + (e + b) == (a / b) * b + e;
      e + b
    else e
  }

  /** `i != 0 and (i % test_every == 0 or i == num_batches - 1)`, with Python's short-circuit:
      the remainder is only taken when `i != 0`. */
  function EvaluationDue(i: nat, testEvery: int, numBatches: int): (r: Result<bool, ScheduleError>)
    ensures i == 0 ==> r == Ok(false)
    ensures i != 0 && testEvery == 0 ==> r == Err(ZeroTestEvery)
    ensures testEvery != 0 ==> r.Ok?
    ensures testEvery != 0 && numBatches > 1 && i == numBatches - 1 ==> r == Ok(true)
    ensures r == Ok(true) <==> i > 0 && testEvery != 0 && (i % testEvery == 0 || i == numBatches - 1)
  {
    if i == 0 then Ok(false)
    else if testEvery == 0 then Err(ZeroTestEvery)
    else Ok(PyMod(i, testEvery) == 0 || i == numBatches - 1)
  }

  /** The evaluation seed `data_test[seedfr : seedfr + context]`, with `seedfr` drawn by
      `random.randint(0, |heldOut| - context)` (both ends inclusive). */
  function EvaluationSeed(heldOut: seq<Token>, context: nat, seedfr: int): (r: Result<seq<Token>, ScheduleError>)
    requires context <= |heldOut| ==> 0 <= seedfr <= |heldOut| - context
    ensures r.Err? <==> |heldOut| < context
    ensures r.Ok? ==> 0 <= seedfr && seedfr + context <= |heldOut|
    ensures r.Ok? ==> |r.value| == context && forall c :: 0 <= c < context ==> r.value[c] == heldOut[seedfr + c]
  {
    if |heldOut| - context < 0 then Err(HeldOutTooShort)
    else Ok(heldOut[seedfr .. seedfr + context])
  }

  /** `data_test[:upto]`, where `upto` is the whole held-out length on the last iteration
      and `test_subset` otherwise. */
  function EvaluationSubset(heldOut: seq<Token>, i: nat, numBatches: int, testSubset: int): (sub: seq<Token>)
    ensures sub <= heldOut
    ensures i == numBatches - 1 ==> sub == heldOut
    ensures i != numBatches - 1 && testSubset >= 0 ==> |sub| == Min(testSubset, |heldOut|)
    ensures i != numBatches - 1 && testSubset < 0 ==> |sub| == if |heldOut| + testSubset < 0 then 0 else |heldOut| + testSubset
  {
    var upto := if i == numBatches - 1 then |heldOut| else testSubset;
    Slicing.SliceTo(heldOut, upto)
  }
}
