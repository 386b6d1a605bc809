/** Powers of two, and the doubling delay of the retrying workers. */
module Powers {

  function PowerOfTwo(n: nat): (p: nat)
    ensures p >= 1
  {
    if n == 0 then 1 else 2 * PowerOfTwo(n - 1)
  }

  /** One second, doubled with every attempt, and five minutes at most. */
  function DoublingDelayMs(attempt: nat): nat
    requires attempt >= 1
  {
    var delay := 1000 * PowerOfTwo(attempt - 1);
    if delay < 300_000 then delay else 300_000
  }
}
