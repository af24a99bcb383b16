/** Unsigned 32-bit arithmetic as the kernel uses it for TickType_t: every sum and
    difference wraps modulo 2^32. */
module Words {
  const WRAP: nat := 0x1_0000_0000

  type word = x: int | 0 <= x < WRAP

  /** portMAX_DELAY. */
  const MAX: word := WRAP - 1

  function Add(a: word, b: word): word {
    (a + b) % WRAP
  }

  function Sub(a: word, b: word): word {
    (a - b) % WRAP
  }

  /** The tick counter shows the unbounded clock modulo 2^32. */
  function Low(n: nat): word {
    n % WRAP
  }

  /** One more tick either stays in the epoch or wraps to 0. */
  lemma NextLow(n: nat)
    ensures Low(n) == MAX ==> Low(n + 1) == 0
    ensures Low(n) != MAX ==> Low(n + 1) == Low(n) + 1
    ensures Low(n + 1) == Add(Low(n), 1)
  {
  }
}
