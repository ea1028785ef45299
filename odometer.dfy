/** The three-level counter `updateIndices` advances after every issued pair:
    pattern position (fastest), repeat, configuration (slowest). */
module Odometer {
  import opened Arith

  datatype Cursor = Cursor(patternIdx: nat, countIdx: nat, configIdx: nat, configFin: bool)

  /** The cursor at which a configuration starts. */
  function Start(configIdx: nat): Cursor
  {
    Cursor(0, 0, configIdx, false)
  }

  /** Linear position of a cursor within its configuration: repeats are worth
      `size` pattern positions each. */
  function Position(size: nat, cur: Cursor): nat
  {
    cur.countIdx * size + cur.patternIdx
  }

  predicate InBounds(size: nat, count: nat, cur: Cursor)
  {
    cur.patternIdx < size && cur.countIdx < count
  }

  /** One `updateIndices` call for a configuration of `size` pattern positions
      and `count` repeats. The requires excludes the unsigned underflow of
      `size - 1` and `count - 1`. */
  function Step(size: nat, count: nat, cur: Cursor): (r: Cursor)
    requires size >= 1 && count >= 1
    ensures InBounds(size, count, cur) ==> InBounds(size, count, r)
  {
    if cur.patternIdx == size - 1 then
      if cur.countIdx == count - 1 then
        Cursor(0, 0, cur.configIdx + 1, true)
      else
        Cursor(0, cur.countIdx + 1, cur.configIdx, cur.configFin)
    else
      Cursor(cur.patternIdx + 1, cur.countIdx, cur.configIdx, cur.configFin)
  }

  /** `n` successive steps. */
  function Steps(size: nat, count: nat, cur: Cursor, n: nat): Cursor
    requires size >= 1 && count >= 1
  {
    if n == 0 then cur else Step(size, count, Steps(size, count, cur, n - 1))
  }

  /** A step is a mixed-radix increment of the position; the increment past
      the last position of the last repeat instead finishes the configuration
      and moves to the next one. */
  lemma StepIncrements(size: nat, count: nat, cur: Cursor)
    requires size >= 1 && count >= 1 && InBounds(size, count, cur)
    ensures var r := Step(size, count, cur);
      if Position(size, cur) + 1 == size * count then
        r == Cursor(0, 0, cur.configIdx + 1, true)
      else
        Position(size, r) == Position(size, cur) + 1 && r.configIdx == cur.configIdx && r.configFin == cur.configFin
  {
    var p, c := cur.patternIdx, cur.countIdx;
    MulStep(c, size);
    if p == size - 1 && c == count - 1 {
      MulStep(count - 1, size);
    } else {
      if c < count - 1 {
        MulStep(c + 1, size);
        MulMono(c + 2, count, size);
      }
      assert Position(size, cur) + 1 < count * size;
      if p == size - 1 {
        assert Position(size, Step(size, count, cur)) == (c + 1) * size;
      }
    }
  }

  /** Starting at the beginning of configuration `ci`, the `(c * size + p)`-th
      step reaches pattern position `p` of repeat `c`, still unfinished. */
  lemma {:induction false} StepsVisit(size: nat, count: nat, ci: nat, c: nat, p: nat)
    requires size >= 1 && count >= 1 && c < count && p < size
    ensures Steps(size, count, Start(ci), c * size + p) == Cursor(p, c, ci, false)
    decreases c, p
  {
    if p > 0 {
      StepsVisit(size, count, ci, c, p - 1);
    } else if c > 0 {
      StepsVisit(size, count, ci, c - 1, size - 1);
      MulStep(c - 1, size);
    }
  }

  /** Exactly `size * count` steps finish the configuration: the flag is set,
      the configuration index has moved on by one and both indices are back
      at zero. */
  lemma StepsFinish(size: nat, count: nat, ci: nat)
    requires size >= 1 && count >= 1
    ensures Steps(size, count, Start(ci), size * count) == Cursor(0, 0, ci + 1, true)
  {
    StepsVisit(size, count, ci, count - 1, size - 1);
    MulStep(count - 1, size);
  }

  /** Before the last of those steps the flag stays clear, so the flag is set
      after `n <= size * count` steps exactly when `n == size * count`. */
  lemma StepsFinishOnlyAtEnd(size: nat, count: nat, ci: nat, n: nat)
    requires size >= 1 && count >= 1 && n <= size * count
    ensures Steps(size, count, Start(ci), n).configFin <==> n == size * count
    ensures n < size * count ==> Steps(size, count, Start(ci), n) == Cursor(n % size, n / size, ci, false)
  {
    if n < size * count {
      var c, p := n / size, n % size;
      assert n == c * size + p;
      if c >= count {
        MulMono(count, c, size);
      }
      StepsVisit(size, count, ci, c, p);
    } else {
      StepsFinish(size, count, ci);
    }
  }
}
