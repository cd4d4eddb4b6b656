/** The bookkeeping of `EmailFailoverWithState.send_email` as values: the
    cursor is the pair (`current_service_index`, `cycles`), and one pass of
    the `while` loop turns the cursor and the outcome of one delivery
    attempt into the next step. */
module StickySpec {
  import opened Arithmetic

  datatype Cursor = Cursor(index: int, cycles: int)

  /** What the failover does after one service answered, and where the
      cursor is left. */
  datatype Attempt =
    | Continue(cursor: Cursor)
    | Delivered(cursor: Cursor)
    | MaxRetriesReached(cursor: Cursor)

  /** `__init__`: start with the first service and no completed cycles. */
  const Start: Cursor := Cursor(0, 0)

  /** The largest number of completed cycles a cursor can show. */
  function CycleBound(maxRetries: int): nat {
    if maxRetries + 1 < 0 then 0 else maxRetries + 1
  }

  /** The cursors the failover can be in, for `n` services. */
  ghost predicate InRange(n: nat, maxRetries: int, c: Cursor) {
    && 0 <= c.index
    && (n > 0 ==> c.index < n)
    && 0 <= c.cycles <= CycleBound(maxRetries)
  }

  /** After a failure that does not raise: `(index + 1) % n`; coming back to
      the first service completes a cycle. */
  function Advance(n: nat, c: Cursor): (d: Cursor)
    requires n > 0
    ensures 0 <= d.index < n
    ensures 0 <= c.index < n - 1 ==> d == Cursor(c.index + 1, c.cycles)
    ensures c.index == n - 1 ==> d == Cursor(0, c.cycles + 1)
  {
    var j := (c.index + 1) % n;
    Cursor(j, if j == 0 then c.cycles + 1 else c.cycles)
  }

  /** One pass of the loop: a success resets the cycle count and stays with
      the current service; a failure raises once the cycle count is over
      `maxRetries`, and otherwise moves on. Only moving on changes the
      index, and a cursor in range stays in range whatever the outcome. */
  function OnResult(n: nat, maxRetries: int, c: Cursor, ok: bool): (a: Attempt)
    requires n > 0
    ensures a.Delivered? <==> ok
    ensures a.MaxRetriesReached? <==> !ok && c.cycles > maxRetries
    ensures !a.Continue? ==> a.cursor.index == c.index
    ensures a.Delivered? ==> a.cursor.cycles == 0
    ensures a.MaxRetriesReached? ==> a.cursor == c
    ensures a.Continue? ==> a.cursor == Advance(n, c)
    ensures InRange(n, maxRetries, c) ==> InRange(n, maxRetries, a.cursor)
  {
    if ok then Delivered(c.(cycles := 0))
    else if c.cycles > maxRetries then MaxRetriesReached(c)
    else Continue(Advance(n, c))
  }

  /** The cursor after `k` failures in a row, none of which raised. */
  function Walk(n: nat, c: Cursor, k: nat): Cursor
    requires n > 0
  {
    if k == 0 then c else Advance(n, Walk(n, c, k - 1))
  }

  lemma WalkStep(n: nat, c: Cursor, k: nat)
    requires n > 0
    ensures Walk(n, c, k + 1) == Advance(n, Walk(n, c, k))
  {
  }

  /** The services tried by `k` attempts from `c` when each but the last
      failed: the indices of `Walk(n, c, 0)`, …, `Walk(n, c, k - 1)`. */
  function Tried(n: nat, c: Cursor, k: nat): (t: seq<int>)
    requires n > 0
    ensures |t| == k
  {
    if k == 0 then [] else Tried(n, c, k - 1) + [Walk(n, c, k - 1).index]
  }

  /** How many failures in a row the failover absorbs from cursor `c`
      before the next one raises. */
  function Remaining(n: nat, maxRetries: int, c: Cursor): int {
    if c.cycles > maxRetries then 0 else n * (maxRetries - c.cycles + 1) - c.index
  }

  /** The quotient and remainder by `n` of `x + 1`, from those of `x`. */
  lemma DivModSucc(x: nat, n: nat)
    requires n > 0
    ensures (x % n + 1) % n == (x + 1) % n
    ensures (x + 1) / n == x / n + (if (x + 1) % n == 0 then 1 else 0)
  {
    var q, r := x / n, x % n;
    if r + 1 < n {
      DivModUnique(r + 1, n, 0, r + 1);
      DivModUnique(x + 1, n, q, r + 1);
    } else {
      DivModUnique(r + 1, n, 1, 0);
      DivModUnique(x + 1, n, q + 1, 0);
    }
  }

  /** The services are tried round-robin: the `k`-th failure in a row from
      `c` lands on service `(index + k) % n`, and every pass over the end of
      the list counts one cycle. */
  lemma {:induction false} WalkClosedForm(n: nat, c: Cursor, k: nat)
    requires n > 0 && 0 <= c.index < n
    ensures Walk(n, c, k) == Cursor((c.index + k) % n, c.cycles + (c.index + k) / n)
  {
    if k == 0 {
      DivModUnique(c.index, n, 0, c.index);
    } else {
      WalkClosedForm(n, c, k - 1);
      DivModSucc(c.index + k - 1, n);
    }
  }

  /** A failure that does not raise uses up exactly one of the remaining
      failures. */
  lemma AdvanceSpendsOne(n: nat, maxRetries: int, c: Cursor)
    requires n > 0 && InRange(n, maxRetries, c) && c.cycles <= maxRetries
    ensures Remaining(n, maxRetries, c) >= 1
    ensures Remaining(n, maxRetries, Advance(n, c)) == Remaining(n, maxRetries, c) - 1
  {
    MulMonotone(n, 1, maxRetries - c.cycles + 1);
    var d := Advance(n, c);
    if c.index == n - 1 {
      assert n * (maxRetries - c.cycles + 1) == n * (maxRetries - c.cycles) + n;
      if d.cycles > maxRetries {
        assert maxRetries - c.cycles == 0;
      }
    }
  }

  /** From a cursor in range, the failures in a row before the raise are
      exactly `Remaining`: every one before it continues, and the one after
      it finds the cycle count over the limit. */
  lemma {:induction false} FailuresUntilRaise(n: nat, maxRetries: int, c: Cursor, k: nat)
    requires n > 0 && InRange(n, maxRetries, c)
    requires k <= Remaining(n, maxRetries, c)
    ensures InRange(n, maxRetries, Walk(n, c, k))
    ensures Remaining(n, maxRetries, Walk(n, c, k)) == Remaining(n, maxRetries, c) - k
    ensures Walk(n, c, k).cycles > maxRetries <==> k == Remaining(n, maxRetries, c)
  {
    if k > 0 {
      FailuresUntilRaise(n, maxRetries, c, k - 1);
      var p := Walk(n, c, k - 1);
      AdvanceSpendsOne(n, maxRetries, p);
      assert OnResult(n, maxRetries, p, false).cursor == Advance(n, p);
    }
    var w := Walk(n, c, k);
    if w.cycles <= maxRetries {
      AdvanceSpendsOne(n, maxRetries, w);
    }
  }

  /** None of the first `j <= Remaining` failures in a row raises. */
  lemma NoRaiseBefore(n: nat, maxRetries: int, c: Cursor, j: nat)
    requires n > 0 && InRange(n, maxRetries, c)
    requires j <= Remaining(n, maxRetries, c)
    ensures forall k :: 0 <= k < j ==> Walk(n, c, k).cycles <= maxRetries
  {
    forall k | 0 <= k < j {
      FailuresUntilRaise(n, maxRetries, c, k);
    }
  }

  /** The `j`-th service tried is where the cursor stood after `j`
      failures; from a cursor in range every entry names a service. */
  lemma {:induction false} TriedAt(n: nat, c: Cursor, k: nat, j: nat)
    requires n > 0 && j < k
    ensures Tried(n, c, k)[j] == Walk(n, c, j).index
    ensures 0 <= c.index < n ==> 0 <= Tried(n, c, k)[j] < n
  {
    if j < k - 1 {
      TriedAt(n, c, k - 1, j);
      assert Tried(n, c, k)[j] == Tried(n, c, k - 1)[j];
    }
  }

  /** When every service keeps failing, a fresh failover makes
      `n * (maxRetries + 1) + 1` attempts and then raises. */
  lemma AllFailingFromStart(n: nat, maxRetries: int)
    requires n > 0 && maxRetries >= 0
    ensures Remaining(n, maxRetries, Start) + 1 == n * (maxRetries + 1) + 1
    ensures Walk(n, Start, n * (maxRetries + 1)) == Cursor(0, maxRetries + 1)
  {
    WalkClosedForm(n, Start, n * (maxRetries + 1));
    DivModUnique(n * (maxRetries + 1), n, maxRetries + 1, 0);
  }

  /** The services tried from the start are round-robin: the `j`-th
      attempt goes to service `j % n`. */
  lemma RoundRobinFromStart(n: nat, k: nat)
    requires n > 0
    ensures forall j :: 0 <= j < k ==> Tried(n, Start, k)[j] == j % n
  {
    forall j | 0 <= j < k
      ensures Tried(n, Start, k)[j] == j % n
    {
      TriedAt(n, Start, k, j);
      WalkClosedForm(n, Start, j);
    }
  }

  /** Two services and `max_retries = 1`: the attempts go to services 0, 1,
      0, 1, 0 and the fifth failure raises. */
  lemma TwoServicesOneRetry()
    ensures Remaining(2, 1, Start) + 1 == 5
    ensures Walk(2, Start, 1).index == 1 && Walk(2, Start, 2).index == 0
    ensures Walk(2, Start, 3).index == 1 && Walk(2, Start, 4) == Cursor(0, 2)
    ensures forall k: nat :: k < 4 ==> Walk(2, Start, k).cycles <= 1
  {
    NoRaiseBefore(2, 1, Start, 4);
  }
}
