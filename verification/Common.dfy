/**
 Types shared by every component of the model.
 */
module Common {

  datatype Option<+T> = None | Some(value: T)

  /** Result of a handler: the new context, or the assertion that stops the process.
      `ASSERT` and `DASSERT` call abort(), so nothing is said about the context then. */
  datatype Outcome<+C, +A> = Ok(ctx: C) | Abort(why: A) {
    predicate IsFailure() {
      Abort?
    }

    function PropagateFailure<D>(): Outcome<D, A>
      requires Abort?
    {
      Abort(why)
    }

    function Extract(): C
      requires Ok?
    {
      ctx
    }
  }

  /** What a method did (the assertion it stopped at, if any, and the state it left) is what
      its specification `r` says. */
  ghost predicate Matches<C, A>(r: Outcome<C, A>, why: Option<A>, ctx: C) {
    match r
    case Ok(c) => why == None && ctx == c
    case Abort(a) => why == Some(a)
  }

  /** The same for a method that also returns a value. */
  ghost predicate Yields<C, X, A>(r: Outcome<(C, X), A>, why: Option<A>, ctx: C, x: X) {
    match r
    case Ok((c, y)) => why == None && ctx == c && x == y
    case Abort(a) => why == Some(a)
  }

  /** 1 for true, 0 for false: flags counted as tokens. */
  function Bit(b: bool): nat {
    if b then 1 else 0
  }

  lemma AtLeastFactor(a: int, n: int)
    requires a >= 1 && n >= 0
    ensures a * n >= n
  {
    assert (a - 1) * n >= 0;
  }

  /** The quotient and remainder are the only pair that adds up. */
  lemma UniqueQuotient(x: int, n: int, q: int, r: int, d: int, m: int)
    requires 0 <= r < n && 0 <= m < n
    requires q * n + r == x && d * n + m == x
    ensures q == d && r == m
  {
    assert (d - q) * n == r - m;
    if d > q {
      AtLeastFactor(d - q, n);
    } else if d < q {
      assert (q - d) * n == m - r;
      AtLeastFactor(q - d, n);
    }
  }

  /** Euclidean division recovers the parts of a mixed-radix number. */
  lemma Split(q: int, r: int, n: int)
    requires 0 <= r < n
    ensures (q * n + r) / n == q && (q * n + r) % n == r
  {
    var x := q * n + r;
    var d, m := x / n, x % n;
    assert d * n + m == x;
    UniqueQuotient(x, n, q, r, d, m);
  }
}
