/** Small vocabulary shared by every component. */
module Prelude {
  datatype Option<+T> = None | Some(value: T)

  function Max(a: int, b: int): int {
    if a < b then b else a
  }

  function Min(a: int, b: int): int {
    if a < b then a else b
  }

  function Pow2(n: nat): (p: nat)
    ensures p >= 1
  {
    if n == 0 then 1 else 2 * Pow2(n - 1)
  }

  lemma {:induction false} PowersGrow(m: nat, n: nat)
    requires m <= n
    ensures Pow2(m) <= Pow2(n)
    decreases n
  {
    if m < n {
      PowersGrow(m, n - 1);
    }
  }

  lemma Scaled(a: nat, x: nat, y: nat)
    requires x <= y
    ensures a * x <= a * y
  {
  }

  /** Total of `weight` over a finite set of rows, as SQL's SUM computes it. */
  ghost function Total<T>(rows: set<T>, weight: T -> nat): nat {
    if rows == {} then 0 else
    var r :| r in rows;
    weight(r) + Total(rows - {r}, weight)
  }

  /** The order in which the rows are added up does not matter. */
  lemma {:induction false} TotalRemove<T>(rows: set<T>, weight: T -> nat, x: T)
    requires x in rows
    ensures Total(rows, weight) == weight(x) + Total(rows - {x}, weight)
    decreases rows
  {
    var r :| r in rows && Total(rows, weight) == weight(r) + Total(rows - {r}, weight);
    if r != x {
      TotalRemove(rows - {r}, weight, x);
      TotalRemove(rows - {x}, weight, r);
      assert rows - {r} - {x} == rows - {x} - {r};
    }
  }

  /** The total only depends on the weights of the rows in the set. */
  lemma {:induction false} TotalCongruent<T>(rows: set<T>, f: T -> nat, g: T -> nat)
    requires forall r :: r in rows ==> f(r) == g(r)
    ensures Total(rows, f) == Total(rows, g)
    decreases rows
  {
    if rows != {} {
      var r :| r in rows && Total(rows, f) == f(r) + Total(rows - {r}, f);
      TotalCongruent(rows - {r}, f, g);
      TotalRemove(rows, g, r);
    }
  }
}
