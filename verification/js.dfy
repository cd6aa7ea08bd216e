/**
  * JavaScript values the dashboard's TypeScript code relies on, stated in
  * Dafny's terms: optional values, numbers that may be NaN, `Math.round`,
  * `Math.min`/`Math.max` over a list, and the "truthy" test on numbers.
  */
module Js {

  /** `undefined`/`null` versus a present value. */
  datatype Option<+T> = None | Some(value: T) {
    function GetOr(default: T): T {
      match this
      case Some(v) => v
      case None => default
    }
  }

  /** A JavaScript number: a finite value or NaN (infinities are not needed here). */
  datatype Num = Fin(r: real) | NaN

  /** `!!x` for a number: false exactly for 0 and NaN. */
  predicate Truthy(n: Num) {
    n.Fin? && n.r != 0.0
  }

  /** `Math.round(x)`: the nearest integer, halves rounded up. */
  function Round(x: real): (r: int)
    ensures x - 0.5 < r as real <= x + 0.5
  {
    (x + 0.5).Floor
  }

  lemma RoundOfInt(n: int)
    ensures Round(n as real) == n
  {
  }

  lemma RoundMonotone(x: real, y: real)
    requires x <= y
    ensures Round(x) <= Round(y)
  {
  }

  /** Rounding an x in [lo, hi] with integer ends stays in [lo, hi]. */
  lemma RoundWithin(x: real, lo: int, hi: int)
    requires lo as real <= x <= hi as real
    ensures lo <= Round(x) <= hi
  {
  }

  /** `a.reduce((p, q) => p + q)` over a non-empty list. */
  function Sum(xs: seq<real>): real
  {
    if xs == [] then 0.0 else xs[0] + Sum(xs[1..])
  }

  /** `Math.min(...xs)` over a non-empty list. */
  function Min(xs: seq<real>): (m: real)
    requires xs != []
    ensures m in xs
    ensures forall i :: 0 <= i < |xs| ==> m <= xs[i]
  {
    if |xs| == 1 then xs[0]
    else
      var rest := Min(xs[1..]);
      if xs[0] <= rest then xs[0] else rest
  }

  /** `Math.max(...xs)` over a non-empty list. */
  function Max(xs: seq<real>): (m: real)
    requires xs != []
    ensures m in xs
    ensures forall i :: 0 <= i < |xs| ==> xs[i] <= m
  {
    if |xs| == 1 then xs[0]
    else
      var rest := Max(xs[1..]);
      if xs[0] >= rest then xs[0] else rest
  }

  /** The mean of a non-empty list lies between its minimum and maximum. */
  lemma {:induction false} MeanBetween(xs: seq<real>)
    requires xs != []
    ensures Min(xs) <= Sum(xs) / |xs| as real <= Max(xs)
  {
    MeanWithin(xs, Min(xs), Max(xs));
  }

  lemma MeanWithin(xs: seq<real>, lo: real, hi: real)
    requires xs != []
    requires forall i :: 0 <= i < |xs| ==> lo <= xs[i] <= hi
    ensures lo <= Sum(xs) / |xs| as real <= hi
  {
    SumBounds(xs, lo, hi);
    DivideBounds(lo, Sum(xs), hi, |xs| as real);
  }

  lemma {:induction false} SumBounds(xs: seq<real>, lo: real, hi: real)
    requires forall i :: 0 <= i < |xs| ==> lo <= xs[i] <= hi
    ensures lo * |xs| as real <= Sum(xs) <= hi * |xs| as real
  {
    if xs != [] {
      SumBounds(xs[1..], lo, hi);
      assert lo * |xs| as real == lo + lo * |xs[1..]| as real;
      assert hi * |xs| as real == hi + hi * |xs[1..]| as real;
    }
  }

  lemma DivideBounds(lo: real, s: real, hi: real, n: real)
    requires n > 0.0
    requires lo * n <= s <= hi * n
    ensures lo <= s / n <= hi
  {
  }

  /** What a rejected promise or a `throw` carries. */
  datatype Exception = TypeError(message: string) | Error(message: string) | NonError

  /**
    * The outcome of one `fetch` and `response.json()`: either something
    * was thrown, or a reply arrived with its status, its status text, the
    * `message` field of an error body (None when absent or unparsable), and
    * the parsed body (used only when the status is ok; an ok reply whose
    * body does not parse is modelled as the `Threw` case, since `json()`
    * then throws inside the same `try`).
    */
  datatype Http<B> =
    | Threw(exception: Exception)
    | Replied(status: int, statusText: string, errorMessage: Option<string>, body: B)

  /** `response.ok`. */
  predicate IsOk(status: int) {
    200 <= status <= 299
  }

  /** No element is listed twice. */
  predicate Distinct<T(==)>(xs: seq<T>) {
    forall i, j :: 0 <= i < j < |xs| ==> xs[i] != xs[j]
  }

  /** `xs.filter(keep)`. */
  function Filter<T>(xs: seq<T>, keep: T -> bool): (r: seq<T>)
    ensures |r| <= |xs|
    ensures forall i :: 0 <= i < |r| ==> keep(r[i]) && r[i] in xs
    ensures forall x :: x in xs && keep(x) ==> x in r
  {
    if xs == [] then []
    else (if keep(xs[0]) then [xs[0]] else []) + Filter(xs[1..], keep)
  }

  /** `xs.map(f)`. */
  function Map<T, U>(xs: seq<T>, f: T -> U): (r: seq<U>)
    ensures |r| == |xs|
    ensures forall i :: 0 <= i < |xs| ==> r[i] == f(xs[i])
  {
    seq(|xs|, i requires 0 <= i < |xs| => f(xs[i]))
  }

  /** `xs.slice(0, n)`. */
  function Take<T>(xs: seq<T>, n: nat): (r: seq<T>)
    ensures |r| == if |xs| < n then |xs| else n
    ensures r <= xs
  {
    if |xs| <= n then xs else xs[..n]
  }

  /**
    * Filtering after mapping keeps exactly the images of the elements whose
    * image passes: `pre` is the test on the elements that agrees with
    * `keep` on their images.
    */
  lemma {:induction false} FilterMap<T, U>(xs: seq<T>, f: T -> U, keep: U -> bool, pre: T -> bool)
    requires forall x :: pre(x) == keep(f(x))
    ensures Filter(Map(xs, f), keep) == Map(Filter(xs, pre), f)
  {
    if xs != [] {
      FilterMap(xs[1..], f, keep, pre);
      assert Map(xs, f)[1..] == Map(xs[1..], f);
      calc {
        Filter(Map(xs, f), keep);
        (if keep(f(xs[0])) then [f(xs[0])] else []) + Filter(Map(xs[1..], f), keep);
        (if pre(xs[0]) then [f(xs[0])] else []) + Map(Filter(xs[1..], pre), f);
        Map((if pre(xs[0]) then [xs[0]] else []) + Filter(xs[1..], pre), f);
      }
    }
  }

  /** Filtering by p and then by q is filtering once by `both`, their conjunction. */
  lemma {:induction false} FilterFilter<T>(xs: seq<T>, p: T -> bool, q: T -> bool, both: T -> bool)
    requires forall x :: both(x) == (p(x) && q(x))
    ensures Filter(Filter(xs, p), q) == Filter(xs, both)
  {
    if xs != [] {
      FilterFilter(xs[1..], p, q, both);
      if p(xs[0]) {
        assert Filter(xs, p) == [xs[0]] + Filter(xs[1..], p);
        assert Filter(xs, p)[1..] == Filter(xs[1..], p);
      } else {
        assert Filter(xs, p) == Filter(xs[1..], p);
      }
    }
  }

  /** Filtering a list extended by one element extends the filtered list by that element if it passes. */
  lemma {:induction false} FilterAppend<T>(xs: seq<T>, x: T, keep: T -> bool)
    ensures Filter(xs + [x], keep) == Filter(xs, keep) + (if keep(x) then [x] else [])
  {
    if xs != [] {
      FilterAppend(xs[1..], x, keep);
      assert (xs + [x])[1..] == xs[1..] + [x];
    }
  }
}
