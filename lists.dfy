/** Order-preserving list operations shared by the search screens and the
    normalisers: `filter`, `slice(0, n)` and `find`. */
module Lists {
  import opened Wrappers

  /** `xs.filter(p)`. */
  function Filter<T>(xs: seq<T>, p: T -> bool): (r: seq<T>)
    ensures |r| <= |xs|
    ensures forall i | 0 <= i < |r| :: r[i] in xs && p(r[i])
    ensures forall i | 0 <= i < |xs| && p(xs[i]) :: xs[i] in r
  {
    if xs == [] then [] else Filter(xs[..|xs| - 1], p) + (if p(xs[|xs| - 1]) then [xs[|xs| - 1]] else [])
  }

  /** Filtering distributes over concatenation, so the kept elements stay in
      their original order. */
  lemma {:induction false} FilterAppend<T>(xs: seq<T>, ys: seq<T>, p: T -> bool)
    ensures Filter(xs + ys, p) == Filter(xs, p) + Filter(ys, p)
  {
    if ys != [] {
      var ys' := ys[..|ys| - 1];
      assert (xs + ys)[..|xs + ys| - 1] == xs + ys';
      assert (xs + ys)[|xs + ys| - 1] == ys[|ys| - 1];
      FilterAppend(xs, ys', p);
    } else {
      assert xs + ys == xs;
    }
  }

  /** A single element is kept exactly when it satisfies the predicate. */
  lemma FilterSingle<T>(x: T, p: T -> bool)
    ensures Filter([x], p) == if p(x) then [x] else []
  {
    assert [x][..0] == [];
  }

  /** Filtering by a predicate every element satisfies changes nothing. */
  lemma {:induction false} FilterAll<T>(xs: seq<T>, p: T -> bool)
    requires forall i | 0 <= i < |xs| :: p(xs[i])
    ensures Filter(xs, p) == xs
  {
    if xs != [] {
      FilterAll(xs[..|xs| - 1], p);
    }
  }

  /** `xs.slice(0, n)` for n >= 0. */
  function Take<T>(xs: seq<T>, n: nat): (r: seq<T>)
    ensures |r| == if |xs| < n then |xs| else n
    ensures r == xs[..|r|]
  {
    if |xs| <= n then xs else xs[..n]
  }

  /** Capping twice at the same bound is capping once. */
  lemma TakeIdempotent<T>(xs: seq<T>, n: nat)
    ensures Take(Take(xs, n), n) == Take(xs, n)
  {
  }

  /** `xs.map(f)`. */
  function Map<T, U>(xs: seq<T>, f: T -> U): (r: seq<U>)
    ensures |r| == |xs| && forall i | 0 <= i < |xs| :: r[i] == f(xs[i])
  {
    seq(|xs|, i requires 0 <= i < |xs| => f(xs[i]))
  }

  /** `xs.find(p)`: the first element satisfying `p`. */
  function Find<T>(xs: seq<T>, p: T -> bool): (r: Option<T>)
    ensures r.None? <==> forall i | 0 <= i < |xs| :: !p(xs[i])
    ensures r.Some? ==> exists i | 0 <= i < |xs| :: xs[i] == r.value && p(xs[i]) && forall k | 0 <= k < i :: !p(xs[k])
  {
    if xs == [] then None
    else if p(xs[0]) then Some(xs[0])
    else
      var r := Find(xs[1..], p);
      assert forall k | 1 <= k < |xs| :: xs[k] == xs[1..][k - 1];
      r
  }

  /** `xs.map(f)` where `f` may throw: the first failure, or every result in order. */
  function MapResult<T, U, E>(xs: seq<T>, f: T -> Result<U, E>): (r: Result<seq<U>, E>)
    ensures r.Success? <==> forall i | 0 <= i < |xs| :: f(xs[i]).Success?
    ensures r.Success? ==> |r.value| == |xs| && forall i | 0 <= i < |xs| :: f(xs[i]) == Success(r.value[i])
    ensures r.Failure? ==> exists i | 0 <= i < |xs| :: f(xs[i]) == Failure(r.error) && forall k | 0 <= k < i :: f(xs[k]).Success?
  {
    if xs == [] then Success([])
    else
      assert forall k | 1 <= k < |xs| :: xs[k] == xs[1..][k - 1];
      match f(xs[0])
      case Failure(e) => Failure(e)
      case Success(head) =>
        match MapResult(xs[1..], f)
        case Failure(e) => Failure(e)
        case Success(tail) => Success([head] + tail)
  }
  /** `xs.filter(p)` where the test `p` may throw: the first failure in order,
      or the elements the test accepts. */
  function FilterResult<T, E>(xs: seq<T>, p: T -> Result<bool, E>): (r: Result<seq<T>, E>)
    ensures r.Success? <==> forall i | 0 <= i < |xs| :: p(xs[i]).Success?
    ensures r.Success? ==> r.value == Filter(xs, x => p(x).Success? && p(x).value)
    ensures r.Failure? ==> exists i | 0 <= i < |xs| :: p(xs[i]) == Failure(r.error) && forall k | 0 <= k < i :: p(xs[k]).Success?
  {
    if xs == [] then Success([])
    else
      var init, last := xs[..|xs| - 1], xs[|xs| - 1];
      assert forall i | 0 <= i < |init| :: init[i] == xs[i];
      match FilterResult(init, p)
      case Failure(e) => Failure(e)
      case Success(kept) =>
        match p(last)
        case Failure(e) => Failure(e)
        case Success(b) => Success(kept + (if b then [last] else []))
  }

  /** A throwing test that never throws filters like the plain test `q` it
      agrees with. */
  lemma {:induction false} FilterResultNoThrow<T, E>(xs: seq<T>, p: T -> Result<bool, E>, q: T -> bool)
    requires forall i | 0 <= i < |xs| :: p(xs[i]) == Success(q(xs[i]))
    ensures FilterResult(xs, p) == Success(Filter(xs, q))
  {
    if xs != [] {
      FilterResultNoThrow(xs[..|xs| - 1], p, q);
    }
  }

  /** `xs.find(p)` where the test `p` may throw: the first element the test
      accepts, stopping at the first test that throws. */
  function FindResult<T, E>(xs: seq<T>, p: T -> Result<bool, E>): (r: Result<Option<T>, E>)
    ensures r == Success(None) <==> forall i | 0 <= i < |xs| :: p(xs[i]).Success? && !p(xs[i]).value
    ensures r.Success? && r.value.Some? ==>
      exists i | 0 <= i < |xs| :: xs[i] == r.value.value && p(xs[i]).Success? && p(xs[i]).value
        && forall k | 0 <= k < i :: p(xs[k]).Success? && !p(xs[k]).value
    ensures r.Failure? ==>
      exists i | 0 <= i < |xs| :: p(xs[i]) == Failure(r.error)
        && forall k | 0 <= k < i :: p(xs[k]).Success? && !p(xs[k]).value
  {
    if xs == [] then Success(None)
    else
      assert forall k | 1 <= k < |xs| :: xs[k] == xs[1..][k - 1];
      match p(xs[0])
      case Failure(e) => Failure(e)
      case Success(true) => Success(Some(xs[0]))
      case Success(false) => FindResult(xs[1..], p)
  }
}
