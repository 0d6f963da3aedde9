/** Optional values, the exceptions the pipeline can raise, and a Result type
    standing for "returns a value or raises". */
module Wrappers {

  datatype Option<T> = None | Some(value: T)

  /** The Python exceptions that the modelled code raises or lets escape. */
  datatype Exception =
    | AssertionError               // a failed `assert`
    | KeyError(key: int)           // `.loc[key]` on an index label that is absent
    | MissingColumn(column: string) // `KeyError` for a column label a frame lacks
    | ValueError(message: string)  // bad argument to a library call, unknown modality
    | StatisticsError              // `statistics.mean` of an empty list

  datatype Result<T> = Ok(value: T) | Err(error: Exception)

  /** Prepends already computed values to a result that may have failed. */
  function Cons<T>(done: seq<T>, rest: Result<seq<T>>): (r: Result<seq<T>>)
  {
    match rest
    case Ok(ys) => Ok(done + ys)
    case Err(e) => Err(e)
  }

  /** Applies `f` to each element in order and stops at the first one that
      raises, as a list comprehension whose element expression may raise. */
  function Traverse<A, B>(xs: seq<A>, f: A -> Result<B>): (r: Result<seq<B>>)
    ensures r.Ok? ==> |r.value| == |xs|
  {
    if xs == [] then Ok([])
    else match f(xs[0])
      case Err(e) => Err(e)
      case Ok(y) => Cons([y], Traverse(xs[1..], f))
  }

  lemma ConsUnit<T>(done: seq<T>, rest: Result<seq<T>>)
    ensures Cons([], rest) == rest
    ensures Cons(done, Ok([])) == Ok(done)
  {
    match rest
    case Ok(ys) => assert [] + ys == ys;
    case Err(_) =>
    assert done + [] == done;
  }

  lemma ConsCons<T>(a: seq<T>, b: seq<T>, rest: Result<seq<T>>)
    ensures Cons(a, Cons(b, rest)) == Cons(a + b, rest)
  {
    match rest
    case Ok(ys) => assert a + (b + ys) == (a + b) + ys;
    case Err(_) =>
  }

  /** One step of a loop that walks `xs` from index `i`: the result of the
      whole traversal is what is done so far followed by the rest. */
  lemma TraverseStep<A, B>(xs: seq<A>, f: A -> Result<B>, i: nat, done: seq<B>)
    requires i < |xs|
    requires Traverse(xs, f) == Cons(done, Traverse(xs[i..], f))
    ensures f(xs[i]).Err? ==> Traverse(xs, f) == Err(f(xs[i]).error)
    ensures f(xs[i]).Ok? ==>
      Traverse(xs, f) == Cons(done + [f(xs[i]).value], Traverse(xs[i + 1..], f))
  {
    assert xs[i..][0] == xs[i];
    assert xs[i..][1..] == xs[i + 1..];
    if f(xs[i]).Ok? {
      ConsCons(done, [f(xs[i]).value], Traverse(xs[i + 1..], f));
    }
  }

  /** A traversal succeeds exactly when every element succeeds, and then it
      holds every element's value in order. */
  lemma {:induction false} TraverseOk<A, B>(xs: seq<A>, f: A -> Result<B>)
    ensures Traverse(xs, f).Ok? <==> forall i :: 0 <= i < |xs| ==> f(xs[i]).Ok?
    ensures Traverse(xs, f).Ok? ==>
      forall i :: 0 <= i < |xs| ==> Traverse(xs, f).value[i] == f(xs[i]).value
  {
    if xs != [] {
      TraverseOk(xs[1..], f);
      if f(xs[0]).Ok? {
        forall i | 0 <= i < |xs| && Traverse(xs[1..], f).Ok?
          ensures Traverse(xs, f).value[i] == f(xs[i]).value
        {
          if i > 0 { assert xs[1..][i - 1] == xs[i]; }
        }
        if forall i :: 0 <= i < |xs| ==> f(xs[i]).Ok? {
          forall i | 0 <= i < |xs| - 1 ensures f(xs[1..][i]).Ok? {
            assert xs[1..][i] == xs[i + 1];
          }
        }
        if !Traverse(xs[1..], f).Ok? {
          var j :| 0 <= j < |xs[1..]| && !f(xs[1..][j]).Ok?;
          assert xs[1..][j] == xs[j + 1];
        }
      }
    }
  }

  /** A failing traversal raises the exception of the first failing element. */
  lemma {:induction false} TraverseFirstErr<A, B>(xs: seq<A>, f: A -> Result<B>, k: nat)
    requires k < |xs| && f(xs[k]).Err?
    requires forall j :: 0 <= j < k ==> f(xs[j]).Ok?
    ensures Traverse(xs, f) == Err(f(xs[k]).error)
  {
    if k > 0 {
      forall j | 0 <= j < k - 1 ensures f(xs[1..][j]).Ok? {
        assert xs[1..][j] == xs[j + 1];
      }
      assert xs[1..][k - 1] == xs[k];
      TraverseFirstErr(xs[1..], f, k - 1);
    }
  }

  /** Traversing `a + b` is traversing `a`, then, if nothing raised, `b`. */
  lemma {:induction false} TraverseAppend<A, B>(a: seq<A>, b: seq<A>, f: A -> Result<B>)
    ensures Traverse(a + b, f) == match Traverse(a, f)
                                  case Err(e) => Err(e)
                                  case Ok(ys) => Cons(ys, Traverse(b, f))
  {
    if a == [] {
      assert a + b == b;
      ConsUnit([], Traverse(b, f));
    } else {
      assert (a + b)[0] == a[0];
      assert (a + b)[1..] == a[1..] + b;
      TraverseAppend(a[1..], b, f);
      match Traverse(a[1..], f)
      case Err(_) =>
      case Ok(ys) =>
        if f(a[0]).Ok? {
          ConsCons([f(a[0]).value], ys, Traverse(b, f));
        }
    }
  }

  /** One slice `xs[i..stop]` of a loop that walks `xs`: if the slice
      raises, so does the whole traversal; otherwise its values follow what
      is done so far. */
  lemma TraverseSlice<A, B>(xs: seq<A>, f: A -> Result<B>, i: nat, stop: nat, done: seq<B>)
    requires i <= stop <= |xs|
    requires Traverse(xs, f) == Cons(done, Traverse(xs[i..], f))
    ensures Traverse(xs[i..stop], f).Err? ==> Traverse(xs, f) == Err(Traverse(xs[i..stop], f).error)
    ensures Traverse(xs[i..stop], f).Ok? ==>
      Traverse(xs, f) == Cons(done + Traverse(xs[i..stop], f).value, Traverse(xs[stop..], f))
  {
    var slice, rest := xs[i..stop], xs[stop..];
    assert xs[i..] == slice + rest;
    TraverseAppend(slice, rest, f);
    match Traverse(slice, f)
    case Err(e) =>
      assert Traverse(xs[i..], f) == Err(e);
    case Ok(ys) =>
      assert Traverse(xs[i..], f) == Cons(ys, Traverse(rest, f));
      ConsCons(done, ys, Traverse(rest, f));
  }

  /** How many of a present-or-absent block there are. */
  function Count(b: bool): nat { if b then 1 else 0 }

  /** The concatenation of a list of lists, in order. */
  function Concat<T>(xss: seq<seq<T>>): seq<T>
  {
    if xss == [] then [] else xss[0] + Concat(xss[1..])
  }

  lemma {:induction false} ConcatSnoc<T>(xss: seq<seq<T>>, ys: seq<T>)
    ensures Concat(xss + [ys]) == Concat(xss) + ys
  {
    if xss != [] {
      assert (xss + [ys])[1..] == xss[1..] + [ys];
      ConcatSnoc(xss[1..], ys);
    }
  }

  /** When every list has one element, the concatenation lists those
      elements in the same order. */
  lemma {:induction false} ConcatSingletons<T>(xss: seq<seq<T>>)
    requires forall i :: 0 <= i < |xss| ==> |xss[i]| == 1
    ensures |Concat(xss)| == |xss|
    ensures forall i :: 0 <= i < |xss| ==> Concat(xss)[i] == xss[i][0]
  {
    if xss != [] {
      ConcatSingletons(xss[1..]);
      forall i | 1 <= i < |xss| ensures Concat(xss)[i] == xss[i][0] {
        assert xss[1..][i - 1] == xss[i];
      }
    }
  }

  /** `g` applied to each element, in order. */
  function Map<A, B>(xs: seq<A>, g: A -> B): (ys: seq<B>)
    ensures |ys| == |xs|
    ensures forall i :: 0 <= i < |xs| ==> ys[i] == g(xs[i])
  {
    seq(|xs|, i requires 0 <= i < |xs| => g(xs[i]))
  }

  lemma MapAppend<A, B>(a: seq<A>, b: seq<A>, g: A -> B)
    ensures Map(a + b, g) == Map(a, g) + Map(b, g)
  {
  }

  lemma Cancel<T>(m1: multiset<T>, m2: multiset<T>, x: T)
    requires m1 + multiset{x} == m2 + multiset{x}
    ensures m1 == m2
  {
    assert m1 == m1 + multiset{x} - multiset{x};
    assert m2 == m2 + multiset{x} - multiset{x};
  }

  /** Mapping two permutations of each other gives two permutations of each
      other. */
  lemma {:induction false} MapPermutes<A, B>(a: seq<A>, b: seq<A>, g: A -> B)
    requires multiset(a) == multiset(b)
    ensures multiset(Map(a, g)) == multiset(Map(b, g))
    decreases |a|
  {
    assert |a| == |multiset(a)| == |multiset(b)| == |b|;
    if a != [] {
      var x := a[0];
      assert x in multiset(b);
      var k :| 0 <= k < |b| && b[k] == x;
      var left, right := b[..k], b[k + 1..];
      assert b == left + [x] + right;
      assert a == [x] + a[1..];
      calc {
        multiset(a[1..]) + multiset{x};
        multiset(a);
        multiset(left + [x] + right);
        multiset(left) + multiset{x} + multiset(right);
        multiset(left + right) + multiset{x};
      }
      Cancel(multiset(a[1..]), multiset(left + right), x);
      MapPermutes(a[1..], left + right, g);
      MapAppend([x], a[1..], g);
      MapAppend(left + [x], right, g);
      MapAppend(left, [x], g);
      MapAppend(left, right, g);
    }
  }
}
