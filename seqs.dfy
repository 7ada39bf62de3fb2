/** Sequence helpers standing for Python list comprehensions and `str.join`. */
module Seqs {
  import opened Wrappers

  /** `[x for x in s if keep(x)]` */
  function Filter<T>(keep: T -> bool, s: seq<T>): (r: seq<T>)
    ensures |r| <= |s|
    ensures forall i :: 0 <= i < |r| ==> keep(r[i])
    ensures forall i :: 0 <= i < |s| && keep(s[i]) ==> s[i] in r
  {
    if s == [] then [] else (if keep(s[0]) then [s[0]] else []) + Filter(keep, s[1..])
  }

  /** Filtering a header followed by two parts: the filtered header and first part, then the
      filtered second part. */
  lemma FilterConcat3<T>(keep: T -> bool, h: seq<T>, a: seq<T>, b: seq<T>)
    ensures Filter(keep, h + (a + b)) == Filter(keep, h + a) + Filter(keep, b)
  {
    assert h + (a + b) == (h + a) + b;
    FilterConcat(keep, h + a, b);
  }

  /** Filtering only keeps elements of the input. */
  lemma {:induction false} FilterSubset<T>(keep: T -> bool, s: seq<T>)
    ensures forall x :: x in Filter(keep, s) ==> x in s
  {
    if s != [] {
      FilterSubset(keep, s[1..]);
    }
  }

  /** Filtering keeps relative order: filtering a concatenation filters each part in place. */
  lemma {:induction false} FilterConcat<T>(keep: T -> bool, a: seq<T>, b: seq<T>)
    ensures Filter(keep, a + b) == Filter(keep, a) + Filter(keep, b)
  {
    if a == [] {
      assert a + b == b;
    } else {
      assert (a + b)[0] == a[0] && (a + b)[1..] == a[1..] + b;
      FilterConcat(keep, a[1..], b);
    }
  }

  /** Filtering one element keeps it exactly when it satisfies the predicate. */
  lemma FilterSingleton<T>(keep: T -> bool, x: T)
    ensures Filter(keep, [x]) == if keep(x) then [x] else []
  {
  }

  /** `sep.join(parts)` */
  function Join(sep: string, parts: seq<string>): (r: string)
    ensures |parts| == 1 ==> r == parts[0]
    ensures |parts| == 0 ==> r == ""
  {
    if |parts| == 0 then ""
    else if |parts| == 1 then parts[0]
    else parts[0] + sep + Join(sep, parts[1..])
  }

  /** `s.split(sep)`, for a one-character separator. */
  function Split(sep: char, s: string): (r: seq<string>)
    ensures |r| > 0
  {
    if |s| == 0 then [""]
    else
      var rest := Split(sep, s[1..]);
      if s[0] == sep then [""] + rest else [[s[0]] + rest[0]] + rest[1..]
  }

  /** A text without the separator splits into itself. */
  lemma {:induction false} SplitNoSeparator(sep: char, s: string)
    requires sep !in s
    ensures Split(sep, s) == [s]
  {
    if |s| > 0 {
      SplitNoSeparator(sep, s[1..]);
      assert [s[0]] + s[1..] == s;
    }
  }

  /** Splitting stops at the first separator. */
  lemma {:induction false} SplitAtFirst(sep: char, p: string, q: string)
    requires sep !in p
    ensures Split(sep, p + [sep] + q) == [p] + Split(sep, q)
  {
    if |p| == 0 {
      assert p + [sep] + q == [sep] + q;
      assert ([sep] + q)[1..] == q;
    } else {
      assert (p + [sep] + q)[1..] == p[1..] + [sep] + q;
      SplitAtFirst(sep, p[1..], q);
      assert [p[0]] + p[1..] == p;
    }
  }

  /** Joining with a one-character separator loses nothing when no part contains it:
      splitting the joined text gives the parts back. */
  lemma {:induction false} SplitJoin(sep: char, parts: seq<string>)
    requires |parts| > 0
    requires forall i :: 0 <= i < |parts| ==> sep !in parts[i]
    ensures Split(sep, Join([sep], parts)) == parts
  {
    if |parts| == 1 {
      SplitNoSeparator(sep, parts[0]);
    } else {
      SplitAtFirst(sep, parts[0], Join([sep], parts[1..]));
      SplitJoin(sep, parts[1..]);
    }
  }

  /** The concatenation of a list of lists, in order. */
  function Flatten<T>(ss: seq<seq<T>>): (r: seq<T>)
  {
    if ss == [] then [] else Flatten(ss[..|ss| - 1]) + ss[|ss| - 1]
  }

  /** Flattening a concatenation flattens each part in place. */
  lemma {:induction false} FlattenConcat<T>(a: seq<seq<T>>, b: seq<seq<T>>)
    ensures Flatten(a + b) == Flatten(a) + Flatten(b)
    decreases |b|
  {
    if b == [] {
      assert a + b == a;
    } else {
      assert (a + b)[..|a + b| - 1] == a + b[..|b| - 1];
      FlattenConcat(a, b[..|b| - 1]);
    }
  }

  /** Applies `f` to each element in order and concatenates the results; the first failure is
      the result (a loop that extends a list and lets the first exception escape). */
  function FlatMapResult<T, U>(f: T -> Result<seq<U>>, xs: seq<T>): Result<seq<U>>
  {
    if xs == [] then Ok([])
    else
      match FlatMapResult(f, xs[..|xs| - 1])
      case Err(e) => Err(e)
      case Ok(prefix) =>
        match f(xs[|xs| - 1])
        case Err(e) => Err(e)
        case Ok(last) => Ok(prefix + last)
  }

  /** The values of `f` on `xs`, when every one of them succeeds. */
  function Values<T, U>(f: T -> Result<seq<U>>, xs: seq<T>): (r: seq<seq<U>>)
    requires forall i :: 0 <= i < |xs| ==> f(xs[i]).Ok?
    ensures |r| == |xs|
  {
    seq(|xs|, i requires 0 <= i < |xs| => f(xs[i]).value)
  }

  /** The flat map succeeds exactly when `f` succeeds on every element. */
  lemma {:induction false} FlatMapResultOkIff<T, U>(f: T -> Result<seq<U>>, xs: seq<T>)
    ensures FlatMapResult(f, xs).Ok? <==> forall i :: 0 <= i < |xs| ==> f(xs[i]).Ok?
  {
    if xs != [] {
      var init := xs[..|xs| - 1];
      FlatMapResultOkIff(f, init);
      assert forall i :: 0 <= i < |init| ==> init[i] == xs[i];
    }
  }

  /** A successful flat map is the concatenation of the values of `f`, in order. */
  lemma {:induction false} FlatMapResultFlatten<T, U>(f: T -> Result<seq<U>>, xs: seq<T>)
    requires FlatMapResult(f, xs).Ok?
    ensures forall i :: 0 <= i < |xs| ==> f(xs[i]).Ok?
    ensures FlatMapResult(f, xs).value == Flatten(Values(f, xs))
  {
    FlatMapResultOkIff(f, xs);
    if xs != [] {
      var init := xs[..|xs| - 1];
      FlatMapResultFlatten(f, init);
      assert Values(f, xs)[..|xs| - 1] == Values(f, init);
    }
  }

  /** Flat-mapping `a + b` flat-maps `a`, then `b`. */
  lemma FlatMapResultConcat<T, U>(f: T -> Result<seq<U>>, a: seq<T>, b: seq<T>)
    requires FlatMapResult(f, a).Ok? && FlatMapResult(f, b).Ok?
    ensures FlatMapResult(f, a + b).Ok?
    ensures FlatMapResult(f, a + b).value == FlatMapResult(f, a).value + FlatMapResult(f, b).value
  {
    FlatMapResultFlatten(f, a);
    FlatMapResultFlatten(f, b);
    FlatMapResultOkIff(f, a + b);
    FlatMapResultFlatten(f, a + b);
    assert Values(f, a + b) == Values(f, a) + Values(f, b);
    FlattenConcat(Values(f, a), Values(f, b));
  }

  /** Once a prefix fails, the whole flat map fails with the same error. */
  lemma {:induction false} FlatMapResultErrPersists<T, U>(f: T -> Result<seq<U>>, xs: seq<T>, k: nat)
    requires k <= |xs| && FlatMapResult(f, xs[..k]).Err?
    ensures FlatMapResult(f, xs) == FlatMapResult(f, xs[..k])
    decreases |xs| - k
  {
    if k < |xs| {
      assert xs[..k + 1][..k] == xs[..k];
      FlatMapResultErrPersists(f, xs, k + 1);
    } else {
      assert xs[..k] == xs;
    }
  }

  /** When every failure of `f` is the same error, so is every failure of the flat map. */
  lemma {:induction false} FlatMapResultSameError<T, U>(f: T -> Result<seq<U>>, xs: seq<T>, e: Error)
    requires forall x :: f(x).Err? ==> f(x).error == e
    ensures FlatMapResult(f, xs).Err? ==> FlatMapResult(f, xs).error == e
  {
    if xs != [] {
      FlatMapResultSameError(f, xs[..|xs| - 1], e);
    }
  }

  /** Flat-mapping one more element appends its value, or fails with its error. */
  lemma FlatMapResultSnoc<T, U>(f: T -> Result<seq<U>>, xs: seq<T>, x: T)
    requires FlatMapResult(f, xs).Ok?
    ensures f(x).Err? ==> FlatMapResult(f, xs + [x]) == Err(f(x).error)
    ensures f(x).Ok? ==> FlatMapResult(f, xs + [x]) == Ok(FlatMapResult(f, xs).value + f(x).value)
  {
  }
}
