/** The two list-building shapes of the feed loop: keep-some-and-transform, and concatenate per element. */
module Lists {
  import opened Wrappers

  /** `[f(x).value for x in xs if f(x) is not None]`, built left to right. */
  function FilterMap<A, B>(xs: seq<A>, f: A -> Option<B>): seq<B> {
    if xs == [] then [] else FilterMap(xs[..|xs| - 1], f) + f(xs[|xs| - 1]).ToSeq()
  }

  /** The concatenation of `f(x)` for every `x` in `xs`, in order. */
  function FlatMap<A, B>(xs: seq<A>, f: A -> seq<B>): seq<B> {
    if xs == [] then [] else FlatMap(xs[..|xs| - 1], f) + f(xs[|xs| - 1])
  }

  /** An element is in the result exactly when some input maps to it. */
  lemma {:induction false} FilterMapMember<A, B>(xs: seq<A>, f: A -> Option<B>, y: B)
    ensures y in FilterMap(xs, f) <==> exists i :: 0 <= i < |xs| && f(xs[i]) == Some(y)
  {
    if xs != [] {
      var p := xs[..|xs| - 1];
      FilterMapMember(p, f, y);
      if exists i :: 0 <= i < |xs| && f(xs[i]) == Some(y) {
        var i :| 0 <= i < |xs| && f(xs[i]) == Some(y);
        if i < |p| {
          assert xs[i] == p[i];
        }
      }
      if y in FilterMap(p, f) {
        var i :| 0 <= i < |p| && f(p[i]) == Some(y);
        assert xs[i] == p[i];
      }
    }
  }

  /** An element is in the result exactly when it is in the image of some input. */
  lemma {:induction false} FlatMapMember<A, B>(xs: seq<A>, f: A -> seq<B>, y: B)
    ensures y in FlatMap(xs, f) <==> exists i :: 0 <= i < |xs| && y in f(xs[i])
  {
    if xs != [] {
      var p := xs[..|xs| - 1];
      FlatMapMember(p, f, y);
      if exists i :: 0 <= i < |xs| && y in f(xs[i]) {
        var i :| 0 <= i < |xs| && y in f(xs[i]);
        if i < |p| {
          assert xs[i] == p[i];
        }
      }
      if y in FlatMap(p, f) {
        var i :| 0 <= i < |p| && y in f(p[i]);
        assert xs[i] == p[i];
      }
    }
  }

  /** When the first input maps to a value, that value comes first. */
  lemma {:induction false} FilterMapHead<A, B>(xs: seq<A>, f: A -> Option<B>)
    requires xs != [] && f(xs[0]).Some?
    ensures FilterMap(xs, f) != [] && FilterMap(xs, f)[0] == f(xs[0]).value
  {
    if |xs| > 1 {
      var p := xs[..|xs| - 1];
      assert p[0] == xs[0];
      FilterMapHead(p, f);
    }
  }

  /** The inputs that map to a value, in order. */
  function Kept<A, B>(xs: seq<A>, f: A -> Option<B>): seq<A> {
    if xs == [] then [] else Kept(xs[..|xs| - 1], f) + (if f(xs[|xs| - 1]).Some? then [xs[|xs| - 1]] else [])
  }

  /** The i-th output is the value of the i-th input that maps to one. */
  lemma {:induction false} FilterMapKept<A, B>(xs: seq<A>, f: A -> Option<B>)
    ensures |FilterMap(xs, f)| == |Kept(xs, f)|
    ensures forall i :: 0 <= i < |Kept(xs, f)| ==> f(Kept(xs, f)[i]) == Some(FilterMap(xs, f)[i])
  {
    if xs != [] {
      FilterMapKept(xs[..|xs| - 1], f);
    }
  }

  /** `[f(x) for x in xs]`, built left to right. */
  function Map<A, B>(xs: seq<A>, f: A -> B): (r: seq<B>)
    ensures |r| == |xs|
  {
    if xs == [] then [] else Map(xs[..|xs| - 1], f) + [f(xs[|xs| - 1])]
  }

  lemma {:induction false} MapAt<A, B>(xs: seq<A>, f: A -> B, i: nat)
    requires i < |xs|
    ensures Map(xs, f)[i] == f(xs[i])
  {
    var n := |xs| - 1;
    if i < n {
      MapAt(xs[..n], f, i);
    }
  }
}
