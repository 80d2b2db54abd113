/** Small shared vocabulary: failure-carrying results, absolute value, and
    two scans over sequences (how many elements match, which one matched last)
    that the reweighter, the filters and the analysis module all use. */
module Common {

  datatype Option<T> = None | Some(value: T)

  /** The value of a computation that may throw instead of returning. */
  datatype Result<T, E> = Ok(value: T) | Err(error: E)

  /** The outcome of a void computation that may throw. */
  datatype Outcome<E> = Pass | Fail(error: E)

  function Abs(x: int): (r: nat)
    ensures r == x || r == -x
  {
    if x < 0 then -x else x
  }

  /** Number of elements of `s` that satisfy `p`, counted from the front. */
  function Count<T>(s: seq<T>, p: T -> bool): (n: nat)
    ensures n <= |s|
  {
    if s == [] then 0 else Count(s[..|s| - 1], p) + (if p(s[|s| - 1]) then 1 else 0)
  }

  /** The last element of `s` that satisfies `p`, if any. */
  function LastMatch<T>(s: seq<T>, p: T -> bool): (r: Option<T>)
    ensures r.Some? ==> p(r.value) && r.value in s
    ensures r.None? <==> forall i :: 0 <= i < |s| ==> !p(s[i])
  {
    if s == [] then None
    else if p(s[|s| - 1]) then Some(s[|s| - 1])
    else LastMatch(s[..|s| - 1], p)
  }

  lemma {:induction false} CountAppend<T>(a: seq<T>, b: seq<T>, p: T -> bool)
    ensures Count(a + b, p) == Count(a, p) + Count(b, p)
    decreases |b|
  {
    if b != [] {
      var b' := b[..|b| - 1];
      assert (a + b)[..|a + b| - 1] == a + b';
      CountAppend(a, b', p);
    } else {
      assert a + b == a;
    }
  }

  /** A count of zero means no element matches, and conversely. */
  lemma {:induction false} CountZero<T>(s: seq<T>, p: T -> bool)
    ensures Count(s, p) == 0 <==> forall i :: 0 <= i < |s| ==> !p(s[i])
    decreases |s|
  {
    if s != [] {
      var s' := s[..|s| - 1];
      CountZero(s', p);
      assert forall i :: 0 <= i < |s'| ==> s'[i] == s[i];
    }
  }

  /** Last-seen wins: an element that matches and is followed by no other
      match is the one `LastMatch` reports, whatever came before it. */
  lemma {:induction false} LastMatchIsLastSeen<T>(pre: seq<T>, x: T, post: seq<T>, p: T -> bool)
    requires p(x)
    requires forall i :: 0 <= i < |post| ==> !p(post[i])
    ensures LastMatch(pre + [x] + post, p) == Some(x)
    decreases |post|
  {
    var s := pre + [x] + post;
    if post == [] {
      assert s[|s| - 1] == x;
    } else {
      var post' := post[..|post| - 1];
      assert s[|s| - 1] == post[|post| - 1];
      assert s[..|s| - 1] == pre + [x] + post';
      LastMatchIsLastSeen(pre, x, post', p);
    }
  }
}
