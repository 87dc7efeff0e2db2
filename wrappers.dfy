/** Option and Result values for the Go functions that return `(value, error)`. */
module Wrappers {

  datatype Option<+T> = None | Some(value: T)

  datatype Result<+T, +E> = Ok(value: T) | Err(error: E)

  /** Byte values, as Go's `[]byte` holds them. */
  newtype byte = b: int | 0 <= b < 256
}

/**
 * Go's error values as this model needs them: a leaf message, or a message
 * wrapped with a context prefix by `fmt.Errorf("<prefix>: %w", err)`.
 */
module Errors {

  datatype Error = Failure(message: string) | Wrapped(prefix: string, cause: Error)

  /** The text `Error()` returns: each prefix, then ": ", then the cause's text. */
  function Message(e: Error): string
  {
    match e
    case Failure(m) => m
    case Wrapped(p, c) => p + ": " + Message(c)
  }

  /** `errors.Is`: `target` is `e` itself or one of the causes it wraps. */
  predicate Is(e: Error, target: Error)
  {
    e == target || (e.Wrapped? && Is(e.cause, target))
  }

  /** `s` occurs somewhere inside `t`, as `strings.Contains` tests. */
  predicate Contains(t: string, s: string)
  {
    exists i, j :: 0 <= i <= j <= |t| && t[i..j] == s
  }

  /** A wrapped error keeps its cause for `errors.Is`, and its text shows both the prefix and the cause's text. */
  lemma WrapKeepsCause(prefix: string, cause: Error)
    ensures Is(Wrapped(prefix, cause), cause)
    ensures Contains(Message(Wrapped(prefix, cause)), prefix)
    ensures Contains(Message(Wrapped(prefix, cause)), Message(cause))
  {
    var t := Message(Wrapped(prefix, cause));
    assert t[0..|prefix|] == prefix;
    assert t[|prefix| + 2..|t|] == Message(cause);
  }
}

/** Searching and filtering sequences. */
module Seqs {
  import opened Wrappers

  /** The position of the first element that satisfies `p`, if any. */
  function FirstWhere<T>(s: seq<T>, p: T -> bool): (r: Option<nat>)
    ensures r.Some? ==> r.value < |s| && p(s[r.value])
    ensures r.Some? ==> forall j :: 0 <= j < r.value ==> !p(s[j])
    ensures r.None? <==> forall j :: 0 <= j < |s| ==> !p(s[j])
  {
    if s == [] then None
    else if p(s[0]) then Some(0)
    else
      match FirstWhere(s[1..], p)
      case None => None
      case Some(k) => Some(k + 1)
  }

  /** The first element that satisfies `p` is the one at `i` when it does and none before it does. */
  lemma FirstWhereAt<T>(s: seq<T>, p: T -> bool, i: nat)
    requires i < |s| && p(s[i])
    requires forall j :: 0 <= j < i ==> !p(s[j])
    ensures FirstWhere(s, p) == Some(i)
  {
  }

  /** Elements in front that fail `p` only shift the position of the first one that satisfies it. */
  lemma {:induction false} FirstWhereAfter<T>(front: seq<T>, rest: seq<T>, p: T -> bool)
    requires forall j :: 0 <= j < |front| ==> !p(front[j])
    ensures FirstWhere(front + rest, p)
            == (match FirstWhere(rest, p) case None => None case Some(k) => Some(|front| + k))
  {
    if front != [] {
      assert (front + rest)[1..] == front[1..] + rest;
      FirstWhereAfter(front[1..], rest, p);
    } else {
      assert front + rest == rest;
    }
  }

  /** Concatenation is associative. */
  lemma AppendAssoc<T>(a: seq<T>, b: seq<T>, c: seq<T>)
    ensures a + b + c == a + (b + c)
  {
  }

  /** The images under `f` of the elements that satisfy `p`, in order. */
  function FilterMap<T, U>(s: seq<T>, p: T -> bool, f: T -> U): seq<U>
    decreases |s|
  {
    if s == [] then []
    else
      var front := FilterMap(s[..|s| - 1], p, f);
      if p(s[|s| - 1]) then front + [f(s[|s| - 1])] else front
  }

  /** The positions of the elements of `s` that satisfy `p`, in order. */
  ghost function Kept<T>(s: seq<T>, p: T -> bool): seq<nat>
    decreases |s|
  {
    if s == [] then []
    else
      var front := Kept(s[..|s| - 1], p);
      if p(s[|s| - 1]) then front + [|s| - 1] else front
  }

  /**
   * `FilterMap(s, p, f)` holds, in order, the images of the elements of
   * `s` that satisfy `p`: its `k`-th element is the image of the element
   * at `Kept(s, p)[k]`, which satisfies `p`, and these positions strictly
   * increase.
   */
  lemma {:induction false} KeptImages<T, U>(s: seq<T>, p: T -> bool, f: T -> U)
    ensures |Kept(s, p)| == |FilterMap(s, p, f)|
    ensures |FilterMap(s, p, f)| <= |s|
    ensures forall k :: 0 <= k < |Kept(s, p)| ==>
              Kept(s, p)[k] < |s| && p(s[Kept(s, p)[k]]) && FilterMap(s, p, f)[k] == f(s[Kept(s, p)[k]])
    ensures forall j, k :: 0 <= j < k < |Kept(s, p)| ==> Kept(s, p)[j] < Kept(s, p)[k]
    decreases |s|
  {
    if s != [] {
      var init := s[..|s| - 1];
      KeptImages(init, p, f);
      forall k | 0 <= k < |Kept(init, p)| ensures init[Kept(init, p)[k]] == s[Kept(init, p)[k]] { }
    }
  }

  /** The image of every element of `s` that satisfies `p` is in `FilterMap(s, p, f)`. */
  lemma {:induction false} FilterMapKeepsAll<T, U>(s: seq<T>, p: T -> bool, f: T -> U)
    ensures forall i :: 0 <= i < |s| && p(s[i]) ==> f(s[i]) in FilterMap(s, p, f)
    decreases |s|
  {
    if s != [] {
      var init := s[..|s| - 1];
      FilterMapKeepsAll(init, p, f);
      forall i | 0 <= i < |s| && p(s[i]) ensures f(s[i]) in FilterMap(s, p, f) {
        if i < |init| {
          assert init[i] == s[i];
        }
      }
    }
  }
}
