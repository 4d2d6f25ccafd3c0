/**
 * asm/src/utils.rs: the helpers that read from the front of a slice
 * cursor, a `&mut &[T]` that they move forward.  The cursor is an object
 * whose `rest` field is the unread part of the slice.  The preprocessor
 * defines its own copies of the three helpers on raw tokens
 * (asm/src/preprocessor.rs:613-650), with the same bodies; it uses these.
 */
module Cursor {
  import opened Wrappers

  /** The length of the longest prefix of `s` whose elements all satisfy `p`. */
  function PrefixWhile<T>(s: seq<T>, p: T -> bool): (n: nat)
    ensures n <= |s|
    ensures forall i | 0 <= i < n :: p(s[i])
    ensures n < |s| ==> !p(s[n])
  {
    if |s| == 0 || !p(s[0]) then 0
    else
      var k := PrefixWhile(s[1..], p);
      assert forall i | 1 <= i < k + 1 :: s[i] == s[1..][i - 1];
      1 + k
  }

  class Cursor<T> {
    var rest: seq<T>

    constructor (s: seq<T>)
      ensures rest == s
    {
      rest := s;
    }

    /**
     * `take_one`: the first element, which the cursor then moves past;
     * `None`, with the cursor unchanged, when nothing is left.
     */
    method TakeOne() returns (r: Option<T>)
      modifies this
      ensures r.None? <==> old(rest) == []
      ensures r.Some? ==> old(rest) == [r.value] + rest
      ensures r.None? ==> rest == old(rest)
    {
      if |rest| > 0 {
        r := Some(rest[0]);
        rest := rest[1..];
      } else {
        r := None;
      }
    }

    /** `take_if(pred)`: `take_one`, but only when the first element satisfies `pred`. */
    method TakeIf(pred: T -> bool) returns (r: Option<T>)
      modifies this
      ensures r.Some? <==> old(rest) != [] && pred(old(rest)[0])
      ensures r.Some? ==> old(rest) == [r.value] + rest
      ensures r.None? ==> rest == old(rest)
    {
      if |rest| > 0 && pred(rest[0]) {
        r := Some(rest[0]);
        rest := rest[1..];
      } else {
        r := None;
      }
    }

    /**
     * `take_while(pred)`: the longest prefix whose elements satisfy
     * `pred`; the cursor moves past it.
     */
    method TakeWhile(pred: T -> bool) returns (taken: seq<T>)
      modifies this
      ensures taken + rest == old(rest)
      ensures taken == old(rest)[..|taken|] && rest == old(rest)[|taken|..]
      ensures forall i | 0 <= i < |taken| :: pred(taken[i])
      ensures rest != [] ==> !pred(rest[0])
      ensures |taken| == PrefixWhile(old(rest), pred)
    {
      var index := 0;
      while index < |rest| && pred(rest[index])
        invariant 0 <= index <= |rest|
        invariant forall i | 0 <= i < index :: pred(rest[i])
      {
        index := index + 1;
      }
      taken := rest[..index];
      rest := rest[index..];
      assert old(rest) == taken + rest;
      PrefixWhileUnique(old(rest), pred, index);
    }
  }

  /** `PrefixWhile` is the only length with its two properties. */
  lemma PrefixWhileUnique<T>(s: seq<T>, p: T -> bool, n: nat)
    requires n <= |s| && (forall i | 0 <= i < n :: p(s[i])) && (n < |s| ==> !p(s[n]))
    ensures PrefixWhile(s, p) == n
  {
  }
}
