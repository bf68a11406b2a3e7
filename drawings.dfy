/** The drawing element store: the list of freehand shapes, with append,
    replace-the-last and remove-by-identity. The list operations are given
    as functions on sequences; `DrawingsState` applies them to its field in
    place. */
module Drawings {
  import opened Elements

  /** The filter of the remove reducer, read as comparing stored element
      references: the elements of `s` other than `p`, in order. */
  function Without<T(==)>(s: seq<T>, p: T): (r: seq<T>)
    ensures |r| <= |s|
    ensures p !in r
    ensures forall i :: 0 <= i < |r| ==> r[i] in s
    ensures forall i :: 0 <= i < |s| && s[i] != p ==> s[i] in r
  {
    if s == [] then []
    else if s[0] == p then Without(s[1..], p)
    else [s[0]] + Without(s[1..], p)
  }

  /** `s[s.length - 1] = e`. On an empty list the index is -1, which in
      JavaScript names a plain property rather than an element, so the
      elements stay as they are. */
  function WithLast<T>(s: seq<T>, e: T): (r: seq<T>)
    ensures |r| == |s|
    ensures |s| > 0 ==> r[|s| - 1] == e
    ensures forall i :: 0 <= i < |s| - 1 ==> r[i] == s[i]
    ensures s == [] ==> r == []
  {
    if s == [] then s else s[|s| - 1 := e]
  }

  /** Appending `e` and then replacing the last element by `e'` is the same
      as appending `e'`. */
  lemma AddThenUpdateLast<T>(s: seq<T>, e: T, e': T)
    ensures WithLast(s + [e], e') == s + [e']
  {
  }

  /** Removal distributes over concatenation: what is kept from the front
      stays in front of what is kept from the back, so the survivors keep
      their relative order. */
  lemma {:induction false} WithoutConcat<T>(a: seq<T>, b: seq<T>, p: T)
    ensures Without(a + b, p) == Without(a, p) + Without(b, p)
  {
    if a != [] {
      assert (a + b)[0] == a[0] && (a + b)[1..] == a[1..] + b;
      WithoutConcat(a[1..], b, p);
    } else {
      assert a + b == b;
    }
  }

  /** Removal deletes every occurrence of `p` and keeps every other element
      as many times as before. */
  lemma {:induction false} WithoutMultiset<T>(s: seq<T>, p: T)
    ensures multiset(Without(s, p)) == multiset(s)[p := 0]
  {
    if s != [] {
      assert s == [s[0]] + s[1..];
      WithoutMultiset(s[1..], p);
    }
  }

  /** Removal shortens the list by exactly the number of occurrences of `p`. */
  lemma WithoutLength<T>(s: seq<T>, p: T)
    ensures |Without(s, p)| == |s| - multiset(s)[p]
  {
    WithoutMultiset(s, p);
    assert multiset(s) == multiset(Without(s, p)) + multiset{}[p := multiset(s)[p]];
  }

  /** Removal is a no-op exactly when `p` is absent. */
  lemma {:induction false} WithoutAbsent<T>(s: seq<T>, p: T)
    ensures Without(s, p) == s <==> p !in s
  {
    if p !in s && s != [] {
      assert p !in s[1..];
      WithoutAbsent(s[1..], p);
    }
  }

  /** Removing the same element twice is removing it once. */
  lemma WithoutIdempotent<T>(s: seq<T>, p: T)
    ensures Without(Without(s, p), p) == Without(s, p)
  {
    WithoutAbsent(Without(s, p), p);
  }

  /** The store's state: the drawn elements, oldest first. */
  class DrawingsState {
    var drawables: seq<ElementInfo>

    constructor ()
      ensures drawables == []
    {
      drawables := [];
    }

    method AddDrawable(payload: ElementInfo)
      modifies this
      ensures drawables == old(drawables) + [payload]
    {
      drawables := drawables + [payload];
    }

    method UpdateLastDrawable(payload: ElementInfo)
      modifies this
      ensures drawables == WithLast(old(drawables), payload)
    {
      if |drawables| > 0 {
        drawables := drawables[|drawables| - 1 := payload];
      }
    }

    method RemoveDrawable(payload: ElementInfo)
      modifies this
      ensures drawables == Without(old(drawables), payload)
      ensures |drawables| <= |old(drawables)|
      ensures payload !in drawables
    {
      drawables := Without(drawables, payload);
    }
  }
}
