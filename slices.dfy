/** In-place slice rotation, as used on the link buffer and on the walker's window. */
module Slices {

  /** Rotates `a` left by one place: every element moves one slot towards the front and the
      first element becomes the last.  Rotating an empty slice by one is refused by the source
      library, hence the precondition. */
  method RotateLeft<T>(a: array<T>)
    requires a.Length > 0
    modifies a
    ensures a[..] == old(a[..])[1..] + [old(a[0])]
  {
    var first := a[0];
    var i := 0;
    while i < a.Length - 1
      invariant 0 <= i <= a.Length - 1
      invariant forall k :: 0 <= k < i ==> a[k] == old(a[k + 1])
      invariant forall k :: i <= k < a.Length ==> a[k] == old(a[k])
    {
      a[i] := a[i + 1];
      i := i + 1;
    }
    a[a.Length - 1] := first;
  }
}
