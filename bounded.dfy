/** The capped FIFO histories of the program: a `VecDeque` that gets `push_back`
    followed by one `pop_front` when its length goes over a capacity. */
module Bounded {

  /** The history after pushing `e` at the back of `h` and evicting the front
      element if that makes it longer than `cap`. */
  function PushCapped<T>(h: seq<T>, e: T, cap: nat): (r: seq<T>)
    ensures |h| <= cap ==> |r| <= cap
    ensures cap > 0 ==> r != [] && r[|r| - 1] == e
    ensures |h| < cap ==> r == h + [e]
    ensures |h| >= cap && h != [] ==> r == h[1..] + [e]
  {
    var pushed := h + [e];
    if |pushed| > cap then pushed[1..] else pushed
  }

  /** Every element of the pushed history was already there or is the new one. */
  lemma PushCappedElements<T>(h: seq<T>, e: T, cap: nat)
    ensures forall v :: v in PushCapped(h, e, cap) ==> v in h || v == e
  {
  }

  /** The history after pushing the elements of `es` one by one, in order. */
  function PushAll<T>(h: seq<T>, es: seq<T>, cap: nat): seq<T>
  {
    if es == [] then h else PushCapped(PushAll(h, es[..|es| - 1], cap), es[|es| - 1], cap)
  }

  /** Pushing more than `cap` elements one by one onto an empty history leaves
      exactly the last `cap` of them, oldest first. */
  lemma {:induction false} PushAllKeepsNewest<T>(es: seq<T>, cap: nat)
    requires cap > 0
    ensures PushAll([], es, cap) == if |es| <= cap then es else es[|es| - cap..]
  {
    if es != [] {
      var init, e := es[..|es| - 1], es[|es| - 1];
      assert es == init + [e];
      PushAllKeepsNewest(init, cap);
      var before := PushAll([], init, cap);
      if |init| < cap {
        assert before == init;
      } else {
        var n := |init|;
        assert before == init[n - cap..];
        assert before[1..] == init[n - cap + 1..];
        assert es[|es| - cap..] == init[n - cap + 1..] + [e];
      }
    }
  }
}
