/** Bytes as the spinner and its sinks see them, and the repetition that
    builds the erase sequence (Go's `bytes.Repeat`). */
module Bytes {

  /** One octet; the spinner only ever moves byte strings around. */
  newtype byte = x: int | 0 <= x < 256

  /** `n` copies of `s`, one after another. Go's `bytes.Repeat` panics on a
      negative count, which the `nat` count rules out. */
  function Repeat<T>(s: seq<T>, n: nat): (r: seq<T>)
    ensures |r| == n * |s|
  {
    if n == 0 then [] else
      var rest := Repeat(s, n - 1);
      assert |rest| + |s| == n * |s| by {
        assert (n - 1) * |s| + |s| == n * |s|;
      }
      s + rest
  }

  /** Repeating `a` times and then `b` times is repeating `a + b` times. */
  lemma {:induction false} RepeatAdd<T>(s: seq<T>, a: nat, b: nat)
    ensures Repeat(s, a + b) == Repeat(s, a) + Repeat(s, b)
  {
    if a > 0 {
      RepeatAdd(s, a - 1, b);
      assert Repeat(s, a + b) == s + Repeat(s, a - 1 + b);
    }
  }
}
