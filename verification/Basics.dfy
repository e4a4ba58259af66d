/** What every part of the model uses. */
module Basics {

  datatype Option<+T> = None | Some(value: T)

  function Min(a: int, b: int): int {
    if a < b then a else b
  }

  /** What passed through a queue stays in order, as more goes in and comes out. */
  lemma QueueMovesOn<T>(pushed: seq<T>, popped: seq<T>, queue: seq<T>, more: seq<T>, out: seq<T>, left: seq<T>)
    requires pushed == popped + queue && queue + more == out + left
    ensures pushed + more == (popped + out) + left
  {
    assert pushed + more == popped + (queue + more);
    assert (popped + out) + left == popped + (out + left);
  }
}
