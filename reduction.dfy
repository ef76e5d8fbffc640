/** The cross-worker sum reduction (`all_reduce` with `plus`): every worker
    contributes its local value and every worker receives the total. Only
    the arithmetic is modelled; the collective, blocking protocol is not. */
module Reduction {
  import opened Vectors

  /** The reduced value of the workers' scalar contributions. */
  function AllReduceSum(locals: seq<real>): real
    decreases |locals|
  {
    if |locals| == 0 then 0.0 else locals[0] + AllReduceSum(locals[1..])
  }

  /** The reduced value of the workers' tensor contributions, entry by entry. */
  function AllReduceTensor(locals: seq<Tensor>): Tensor
    decreases |locals|
  {
    if |locals| == 0 then ZeroTensor else TAdd(locals[0], AllReduceTensor(locals[1..]))
  }

  /** Reducing the concatenation of two groups of workers adds the two partial results. */
  lemma {:induction false} AllReduceSumAppend(a: seq<real>, b: seq<real>)
    ensures AllReduceSum(a + b) == AllReduceSum(a) + AllReduceSum(b)
    decreases |a|
  {
    if |a| == 0 {
      assert a + b == b;
    } else {
      assert (a + b)[1..] == a[1..] + b;
      AllReduceSumAppend(a[1..], b);
    }
  }

  /** The reduced value is independent of where the calling worker's value
      sits among its peers' values: moving it to the front changes nothing. */
  lemma {:induction false} AllReduceSumRotate(a: seq<real>, w: real, b: seq<real>)
    ensures AllReduceSum(a + [w] + b) == AllReduceSum([w] + a + b)
  {
    AllReduceSumAppend(a + [w], b);
    AllReduceSumAppend(a, [w]);
    AllReduceSumAppend([w] + a, b);
    AllReduceSumAppend([w], a);
  }
}
