/**
 * Bulk batches. Both indexers collect entries in a list, send it whenever it
 * reaches a fixed size and once more at the end if anything is left. Over a
 * whole run the batches sent are the entries cut into consecutive chunks of
 * that size, the last one possibly shorter and never empty.
 */
module Batching {

  /** The batches, concatenated in the order they were sent. */
  function Flatten<T>(bs: seq<seq<T>>): seq<T>
  {
    if bs == [] then [] else bs[0] + Flatten(bs[1..])
  }

  /** `xs` cut into consecutive chunks of `k`, the last one holding the remainder when there is one. */
  function Chunks<T>(xs: seq<T>, k: nat): seq<seq<T>>
    requires 0 < k
    decreases |xs|
  {
    if xs == [] then []
    else if |xs| <= k then [xs]
    else [xs[..k]] + Chunks(xs[k..], k)
  }

  lemma {:induction false} FlattenAppend<T>(bs: seq<seq<T>>, b: seq<T>)
    ensures Flatten(bs + [b]) == Flatten(bs) + b
  {
    if bs != [] {
      assert (bs + [b])[1..] == bs[1..] + [b];
      FlattenAppend(bs[1..], b);
    }
  }

  /** Nothing is lost, duplicated or reordered by the cutting. */
  lemma {:induction false} FlattenChunks<T>(xs: seq<T>, k: nat)
    requires 0 < k
    ensures Flatten(Chunks(xs, k)) == xs
    decreases |xs|
  {
    if |xs| > k {
      FlattenChunks(xs[k..], k);
      assert xs == xs[..k] + xs[k..];
    }
  }

  /** Every chunk is non-empty and holds at most `k` entries; every chunk but the last holds exactly `k`. */
  lemma {:induction false} ChunkSizes<T>(xs: seq<T>, k: nat)
    requires 0 < k
    ensures forall i :: 0 <= i < |Chunks(xs, k)| ==> 0 < |Chunks(xs, k)[i]| <= k
    ensures forall i :: 0 <= i < |Chunks(xs, k)| - 1 ==> |Chunks(xs, k)[i]| == k
    decreases |xs|
  {
    if |xs| > k {
      ChunkSizes(xs[k..], k);
    }
  }

  /**
   * The shape a batching loop leaves: full batches sent so far, then a rest
   * shorter than `k`. Sending the rest when it is not empty yields exactly
   * the chunks of everything appended.
   */
  lemma {:induction false} ChunksOfFull<T>(sent: seq<seq<T>>, rest: seq<T>, k: nat)
    requires 0 < k && |rest| < k
    requires forall i :: 0 <= i < |sent| ==> |sent[i]| == k
    ensures Chunks(Flatten(sent) + rest, k) == sent + (if rest == [] then [] else [rest])
  {
    if sent != [] {
      ChunksOfFull(sent[1..], rest, k);
      var tail := Flatten(sent[1..]) + rest;
      var xs := Flatten(sent) + rest;
      assert xs == sent[0] + tail;
      if tail == [] {
        assert sent == [sent[0]] && rest == [] && xs == sent[0];
      } else {
        assert xs[..k] == sent[0];
        assert xs[k..] == tail;
        assert Chunks(xs, k) == [sent[0]] + Chunks(tail, k);
        assert sent == [sent[0]] + sent[1..];
        var last: seq<seq<T>> := if rest == [] then [] else [rest];
        assert Chunks(xs, k) == [sent[0]] + (sent[1..] + last);
        assert [sent[0]] + (sent[1..] + last) == sent + last;
      }
    } else {
      assert Flatten(sent) + rest == rest;
    }
  }
}
