/**
 * Batches and positions. The inference stage yields the test set in batches;
 * both scripts number the saved figures by a counter that runs through all
 * batches, so the image at position `j` of batch `b` gets number
 * `Offset(batches, b) + j`, the lengths of the earlier batches plus `j`.
 */
module Batching {
  import opened Agreement

  /** One batch from the inference stage: the predicted masks and the ground-truth masks. */
  datatype Batch = Batch(predicted: seq<Mask>, labels: seq<Mask>)

  /** Sum of the lengths of `ss`. */
  function TotalLength<T>(ss: seq<seq<T>>): nat
  {
    if ss == [] then 0 else |ss[0]| + TotalLength(ss[1..])
  }

  /** The counter value at which batch `b` starts. */
  function Offset<T>(ss: seq<seq<T>>, b: nat): nat
    requires b <= |ss|
  {
    TotalLength(ss[..b])
  }

  /** The in-order concatenation of `ss`; it is as long as the lengths of `ss` add up to. */
  function Concat<T>(ss: seq<seq<T>>): (r: seq<T>)
    ensures |r| == TotalLength(ss)
  {
    if ss == [] then []
    else
      var front, last := ss[..|ss| - 1], ss[|ss| - 1];
      assert ss == front + [last];
      TotalLengthSnoc(front, last);
      Concat(front) + last
  }

  lemma {:induction false} TotalLengthSnoc<T>(ss: seq<seq<T>>, x: seq<T>)
    ensures TotalLength(ss + [x]) == TotalLength(ss) + |x|
  {
    if ss != [] {
      assert (ss + [x])[1..] == ss[1..] + [x];
      TotalLengthSnoc(ss[1..], x);
    }
  }

  lemma ConcatSnoc<T>(ss: seq<seq<T>>, x: seq<T>)
    ensures Concat(ss + [x]) == Concat(ss) + x
  {
    assert (ss + [x])[..|ss|] == ss;
  }

  /** Concatenating one more batch of `ss` appends that batch. */
  lemma ConcatPrefixStep<T>(ss: seq<seq<T>>, b: nat)
    requires b < |ss|
    ensures Concat(ss[..b + 1]) == Concat(ss[..b]) + ss[b]
  {
    assert ss[..b + 1] == ss[..b] + [ss[b]];
    ConcatSnoc(ss[..b], ss[b]);
  }

  /** Moving past batch `b` advances the counter by the length of that batch. */
  lemma OffsetStep<T>(ss: seq<seq<T>>, b: nat)
    requires b < |ss|
    ensures Offset(ss, b + 1) == Offset(ss, b) + |ss[b]|
  {
    assert ss[..b + 1] == ss[..b] + [ss[b]];
    TotalLengthSnoc(ss[..b], ss[b]);
  }

  /** After the last batch the counter equals the sum of all batch lengths. */
  lemma OffsetEnd<T>(ss: seq<seq<T>>)
    ensures Offset(ss, |ss|) == TotalLength(ss)
  {
    assert ss[..|ss|] == ss;
  }

  /** Every image of batch `b` is numbered below every image of a later batch. */
  lemma {:induction false} OffsetBefore<T>(ss: seq<seq<T>>, b: nat, b': nat)
    requires b < b' <= |ss|
    ensures Offset(ss, b) + |ss[b]| <= Offset(ss, b')
    decreases b' - b
  {
    if b' == b + 1 {
      OffsetStep(ss, b);
    } else {
      OffsetBefore(ss, b, b' - 1);
      OffsetStep(ss, b' - 1);
    }
  }

  /**
   * Numbering is one-to-one: distinct positions (b, j) and (b', j') get
   * distinct counter values, and a smaller value means an earlier position.
   */
  lemma PositionOrder<T>(ss: seq<seq<T>>, b: nat, j: nat, b': nat, j': nat)
    requires b < |ss| && j < |ss[b]| && b' < |ss| && j' <= |ss[b']|
    ensures Offset(ss, b) + j < Offset(ss, b') + j' <==> b < b' || (b == b' && j < j')
  {
    if b < b' {
      OffsetBefore(ss, b, b');
    } else if b' < b {
      OffsetBefore(ss, b', b);
    }
  }

  /** Position (b, j) of the batches is position `Offset(ss, b) + j` of the concatenation. */
  lemma {:induction false} ConcatAt<T>(ss: seq<seq<T>>, b: nat, j: nat)
    requires b < |ss| && j < |ss[b]|
    ensures Offset(ss, b) + j < |Concat(ss)|
    ensures Concat(ss)[Offset(ss, b) + j] == ss[b][j]
  {
    var front := ss[..|ss| - 1];
    assert ss == front + [ss[|ss| - 1]];
    if b == |ss| - 1 {
      assert ss[..b] == front;
    } else {
      assert front[..b] == ss[..b];
      ConcatAt(front, b, j);
    }
  }

  /** Batches of equal lengths have concatenations of equal lengths. */
  lemma {:induction false} SameLengths<T, U>(ss: seq<seq<T>>, tt: seq<seq<U>>)
    requires |ss| == |tt|
    requires forall i :: 0 <= i < |ss| ==> |ss[i]| == |tt[i]|
    ensures TotalLength(ss) == TotalLength(tt)
  {
    if ss != [] {
      SameLengths(ss[1..], tt[1..]);
    }
  }

  /** The positions (batch, image) of `ss`, in the order the save loop visits them. */
  function Positions<T>(ss: seq<seq<T>>): (ps: seq<(nat, nat)>)
    ensures |ps| == TotalLength(ss)
  {
    var grid := PositionGrid(ss);
    SameLengths(grid, ss);
    Concat(grid)
  }

  /** Batch `b` of the grid lists the positions (b, 0), (b, 1), ... of batch `b` of `ss`. */
  function PositionGrid<T>(ss: seq<seq<T>>): (grid: seq<seq<(nat, nat)>>)
    ensures |grid| == |ss|
    ensures forall b :: 0 <= b < |ss| ==> |grid[b]| == |ss[b]|
  {
    seq(|ss|, b requires 0 <= b < |ss| => seq(|ss[b]|, j => (b, j)))
  }

  /** The counter value `Offset(ss, b) + j` is given to exactly position (b, j). */
  lemma PositionsAt<T>(ss: seq<seq<T>>, b: nat, j: nat)
    requires b < |ss| && j < |ss[b]|
    ensures Offset(ss, b) + j < |Positions(ss)|
    ensures Positions(ss)[Offset(ss, b) + j] == (b, j)
  {
    var grid := PositionGrid(ss);
    SameLengths(grid[..b], ss[..b]);
    ConcatAt(grid, b, j);
  }

  /**
   * The k-th element of the concatenation is the element of `ss` at the k-th
   * position: concatenating keeps batch-then-image order.
   */
  lemma {:induction false} ConcatPositions<T>(ss: seq<seq<T>>, k: nat)
    requires k < |Concat(ss)|
    ensures Positions(ss)[k].0 < |ss| && Positions(ss)[k].1 < |ss[Positions(ss)[k].0]|
    ensures Concat(ss)[k] == ss[Positions(ss)[k].0][Positions(ss)[k].1]
    ensures k == Offset(ss, Positions(ss)[k].0) + Positions(ss)[k].1
  {
    var n := |ss| - 1;
    var front := ss[..n];
    var grid := PositionGrid(ss);
    assert grid[..n] == PositionGrid(front);
    SameLengths(grid[..n], front);
    if k < |Concat(front)| {
      ConcatPositions(front, k);
      var b := Positions(front)[k].0;
      assert ss[b] == front[b];
      assert ss[..b] == front[..b];
    } else {
      assert Positions(ss)[k] == grid[n][k - |Concat(front)|];
    }
  }

  /** The predicted masks of each batch, in loader order. */
  function PredictedBatches(loader: seq<Batch>): seq<seq<Mask>>
  {
    seq(|loader|, b requires 0 <= b < |loader| => loader[b].predicted)
  }

  /** The ground-truth masks of each batch, in loader order. */
  function LabelBatches(loader: seq<Batch>): seq<seq<Mask>>
  {
    seq(|loader|, b requires 0 <= b < |loader| => loader[b].labels)
  }
}
