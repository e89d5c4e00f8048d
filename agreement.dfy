/**
 * The agreement encoder shared by both overlay scripts: a predicted mask and a
 * ground-truth mask of the same shape become one map whose pixels say whether
 * the prediction was a correct negative (0), a correct positive (1), a missed
 * positive (2) or a spurious positive (3).
 *
 * The scripts allocate a zero array and then perform four boolean-mask writes
 * in sequence. `Encode` does exactly that; `Category` is the per-pixel
 * if-chain it is proved to compute.
 */
module Agreement {

  /** A segmentation mask: one integer label per pixel, rows by columns. */
  type Mask = array2<int>

  /** The four ways a binary prediction can relate to a binary ground truth. */
  datatype Outcome = CorrectNegative | CorrectPositive | MissedPositive | SpuriousPositive

  /** Outcome of one pixel, from whether it was predicted and whether it is truly positive. */
  function Classify(predicted: bool, actual: bool): Outcome
  {
    match (predicted, actual)
    case (false, false) => CorrectNegative
    case (true, true) => CorrectPositive
    case (false, true) => MissedPositive
    case (true, false) => SpuriousPositive
  }

  /** The integer each outcome is stored as in an agreement map. */
  function Code(o: Outcome): (c: int)
    ensures 0 <= c <= 3
  {
    match o
    case CorrectNegative => 0
    case CorrectPositive => 1
    case MissedPositive => 2
    case SpuriousPositive => 3
  }

  predicate IsBinary(v: int) { v == 0 || v == 1 }

  /**
   * The value the encoder leaves at a pixel with prediction `p` and label `l`,
   * written as one if-chain. A pixel matching none of the four (p, l) pairs
   * keeps the zero the output array was allocated with.
   */
  function Category(p: int, l: int): (c: int)
    ensures 0 <= c <= 3
    ensures IsBinary(p) && IsBinary(l) ==> c == Code(Classify(p == 1, l == 1))
    ensures !(IsBinary(p) && IsBinary(l)) ==> c == 0
  {
    if p == 0 && l == 0 then 0
    else if p == 1 && l == 1 then 1
    else if p == 0 && l == 1 then 2
    else if p == 1 && l == 0 then 3
    else 0
  }

  /** The prediction a category code stands for (inverse of `Category` on binary pixels). */
  function PredictedOf(c: int): int { if c == 1 || c == 3 then 1 else 0 }

  /** The ground truth a category code stands for (inverse of `Category` on binary pixels). */
  function ActualOf(c: int): int { if c == 1 || c == 2 then 1 else 0 }

  /**
   * On binary masks the encoding loses nothing: the categories 0..3 are in
   * one-to-one correspondence with the four (prediction, truth) pairs, so each
   * pixel falls into exactly one category.
   */
  lemma CategoryBijective(p: int, l: int, c: int)
    ensures IsBinary(p) && IsBinary(l) ==>
      PredictedOf(Category(p, l)) == p && ActualOf(Category(p, l)) == l
    ensures 0 <= c <= 3 ==>
      IsBinary(PredictedOf(c)) && IsBinary(ActualOf(c)) && Category(PredictedOf(c), ActualOf(c)) == c
  {
  }

  /** Where prediction and truth agree on a binary pixel, the map repeats that value. */
  lemma CategoryOfAgreement(v: int)
    requires IsBinary(v)
    ensures Category(v, v) == v
  {
  }

  // ---------------------------------------------------------------------------
  // The four masked assignments, as data.

  /** One `new_array[(image == predicted) & (label == actual)] = code` statement. */
  datatype Pass = Pass(predicted: int, actual: int, code: int)

  predicate Selects(w: Pass, p: int, l: int) { w.predicted == p && w.actual == l }

  /** The value a pixel holds after pass `w`, if it held `v` before. */
  function Apply(w: Pass, v: int, p: int, l: int): int
  {
    if Selects(w, p, l) then w.code else v
  }

  /** The four passes, in the order the scripts write them. */
  const Passes: seq<Pass> := [Pass(0, 0, 0), Pass(1, 1, 1), Pass(0, 1, 2), Pass(1, 0, 3)]

  /** The value a pixel holds after the passes `ws`, applied first to last, starting from `v`. */
  function Sequential(v: int, p: int, l: int, ws: seq<Pass>): int
  {
    if ws == [] then v
    else Apply(ws[|ws| - 1], Sequential(v, p, l, ws[..|ws| - 1]), p, l)
  }

  /** No two passes select the same (prediction, truth) pair, so their pixel sets are disjoint. */
  predicate Disjoint(ws: seq<Pass>)
  {
    forall i, j :: 0 <= i < j < |ws| ==>
      !(ws[i].predicted == ws[j].predicted && ws[i].actual == ws[j].actual)
  }

  lemma PassesDisjoint()
    ensures Disjoint(Passes)
  {
  }

  /**
   * With disjoint passes a pixel is written by at most one of them: it ends up
   * with the code of the pass that selects it, or keeps its initial value.
   */
  lemma {:induction false} SequentialDisjoint(v: int, p: int, l: int, ws: seq<Pass>)
    requires Disjoint(ws)
    ensures (forall w :: w in ws ==> !Selects(w, p, l)) ==> Sequential(v, p, l, ws) == v
    ensures forall i :: 0 <= i < |ws| && Selects(ws[i], p, l) ==> Sequential(v, p, l, ws) == ws[i].code
  {
    if ws != [] {
      var front := ws[..|ws| - 1];
      assert Disjoint(front) by {
        forall i, j | 0 <= i < j < |front|
          ensures !(front[i].predicted == front[j].predicted && front[i].actual == front[j].actual)
        {
          assert front[i] == ws[i] && front[j] == ws[j];
        }
      }
      SequentialDisjoint(v, p, l, front);
      forall i | 0 <= i < |ws| && Selects(ws[i], p, l)
        ensures Sequential(v, p, l, ws) == ws[i].code
      {
        if i < |ws| - 1 {
          assert front[i] == ws[i];
          assert !Selects(ws[|ws| - 1], p, l);
        }
      }
      if forall w :: w in ws ==> !Selects(w, p, l) {
        forall w | w in front ensures !Selects(w, p, l) {
          assert w in ws;
        }
      }
    }
  }

  /**
   * The order of the four masked writes does not matter: any arrangement of
   * the same four passes, applied to a zero pixel, yields `Category`.
   */
  lemma {:induction false} PassOrderIrrelevant(ws: seq<Pass>, p: int, l: int)
    requires Disjoint(ws)
    requires forall w :: w in ws <==> w in Passes
    ensures Sequential(0, p, l, ws) == Category(p, l)
  {
    SequentialDisjoint(0, p, l, ws);
    if IsBinary(p) && IsBinary(l) {
      var w := Pass(p, l, Category(p, l));
      assert w in Passes;
      var i :| 0 <= i < |ws| && ws[i] == w;
      assert Selects(ws[i], p, l);
    } else {
      forall w | w in ws ensures !Selects(w, p, l) {
        assert w in Passes;
      }
    }
  }

  /** The scripts' own order of passes computes `Category` at every pixel. */
  lemma PassesComputeCategory(p: int, l: int)
    ensures Apply(Passes[3], Apply(Passes[2], Apply(Passes[1], Apply(Passes[0], 0, p, l), p, l), p, l), p, l)
            == Category(p, l)
  {
    assert Passes[..3][..2] == Passes[..2];
    assert Passes[..2][..1] == Passes[..1];
    assert Passes[..1][..0] == [];
    assert Passes[..4] == Passes;
    PassesDisjoint();
    PassOrderIrrelevant(Passes, p, l);
  }

  // ---------------------------------------------------------------------------
  // The encoder on arrays.

  predicate SameShape(a: Mask, b: Mask)
  {
    a.Length0 == b.Length0 && a.Length1 == b.Length1
  }

  /**
   * `agreement` is a separate array holding the agreement map of `pred`
   * against `truth`: same shape, `Category` at every pixel.
   */
  predicate Encodes(agreement: Mask, pred: Mask, truth: Mask)
    reads agreement, pred, truth
  {
    agreement != pred && agreement != truth &&
    SameShape(agreement, pred) && SameShape(pred, truth) &&
    forall i, j :: 0 <= i < agreement.Length0 && 0 <= j < agreement.Length1 ==>
      agreement[i, j] == Category(pred[i, j], truth[i, j])
  }

  /** One masked assignment: every pixel selected by `w` is overwritten with its code. */
  method MaskedWrite(a: Mask, pred: Mask, truth: Mask, w: Pass)
    requires SameShape(a, pred) && SameShape(pred, truth)
    requires a != pred && a != truth
    modifies a
    ensures forall i, j :: 0 <= i < a.Length0 && 0 <= j < a.Length1 ==>
      a[i, j] == Apply(w, old(a[i, j]), pred[i, j], truth[i, j])
  {
    var i := 0;
    while i < a.Length0
      invariant 0 <= i <= a.Length0
      invariant forall r, c :: 0 <= r < i && 0 <= c < a.Length1 ==>
        a[r, c] == Apply(w, old(a[r, c]), pred[r, c], truth[r, c])
      invariant forall r, c :: i <= r < a.Length0 && 0 <= c < a.Length1 ==> a[r, c] == old(a[r, c])
    {
      var j := 0;
      while j < a.Length1
        invariant 0 <= j <= a.Length1
        invariant forall r, c :: 0 <= r < i && 0 <= c < a.Length1 ==>
          a[r, c] == Apply(w, old(a[r, c]), pred[r, c], truth[r, c])
        invariant forall c :: 0 <= c < j ==> a[i, c] == Apply(w, old(a[i, c]), pred[i, c], truth[i, c])
        invariant forall r, c :: 0 <= r < a.Length0 && 0 <= c < a.Length1 && (r > i || (r == i && c >= j)) ==>
          a[r, c] == old(a[r, c])
      {
        if pred[i, j] == w.predicted && truth[i, j] == w.actual {
          a[i, j] := w.code;
        }
        j := j + 1;
      }
      i := i + 1;
    }
  }

  /**
   * The encoder: allocate a zero array shaped like the prediction, then apply
   * the four masked writes in the scripts' order. The inputs are only read.
   */
  method Encode(pred: Mask, truth: Mask) returns (agreement: Mask)
    requires SameShape(pred, truth)
    ensures fresh(agreement)
    ensures Encodes(agreement, pred, truth)
  {
    agreement := new int[pred.Length0, pred.Length1]((_, _) => 0);
    MaskedWrite(agreement, pred, truth, Passes[0]);
    MaskedWrite(agreement, pred, truth, Passes[1]);
    MaskedWrite(agreement, pred, truth, Passes[2]);
    MaskedWrite(agreement, pred, truth, Passes[3]);
    forall i, j | 0 <= i < agreement.Length0 && 0 <= j < agreement.Length1
      ensures agreement[i, j] == Category(pred[i, j], truth[i, j])
    {
      PassesComputeCategory(pred[i, j], truth[i, j]);
    }
  }
}
