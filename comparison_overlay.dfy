/**
 * The comparison script: predictions are kept batch by batch, and every image
 * is saved as a two-panel figure (its agreement map beside its ground truth)
 * named by a counter that runs across all batches.
 */
module ComparisonOverlay {
  import opened Agreement
  import opened Batching
  import opened FileNames

  /**
   * One saved figure: its file name, the agreement map shown in the left
   * panel and the ground-truth mask shown in the right panel (both before
   * colouring).
   */
  datatype Figure = Figure(name: string, agreement: Mask, truth: Mask)

  /**
   * Collects the inference output one batch per entry, in loader order:
   * `pred_set[b]` and `label_set[b]` are the masks of batch `b`.
   */
  method DatasetPredictions(loader: seq<Batch>) returns (predSet: seq<seq<Mask>>, labelSet: seq<seq<Mask>>)
    ensures |predSet| == |labelSet| == |loader|
    ensures forall b :: 0 <= b < |loader| ==> predSet[b] == loader[b].predicted && labelSet[b] == loader[b].labels
  {
    predSet, labelSet := [], [];
    for b := 0 to |loader|
      invariant |predSet| == |labelSet| == b
      invariant forall i :: 0 <= i < b ==> predSet[i] == loader[i].predicted && labelSet[i] == loader[i].labels
    {
      predSet := predSet + [loader[b].predicted];
      labelSet := labelSet + [loader[b].labels];
    }
  }

  /** Every prediction that has a label at the same position has the label's shape. */
  predicate ShapesAgree(predSet: seq<seq<Mask>>, labelSet: seq<seq<Mask>>)
  {
    forall b, j :: 0 <= b < |predSet| && b < |labelSet| && 0 <= j < |predSet[b]| && j < |labelSet[b]| ==>
      SameShape(predSet[b][j], labelSet[b][j])
  }

  /**
   * Every non-empty prediction batch has a label batch with at least as many
   * masks. An empty prediction batch is skipped without looking at its labels.
   */
  predicate LabelsCover(predSet: seq<seq<Mask>>, labelSet: seq<seq<Mask>>)
  {
    forall b :: 0 <= b < |predSet| && |predSet[b]| > 0 ==> b < |labelSet| && |predSet[b]| <= |labelSet[b]|
  }

  /** Position `pos` = (batch, image) has both a prediction and a label. */
  predicate Labelled(predSet: seq<seq<Mask>>, labelSet: seq<seq<Mask>>, pos: (nat, nat))
  {
    pos.0 < |predSet| && pos.1 < |predSet[pos.0]| && pos.0 < |labelSet| && pos.1 < |labelSet[pos.0]|
  }

  /** The prediction and label at flat position `k`, when both exist. */
  function MasksAt(predSet: seq<seq<Mask>>, labelSet: seq<seq<Mask>>, k: nat): set<Mask>
  {
    var ps := Positions(predSet);
    if k < |ps| && Labelled(predSet, labelSet, ps[k]) then {predSet[ps[k].0][ps[k].1], labelSet[ps[k].0][ps[k].1]}
    else {}
  }

  /**
   * `fig` is figure number `k`: it is named `result_<k>.png` and shows the
   * agreement map of the k-th prediction (batch-then-image order) against its
   * label, beside that label.
   */
  predicate SavedAs(fig: Figure, k: nat, predSet: seq<seq<Mask>>, labelSet: seq<seq<Mask>>)
    reads fig.agreement, MasksAt(predSet, labelSet, k)
  {
    var ps := Positions(predSet);
    k < |ps| && Labelled(predSet, labelSet, ps[k]) &&
    fig.name == FileName(k) &&
    fig.truth == labelSet[ps[k].0][ps[k].1] &&
    Encodes(fig.agreement, predSet[ps[k].0][ps[k].1], labelSet[ps[k].0][ps[k].1])
  }

  /**
   * The save loop. `saved` lists the figures in the order they are written,
   * `index` is the counter after the loops and `completed` is false when the
   * loop stopped on an IndexError (a prediction without a label), in which
   * case the figures written before it remain.
   *
   * Figure k is named by k and shows the k-th position of the batches in
   * batch-then-image order; saving stops exactly at the first unlabelled one.
   */
  method SavePredictions(predSet: seq<seq<Mask>>, labelSet: seq<seq<Mask>>)
    returns (saved: seq<Figure>, index: nat, completed: bool)
    requires ShapesAgree(predSet, labelSet)
    ensures index == |saved| <= TotalLength(predSet)
    ensures completed <==> LabelsCover(predSet, labelSet)
    ensures completed <==> index == TotalLength(predSet)
    ensures forall k :: 0 <= k < |saved| ==>
      SavedAs(saved[k], k, predSet, labelSet)
    ensures !completed ==> !Labelled(predSet, labelSet, Positions(predSet)[index])
    ensures forall k, k' :: 0 <= k < k' < |saved| ==> saved[k].name != saved[k'].name
  {
    saved, index, completed := [], 0, true;
    var b := 0;
    while b < |predSet|
      invariant 0 <= b <= |predSet|
      invariant index == |saved| == Offset(predSet, b)
      invariant forall i :: 0 <= i < b && |predSet[i]| > 0 ==> i < |labelSet| && |predSet[i]| <= |labelSet[i]|
      invariant forall k :: 0 <= k < |saved| ==>
        SavedAs(saved[k], k, predSet, labelSet)
    {
      OffsetBefore(predSet, b, |predSet|);
      OffsetEnd(predSet);
      saved, index, completed := SaveBatch(predSet, labelSet, b, saved, index);
      if !completed {
        assert !LabelsCover(predSet, labelSet) by {
          assert |predSet[b]| > 0;
        }
        FileNamesDistinct(|saved|);
        return;
      }
      OffsetStep(predSet, b);
      b := b + 1;
    }
    OffsetEnd(predSet);
    FileNamesDistinct(|saved|);
  }

  /**
   * The inner loop over the images of batch `b`, continuing the figures
   * `before` already written, with the counter at `index`. Each saved figure
   * is named by the counter, which then advances by one. It stops with
   * `completed` false at the first image of the batch that has no label.
   */
  method SaveBatch(predSet: seq<seq<Mask>>, labelSet: seq<seq<Mask>>, b: nat, before: seq<Figure>, index: nat)
    returns (saved: seq<Figure>, index': nat, completed: bool)
    requires ShapesAgree(predSet, labelSet)
    requires b < |predSet| && index == |before| == Offset(predSet, b)
    requires forall k :: 0 <= k < |before| ==>
      SavedAs(before[k], k, predSet, labelSet)
    ensures index' == |saved| <= Offset(predSet, b) + |predSet[b]|
    ensures completed <==> (|predSet[b]| > 0 ==> b < |labelSet| && |predSet[b]| <= |labelSet[b]|)
    ensures completed ==> index' == Offset(predSet, b) + |predSet[b]|
    ensures !completed ==> index' < Offset(predSet, b) + |predSet[b]| <= TotalLength(predSet)
    ensures !completed ==> !Labelled(predSet, labelSet, Positions(predSet)[index'])
    ensures forall k :: 0 <= k < |saved| ==>
      SavedAs(saved[k], k, predSet, labelSet)
  {
    OffsetBefore(predSet, b, |predSet|);
    OffsetEnd(predSet);
    saved, index' := before, index;
    for j := 0 to |predSet[b]|
      invariant index' == |saved| == Offset(predSet, b) + j
      invariant j > 0 ==> b < |labelSet| && j <= |labelSet[b]|
      invariant forall k :: 0 <= k < |saved| ==>
        SavedAs(saved[k], k, predSet, labelSet)
    {
      PositionsAt(predSet, b, j);
      if b >= |labelSet| || j >= |labelSet[b]| {
        // label_set[batch_index][image_index] raises IndexError here.
        return saved, index', false;
      }
      var agreement := Encode(predSet[b][j], labelSet[b][j]);
      var figure := Figure(FileName(index'), agreement, labelSet[b][j]);
      assert SavedAs(figure, index', predSet, labelSet);
      saved := saved + [figure];
      index' := index' + 1;
    }
    completed := true;
  }

  /**
   * The image at position j of batch b, once saved, is figure number
   * Offset(b) + j: named `result_<Offset(b) + j>.png` and showing that image.
   */
  lemma SavedAtOffset(predSet: seq<seq<Mask>>, labelSet: seq<seq<Mask>>, saved: seq<Figure>, b: nat, j: nat)
    requires |saved| <= TotalLength(predSet)
    requires forall k :: 0 <= k < |saved| ==>
      SavedAs(saved[k], k, predSet, labelSet)
    requires b < |predSet| && j < |predSet[b]| && Offset(predSet, b) + j < |saved|
    ensures saved[Offset(predSet, b) + j].name == FileName(Offset(predSet, b) + j)
    ensures b < |labelSet| && j < |labelSet[b]|
    ensures saved[Offset(predSet, b) + j].truth == labelSet[b][j]
    ensures Encodes(saved[Offset(predSet, b) + j].agreement, predSet[b][j], labelSet[b][j])
  {
    PositionsAt(predSet, b, j);
  }

  /**
   * The script's main flow after the model and loader are set up: collect
   * the predictions, then save them. When every batch has as many labels as
   * predictions, which holds when predictions and labels come from one
   * batch, all images are saved.
   */
  method Run(loader: seq<Batch>) returns (saved: seq<Figure>, completed: bool)
    requires ShapesAgree(PredictedBatches(loader), LabelBatches(loader))
    ensures completed <==> LabelsCover(PredictedBatches(loader), LabelBatches(loader))
    ensures (forall b :: 0 <= b < |loader| ==> |loader[b].predicted| == |loader[b].labels|) ==> completed
    ensures completed ==> |saved| == TotalLength(PredictedBatches(loader))
    ensures forall k :: 0 <= k < |saved| ==> SavedAs(saved[k], k, PredictedBatches(loader), LabelBatches(loader))
  {
    var predSet, labelSet := DatasetPredictions(loader);
    assert predSet == PredictedBatches(loader) && labelSet == LabelBatches(loader);
    var index;
    saved, index, completed := SavePredictions(predSet, labelSet);
  }
}
