/**
 * The single-panel script: predictions are flattened into one list of
 * (prediction, label) pairs, and element i is saved as the agreement map
 * alone, named `result_<i>.png`.
 */
module PredictionOverlay {
  import opened Agreement
  import opened Batching
  import opened FileNames

  /** One saved figure: its file name and the agreement map it shows (before colouring). */
  datatype Overlay = Overlay(name: string, agreement: Mask)

  function Min(x: nat, y: nat): nat { if x <= y then x else y }

  /** How many pairs `zip(predicted_mask, labels)` yields for one batch. */
  function Zipped(batch: Batch): nat { Min(|batch.predicted|, |batch.labels|) }

  /** The predictions one batch contributes: `zip` stops at the shorter list. */
  function ZippedPredictions(batch: Batch): seq<Mask> { batch.predicted[..Zipped(batch)] }

  /** The labels one batch contributes, one for each of its zipped predictions. */
  function ZippedLabels(batch: Batch): seq<Mask> { batch.labels[..Zipped(batch)] }

  /** The predictions each batch contributes, in loader order. */
  function PredictedParts(loader: seq<Batch>): seq<seq<Mask>>
  {
    seq(|loader|, b requires 0 <= b < |loader| => ZippedPredictions(loader[b]))
  }

  /** The labels each batch contributes, in loader order, matching `PredictedParts` one for one. */
  function LabelParts(loader: seq<Batch>): seq<seq<Mask>>
  {
    seq(|loader|, b requires 0 <= b < |loader| => ZippedLabels(loader[b]))
  }

  /**
   * Flattens the inference output: for every batch, in loader order, each
   * (prediction, label) pair that `zip` yields is appended to the two lists.
   */
  method DatasetPredictions(loader: seq<Batch>) returns (predSet: seq<Mask>, labelSet: seq<Mask>)
    ensures predSet == Concat(PredictedParts(loader))
    ensures labelSet == Concat(LabelParts(loader))
    ensures |predSet| == |labelSet| == TotalLength(PredictedParts(loader))
  {
    var preds, labels := PredictedParts(loader), LabelParts(loader);
    predSet, labelSet := [], [];
    for b := 0 to |loader|
      invariant predSet == Concat(preds[..b])
      invariant labelSet == Concat(labels[..b])
    {
      predSet, labelSet := AppendZipped(predSet, labelSet, loader[b]);
      ConcatPrefixStep(preds, b);
      ConcatPrefixStep(labels, b);
    }
    assert preds[..|loader|] == preds;
    assert labels[..|loader|] == labels;
    SameLengths(preds, labels);
  }

  /** The inner loop over `zip(predicted_mask, labels)` of one batch. */
  method AppendZipped(predSet: seq<Mask>, labelSet: seq<Mask>, batch: Batch)
    returns (predSet': seq<Mask>, labelSet': seq<Mask>)
    ensures predSet' == predSet + ZippedPredictions(batch)
    ensures labelSet' == labelSet + ZippedLabels(batch)
  {
    predSet', labelSet' := predSet, labelSet;
    for j := 0 to Zipped(batch)
      invariant predSet' == predSet + batch.predicted[..j]
      invariant labelSet' == labelSet + batch.labels[..j]
    {
      predSet' := predSet' + [batch.predicted[j]];
      labelSet' := labelSet' + [batch.labels[j]];
      assert batch.predicted[..j + 1] == batch.predicted[..j] + [batch.predicted[j]];
      assert batch.labels[..j + 1] == batch.labels[..j] + [batch.labels[j]];
    }
  }

  /**
   * Flattening keeps the pairs together: the prediction and the label at
   * position k of the two lists come from the same batch and the same place
   * in it, and that place is within what `zip` yields.
   */
  lemma FlattenPaired(loader: seq<Batch>, k: nat)
    requires k < |Concat(PredictedParts(loader))|
    ensures Positions(PredictedParts(loader))[k].0 < |loader|
    ensures Positions(PredictedParts(loader))[k].1 < Zipped(loader[Positions(PredictedParts(loader))[k].0])
    ensures Concat(PredictedParts(loader))[k] ==
      loader[Positions(PredictedParts(loader))[k].0].predicted[Positions(PredictedParts(loader))[k].1]
    ensures k < |Concat(LabelParts(loader))|
    ensures Concat(LabelParts(loader))[k] ==
      loader[Positions(PredictedParts(loader))[k].0].labels[Positions(PredictedParts(loader))[k].1]
  {
    var preds, labels := PredictedParts(loader), LabelParts(loader);
    assert forall i :: 0 <= i < |loader| ==> |preds[i]| == |labels[i]| == Zipped(loader[i]);
    ConcatPositions(preds, k);
    var b, j := Positions(preds)[k].0, Positions(preds)[k].1;
    PositionsAt(preds, b, j);
    SameLengths(preds[..b], labels[..b]);
    PositionsAt(labels, b, j);
    ConcatAt(labels, b, j);
  }

  /** The save loop: element i of the lists becomes figure `result_<i>.png`. */
  method SavePredictions(predSet: seq<Mask>, labelSet: seq<Mask>) returns (saved: seq<Overlay>, completed: bool)
    requires forall i :: 0 <= i < |predSet| && i < |labelSet| ==> SameShape(predSet[i], labelSet[i])
    ensures completed <==> |predSet| <= |labelSet|
    ensures |saved| == Min(|predSet|, |labelSet|)
    ensures forall i :: 0 <= i < |saved| ==>
      saved[i].name == FileName(i) && Encodes(saved[i].agreement, predSet[i], labelSet[i])
    ensures forall i, i' :: 0 <= i < i' < |saved| ==> saved[i].name != saved[i'].name
  {
    saved := [];
    for i := 0 to |predSet|
      invariant |saved| == i <= |labelSet|
      invariant forall k :: 0 <= k < |saved| ==>
        saved[k].name == FileName(k) && Encodes(saved[k].agreement, predSet[k], labelSet[k])
    {
      if i >= |labelSet| {
        // label_set[i] raises IndexError here.
        FileNamesDistinct(|saved|);
        return saved, false;
      }
      var agreement := Encode(predSet[i], labelSet[i]);
      saved := saved + [Overlay(FileName(i), agreement)];
    }
    completed := true;
    FileNamesDistinct(|saved|);
  }

  /** `o` is figure number `k` of a run over `loader`: named by `k`, showing the k-th zipped pair. */
  predicate OverlayFor(o: Overlay, k: nat, loader: seq<Batch>)
    reads o.agreement, PairAt(loader, k)
  {
    var ps := Positions(PredictedParts(loader));
    k < |ps| && ps[k].0 < |loader| && ps[k].1 < Zipped(loader[ps[k].0]) &&
    o.name == FileName(k) &&
    Encodes(o.agreement, loader[ps[k].0].predicted[ps[k].1], loader[ps[k].0].labels[ps[k].1])
  }

  /** The prediction and label of the k-th zipped pair, when it exists. */
  function PairAt(loader: seq<Batch>, k: nat): set<Mask>
  {
    var ps := Positions(PredictedParts(loader));
    if k < |ps| && ps[k].0 < |loader| && ps[k].1 < Zipped(loader[ps[k].0])
    then {loader[ps[k].0].predicted[ps[k].1], loader[ps[k].0].labels[ps[k].1]}
    else {}
  }

  /**
   * The script's main flow after the model and loader are set up. It always
   * completes, saving one figure per zipped pair, numbered from 0 in
   * batch-then-image order.
   */
  method Run(loader: seq<Batch>) returns (saved: seq<Overlay>, completed: bool)
    requires forall b, j :: 0 <= b < |loader| && 0 <= j < |loader[b].predicted| && j < |loader[b].labels| ==>
      SameShape(loader[b].predicted[j], loader[b].labels[j])
    ensures completed
    ensures |saved| == TotalLength(PredictedParts(loader))
    ensures (forall b :: 0 <= b < |loader| ==> |loader[b].predicted| == |loader[b].labels|) ==>
      |saved| == TotalLength(PredictedBatches(loader))
    ensures forall k :: 0 <= k < |saved| ==> OverlayFor(saved[k], k, loader)
  {
    var predSet, labelSet := DatasetPredictions(loader);
    forall i | 0 <= i < |predSet| ensures SameShape(predSet[i], labelSet[i]) {
      FlattenPaired(loader, i);
    }
    saved, completed := SavePredictions(predSet, labelSet);
    forall k | 0 <= k < |saved| ensures OverlayFor(saved[k], k, loader) {
      FlattenPaired(loader, k);
    }
    if forall b :: 0 <= b < |loader| ==> |loader[b].predicted| == |loader[b].labels| {
      SameLengths(PredictedParts(loader), PredictedBatches(loader));
    }
  }
}
