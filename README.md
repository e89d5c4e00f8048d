# Agreement overlays for a binary segmentation model

This project models the two overlay scripts of a SegFormer fine-tuning repository,
`scripts/utilities/saveComparisonWithOverlay.py` and `scripts/utilities/predictionOverlay.py`.
Both scripts run a segmentation model over a test set and save one PNG per image.
Each PNG shows the image's *agreement map*, computed from the predicted mask and the ground-truth mask:

- 0: correct negative (predicted 0, truth 0);
- 1: correct positive (predicted 1, truth 1);
- 2: missed positive (predicted 0, truth 1);
- 3: spurious positive (predicted 1, truth 0).

The two scripts differ in how they organise the output:

- `saveComparisonWithOverlay.py` keeps the predictions batch by batch.
  It saves a two-panel figure, with the agreement map beside the ground truth.
  A counter `index` runs across all batches and names the files.
- `predictionOverlay.py` first flattens the batches into two parallel lists, using `zip`.
  It then saves element `i` alone as `result_i.png`.

The model consists of five modules:

- `Agreement` (agreement.dfy) holds the encoder, which both scripts share line for line.
  - Masks are `array2<int>`.
  - `Encode` allocates a zero array shaped like the prediction.
  - It then applies the four masked assignments in the scripts' order, each as a nested loop (`MaskedWrite`).
  - It is proved to produce `Category(pred, truth)` at every pixel.
  - `Category` is the per-pixel classification. Its partners are the `Outcome` classification and the inverse decoders `PredictedOf`/`ActualOf`.
  - The four assignments select pairwise-disjoint pixel sets, so the passes can be applied in any order. `PassOrderIrrelevant` proves this.
- `FileNames` (file_names.dfy) defines `result_<k>.png` as `FileName(k)`. Here `<k>` is the decimal text of `k`. `FileName` itself carries no contract; its properties are the lemmas `DecimalRoundTrip`, `FileNameInjective` and `FileNamesDistinct`, which the table cites for the naming lines.
- `Batching` (batching.dfy) defines batches, concatenation and the counter value `Offset(b) + j` of image `j` of batch `b`. It proves:
  - the counter value of every position;
  - that no two positions share a counter value;
  - the batch-then-image order.
- `ComparisonOverlay` (comparison_overlay.dfy) models `dataset_predictions`, `savePredictions` and the main flow of the comparison script.
- `PredictionOverlay` (prediction_overlay.dfy) models the same three parts of the single-panel script.

The model treats the external parts of each run as follows:

- The inference stage becomes a parameter, a sequence of `Batch(predicted, labels)` values.
- `plt.savefig` is replaced by appending a figure record (name and panels) to the returned sequence `saved`.
- An `IndexError` raised by the save loops becomes `completed == false`. This happens when a prediction has no label at its position. The figures written before the error remain in `saved`.

Two behaviours of the code are easy to miss, and the model keeps both:

- A pixel value outside {0,1} matches none of the four masks and keeps the 0 from `np.zeros_like`. `Category` returns 0 there, so every output value is in {0,1,2,3}.
- In `predictionOverlay.py`, `zip` stops at the shorter of a batch's predictions and labels. Both come from the same batch, so in practice they have equal length and every image is saved. `PredictionOverlay.DatasetPredictions` models the truncation: a batch contributes `min(len(predicted_mask), len(labels))` pairs.

## Model

| member | source | states |
|---|---|---|
| Agreement.Category | scripts/utilities/saveComparisonWithOverlay.py:51-55 | the value left at a pixel is in {0,1,2,3}; on binary pixels it is the code of the outcome (correct negative/positive, missed, spurious); any pixel outside {0,1} keeps 0 |
| Agreement.CategoryBijective | scripts/utilities/saveComparisonWithOverlay.py:52-55 | on binary masks the encoding is one-to-one: prediction and truth are recovered from the code, and every code 0..3 arises from exactly one binary pair |
| Agreement.CategoryOfAgreement | scripts/utilities/predictionOverlay.py:50-51 | where prediction and truth agree on a binary pixel the map repeats that value (only 0s and 1s for identical masks) |
| Agreement.PassesDisjoint | scripts/utilities/predictionOverlay.py:50-53 | no two of the four masked assignments select the same (prediction, truth) pair |
| Agreement.SequentialDisjoint | scripts/utilities/predictionOverlay.py:49-53 | with disjoint passes a pixel ends with the code of the one pass that selects it, or keeps its initial value if none does |
| Agreement.PassOrderIrrelevant | scripts/utilities/predictionOverlay.py:50-53 | any ordering of the four passes, applied to a zero pixel, yields `Category`: the order of the assignments does not matter |
| Agreement.PassesComputeCategory | scripts/utilities/saveComparisonWithOverlay.py:51-55 | zero followed by the four assignments in the scripts' order equals `Category` |
| Agreement.MaskedWrite | scripts/utilities/saveComparisonWithOverlay.py:52-55 | one masked assignment: each selected pixel gets the code, every other pixel keeps its old value; only the output array changes |
| Agreement.Encode | scripts/utilities/saveComparisonWithOverlay.py:51-55 | the result is a freshly allocated array, shaped like the prediction, holding `Category(pred, truth)` at every pixel; the inputs are not modified |
| FileNames.Decimal | scripts/utilities/predictionOverlay.py:48 | the decimal text of the counter is non-empty, all digits, without a leading zero |
| FileNames.DecimalRoundTrip | scripts/utilities/saveComparisonWithOverlay.py:69 | parsing the decimal text of `n` gives back `n` |
| FileNames.FileNameInjective | scripts/utilities/saveComparisonWithOverlay.py:69-70 | `result_<i>.png` and `result_<j>.png` are equal exactly when i = j |
| FileNames.FileNamesDistinct | scripts/utilities/saveComparisonWithOverlay.py:69-73 | the first n counter values name n different files |
| Batching.Concat | scripts/utilities/predictionOverlay.py:38-40 | the concatenation of the batches is as long as the batch lengths add up to |
| Batching.OffsetStep | scripts/utilities/saveComparisonWithOverlay.py:46-73 | finishing batch b advances the counter by exactly the length of batch b |
| Batching.OffsetEnd | scripts/utilities/saveComparisonWithOverlay.py:44-73 | after the last batch the counter equals the sum of all batch lengths |
| Batching.OffsetBefore | scripts/utilities/saveComparisonWithOverlay.py:46-47 | every image of batch b is numbered below every image of any later batch |
| Batching.PositionOrder | scripts/utilities/saveComparisonWithOverlay.py:46-47 | image (b, j) is numbered below image (b', j') exactly when it comes first in batch-then-image order, so distinct images get distinct numbers |
| Batching.PositionsAt | scripts/utilities/saveComparisonWithOverlay.py:46-73 | the counter value Offset(b) + j is given to exactly the image at position j of batch b |
| Batching.ConcatAt | scripts/utilities/predictionOverlay.py:38-40 | position j of batch b lands at index Offset(b) + j of the flattened list |
| Batching.ConcatPositions | scripts/utilities/predictionOverlay.py:25-40 | index k of the flattened list holds the element at the k-th (batch, image) position, and k is that position's counter value |
| ComparisonOverlay.DatasetPredictions | scripts/utilities/saveComparisonWithOverlay.py:22-40 | one entry per batch, in loader order: `pred_set[b]` and `label_set[b]` are batch b's predicted and ground-truth masks |
| ComparisonOverlay.SavePredictions | scripts/utilities/saveComparisonWithOverlay.py:42-75 | the counter ends equal to the number of figures; it completes (and then saves exactly the sum of the batch lengths) iff every non-empty batch has enough labels; figure k is named `result_<k>.png` and shows the k-th image in batch-then-image order beside its label; names are distinct; on an IndexError it stops exactly at the first unlabelled image; an empty `pred_set` saves nothing |
| ComparisonOverlay.SaveBatch | scripts/utilities/saveComparisonWithOverlay.py:47-73 | the inner loop takes the counter `index` at Offset(b), names each figure by the counter and advances it by one after the save, so it stays equal to the number of figures; it saves each image of batch b in order and completes iff the batch's labels cover it |
| ComparisonOverlay.SavedAtOffset | scripts/utilities/saveComparisonWithOverlay.py:46-73 | the image at position j of batch b is saved as `result_<Offset(b) + j>.png`, showing its own agreement map and label |
| ComparisonOverlay.Run | scripts/utilities/saveComparisonWithOverlay.py:100-106 | when each batch has as many labels as predictions the run completes and saves exactly the sum of the batch lengths; every figure is the right one for its number |
| PredictionOverlay.DatasetPredictions | scripts/utilities/predictionOverlay.py:22-41 | `pred_set` and `label_set` are the in-order concatenations, over the batches, of the pairs `zip` yields: each batch contributes its first min(len(predicted_mask), len(labels)) predictions and as many labels, so the two lists have equal length |
| PredictionOverlay.AppendZipped | scripts/utilities/predictionOverlay.py:38-40 | the inner loop appends exactly the zipped predictions of one batch to `pred_set` and the matching labels to `label_set`, in order |
| PredictionOverlay.FlattenPaired | scripts/utilities/predictionOverlay.py:38-40 | position k of both flat lists comes from the same batch and the same place in it, within what `zip` yields: the pairs stay together |
| PredictionOverlay.SavePredictions | scripts/utilities/predictionOverlay.py:43-60 | element i is saved, in increasing i, as `result_<i>.png` showing the agreement map of pair i; completes iff `label_set` is at least as long as `pred_set`, otherwise stops at the first missing label; names are distinct |
| PredictionOverlay.Run | scripts/utilities/predictionOverlay.py:85-92 | the run always completes (`completed` is true) and saves one figure per zipped pair, which is one per image when each batch has as many labels as predictions; figure k is named by k and shows the k-th pair in batch-then-image order |

## Left out

- Model loading, the forward pass, `interpolate` and `argmax` are tensor code in an external framework. The inference output is a parameter: the predicted masks are arbitrary integer arrays.
- `SegmentationDataModule`, the dataloaders, `torch.manual_seed` and `set_float32_matmul_precision` are external framework calls.
- `color_palette` and `apply_palette` come from the `colorPalette` module, which is not part of this model. The figures record the uncoloured agreement map and ground-truth mask that would be coloured.
- Matplotlib rendering is I/O: `subplots`, `imshow`, the panel titles, `savefig` and `close`. Saving a file is modelled as appending a record to `saved`.
- The save directory is left out. The model keeps only the file name; `os.path.join(save_path, …)` puts every file in the same directory.
- `argparse`, `os.makedirs`, tqdm progress bars and `print` are command-line and filesystem plumbing.
- The `loss` value returned by the model is never used.
- Agreement.Encode: requires the prediction and the label to have the same shape. numpy would broadcast some other shapes, or raise an error for the rest. Neither happens with masks from the same batch.
- ComparisonOverlay.SavePredictions: an `IndexError` ends the model's loop with `completed == false`. The uncaught exception that terminates the script is not modelled.
- PredictionOverlay.SavePredictions: as above.
- Pixel values are unbounded integers. The encoder only compares them, so the int64 width of the numpy arrays plays no role.
