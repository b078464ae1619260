/**
 * The DETR set criterion: the dense class-target grid, the matched box pairs,
 * `num_boxes`, the class-weight vector, and the loss dictionary assembled
 * over the final decoder layer and every auxiliary layer.
 *
 * The real-valued losses stay symbolic: a `LossTerm` records exactly the
 * tensors and the divisor a loss value is computed from.
 */
module Criterion {
  import opened Results
  import opened Sequences
  import opened PermutationIndex
  import opened LabelGrid
  import opened LossKeys

  /** A box as (center x, center y, width, height). */
  datatype Box = Box(cx: real, cy: real, w: real, h: real)

  /** One image's ground truth: `t["labels"]` and `t["boxes"]`. */
  datatype Target = Target(labels: seq<int>, boxes: seq<Box>)

  /** One decoder layer's output: `pred_logits` [B, Q, C + 1] and
      `pred_boxes` [B, Q], either of which may be absent from the dict. */
  datatype Prediction = Prediction(logits: Option<seq<seq<seq<real>>>>, boxes: Option<seq<seq<Box>>>)

  /** The model output: the final layer and, optionally, `aux_outputs`. */
  datatype Outputs = Outputs(final: Prediction, aux: Option<seq<Prediction>>)

  /** The Hungarian matcher, which is not part of this model: for each image, the
      matched query slots and target objects. */
  type Matcher = (Prediction, seq<Target>) -> seq<ImageMatch>

  /** A loss value, kept as the inputs it is computed from. */
  datatype LossTerm =
    | CrossEntropy(logits: seq<seq<seq<real>>>, targetClasses: seq<seq<int>>, classWeight: seq<real>)
    | L1Mean(srcBoxes: seq<Box>, targetBoxes: seq<Box>, numBoxes: nat)   // l1_loss(...).sum() / num_boxes
    | GiouMean(srcBoxes: seq<Box>, targetBoxes: seq<Box>, numBoxes: nat) // (1 - diag(giou)).sum() / num_boxes

  type Losses = map<string, LossTerm>

  // ---- shapes the matcher's output has to fit ---------------------------

  /** Number of query slots Q of a [B, Q, C + 1] tensor. */
  function Queries(logits: seq<seq<seq<real>>>): nat
  {
    if |logits| == 0 then 0 else |logits[0]|
  }

  predicate Rectangular(logits: seq<seq<seq<real>>>)
  {
    forall b :: 0 <= b < |logits| ==> |logits[b]| == Queries(logits)
  }

  /** One assignment per image, src and tgt of equal length, every target
      index naming an object of that image. */
  predicate MatchesFit(targets: seq<Target>, indices: seq<ImageMatch>)
  {
    && |indices| == |targets|
    && (forall i :: 0 <= i < |indices| ==> |indices[i].src| == |indices[i].tgt|)
    && (forall i, k :: 0 <= i < |indices| && 0 <= k < |indices[i].tgt| ==>
          indices[i].tgt[k] < |targets[i].labels| && indices[i].tgt[k] < |targets[i].boxes|)
  }

  /** Every source index names a query slot of the present tensors. */
  predicate IndicesFit(p: Prediction, targets: seq<Target>, indices: seq<ImageMatch>)
  {
    && MatchesFit(targets, indices)
    && (p.logits.Some? ==>
          && |p.logits.value| == |targets| && Rectangular(p.logits.value)
          && forall i, k :: 0 <= i < |indices| && 0 <= k < |indices[i].src| ==> indices[i].src[k] < Queries(p.logits.value))
    && (p.boxes.Some? ==>
          && |p.boxes.value| == |targets|
          && forall i, k :: 0 <= i < |indices| && 0 <= k < |indices[i].src| ==> indices[i].src[k] < |p.boxes.value[i]|)
  }

  /** The matcher's answer for layer p fits p and the targets. */
  predicate LayerFits(matcher: Matcher, p: Prediction, targets: seq<Target>)
  {
    IndicesFit(p, targets, matcher(p, targets))
  }

  /** Source indices that are bounded per image stay bounded after flattening. */
  lemma SrcIndexFits(indices: seq<ImageMatch>, widths: seq<nat>)
    requires |widths| == |indices|
    requires forall i, k :: 0 <= i < |indices| && 0 <= k < |indices[i].src| ==> indices[i].src[k] < widths[i]
    ensures forall p :: 0 <= p < |SrcPermutationIdx(indices).0| ==>
      SrcPermutationIdx(indices).0[p] < |widths| && SrcPermutationIdx(indices).1[p] < widths[SrcPermutationIdx(indices).0[p]]
  {
    forall p | 0 <= p < |SrcPermutationIdx(indices).0|
      ensures SrcPermutationIdx(indices).1[p] < widths[SrcPermutationIdx(indices).0[p]]
    {
      SrcPermutationIdxFlat(indices, p);
    }
  }

  // ---- class weights (`__init__`) ----------------------------------------

  /** `torch.ones(num_classes + 1)` with the last entry set to `eos_coef`. */
  function ClassWeights(numClasses: nat, eosCoef: real): (w: seq<real>)
    ensures |w| == numClasses + 1
    ensures forall c :: 0 <= c < numClasses ==> w[c] == 1.0
    ensures w[numClasses] == eosCoef
  {
    seq(numClasses + 1, c requires 0 <= c <= numClasses => if c < numClasses then 1.0 else eosCoef)
  }

  // ---- the class-target grid (`loss_labels`) -----------------------------

  /** `xs[js]`. */
  function Gather<T>(xs: seq<T>, js: seq<nat>): seq<T>
    requires forall k :: 0 <= k < |js| ==> js[k] < |xs|
  {
    seq(|js|, k requires 0 <= k < |js| => xs[js[k]])
  }

  /** `[t["labels"][J] for t, (_, J) in zip(targets, indices)]`. */
  function MatchedLabels(targets: seq<Target>, indices: seq<ImageMatch>): (r: seq<seq<int>>)
    requires MatchesFit(targets, indices)
    ensures Aligned(Sources(indices), r)
  {
    seq(|indices|, i requires 0 <= i < |indices| => Gather(targets[i].labels, indices[i].tgt))
  }

  /** `target_classes_o`, one label per match in flat order. */
  function TargetClassesO(targets: seq<Target>, indices: seq<ImageMatch>): (r: seq<int>)
    requires MatchesFit(targets, indices)
    ensures |r| == TotalLen(Sources(indices))
  {
    OffsetSameShape(Sources(indices), MatchedLabels(targets, indices), 0);
    Cat(MatchedLabels(targets, indices))
  }

  /** Match k of image i contributes, at flat position Offset(i) + k, the
      label of the object it is matched to. */
  lemma TargetClassesOAt(targets: seq<Target>, indices: seq<ImageMatch>, i: nat, k: nat)
    requires MatchesFit(targets, indices)
    requires i < |indices| && k < |indices[i].tgt|
    ensures Offset(Sources(indices), i) + k < |TargetClassesO(targets, indices)|
    ensures TargetClassesO(targets, indices)[Offset(Sources(indices), i) + k] == targets[i].labels[indices[i].tgt[k]]
  {
    var blocks := MatchedLabels(targets, indices);
    OffsetSameShape(Sources(indices), blocks, i);
    CatAt(blocks, i, k);
  }

  /** `target_classes`: a rows x cols grid of `fill` with each matched slot
      overwritten by its target's label. */
  function TargetClasses(fill: nat, rows: nat, cols: nat, targets: seq<Target>, indices: seq<ImageMatch>): (g: seq<seq<int>>)
    requires MatchesFit(targets, indices)
    ensures |g| == rows && forall b :: 0 <= b < rows ==> |g[b]| == cols
  {
    var idx := SrcPermutationIdx(indices);
    var vals := TargetClassesO(targets, indices);
    seq(rows, b requires 0 <= b < rows =>
      seq(cols, q requires 0 <= q < cols => Scattered(idx.0, idx.1, vals, b, q, fill)))
  }

  /** Row b of the grid is image b's own matches written over `fill`. */
  lemma TargetClassesCell(fill: nat, rows: nat, cols: nat, targets: seq<Target>, indices: seq<ImageMatch>, b: nat, q: nat)
    requires MatchesFit(targets, indices) && b < rows && q < cols
    ensures TargetClasses(fill, rows, cols, targets, indices)[b][q]
         == if b < |indices| then RowValue(indices[b].src, MatchedLabels(targets, indices)[b], q, fill) else fill
  {
    ScatterPerImage(Sources(indices), MatchedLabels(targets, indices), b, q, fill);
  }

  /** A matched slot holds the label of the object it is matched to. */
  lemma TargetClassesMatched(fill: nat, rows: nat, cols: nat, targets: seq<Target>, indices: seq<ImageMatch>, b: nat, k: nat)
    requires MatchesFit(targets, indices) && b < |indices| <= rows
    requires k < |indices[b].src| && indices[b].src[k] < cols && Distinct(indices[b].src)
    ensures TargetClasses(fill, rows, cols, targets, indices)[b][indices[b].src[k]] == targets[b].labels[indices[b].tgt[k]]
  {
    TargetClassesCell(fill, rows, cols, targets, indices, b, indices[b].src[k]);
    RowValueAt(indices[b].src, MatchedLabels(targets, indices)[b], k, fill);
  }

  /** A slot that no match names holds the no-object class. */
  lemma TargetClassesUnmatched(fill: nat, rows: nat, cols: nat, targets: seq<Target>, indices: seq<ImageMatch>, b: nat, q: nat)
    requires MatchesFit(targets, indices) && b < rows && q < cols
    requires b < |indices| ==> forall k :: 0 <= k < |indices[b].src| ==> indices[b].src[k] != q
    ensures TargetClasses(fill, rows, cols, targets, indices)[b][q] == fill
  {
    TargetClassesCell(fill, rows, cols, targets, indices, b, q);
    if b < |indices| {
      RowValueMiss(indices[b].src, MatchedLabels(targets, indices)[b], q, fill);
    }
  }

  /** A grid whose row b has |blocks[b]| changed cells has TotalLen(blocks) of them. */
  lemma {:induction false} ChangedCountRows(grid: seq<seq<int>>, blocks: seq<seq<nat>>, fill: int)
    requires |grid| == |blocks|
    requires forall b :: 0 <= b < |grid| ==> |Changed(grid[b], fill)| == |blocks[b]|
    ensures ChangedCount(grid, fill) == TotalLen(blocks)
  {
    if |grid| > 0 {
      ChangedCountRows(grid[1..], blocks[1..], fill);
    }
  }

  /** With one-to-one, in-range matches and every label below the no-object
      class, the grid differs from `fill` in exactly one cell per match. */
  lemma TargetClassesCount(fill: nat, cols: nat, targets: seq<Target>, indices: seq<ImageMatch>)
    requires MatchesFit(targets, indices)
    requires forall i :: 0 <= i < |indices| ==> Distinct(indices[i].src)
    requires forall i, k :: 0 <= i < |indices| && 0 <= k < |indices[i].src| ==> indices[i].src[k] < cols
    requires forall i, j :: 0 <= i < |targets| && 0 <= j < |targets[i].labels| ==> targets[i].labels[j] < fill
    ensures ChangedCount(TargetClasses(fill, |indices|, cols, targets, indices), fill) == TotalLen(Sources(indices))
  {
    var g := TargetClasses(fill, |indices|, cols, targets, indices);
    var ml := MatchedLabels(targets, indices);
    forall b | 0 <= b < |g| ensures |Changed(g[b], fill)| == |Sources(indices)[b]| {
      var src := indices[b].src;
      var row := seq(cols, q requires 0 <= q => RowValue(src, ml[b], q, fill));
      forall q | 0 <= q < cols ensures g[b][q] == row[q] {
        TargetClassesCell(fill, |indices|, cols, targets, indices, b, q);
      }
      assert g[b] == row;
      RowChangedCount(cols, src, ml[b], fill);
    }
    ChangedCountRows(g, Sources(indices), fill);
  }

  /** `loss_labels`: the cross-entropy term over the logits and the grid, the
      failed `'pred_logits' in outputs` assertion, or, for an empty batch, the
      failure of `torch.cat` on the empty list of matches. */
  function LabelLoss(numClasses: nat, eosCoef: real, p: Prediction, targets: seq<Target>, indices: seq<ImageMatch>): (r: Result<Losses>)
    requires IndicesFit(p, targets, indices)
    ensures p.logits.None? <==> r == Err(MissingField("pred_logits"))
    ensures p.logits.Some? && |indices| == 0 <==> r == Err(EmptyCat)
    ensures r.Ok? <==> p.logits.Some? && |indices| > 0
    ensures r.Ok? ==> r.value.Keys == {"loss_ce"}
  {
    match p.logits
    case None => Err(MissingField("pred_logits"))
    case Some(logits) =>
      if |indices| == 0 then Err(EmptyCat)
      else
        var grid := TargetClasses(numClasses, |logits|, Queries(logits), targets, indices);
        Ok(map["loss_ce" := CrossEntropy(logits, grid, ClassWeights(numClasses, eosCoef))])
  }

  /** The cross-entropy term is taken over the layer's own logits, the grid
      of the layer's matches, and the class weights. */
  lemma LabelLossTerm(numClasses: nat, eosCoef: real, p: Prediction, targets: seq<Target>, indices: seq<ImageMatch>)
    requires IndicesFit(p, targets, indices) && p.logits.Some? && |indices| > 0
    ensures LabelLoss(numClasses, eosCoef, p, targets, indices).value["loss_ce"]
         == CrossEntropy(p.logits.value, TargetClasses(numClasses, |p.logits.value|, Queries(p.logits.value), targets, indices),
                         ClassWeights(numClasses, eosCoef))
  {
  }

  // ---- matched box pairs (`loss_boxes`) ----------------------------------

  /** `outputs['pred_boxes'][idx]`. */
  function MatchedBoxes(boxes: seq<seq<Box>>, batch: seq<nat>, src: seq<nat>): (r: seq<Box>)
    requires |batch| == |src|
    requires forall p :: 0 <= p < |batch| ==> batch[p] < |boxes| && src[p] < |boxes[batch[p]]|
    ensures |r| == |batch|
  {
    seq(|batch|, p requires 0 <= p < |batch| => boxes[batch[p]][src[p]])
  }

  /** `[t['boxes'][i] for t, (_, i) in zip(targets, indices)]`. */
  function MatchedTargetBoxes(targets: seq<Target>, indices: seq<ImageMatch>): (r: seq<seq<Box>>)
    requires MatchesFit(targets, indices)
    ensures Aligned(Sources(indices), r)
  {
    seq(|indices|, i requires 0 <= i < |indices| => Gather(targets[i].boxes, indices[i].tgt))
  }

  /** `target_boxes`, one box per match in flat order. */
  function TargetBoxes(targets: seq<Target>, indices: seq<ImageMatch>): (r: seq<Box>)
    requires MatchesFit(targets, indices)
    ensures |r| == TotalLen(Sources(indices))
  {
    OffsetSameShape(Sources(indices), MatchedTargetBoxes(targets, indices), 0);
    Cat(MatchedTargetBoxes(targets, indices))
  }

  /** The number of boxes of each image. */
  function Widths(boxes: seq<seq<Box>>): (w: seq<nat>)
    ensures |w| == |boxes| && forall i :: 0 <= i < |boxes| ==> w[i] == |boxes[i]|
  {
    seq(|boxes|, i requires 0 <= i < |boxes| => |boxes[i]|)
  }

  /** `src_boxes`, the predicted box of every match in flat order. */
  function SrcBoxes(boxes: seq<seq<Box>>, targets: seq<Target>, indices: seq<ImageMatch>): (r: seq<Box>)
    requires MatchesFit(targets, indices) && |boxes| == |targets|
    requires forall i, k :: 0 <= i < |indices| && 0 <= k < |indices[i].src| ==> indices[i].src[k] < |boxes[i]|
    ensures |r| == TotalLen(Sources(indices))
  {
    var idx := SrcPermutationIdx(indices);
    var widths := Widths(boxes);
    SrcIndexFits(indices, widths);
    MatchedBoxes(boxes, idx.0, idx.1)
  }

  /** `loss_boxes`: the L1 and GIoU terms over the same matched pairs, each
      divided by `num_boxes`, the failed `'pred_boxes' in outputs` assertion,
      or, for an empty batch, the failure of `torch.cat` on the empty list. */
  function BoxLoss(p: Prediction, targets: seq<Target>, indices: seq<ImageMatch>, numBoxes: nat): (r: Result<Losses>)
    requires IndicesFit(p, targets, indices)
    ensures p.boxes.None? <==> r == Err(MissingField("pred_boxes"))
    ensures p.boxes.Some? && |indices| == 0 <==> r == Err(EmptyCat)
    ensures r.Ok? <==> p.boxes.Some? && |indices| > 0
    ensures r.Ok? ==> r.value.Keys == {"loss_bbox", "loss_giou"}
  {
    match p.boxes
    case None => Err(MissingField("pred_boxes"))
    case Some(boxes) =>
      if |indices| == 0 then Err(EmptyCat)
      else
        var src := SrcBoxes(boxes, targets, indices);
        var tgt := TargetBoxes(targets, indices);
        Ok(map["loss_bbox" := L1Mean(src, tgt, numBoxes), "loss_giou" := GiouMean(src, tgt, numBoxes)])
  }

  /** Both box terms are taken over the same matched pairs and divided by
      the same `num_boxes`. */
  lemma BoxLossTerms(p: Prediction, targets: seq<Target>, indices: seq<ImageMatch>, numBoxes: nat)
    requires IndicesFit(p, targets, indices) && p.boxes.Some? && |indices| > 0
    ensures BoxLoss(p, targets, indices, numBoxes).value["loss_bbox"]
         == L1Mean(SrcBoxes(p.boxes.value, targets, indices), TargetBoxes(targets, indices), numBoxes)
    ensures BoxLoss(p, targets, indices, numBoxes).value["loss_giou"]
         == GiouMean(SrcBoxes(p.boxes.value, targets, indices), TargetBoxes(targets, indices), numBoxes)
  {
  }

  /** The two box sequences are paired match by match: position
      Offset(i) + k holds the predicted box of query src_i[k] and the
      ground-truth box of object tgt_i[k], of image i. */
  lemma BoxPairs(boxes: seq<seq<Box>>, targets: seq<Target>, indices: seq<ImageMatch>, i: nat, k: nat)
    requires MatchesFit(targets, indices) && |boxes| == |targets|
    requires forall i, k :: 0 <= i < |indices| && 0 <= k < |indices[i].src| ==> indices[i].src[k] < |boxes[i]|
    requires i < |indices| && k < |indices[i].src|
    ensures Offset(Sources(indices), i) + k < |SrcBoxes(boxes, targets, indices)| == |TargetBoxes(targets, indices)|
    ensures SrcBoxes(boxes, targets, indices)[Offset(Sources(indices), i) + k] == boxes[i][indices[i].src[k]]
    ensures TargetBoxes(targets, indices)[Offset(Sources(indices), i) + k] == targets[i].boxes[indices[i].tgt[k]]
  {
    var blocks := MatchedTargetBoxes(targets, indices);
    SrcPermutationIdxAt(indices, i, k);
    OffsetSameShape(Sources(indices), blocks, i);
    CatAt(blocks, i, k);
  }

  // ---- num_boxes ---------------------------------------------------------

  /** `sum(len(t["labels"]) for t in targets)`. */
  function NumBoxes(targets: seq<Target>): nat
  {
    if |targets| == 0 then 0 else |targets[0].labels| + NumBoxes(targets[1..])
  }

  /** `num_boxes` is zero exactly when no image has an object; the code
      applies no floor, so the box terms are then divided by zero. */
  lemma {:induction false} NumBoxesZero(targets: seq<Target>)
    ensures NumBoxes(targets) == 0 <==> forall i :: 0 <= i < |targets| ==> |targets[i].labels| == 0
  {
    if |targets| > 0 {
      NumBoxesZero(targets[1..]);
      assert forall i :: 1 <= i < |targets| ==> targets[i] == targets[1..][i - 1];
    }
  }

  /** When every object of every image is matched, the number of matched
      pairs is `num_boxes`. */
  lemma {:induction false} NumBoxesMatched(targets: seq<Target>, indices: seq<ImageMatch>)
    requires MatchesFit(targets, indices)
    requires forall i :: 0 <= i < |indices| ==> |indices[i].tgt| == |targets[i].labels|
    ensures TotalLen(Sources(indices)) == NumBoxes(targets)
  {
    if |indices| > 0 {
      assert Sources(indices)[1..] == Sources(indices[1..]);
      NumBoxesMatched(targets[1..], indices[1..]);
    }
  }

  // ---- the loss dictionary (`forward`) -----------------------------------

  /** The three names every layer contributes. */
  function BaseKeys(): set<string>
  {
    {"loss_ce", "loss_bbox", "loss_giou"}
  }

  /** `loss_labels` then `loss_boxes` for one layer; the first failure wins. */
  function LayerLosses(numClasses: nat, eosCoef: real, p: Prediction, targets: seq<Target>, indices: seq<ImageMatch>, numBoxes: nat): (r: Result<Losses>)
    requires IndicesFit(p, targets, indices)
    ensures r.Ok? <==> p.logits.Some? && p.boxes.Some? && |targets| > 0
    ensures p.logits.None? ==> r == Err(MissingField("pred_logits"))
    ensures p.logits.Some? && |targets| == 0 ==> r == Err(EmptyCat)
    ensures p.logits.Some? && |targets| > 0 && p.boxes.None? ==> r == Err(MissingField("pred_boxes"))
    ensures r.Ok? ==> r.value.Keys == BaseKeys()
  {
    var l := LabelLoss(numClasses, eosCoef, p, targets, indices);
    if l.Err? then l
    else
      var bx := BoxLoss(p, targets, indices, numBoxes);
      if bx.Err? then bx else Ok(l.value + bx.value)
  }

  /** The auxiliary layers, or none when `aux_outputs` is absent. */
  function AuxLayers(outputs: Outputs): seq<Prediction>
  {
    if outputs.aux.Some? then outputs.aux.value else []
  }

  predicate AllLayersFit(matcher: Matcher, outputs: Outputs, targets: seq<Target>)
  {
    && LayerFits(matcher, outputs.final, targets)
    && forall i :: 0 <= i < |AuxLayers(outputs)| ==> LayerFits(matcher, AuxLayers(outputs)[i], targets)
  }

  /** A layer's terms under the names of auxiliary layer i, or its failure. */
  function Renamed(r: Result<Losses>, i: nat): Result<Losses>
  {
    if r.Ok? then Ok(Suffixed(r.value, i)) else r
  }

  /** The renamed terms of every auxiliary layer, each matched on its own. */
  function AuxResults(numClasses: nat, eosCoef: real, matcher: Matcher, aux: seq<Prediction>, targets: seq<Target>, numBoxes: nat)
    : (r: seq<Result<Losses>>)
    requires forall i :: 0 <= i < |aux| ==> LayerFits(matcher, aux[i], targets)
    ensures |r| == |aux|
  {
    seq(|aux|, i requires 0 <= i < |aux| =>
      assert LayerFits(matcher, aux[i], targets);
      Renamed(LayerLosses(numClasses, eosCoef, aux[i], targets, matcher(aux[i], targets), numBoxes), i))
  }

  /** `losses.update(l_dict)` for the first n layers, in order, starting from
      `base`; the first failing layer stops the loop. */
  function AuxFold(base: Losses, layers: seq<Result<Losses>>, n: nat): Result<Losses>
    requires n <= |layers|
  {
    if n == 0 then Ok(base)
    else
      var prev := AuxFold(base, layers, n - 1);
      if prev.Err? then prev
      else if layers[n - 1].Err? then layers[n - 1]
      else Ok(prev.value + layers[n - 1].value)
  }

  /** What `forward` returns for a criterion with these settings. */
  function ForwardLosses(numClasses: nat, eosCoef: real, matcher: Matcher, outputs: Outputs, targets: seq<Target>): Result<Losses>
    requires AllLayersFit(matcher, outputs, targets)
  {
    var numBoxes := NumBoxes(targets);
    var base := LayerLosses(numClasses, eosCoef, outputs.final, targets, matcher(outputs.final, targets), numBoxes);
    if base.Err? then base
    else
      var aux := AuxLayers(outputs);
      AuxFold(base.value, AuxResults(numClasses, eosCoef, matcher, aux, targets, numBoxes), |aux|)
  }

  // ---- the fold, for any names -------------------------------------------

  /** Layer i of the renamed results is layer i's own losses, renamed. */
  lemma AuxResultsAt(numClasses: nat, eosCoef: real, matcher: Matcher, aux: seq<Prediction>, targets: seq<Target>, numBoxes: nat, i: nat)
    requires forall i :: 0 <= i < |aux| ==> LayerFits(matcher, aux[i], targets)
    requires i < |aux|
    ensures LayerFits(matcher, aux[i], targets)
    ensures AuxResults(numClasses, eosCoef, matcher, aux, targets, numBoxes)[i]
         == Renamed(LayerLosses(numClasses, eosCoef, aux[i], targets, matcher(aux[i], targets), numBoxes), i)
  {
  }

  /** Turn i of the loop over `aux_outputs`, in terms of layer i's own
      losses l: a failure ends the loop with it, a success adds its renamed terms. */
  lemma AuxTurn(numClasses: nat, eosCoef: real, matcher: Matcher, aux: seq<Prediction>, targets: seq<Target>, numBoxes: nat,
                base: Losses, i: nat, acc: Losses, l: Result<Losses>)
    requires forall i :: 0 <= i < |aux| ==> LayerFits(matcher, aux[i], targets)
    requires i < |aux|
    requires AuxFold(base, AuxResults(numClasses, eosCoef, matcher, aux, targets, numBoxes), i) == Ok(acc)
    requires LayerFits(matcher, aux[i], targets)
    requires l == LayerLosses(numClasses, eosCoef, aux[i], targets, matcher(aux[i], targets), numBoxes)
    ensures l.Err? ==> AuxFold(base, AuxResults(numClasses, eosCoef, matcher, aux, targets, numBoxes), |aux|) == l
    ensures l.Ok? ==> AuxFold(base, AuxResults(numClasses, eosCoef, matcher, aux, targets, numBoxes), i + 1) == Ok(acc + Suffixed(l.value, i))
  {
    var layers := AuxResults(numClasses, eosCoef, matcher, aux, targets, numBoxes);
    AuxResultsAt(numClasses, eosCoef, matcher, aux, targets, numBoxes, i);
    AuxFoldStep(base, layers, i, acc);
  }

  /** One turn of the loop: a failing layer ends it with that failure, a
      succeeding one adds its terms. */
  lemma AuxFoldStep(base: Losses, layers: seq<Result<Losses>>, i: nat, acc: Losses)
    requires i < |layers| && AuxFold(base, layers, i) == Ok(acc)
    ensures layers[i].Err? ==> AuxFold(base, layers, |layers|) == layers[i]
    ensures layers[i].Ok? ==> AuxFold(base, layers, i + 1) == Ok(acc + layers[i].value)
  {
    if layers[i].Err? {
      AuxFoldStops(base, layers, i + 1, |layers|);
    }
  }

  /** Once a turn fails, the loop has stopped with that failure. */
  lemma {:induction false} AuxFoldStops(base: Losses, layers: seq<Result<Losses>>, n: nat, m: nat)
    requires n <= m <= |layers|
    requires AuxFold(base, layers, n).Err?
    ensures AuxFold(base, layers, m) == AuxFold(base, layers, n)
  {
    if n < m {
      AuxFoldStops(base, layers, n, m - 1);
    }
  }

  /** The loop succeeds exactly when every turn's layer succeeds. */
  lemma {:induction false} AuxFoldOk(base: Losses, layers: seq<Result<Losses>>, n: nat)
    requires n <= |layers|
    ensures AuxFold(base, layers, n).Ok? <==> forall i :: 0 <= i < n ==> layers[i].Ok?
  {
    if n > 0 {
      AuxFoldOk(base, layers, n - 1);
    }
  }

  /** Layer i, when it succeeds, has exactly the names keys[i]. */
  predicate KeyedBy(layers: seq<Result<Losses>>, keys: seq<set<string>>)
  {
    |keys| == |layers| && forall i :: 0 <= i < |layers| ==> layers[i].Ok? ==> layers[i].value.Keys == keys[i]
  }

  /** keys[0] + ... + keys[n - 1]. */
  function UnionUpTo(keys: seq<set<string>>, n: nat): set<string>
    requires n <= |keys|
  {
    if n == 0 then {} else UnionUpTo(keys, n - 1) + keys[n - 1]
  }

  /** After n turns the dictionary has the names of `base` and of the first n layers. */
  lemma {:induction false} AuxFoldKeys(base: Losses, layers: seq<Result<Losses>>, keys: seq<set<string>>, n: nat)
    requires n <= |layers| && KeyedBy(layers, keys)
    requires AuxFold(base, layers, n).Ok?
    ensures AuxFold(base, layers, n).value.Keys == base.Keys + UnionUpTo(keys, n)
  {
    if n > 0 {
      AuxFoldKeys(base, layers, keys, n - 1);
    }
  }

  /** An entry of `base` whose name no layer uses survives every turn. */
  lemma {:induction false} AuxFoldKeepsBase(base: Losses, layers: seq<Result<Losses>>, keys: seq<set<string>>, n: nat, k: string)
    requires n <= |layers| && KeyedBy(layers, keys)
    requires AuxFold(base, layers, n).Ok?
    requires k in base && forall i :: 0 <= i < n ==> k !in keys[i]
    ensures k in AuxFold(base, layers, n).value && AuxFold(base, layers, n).value[k] == base[k]
  {
    if n > 0 {
      AuxFoldKeepsBase(base, layers, keys, n - 1, k);
    }
  }

  /** An entry of layer i whose name no later layer uses survives every later turn. */
  lemma {:induction false} AuxFoldKeepsLayer(base: Losses, layers: seq<Result<Losses>>, keys: seq<set<string>>, n: nat, i: nat, k: string)
    requires i < n <= |layers| && KeyedBy(layers, keys)
    requires AuxFold(base, layers, n).Ok?
    requires forall j :: i < j < n ==> k !in keys[j]
    ensures layers[i].Ok?
    ensures k in layers[i].value ==> k in AuxFold(base, layers, n).value && AuxFold(base, layers, n).value[k] == layers[i].value[k]
  {
    if i < n - 1 {
      AuxFoldKeepsLayer(base, layers, keys, n - 1, i, k);
    }
  }

  // ---- the `_i` names ----------------------------------------------------

  /** The names layer i adds. */
  function LayerKeys(i: nat): set<string>
  {
    set key | key in BaseKeys() :: Suffix(key, i)
  }

  /** The names the first n auxiliary layers add. */
  function AuxKeys(n: nat): set<string>
  {
    set key, i | key in BaseKeys() && 0 <= i < n :: Suffix(key, i)
  }

  /** A name that does not end in a digit. */
  predicate Plain(key: string)
  {
    |key| == 0 || !('0' <= key[|key| - 1] <= '9')
  }

  /** A layer's terms, renamed for layer i, have the names of LayerKeys(i). */
  lemma SuffixedKeys(l: Losses, i: nat)
    requires l.Keys == BaseKeys()
    ensures Suffixed(l, i).Keys == LayerKeys(i)
  {
  }

  /** Two layers never share a name. */
  lemma LayerKeysDisjoint(i: nat, j: nat, k: string)
    requires i != j && k in LayerKeys(i)
    ensures k !in LayerKeys(j)
  {
    if k in LayerKeys(j) {
      var a :| a in BaseKeys() && k == Suffix(a, i);
      var b :| b in BaseKeys() && k == Suffix(b, j);
      SuffixInjective(a, i, b, j);
    }
  }

  /** No layer uses a name that does not end in a digit. */
  lemma PlainNotLayerKey(k: string, i: nat)
    requires Plain(k)
    ensures k !in LayerKeys(i)
  {
    forall a | a in BaseKeys() ensures k != Suffix(a, i) {
      SuffixEndsInDigit(a, i);
    }
  }

  /** The layer names, collected over n layers, are AuxKeys(n). */
  lemma {:induction false} UnionLayerKeys(keys: seq<set<string>>, n: nat)
    requires n <= |keys|
    requires forall i :: 0 <= i < |keys| ==> keys[i] == LayerKeys(i)
    ensures UnionUpTo(keys, n) == AuxKeys(n)
  {
    if n > 0 {
      UnionLayerKeys(keys, n - 1);
      forall k | k in AuxKeys(n) ensures k in AuxKeys(n - 1) + LayerKeys(n - 1) {
        var key, i :| key in BaseKeys() && 0 <= i < n && k == Suffix(key, i);
        if i == n - 1 {
          assert k in LayerKeys(n - 1);
        } else {
          assert k in AuxKeys(n - 1);
        }
      }
    }
  }

  /** The auxiliary results carry the names of their own layer. */
  lemma AuxResultsKeyed(numClasses: nat, eosCoef: real, matcher: Matcher, aux: seq<Prediction>, targets: seq<Target>, numBoxes: nat)
    requires forall i :: 0 <= i < |aux| ==> LayerFits(matcher, aux[i], targets)
    ensures KeyedBy(AuxResults(numClasses, eosCoef, matcher, aux, targets, numBoxes), seq(|aux|, i requires 0 <= i => LayerKeys(i)))
  {
    var layers := AuxResults(numClasses, eosCoef, matcher, aux, targets, numBoxes);
    forall i | 0 <= i < |aux| && layers[i].Ok? ensures layers[i].value.Keys == LayerKeys(i) {
      assert LayerFits(matcher, aux[i], targets);
      SuffixedKeys(LayerLosses(numClasses, eosCoef, aux[i], targets, matcher(aux[i], targets), numBoxes).value, i);
    }
  }

  // ---- what `forward` returns --------------------------------------------

  /** The three base names end in a letter. */
  lemma BaseKeysPlain(k: string)
    requires k in BaseKeys()
    ensures Plain(k)
  {
    assert "loss_ce"[6] == 'e' && "loss_bbox"[8] == 'x' && "loss_giou"[8] == 'u';
  }

  /** A base entry survives the fold: no layer uses a base name. */
  lemma NamedFoldBase(base: Losses, layers: seq<Result<Losses>>, k: string)
    requires base.Keys == BaseKeys() && k in BaseKeys()
    requires KeyedBy(layers, seq(|layers|, i requires 0 <= i => LayerKeys(i)))
    requires AuxFold(base, layers, |layers|).Ok?
    ensures k in AuxFold(base, layers, |layers|).value
    ensures AuxFold(base, layers, |layers|).value[k] == base[k]
  {
    var keys := seq(|layers|, i requires 0 <= i => LayerKeys(i));
    BaseKeysPlain(k);
    forall i | 0 <= i < |layers| ensures k !in keys[i] {
      PlainNotLayerKey(k, i);
    }
    AuxFoldKeepsBase(base, layers, keys, |layers|, k);
  }

  /** Layer i's entry `key_i` survives the fold: no later layer uses its name. */
  lemma NamedFoldLayer(base: Losses, layers: seq<Result<Losses>>, key: string, i: nat)
    requires key in BaseKeys() && i < |layers|
    requires KeyedBy(layers, seq(|layers|, i requires 0 <= i => LayerKeys(i)))
    requires AuxFold(base, layers, |layers|).Ok?
    ensures layers[i].Ok? && Suffix(key, i) in layers[i].value
    ensures Suffix(key, i) in AuxFold(base, layers, |layers|).value
    ensures AuxFold(base, layers, |layers|).value[Suffix(key, i)] == layers[i].value[Suffix(key, i)]
  {
    var keys := seq(|layers|, i requires 0 <= i => LayerKeys(i));
    var k := Suffix(key, i);
    assert k in LayerKeys(i);
    forall j | i < j < |layers| ensures k !in keys[j] {
      LayerKeysDisjoint(i, j, k);
    }
    AuxFoldKeepsLayer(base, layers, keys, |layers|, i, k);
  }

  /** Folding renamed layers over a dictionary with the three base names:
      the result has the base names and every layer's names; the base entries
      are never overwritten, nor is any layer's entry by a later layer. */
  lemma NamedFold(base: Losses, layers: seq<Result<Losses>>)
    requires base.Keys == BaseKeys()
    requires KeyedBy(layers, seq(|layers|, i requires 0 <= i => LayerKeys(i)))
    requires AuxFold(base, layers, |layers|).Ok?
    ensures AuxFold(base, layers, |layers|).value.Keys == BaseKeys() + AuxKeys(|layers|)
    ensures forall k :: k in BaseKeys() ==> AuxFold(base, layers, |layers|).value[k] == base[k]
    ensures forall i :: 0 <= i < |layers| ==> layers[i].Ok?
    ensures forall key, i :: key in BaseKeys() && 0 <= i < |layers| ==>
      AuxFold(base, layers, |layers|).value[Suffix(key, i)] == layers[i].value[Suffix(key, i)]
  {
    var n := |layers|;
    var keys := seq(n, i requires 0 <= i => LayerKeys(i));
    AuxFoldKeys(base, layers, keys, n);
    UnionLayerKeys(keys, n);
    AuxFoldOk(base, layers, n);
    forall k | k in BaseKeys() ensures AuxFold(base, layers, n).value[k] == base[k] {
      NamedFoldBase(base, layers, k);
    }
    forall key, i | key in BaseKeys() && 0 <= i < n
      ensures AuxFold(base, layers, n).value[Suffix(key, i)] == layers[i].value[Suffix(key, i)]
    {
      NamedFoldLayer(base, layers, key, i);
    }
  }

  /** The names `forward` returns, the final-layer entries never overwritten
      by an auxiliary layer, and the `_i` entries the terms of auxiliary
      layer i alone, matched on its own: they depend on no other layer. */
  lemma ForwardContents(numClasses: nat, eosCoef: real, matcher: Matcher, outputs: Outputs, targets: seq<Target>)
    requires AllLayersFit(matcher, outputs, targets)
    requires ForwardLosses(numClasses, eosCoef, matcher, outputs, targets).Ok?
    ensures ForwardLosses(numClasses, eosCoef, matcher, outputs, targets).value.Keys == BaseKeys() + AuxKeys(|AuxLayers(outputs)|)
    ensures LayerLosses(numClasses, eosCoef, outputs.final, targets, matcher(outputs.final, targets), NumBoxes(targets)).Ok?
    ensures forall k :: k in BaseKeys() ==>
      ForwardLosses(numClasses, eosCoef, matcher, outputs, targets).value[k]
        == LayerLosses(numClasses, eosCoef, outputs.final, targets, matcher(outputs.final, targets), NumBoxes(targets)).value[k]
    ensures forall i :: 0 <= i < |AuxLayers(outputs)| ==>
      LayerLosses(numClasses, eosCoef, AuxLayers(outputs)[i], targets, matcher(AuxLayers(outputs)[i], targets), NumBoxes(targets)).Ok?
    ensures forall key, i :: key in BaseKeys() && 0 <= i < |AuxLayers(outputs)| ==>
      ForwardLosses(numClasses, eosCoef, matcher, outputs, targets).value[Suffix(key, i)]
        == LayerLosses(numClasses, eosCoef, AuxLayers(outputs)[i], targets, matcher(AuxLayers(outputs)[i], targets), NumBoxes(targets)).value[key]
  {
    var aux := AuxLayers(outputs);
    var numBoxes := NumBoxes(targets);
    var base := LayerLosses(numClasses, eosCoef, outputs.final, targets, matcher(outputs.final, targets), numBoxes);
    var layers := AuxResults(numClasses, eosCoef, matcher, aux, targets, numBoxes);
    assert ForwardLosses(numClasses, eosCoef, matcher, outputs, targets) == AuxFold(base.value, layers, |aux|);
    AuxResultsKeyed(numClasses, eosCoef, matcher, aux, targets, numBoxes);
    NamedFold(base.value, layers);
    forall i | 0 <= i < |aux|
      ensures LayerLosses(numClasses, eosCoef, aux[i], targets, matcher(aux[i], targets), numBoxes).Ok?
    {
      assert LayerFits(matcher, aux[i], targets);
      assert layers[i] == Renamed(LayerLosses(numClasses, eosCoef, aux[i], targets, matcher(aux[i], targets), numBoxes), i);
    }
    forall key, i | key in BaseKeys() && 0 <= i < |aux|
      ensures layers[i].value[Suffix(key, i)]
           == LayerLosses(numClasses, eosCoef, aux[i], targets, matcher(aux[i], targets), numBoxes).value[key]
    {
      assert LayerFits(matcher, aux[i], targets);
    }
  }

  /** `forward` succeeds exactly when the batch is not empty and every layer
      has both `pred_logits` and `pred_boxes`. */
  lemma ForwardOk(numClasses: nat, eosCoef: real, matcher: Matcher, outputs: Outputs, targets: seq<Target>)
    requires AllLayersFit(matcher, outputs, targets)
    ensures ForwardLosses(numClasses, eosCoef, matcher, outputs, targets).Ok?
        <==> && |targets| > 0
             && outputs.final.logits.Some? && outputs.final.boxes.Some?
             && forall i :: 0 <= i < |AuxLayers(outputs)| ==> AuxLayers(outputs)[i].logits.Some? && AuxLayers(outputs)[i].boxes.Some?
  {
    var aux := AuxLayers(outputs);
    var numBoxes := NumBoxes(targets);
    var base := LayerLosses(numClasses, eosCoef, outputs.final, targets, matcher(outputs.final, targets), numBoxes);
    var layers := AuxResults(numClasses, eosCoef, matcher, aux, targets, numBoxes);
    if base.Ok? {
      AuxFoldOk(base.value, layers, |aux|);
      forall i | 0 <= i < |aux| ensures layers[i].Ok? <==> aux[i].logits.Some? && aux[i].boxes.Some? {
        assert LayerFits(matcher, aux[i], targets);
      }
    }
  }

  // ---- the module itself -------------------------------------------------

  class SetCriterion {
    const numClasses: nat
    const matcher: Matcher
    const eosCoef: real
    /** The `empty_weight` buffer. */
    const emptyWeight: array<real>

    ghost predicate Valid()
      reads emptyWeight
    {
      emptyWeight[..] == ClassWeights(numClasses, eosCoef)
    }

    /** `__init__`: every class weighs 1, the no-object class `eos_coef`. */
    constructor(numClasses: nat, matcher: Matcher, eosCoef: real)
      ensures this.numClasses == numClasses && this.matcher == matcher && this.eosCoef == eosCoef
      ensures fresh(emptyWeight)
      ensures emptyWeight.Length == numClasses + 1
      ensures forall c :: 0 <= c < numClasses ==> emptyWeight[c] == 1.0
      ensures emptyWeight[numClasses] == eosCoef
      ensures Valid()
    {
      this.numClasses := numClasses;
      this.matcher := matcher;
      this.eosCoef := eosCoef;
      var w := new real[numClasses + 1](_ => 1.0);
      w[numClasses] := eosCoef;
      emptyWeight := w;
    }

    /** `loss_labels`, building the grid in place. */
    method LossLabels(p: Prediction, targets: seq<Target>, indices: seq<ImageMatch>) returns (r: Result<Losses>)
      requires Valid()
      requires IndicesFit(p, targets, indices)
      ensures r == LabelLoss(numClasses, eosCoef, p, targets, indices)
    {
      if p.logits.None? {
        return Err(MissingField("pred_logits"));
      }
      if |indices| == 0 {
        return Err(EmptyCat);
      }
      var logits := p.logits.value;
      var idx := SrcPermutationIdx(indices);
      var vals := TargetClassesO(targets, indices);
      SrcIndexFits(indices, seq(|indices|, _ => Queries(logits)));
      var grid := Scatter(numClasses, |logits|, Queries(logits), idx.0, idx.1, vals);
      var targetClasses := Rows(grid);
      ghost var tc := TargetClasses(numClasses, |logits|, Queries(logits), targets, indices);
      forall b | 0 <= b < |logits| ensures targetClasses[b] == tc[b] {
        assert forall q :: 0 <= q < Queries(logits) ==> targetClasses[b][q] == tc[b][q];
      }
      assert targetClasses == tc;
      r := Ok(map["loss_ce" := CrossEntropy(logits, targetClasses, emptyWeight[..])]);
    }

    /** `loss_labels` followed by `loss_boxes` on one layer, the two
        dictionaries merged as `losses.update(...)` merges them. */
    method LayerLossesOf(p: Prediction, targets: seq<Target>, indices: seq<ImageMatch>, numBoxes: nat)
      returns (r: Result<Losses>)
      requires Valid()
      requires IndicesFit(p, targets, indices)
      ensures r == LayerLosses(numClasses, eosCoef, p, targets, indices, numBoxes)
    {
      r := LossLabels(p, targets, indices);
      if r.Ok? {
        var bx := BoxLoss(p, targets, indices, numBoxes);
        r := if bx.Err? then bx else Ok(r.value + bx.value);
      }
    }

    /** The loop of `forward` over `aux_outputs`: each layer's losses, renamed
        with the layer number, are added to `base` until a layer fails. */
    method AuxLosses(aux: seq<Prediction>, targets: seq<Target>, numBoxes: nat, base: Losses)
      returns (losses: Result<Losses>, ghost calls: seq<Prediction>)
      requires Valid()
      requires forall i :: 0 <= i < |aux| ==> LayerFits(matcher, aux[i], targets)
      ensures losses == AuxFold(base, AuxResults(numClasses, eosCoef, matcher, aux, targets, numBoxes), |aux|)
      ensures |calls| <= |aux| && calls == aux[..|calls|]
      ensures losses.Ok? ==> calls == aux
    {
      var acc := base;
      calls := [];
      ghost var layers := AuxResults(numClasses, eosCoef, matcher, aux, targets, numBoxes);
      for i := 0 to |aux|
        invariant AuxFold(base, layers, i) == Ok(acc)
        invariant calls == aux[..i]
      {
        assert LayerFits(matcher, aux[i], targets);
        var indices := matcher(aux[i], targets);
        calls := calls + [aux[i]];
        PrefixSnoc(aux, i);
        var l := LayerLossesOf(aux[i], targets, indices, numBoxes);
        AuxTurn(numClasses, eosCoef, matcher, aux, targets, numBoxes, base, i, acc, l);
        if l.Err? {
          return l, calls;
        }
        acc := acc + Suffixed(l.value, i);
      }
      assert aux[..|aux|] == aux;
      losses := Ok(acc);
    }

    /** `forward`. The ghost `calls` lists the layers the matcher was run
        on, in order. */
    method Forward(outputs: Outputs, targets: seq<Target>) returns (losses: Result<Losses>, ghost calls: seq<Prediction>)
      requires Valid()
      requires AllLayersFit(matcher, outputs, targets)
      ensures losses == ForwardLosses(numClasses, eosCoef, matcher, outputs, targets)
      ensures 1 <= |calls| <= 1 + |AuxLayers(outputs)|
      ensures calls == [outputs.final] + AuxLayers(outputs)[..|calls| - 1]
      ensures losses.Ok? ==> calls == [outputs.final] + AuxLayers(outputs)
    {
      var indices := matcher(outputs.final, targets);
      calls := [outputs.final];
      var numBoxes := NumBoxes(targets);
      losses := LayerLossesOf(outputs.final, targets, indices, numBoxes);
      if losses.Err? || outputs.aux.None? {
        return;
      }
      var aux := outputs.aux.value;
      assert aux == AuxLayers(outputs);
      ghost var auxCalls;
      losses, auxCalls := AuxLosses(aux, targets, numBoxes, losses.value);
      calls := calls + auxCalls;
    }
  }
}
