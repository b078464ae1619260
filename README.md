# DETR set criterion and position encodings

This project models, in Dafny, the discrete core of the DETR training loss and
of the two DETR position encodings.

The loss side is the `SetCriterion` class:
- `__init__` builds the class-weight buffer `empty_weight`.
- `loss_labels` builds the dense class-target grid in place.
- `loss_boxes` gathers the matched (predicted, ground-truth) box pairs.
- `_get_src_permutation_idx` and `_get_tgt_permutation_idx` flatten the matcher's output.
- `forward` counts `num_boxes`, runs the matcher on the final layer and on every auxiliary layer, and assembles the loss dictionary. The names of the auxiliary terms carry the `_i` suffix.

Real-valued losses stay symbolic. A `LossTerm` records the tensors and the
divisor the value is computed from, so the model can still state which pairs and
which grid each term is computed from.

The position-encoding side has three parts:
- `PositionEmbeddingSine.forward`: running counts of the non-padded pixels, the frequency exponent of each channel, the sine/cosine interleave and the `[B, 2n, H, W]` channel layout.
- `PositionEmbeddingLearned.forward`: a lookup in two 50-row tables, with its layout.
- `build_position_encoding`: the dispatch on the option name.

Files:
- `results.dfy`: `Option`, `Result` and the error cases (a missing field, an index past a table, a stack of mismatched shapes, a `torch.cat` of an empty list, an unsupported option).
- `sequences.dfy`: one-dimensional `torch.cat`, and the arithmetic between a flat position and (block, position in block).
- `permutation_index.dfy`: the two permutation-index helpers.
- `label_grid.dfy`: `torch.full` followed by the advanced-index write `grid[batch, slot] = vals`, computed in place on an `array2`, with the writes applied one after another.
- `loss_keys.dfy`: the decimal `_i` suffix, and the proof that suffixed names never collide.
- `criterion.dfy`: the loss terms, the loss dictionary, and the class `SetCriterion`.
  - The constructor allocates `empty_weight` and writes its last entry in place.
  - `LossLabels` scatters into the grid.
  - `Forward` runs the loop over `aux_outputs`. The loop itself sits in `AuxLosses`.
  - Each method is proved equal to a pure function (`LabelLoss`, `LayerLosses`, `ForwardLosses`), and the properties are proved about those functions.
- `position_encoding.dfy`: both encodings as pure functions, plus the dispatch.

The Hungarian matcher is not part of this model. It is a function-valued field of the
class. What the code relies on about its answer (equal-length source and target
lists per image, indices in range) is a precondition.

The code applies no floor to `num_boxes` (criterion.py lines 119-120).
`NumBoxesZero` shows that the box-term divisor is 0 exactly when no image has an
object.

An empty batch makes `_get_src_permutation_idx` call `torch.cat` on an empty
list, which raises. `LabelLoss` and `BoxLoss` return `EmptyCat` in that case,
after their field checks, so `forward` fails on an empty batch.

The sine encoding's settings are fields set once in `__init__`, so the model
holds them in a value (`Sine`).

## Model

| member | source | states |
|---|---|---|
| `PermutationIndex.SrcPermutationIdx` | models/DETR/model/criterion.py:87-94 | both outputs have one entry per match; the batch index is below the batch size and non-decreasing, and it names image i exactly as many times as image i has matches; selecting image i from the pair gives back image i's source list |
| `PermutationIndex.TgtPermutationIdx` | models/DETR/model/criterion.py:96-100 | the same for the target lists |
| `PermutationIndex.SrcPermutationIdxAt` | models/DETR/model/criterion.py:92-93 | match k of image i sits at flat position Offset(i)+k, tagged with i, with its source slot |
| `PermutationIndex.TgtPermutationIdxAt` | models/DETR/model/criterion.py:98-99 | match k of image i sits at flat position Offset(i)+k, tagged with i, with its target object |
| `PermutationIndex.SrcPermutationIdxFlat` | models/DETR/model/criterion.py:92-93 | every flat position p lies in the block of image batch_idx[p] and holds that image's match p - Offset |
| `PermutationIndex.SrcPermutationIdxExample` | models/DETR/model/criterion.py:89-91 | the worked example of the comment: batch_idx = [0, 0, 1], src_idx = [0, 1, 0] |
| `PermutationIndex.FlatRoundTrip` | models/DETR/model/criterion.py:92-93 | selecting image i from the (batch_idx, cat) pair returns image i's list |
| `LabelGrid.Scatter` | models/DETR/model/criterion.py:53-55 | the array is freshly allocated, filled in place, has the given shape, and each cell equals the sequential scatter `Scattered` |
| `LabelGrid.Rows` | models/DETR/model/criterion.py:53-55 | the rows of the array as values, cell for cell |
| `LabelGrid.ScatteredUntouched` | models/DETR/model/criterion.py:53-55 | a cell that no write names keeps the fill value |
| `LabelGrid.ScatteredLastWrite` | models/DETR/model/criterion.py:55 | in the model's sequential order, a cell holds the value of the last write that names it |
| `LabelGrid.ScatteredAppend` | models/DETR/model/criterion.py:55 | writing two runs of indices is writing the second run over the result of the first |
| `LabelGrid.ScatterPerImage` | models/DETR/model/criterion.py:52-55 | scattering the flattened matches fills row b from image b's own matches and leaves rows past the batch at the fill value |
| `LabelGrid.RowValueAt` | models/DETR/model/criterion.py:55 | with distinct slots, slot src[k] holds vals[k] |
| `LabelGrid.RowValueMiss` | models/DETR/model/criterion.py:53-55 | a slot no match names holds the fill value |
| `LabelGrid.RowChangedCount` | models/DETR/model/criterion.py:53-55 | with distinct in-range slots and values unlike the fill, a row has exactly one changed cell per match |
| `LabelGrid.DistinctElements` | models/DETR/model/criterion.py:55 | distinct slots form a set of the same size |
| `LossKeys.Decimal` | models/DETR/model/criterion.py:142 | `f'{i}'` is a non-empty string of digits, of at least two digits from 10 on |
| `LossKeys.DecimalInjective` | models/DETR/model/criterion.py:142 | distinct layer numbers are written differently |
| `LossKeys.SuffixShape` | models/DETR/model/criterion.py:142 | in `k + f'_{i}'` the separator follows k and only digits follow it |
| `LossKeys.SuffixInjective` | models/DETR/model/criterion.py:142 | a suffixed name determines both the name and the layer number |
| `LossKeys.SuffixInjectiveAt` | models/DETR/model/criterion.py:142 | for one layer, renaming is one-to-one |
| `LossKeys.SuffixEndsInDigit` | models/DETR/model/criterion.py:142 | a suffixed name ends in a digit |
| `LossKeys.Suffixed` | models/DETR/model/criterion.py:142 | the renamed dictionary holds each entry under k + `_i` and has no other names |
| `Criterion.SrcIndexFits` | models/DETR/model/criterion.py:65-68 | source indices bounded per image stay bounded after flattening, which makes `[idx]` well defined |
| `Criterion.ClassWeights` | models/DETR/model/criterion.py:37-38 | num_classes + 1 weights, each 1.0 except the last, which is eos_coef |
| `Criterion.SetCriterion.constructor` | models/DETR/model/criterion.py:30-39 | the settings are stored; `empty_weight` is a fresh num_classes + 1 array of ones whose last entry is eos_coef |
| `Criterion.MatchedLabels` | models/DETR/model/criterion.py:52 | per image, one label per match |
| `Criterion.TargetClassesO` | models/DETR/model/criterion.py:52 | one label per match: as many entries as there are matches |
| `Criterion.TargetClassesOAt` | models/DETR/model/criterion.py:52 | flat position Offset(i)+k holds the label of object tgt_i[k] of image i |
| `Criterion.TargetClasses` | models/DETR/model/criterion.py:53-55 | a batch x queries grid |
| `Criterion.TargetClassesCell` | models/DETR/model/criterion.py:52-55 | row b of the grid is image b's matched labels written over the no-object class |
| `Criterion.TargetClassesMatched` | models/DETR/model/criterion.py:52-55 | the matched slot src_b[k] holds the label of object tgt_b[k] |
| `Criterion.TargetClassesUnmatched` | models/DETR/model/criterion.py:53-55 | an unmatched slot holds the no-object class num_classes |
| `Criterion.ChangedCountRows` | models/DETR/model/criterion.py:53-55 | the changed cells of a grid add up over its rows |
| `Criterion.TargetClassesCount` | models/DETR/model/criterion.py:52-55 | with one-to-one in-range matches, the grid has exactly one non-no-object cell per match |
| `Criterion.LabelLoss` | models/DETR/model/criterion.py:43-60 | fails with the missing `pred_logits` exactly when it is absent; otherwise fails with `EmptyCat` exactly when the batch is empty (line 49 reaches `torch.cat([])`); succeeds exactly when the field is present and the batch is not empty, with the single name `loss_ce` |
| `Criterion.LabelLossTerm` | models/DETR/model/criterion.py:58-59 | helper: `loss_ce` is the cross entropy of the layer's logits against the grid, with the class weights |
| `Criterion.SetCriterion.LossLabels` | models/DETR/model/criterion.py:43-60 | the method, which scatters into a fresh array, returns `LabelLoss`, with the `empty_weight` buffer as the weights |
| `Criterion.MatchedBoxes` | models/DETR/model/criterion.py:68 | one predicted box per flat index |
| `Criterion.MatchedTargetBoxes` | models/DETR/model/criterion.py:69 | per image, one ground-truth box per match |
| `Criterion.TargetBoxes` | models/DETR/model/criterion.py:69 | one ground-truth box per match, in the flat order |
| `Criterion.SrcBoxes` | models/DETR/model/criterion.py:65-68 | one predicted box per match, in the flat order |
| `Criterion.BoxLoss` | models/DETR/model/criterion.py:62-83 | fails with the missing `pred_boxes` exactly when it is absent; otherwise fails with `EmptyCat` exactly when the batch is empty (line 65); succeeds exactly when the field is present and the batch is not empty, with the names `loss_bbox` and `loss_giou` |
| `Criterion.BoxLossTerms` | models/DETR/model/criterion.py:72-82 | helper: both terms are over the same matched pairs and are divided by the same num_boxes |
| `Criterion.BoxPairs` | models/DETR/model/criterion.py:65-69 | position Offset(i)+k pairs predicted box src_i[k] with ground-truth box tgt_i[k] of image i |
| `Criterion.NumBoxesZero` | models/DETR/model/criterion.py:119-120 | num_boxes is 0 exactly when no image has an object (no floor is applied) |
| `Criterion.NumBoxesMatched` | models/DETR/model/criterion.py:119 | when every object is matched, the number of matched pairs is num_boxes |
| `Criterion.LayerLosses` | models/DETR/model/criterion.py:126-128 | a layer succeeds exactly when both fields are present and the batch is not empty; a missing `pred_logits` is reported first, then the empty batch, then a missing `pred_boxes`; on success its names are the three base names |
| `Criterion.AuxResultsAt` | models/DETR/model/criterion.py:134-142 | helper: auxiliary entry i is layer i's own losses, matched on its own and renamed with i |
| `Criterion.AuxTurn` | models/DETR/model/criterion.py:132-143 | turn i of the loop in terms of layer i's own losses: a failure ends the loop with that failure; a success extends the result with its terms renamed with i |
| `Criterion.AuxFoldStep` | models/DETR/model/criterion.py:132-143 | one turn of the loop: a failing layer ends the whole call with its failure; a succeeding one adds its renamed terms |
| `Criterion.AuxFoldStops` | models/DETR/model/criterion.py:132-143 | once a turn fails, the loop result is that failure |
| `Criterion.AuxFoldOk` | models/DETR/model/criterion.py:132-143 | the loop succeeds exactly when every layer succeeds |
| `Criterion.AuxFoldKeys` | models/DETR/model/criterion.py:143 | after n turns the names are the base names plus those of the first n layers |
| `Criterion.AuxFoldKeepsBase` | models/DETR/model/criterion.py:143 | a base entry whose name no layer uses survives |
| `Criterion.AuxFoldKeepsLayer` | models/DETR/model/criterion.py:143 | a layer entry whose name no later layer uses survives |
| `Criterion.SuffixedKeys` | models/DETR/model/criterion.py:142 | a renamed layer has exactly the names LayerKeys(i) |
| `Criterion.LayerKeysDisjoint` | models/DETR/model/criterion.py:142-143 | two auxiliary layers never share a name |
| `Criterion.PlainNotLayerKey` | models/DETR/model/criterion.py:142-143 | a name ending in a non-digit, such as the final layer's names, is never an auxiliary name |
| `Criterion.UnionLayerKeys` | models/DETR/model/criterion.py:142-143 | the names collected over n layers are AuxKeys(n) |
| `Criterion.AuxResultsKeyed` | models/DETR/model/criterion.py:137-142 | every successful auxiliary result carries its own layer's names |
| `Criterion.NamedFoldBase` | models/DETR/model/criterion.py:142-143 | a base entry survives every `update` of the loop, since no renamed layer uses a base name |
| `Criterion.NamedFoldLayer` | models/DETR/model/criterion.py:142-143 | layer i's entry `key_i` survives every later `update`, since no later layer uses its name |
| `Criterion.NamedFold` | models/DETR/model/criterion.py:124-143 | the fold has the base names and every layer's names; it overwrites neither the base entries nor any layer's entries |
| `Criterion.ForwardContents` | models/DETR/model/criterion.py:104-145 | the names are loss_ce, loss_bbox, loss_giou and their `_i` versions for each auxiliary layer; the plain names hold the final layer's terms; `k_i` holds layer i's term k, matched on its own; every layer used the same num_boxes |
| `Criterion.ForwardOk` | models/DETR/model/criterion.py:104-145 | `forward` succeeds exactly when the batch is not empty and the final layer and every auxiliary layer have both `pred_logits` and `pred_boxes` |
| `Criterion.SetCriterion.LayerLossesOf` | models/DETR/model/criterion.py:126-128 | the method returns `LayerLosses` for the layer |
| `Criterion.SetCriterion.AuxLosses` | models/DETR/model/criterion.py:131-143 | the loop returns the fold of the renamed auxiliary results; the matcher ran, in order, on a prefix of the layers, and on all of them when the loop succeeds |
| `Criterion.SetCriterion.Forward` | models/DETR/model/criterion.py:104-145 | returns `ForwardLosses`; the matcher runs on the final layer first and then on the auxiliary layers in order, on all of them when the call succeeds |
| `Sequences.Cat` | models/DETR/model/criterion.py:93 | `torch.cat` of a non-empty list has the total length of its blocks |
| `Sequences.CatAt` | models/DETR/model/criterion.py:93 | element k of block i sits at Offset(i)+k |
| `Sequences.CatAtFlat` | models/DETR/model/criterion.py:93 | every flat position is an element of the block it falls in |
| `Sequences.BlockIndexAt` | models/DETR/model/criterion.py:92 | position Offset(i)+k falls in block i |
| `PositionEncoding.Cumsum` | models/DETR/model/position_encoding.py:32-33 | the running sum has the input's length; entry k is at most k + 1, and the sum never decreases |
| `PositionEncoding.CumsumCounts` | models/DETR/model/position_encoding.py:32-33 | entry k counts the true entries at 0..k |
| `PositionEncoding.CumsumMono` | models/DETR/model/position_encoding.py:32-33 | the running sum is monotone |
| `PositionEncoding.YEmbedCounts` | models/DETR/model/position_encoding.py:30-32 | y_embed[b][h][w] is the number of non-padded pixels of column w in rows 0..h; it is at most h + 1 (so at most H) and grows with h |
| `PositionEncoding.XEmbedCounts` | models/DETR/model/position_encoding.py:30-33 | x_embed[b][h][w] is the number of non-padded pixels of row h in columns 0..w; it is at most w + 1 (so at most W) and grows with w |
| `PositionEncoding.NewSine` | models/DETR/model/position_encoding.py:14-21 | the settings are kept, and the scale defaults to 2 pi when none is given |
| `PositionEncoding.NewSineDefaults` | models/DETR/model/position_encoding.py:14 | the constructor's defaults are 128 features, temperature 10000, no normalisation and scale 2 pi; the call in `build_position_encoding` differs from them only in num_pos_feats and normalize |
| `PositionEncoding.SharedWavelength` | models/DETR/model/position_encoding.py:41-42 | channels 2m and 2m + 1 use exponent index 2m |
| `PositionEncoding.Phases` | models/DETR/model/position_encoding.py:41-47 | helper: one phase per channel, channel k with exponent index 2 * (k // 2) |
| `PositionEncoding.Evens` | models/DETR/model/position_encoding.py:49-50 | `s[0::2]` has ceil(n/2) entries, entry j being s[2j] |
| `PositionEncoding.Odds` | models/DETR/model/position_encoding.py:49-50 | `s[1::2]` has floor(n/2) entries, entry j being s[2j + 1] |
| `PositionEncoding.Interleave` | models/DETR/model/position_encoding.py:49-50 | stack-then-flatten puts a[j] at 2j and b[j] at 2j + 1 |
| `PositionEncoding.SinAll` | models/DETR/model/position_encoding.py:49 | helper: `.sin()` entry by entry |
| `PositionEncoding.CosAll` | models/DETR/model/position_encoding.py:49 | helper: `.cos()` entry by entry |
| `PositionEncoding.WavesChannels` | models/DETR/model/position_encoding.py:49-50 | the interleave succeeds exactly for an even channel count; then channel k is sin of phase k on even k and cos of phase k on odd k |
| `PositionEncoding.PixelChannels` | models/DETR/model/position_encoding.py:52 | a pixel has 2n channels, the y block and then the x block |
| `PositionEncoding.SineShape` | models/DETR/model/position_encoding.py:49-52 | the sine encoding fails with a shape mismatch exactly when num_pos_feats is odd; otherwise it has one block of 2n channels per image |
| `PositionEncoding.SineAt` | models/DETR/model/position_encoding.py:44-52 | position (b, c, h, w) of the [B, 2n, H, W] result holds channel c. For c < n it comes from the y coordinate, otherwise from the x coordinate at c - n. It is a sine on even and a cosine on odd channels of a block, with exponent index 2 * (k // 2) |
| `PositionEncoding.Table` | models/DETR/model/position_encoding.py:65-72 | helper: a 50 x num_pos_feats table of the drawn weights |
| `PositionEncoding.NewLearned` | models/DETR/model/position_encoding.py:61-67 | both tables have 50 rows of num_pos_feats weights |
| `PositionEncoding.Range` | models/DETR/model/position_encoding.py:76-77 | helper: `torch.arange(n)` is 0..n-1 |
| `PositionEncoding.Embed` | models/DETR/model/position_encoding.py:80-81 | the lookup succeeds exactly when every index is below the table's row count, and then returns the named rows; it otherwise fails with an index error |
| `PositionEncoding.Lookup` | models/DETR/model/position_encoding.py:76-81 | looking up `arange(n)` in a table succeeds exactly when n is at most the table's row count, and then returns its first n rows; otherwise it fails with an index error |
| `PositionEncoding.LookupEmbed` | models/DETR/model/position_encoding.py:76-81 | the whole-range lookup equals the index-by-index embedding lookup of 0..n-1, the error case included |
| `PositionEncoding.Repeat` | models/DETR/model/position_encoding.py:85-87 | helper: `.repeat` gives n copies of its argument: of the [W, C] column vectors down the h rows, and of the block over the batch |
| `PositionEncoding.LearnedBounds` | models/DETR/model/position_encoding.py:65-81 | the learned encoding succeeds exactly when H <= 50 and W <= 50; otherwise it fails with an index error |
| `PositionEncoding.RepeatAcross` | models/DETR/model/position_encoding.py:86 | helper: `y_emb.unsqueeze(1).repeat(1, w, 1)` puts row vector h at every one of the w columns of row h |
| `PositionEncoding.CatLast` | models/DETR/model/position_encoding.py:84-87 | helper: `torch.cat(..., dim=-1)` keeps the [H, W] layout and joins the two vectors at every (h, w) |
| `PositionEncoding.Permute` | models/DETR/model/position_encoding.py:87 | helper: `.permute(2, 0, 1)` turns [H, W, k] into [k, H, W] with entry (c, h, w) taken from (h, w, c) |
| `PositionEncoding.LearnedImage` | models/DETR/model/position_encoding.py:84-87 | the block built from the lookups by repeat, cat and permute is [2C, H, W] |
| `PositionEncoding.LearnedShape` | models/DETR/model/position_encoding.py:84-87 | a successful result is [B, 2C, H, W] |
| `PositionEncoding.LearnedValue` | models/DETR/model/position_encoding.py:74-87 | within the table bounds the result is the block built from the first W rows of col_embed and the first H rows of row_embed, repeated for every image |
| `PositionEncoding.LearnedImageAt` | models/DETR/model/position_encoding.py:84-87 | in every copy of the block, entry (c, h, w) is the column vector's entry c for c < C and the row vector's entry c - C otherwise |
| `PositionEncoding.LearnedAt` | models/DETR/model/position_encoding.py:84-87 | at (b, h, w), channel c < C is col_embed[w][c] and channel c >= C is row_embed[h][c - C] |
| `PositionEncoding.LearnedShapeOnly` | models/DETR/model/position_encoding.py:74-87 | every image gets the same block, so the result depends only on the mask's height and width: not on the padding, and not on the image index |
| `PositionEncoding.BuildDispatch` | models/DETR/model/position_encoding.py:103-117 | 'v2'/'sine' gives the sine encoding with hidden_dim // 2 features, temperature 10000, normalisation on and scale 2 pi; 'v3'/'learned' gives a learned encoding with hidden_dim // 2 features and 50-row tables; any other name fails with that name |
| `PositionEncoding.BuildChannels` | models/DETR/model/position_encoding.py:103-115 | a built encoding has 2 * (hidden_dim // 2) channels, which is hidden_dim when hidden_dim is even; the built sine encoding succeeds exactly when hidden_dim // 2 is even |

## Left out

- Real-valued arithmetic is left out: cross entropy with class weights, the L1 distance, 1 - GIoU, the division by num_boxes, sin, cos, `temperature ** ...`, and the `(last + 1e-6) * scale` normalisation. These are floating-point numerics, so each stays a symbolic term: `LossTerm`, `Wave`, `Phase`, `Coordinate`.
- `cxcywh_to_xyxy` and `generalized_box_iou` are not part of this model; `GiouMean` records the pairs they are applied to.
- The Hungarian matcher is not part of this model. It is a function parameter, and the bounds of its answer are preconditions (`IndicesFit`).
- The random initialisation in `reset_parameters` is not modelled. The uniform draws are function parameters of `NewLearned`, and so the model does not state that the weights lie in [0, 1).
- Torch machinery is left out: `nn.Module`, `register_buffer`, devices and dtypes, `NestedTensor` beyond its mask, and `sys.path`.
- The distributed synchronisation of num_boxes is left out; the code leaves it as an unimplemented TODO.
- `weight_dict` is stored by `__init__` but never read inside the module, so the model does not keep it.
- `Criterion.TargetClassesMatched` / `Criterion.TargetClassesCount`: these assume slots distinct within an image. The matcher promises this. For duplicate slots, torch's advanced-index assignment (`index_put_` without `accumulate`) leaves the cell's value unspecified; `Scatter`, `Scattered` and `ScatteredLastWrite` fix the sequential order, keeping the later write, which is a choice of this model.
- The matcher in the code receives the outputs without `aux_outputs`. The model passes the final layer's `Prediction`, which carries exactly the remaining fields.
- The tensor shape `[B, H, W]` of the mask is a precondition (`Shaped`). A torch tensor is always rectangular.
- `num_pos_feats` and `hidden_dim` are taken as naturals; the code would fail inside `torch.arange` or `nn.Embedding` on a negative size.
- The sine encoding places the `torch.stack` shape mismatch on the whole call: the halves have ceil(n/2) and floor(n/2) channels whatever the mask. 
- `PermutationIndex.SrcPermutationIdx`: on an empty list of matches `torch.cat` raises, while this function returns two empty sequences. The raise is modelled by its callers: `LabelLoss` and `BoxLoss` return `EmptyCat` before they use it.
- `PermutationIndex.TgtPermutationIdx`: on an empty list of matches `torch.cat` raises, while this function returns two empty sequences. No operation of the model calls it on an empty list.
- `Sequences.Cat`: `torch.cat` raises on an empty list, while `Cat([])` is the empty sequence. `LabelLoss` and `BoxLoss`, the only places that concatenate per-image tensors, return `EmptyCat` before they do.
- `Criterion.LabelLoss`: "exactly when" leaves out the argument checks of `F.cross_entropy` (criterion.py:58). The model does not raise when a target label lies outside 0..num_classes, or when the logits' class axis does not have num_classes + 1 entries; it returns the symbolic cross-entropy term all the same. A label equal to -100 is ignored by `F.cross_entropy` and is not modelled either. When logits have no queries, the [B, 0, K] shape loses its class axis in this model.
- `Criterion.LayerLosses`: its "exactly when" leaves out the same `F.cross_entropy` argument checks as `Criterion.LabelLoss`.
- `Criterion.ForwardOk`: "exactly when" assumes that the first value of the outputs dict is a tensor: line 120 reads its `.device`, which fails on an empty dict or when `aux_outputs` comes first. Dict order and devices are not modelled. It also leaves out the `F.cross_entropy` argument checks, as `Criterion.LabelLoss` says, for the last layer and every auxiliary layer.
