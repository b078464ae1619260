/**
 * The dense [B, Q] class-target grid of `loss_labels`: `torch.full` with the
 * no-object id, then the advanced-index assignment `grid[batch, slot] = vals`.
 */
module LabelGrid {
  import opened Sequences
  import opened PermutationIndex

  /** Cell (b, q) of a grid filled with `fill` after writing vals[p] at
      (batch[p], slot[p]) for p = 0, 1, ... in turn. Advanced-index assignment
      leaves the value of a cell written twice unspecified; this model fixes
      the sequential order, so the later write is kept. */
  function Scattered(batch: seq<nat>, slot: seq<nat>, vals: seq<int>, b: nat, q: nat, fill: int): int
    requires |batch| == |slot| == |vals|
  {
    if |batch| == 0 then fill
    else
      var n := |batch| - 1;
      if batch[n] == b && slot[n] == q then vals[n]
      else Scattered(batch[..n], slot[..n], vals[..n], b, q, fill)
  }

  /** `torch.full((rows, cols), fill)` followed by `grid[batch, slot] = vals`. */
  method Scatter(fill: int, rows: nat, cols: nat, batch: seq<nat>, slot: seq<nat>, vals: seq<int>)
    returns (grid: array2<int>)
    requires |batch| == |slot| == |vals|
    requires forall p :: 0 <= p < |batch| ==> batch[p] < rows && slot[p] < cols
    ensures fresh(grid)
    ensures grid.Length0 == rows && grid.Length1 == cols
    ensures forall b, q :: 0 <= b < rows && 0 <= q < cols ==> grid[b, q] == Scattered(batch, slot, vals, b, q, fill)
  {
    grid := new int[rows, cols]((_, _) => fill);
    for p := 0 to |batch|
      invariant forall b, q :: 0 <= b < rows && 0 <= q < cols ==>
        grid[b, q] == Scattered(batch[..p], slot[..p], vals[..p], b, q, fill)
    {
      grid[batch[p], slot[p]] := vals[p];
      assert batch[..p + 1][..p] == batch[..p];
      assert slot[..p + 1][..p] == slot[..p];
      assert vals[..p + 1][..p] == vals[..p];
    }
    assert batch[..|batch|] == batch && slot[..|slot|] == slot && vals[..|vals|] == vals;
  }

  /** The rows of a two-dimensional array, as values. */
  function Rows(grid: array2<int>): (r: seq<seq<int>>)
    reads grid
    ensures |r| == grid.Length0
    ensures forall b :: 0 <= b < |r| ==> |r[b]| == grid.Length1
    ensures forall b, q :: 0 <= b < grid.Length0 && 0 <= q < grid.Length1 ==> r[b][q] == grid[b, q]
  {
    seq(grid.Length0, b requires 0 <= b < grid.Length0 reads grid =>
      seq(grid.Length1, q requires 0 <= q < grid.Length1 reads grid => grid[b, q]))
  }

  /** A cell that no write touches keeps the fill value. */
  lemma {:induction false} ScatteredUntouched(batch: seq<nat>, slot: seq<nat>, vals: seq<int>, b: nat, q: nat, fill: int)
    requires |batch| == |slot| == |vals|
    requires forall p :: 0 <= p < |batch| ==> !(batch[p] == b && slot[p] == q)
    ensures Scattered(batch, slot, vals, b, q, fill) == fill
  {
    if |batch| > 0 {
      var n := |batch| - 1;
      ScatteredUntouched(batch[..n], slot[..n], vals[..n], b, q, fill);
    }
  }

  /** A cell holds the value of the last write to it. */
  lemma {:induction false} ScatteredLastWrite(batch: seq<nat>, slot: seq<nat>, vals: seq<int>, p: nat, fill: int)
    requires |batch| == |slot| == |vals| && p < |batch|
    requires forall p' :: p < p' < |batch| ==> !(batch[p'] == batch[p] && slot[p'] == slot[p])
    ensures Scattered(batch, slot, vals, batch[p], slot[p], fill) == vals[p]
  {
    var n := |batch| - 1;
    if p < n {
      ScatteredLastWrite(batch[..n], slot[..n], vals[..n], p, fill);
    }
  }

  /** Writing two runs of indices is writing the second over the result of the first. */
  lemma {:induction false} ScatteredAppend(b1: seq<nat>, s1: seq<nat>, v1: seq<int>,
                                           b2: seq<nat>, s2: seq<nat>, v2: seq<int>,
                                           b: nat, q: nat, fill: int)
    requires |b1| == |s1| == |v1| && |b2| == |s2| == |v2|
    ensures Scattered(b1 + b2, s1 + s2, v1 + v2, b, q, fill)
         == Scattered(b2, s2, v2, b, q, Scattered(b1, s1, v1, b, q, fill))
  {
    if |b2| == 0 {
      assert b1 + b2 == b1 && s1 + s2 == s1 && v1 + v2 == v1;
    } else {
      var n := |b2| - 1;
      assert (b1 + b2)[..|b1| + n] == b1 + b2[..n];
      assert (s1 + s2)[..|s1| + n] == s1 + s2[..n];
      assert (v1 + v2)[..|v1| + n] == v1 + v2[..n];
      ScatteredAppend(b1, s1, v1, b2[..n], s2[..n], v2[..n], b, q, fill);
    }
  }

  /** Cell q of one image's row after writing vals[k] at slot src[k] in turn. */
  function RowValue(src: seq<nat>, vals: seq<int>, q: nat, fill: int): int
    requires |src| == |vals|
  {
    if |src| == 0 then fill
    else
      var n := |src| - 1;
      if src[n] == q then vals[n] else RowValue(src[..n], vals[..n], q, fill)
  }

  /** Writes that all go to row v touch only that row. */
  lemma {:induction false} ScatteredFull(n: nat, v: nat, src: seq<nat>, vals: seq<int>, b: nat, q: nat, fill: int)
    requires |src| == |vals| == n
    ensures Scattered(seq(n, _ => v), src, vals, b, q, fill) == if b == v then RowValue(src, vals, q, fill) else fill
  {
    if n > 0 {
      assert seq(n, _ => v)[..n - 1] == seq(n - 1, _ => v);
      ScatteredFull(n - 1, v, src[..n - 1], vals[..n - 1], b, q, fill);
    }
  }

  /** Two block lists of the same shape. */
  ghost predicate Aligned<T, U>(a: seq<seq<T>>, b: seq<seq<U>>)
  {
    |a| == |b| && forall j :: 0 <= j < |a| ==> |a[j]| == |b[j]|
  }

  lemma {:induction false} ScatteredFrom(blocks: seq<seq<nat>>, valBlocks: seq<seq<int>>, start: nat, b: nat, q: nat, fill: int)
    requires Aligned(blocks, valBlocks)
    ensures |BatchIdxFrom(blocks, start)| == |Cat(blocks)| == |Cat(valBlocks)|
    ensures Scattered(BatchIdxFrom(blocks, start), Cat(blocks), Cat(valBlocks), b, q, fill)
         == if start <= b < start + |blocks| then RowValue(blocks[b - start], valBlocks[b - start], q, fill) else fill
  {
    OffsetSameShape(blocks, valBlocks, 0);
    if |blocks| > 0 {
      var head, rest, vHead, vRest := blocks[0], blocks[1..], valBlocks[0], valBlocks[1..];
      var tagHead: seq<nat>, tagRest: seq<nat> := FullLike(head, start), BatchIdxFrom(rest, start + 1);
      assert BatchIdxFrom(blocks, start) == tagHead + tagRest;
      assert Cat(blocks) == head + Cat(rest);
      assert Cat(valBlocks) == vHead + Cat(vRest);
      OffsetSameShape(rest, vRest, 0);
      var g := Scattered(tagHead, head, vHead, b, q, fill);
      ScatteredFull(|head|, start, head, vHead, b, q, fill);
      ScatteredAppend(tagHead, head, vHead, tagRest, Cat(rest), Cat(vRest), b, q, fill);
      ScatteredFrom(rest, vRest, start + 1, b, q, g);
      if start < b < start + |blocks| {
        assert rest[b - (start + 1)] == blocks[b - start];
        assert vRest[b - (start + 1)] == valBlocks[b - start];
      }
    }
  }

  /** Scattering the flattened matches of all images fills each image's row
      from that image's own matches and leaves every other row alone. */
  lemma ScatterPerImage(blocks: seq<seq<nat>>, valBlocks: seq<seq<int>>, b: nat, q: nat, fill: int)
    requires Aligned(blocks, valBlocks)
    ensures |BatchIdx(blocks)| == |Cat(blocks)| == |Cat(valBlocks)|
    ensures Scattered(BatchIdx(blocks), Cat(blocks), Cat(valBlocks), b, q, fill)
         == if b < |blocks| then RowValue(blocks[b], valBlocks[b], q, fill) else fill
  {
    ScatteredFrom(blocks, valBlocks, 0, b, q, fill);
  }

  /** No two matches of one image name the same slot. */
  predicate Distinct(s: seq<nat>)
  {
    forall i, j :: 0 <= i < j < |s| ==> s[i] != s[j]
  }

  /** With distinct slots, slot src[k] holds vals[k]. */
  lemma {:induction false} RowValueAt(src: seq<nat>, vals: seq<int>, k: nat, fill: int)
    requires |src| == |vals| && k < |src| && Distinct(src)
    ensures RowValue(src, vals, src[k], fill) == vals[k]
  {
    var n := |src| - 1;
    if k < n {
      RowValueAt(src[..n], vals[..n], k, fill);
    }
  }

  /** A slot that no match names keeps the fill value. */
  lemma {:induction false} RowValueMiss(src: seq<nat>, vals: seq<int>, q: nat, fill: int)
    requires |src| == |vals|
    requires forall k :: 0 <= k < |src| ==> src[k] != q
    ensures RowValue(src, vals, q, fill) == fill
  {
    if |src| > 0 {
      var n := |src| - 1;
      RowValueMiss(src[..n], vals[..n], q, fill);
    }
  }

  /** The slots of a row that differ from the fill value. */
  function Changed(row: seq<int>, fill: int): set<nat>
  {
    set q: nat | q < |row| && row[q] != fill
  }

  /** Number of cells of a grid that differ from the fill value. */
  function ChangedCount(grid: seq<seq<int>>, fill: int): nat
  {
    if |grid| == 0 then 0 else |Changed(grid[0], fill)| + ChangedCount(grid[1..], fill)
  }

  /** The elements of a sequence, as a set. */
  function Elements(s: seq<nat>): set<nat>
  {
    set k | 0 <= k < |s| :: s[k]
  }

  lemma {:induction false} DistinctElements(s: seq<nat>)
    requires Distinct(s)
    ensures |Elements(s)| == |s|
  {
    if |s| > 0 {
      var n := |s| - 1;
      assert Elements(s) == Elements(s[..n]) + {s[n]};
      assert s[n] !in Elements(s[..n]);
      DistinctElements(s[..n]);
    }
  }

  /** A row built from distinct, in-range matches whose values all differ from
      the fill value has exactly one changed cell per match. */
  lemma RowChangedCount(width: nat, src: seq<nat>, vals: seq<int>, fill: int)
    requires |src| == |vals| && Distinct(src)
    requires forall k :: 0 <= k < |src| ==> src[k] < width && vals[k] != fill
    ensures |Changed(seq(width, q requires 0 <= q => RowValue(src, vals, q, fill)), fill)| == |src|
  {
    var row := seq(width, q requires 0 <= q => RowValue(src, vals, q, fill));
    forall q: nat | q in Changed(row, fill) ensures q in Elements(src) {
      if forall k :: 0 <= k < |src| ==> src[k] != q {
        RowValueMiss(src, vals, q, fill);
      }
    }
    forall q | q in Elements(src) ensures q in Changed(row, fill) {
      var k :| 0 <= k < |src| && src[k] == q;
      RowValueAt(src, vals, k, fill);
    }
    assert Changed(row, fill) == Elements(src);
    DistinctElements(src);
  }
}
