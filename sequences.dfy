/**
 * One-dimensional `torch.cat`: a list of blocks laid end to end, and the
 * arithmetic that relates a flat position to (block, position in block).
 */
module Sequences {

  /** Total number of elements of all blocks. */
  function TotalLen<T>(blocks: seq<seq<T>>): nat
  {
    if |blocks| == 0 then 0 else |blocks[0]| + TotalLen(blocks[1..])
  }

  /** Flat position at which block i starts. */
  function Offset<T>(blocks: seq<seq<T>>, i: nat): (r: nat)
    requires i <= |blocks|
    ensures i < |blocks| ==> r + |blocks[i]| <= TotalLen(blocks)
    ensures i == |blocks| ==> r == TotalLen(blocks)
  {
    if i == 0 then 0 else |blocks[0]| + Offset(blocks[1..], i - 1)
  }

  /** `torch.cat(blocks)` of a non-empty list. On an empty list `torch.cat`
      raises; that case is decided by the callers, which fail with `EmptyCat`
      before they concatenate. */
  function Cat<T>(blocks: seq<seq<T>>): (r: seq<T>)
    ensures |r| == TotalLen(blocks)
  {
    if |blocks| == 0 then [] else blocks[0] + Cat(blocks[1..])
  }

  /** The block that flat position p falls in. */
  function BlockIndex<T>(blocks: seq<seq<T>>, p: nat): (i: nat)
    requires p < TotalLen(blocks)
    ensures i < |blocks|
    ensures Offset(blocks, i) <= p < Offset(blocks, i) + |blocks[i]|
  {
    if p < |blocks[0]| then 0 else 1 + BlockIndex(blocks[1..], p - |blocks[0]|)
  }

  /** Element k of block i sits at flat position Offset(blocks, i) + k. */
  lemma {:induction false} CatAt<T>(blocks: seq<seq<T>>, i: nat, k: nat)
    requires i < |blocks| && k < |blocks[i]|
    ensures Offset(blocks, i) + k < |Cat(blocks)|
    ensures Cat(blocks)[Offset(blocks, i) + k] == blocks[i][k]
  {
    if i > 0 {
      CatAt(blocks[1..], i - 1, k);
    }
  }

  /** Every flat position is element p - Offset(i) of the block i it falls in. */
  lemma CatAtFlat<T>(blocks: seq<seq<T>>, p: nat)
    requires p < TotalLen(blocks)
    ensures Cat(blocks)[p] == blocks[BlockIndex(blocks, p)][p - Offset(blocks, BlockIndex(blocks, p))]
  {
    var i := BlockIndex(blocks, p);
    CatAt(blocks, i, p - Offset(blocks, i));
  }

  /** Blocks of equal lengths have equal offsets and equal total length. */
  lemma {:induction false} OffsetSameShape<T, U>(a: seq<seq<T>>, b: seq<seq<U>>, i: nat)
    requires |a| == |b| && i <= |a|
    requires forall j :: 0 <= j < |a| ==> |a[j]| == |b[j]|
    ensures Offset(a, i) == Offset(b, i)
    ensures TotalLen(a) == TotalLen(b)
  {
    if |a| > 0 {
      OffsetSameShape(a[1..], b[1..], if i == 0 then 0 else i - 1);
    }
  }

  /** A later block starts after an earlier block ends. */
  lemma {:induction false} OffsetMono<T>(blocks: seq<seq<T>>, i: nat, j: nat)
    requires i < j <= |blocks|
    ensures Offset(blocks, i) + |blocks[i]| <= Offset(blocks, j)
  {
    if i > 0 {
      OffsetMono(blocks[1..], i - 1, j - 1);
    } else if j > 1 {
      OffsetMono(blocks[1..], 0, j - 1);
    }
  }

  /** The block of a flat position does not decrease as the position grows. */
  lemma BlockIndexMono<T>(blocks: seq<seq<T>>, p: nat, p': nat)
    requires p <= p' < TotalLen(blocks)
    ensures BlockIndex(blocks, p) <= BlockIndex(blocks, p')
  {
    var i, i' := BlockIndex(blocks, p), BlockIndex(blocks, p');
    if i' < i {
      OffsetMono(blocks, i', i);
    }
  }

  /** The block index of position Offset(i) + k is i. */
  lemma BlockIndexAt<T>(blocks: seq<seq<T>>, i: nat, k: nat)
    requires i < |blocks| && k < |blocks[i]|
    ensures Offset(blocks, i) + k < TotalLen(blocks)
    ensures BlockIndex(blocks, Offset(blocks, i) + k) == i
  {
    var j := BlockIndex(blocks, Offset(blocks, i) + k);
    if j < i {
      OffsetMono(blocks, j, i);
    } else if i < j {
      OffsetMono(blocks, i, j);
    }
  }

  /** Extending a prefix by one element. */
  lemma PrefixSnoc<T>(s: seq<T>, i: nat)
    requires i < |s|
    ensures s[..i + 1] == s[..i] + [s[i]]
  {
  }
}
