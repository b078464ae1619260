/**
 * The permutation-index helpers of the DETR set criterion
 * (`_get_src_permutation_idx`, `_get_tgt_permutation_idx`): per-image match
 * lists become two parallel flat sequences, the image (batch) index of every
 * match and its slot index, used to gather from and scatter into [B, Q]
 * tensors.
 */
module PermutationIndex {
  import opened Sequences

  /** One image's assignment: query slot src[k] is matched to target object tgt[k]. */
  datatype ImageMatch = ImageMatch(src: seq<nat>, tgt: seq<nat>)

  /** `torch.full_like(block, v)`. */
  function FullLike<T>(block: seq<T>, v: nat): seq<nat>
  {
    seq(|block|, _ => v)
  }

  /** `torch.cat([torch.full_like(b, start + i) for i, b in enumerate(blocks)])`:
      block i contributes |blocks[i]| copies of start + i. */
  function BatchIdxFrom<T>(blocks: seq<seq<T>>, start: nat): (r: seq<nat>)
    ensures |r| == TotalLen(blocks)
  {
    if |blocks| == 0 then [] else FullLike(blocks[0], start) + BatchIdxFrom(blocks[1..], start + 1)
  }

  /** The batch-index half, images numbered from 0 as `enumerate` does. */
  function BatchIdx<T>(blocks: seq<seq<T>>): seq<nat>
  {
    BatchIdxFrom(blocks, 0)
  }

  /** The slots that the matches of image i write, in flat order: the
      inverse of flattening, used to state that each image's order is kept. */
  function Select(batch: seq<nat>, slot: seq<nat>, i: nat): seq<nat>
    requires |batch| == |slot|
  {
    if |batch| == 0 then []
    else (if batch[0] == i then [slot[0]] else []) + Select(batch[1..], slot[1..], i)
  }

  function Sources(indices: seq<ImageMatch>): seq<seq<nat>>
  {
    seq(|indices|, i requires 0 <= i < |indices| => indices[i].src)
  }

  function Targets(indices: seq<ImageMatch>): seq<seq<nat>>
  {
    seq(|indices|, i requires 0 <= i < |indices| => indices[i].tgt)
  }

  /** `_get_src_permutation_idx`: (batch_idx, src_idx). */
  function SrcPermutationIdx(indices: seq<ImageMatch>): (r: (seq<nat>, seq<nat>))
    ensures |r.0| == |r.1| == TotalLen(Sources(indices))
    ensures forall p :: 0 <= p < |r.0| ==> r.0[p] < |indices|
    ensures forall p, p' :: 0 <= p <= p' < |r.0| ==> r.0[p] <= r.0[p']
    ensures forall i :: 0 <= i < |indices| ==> multiset(r.0)[i] == |indices[i].src|
    ensures forall i :: 0 <= i < |indices| ==> Select(r.0, r.1, i) == indices[i].src
  {
    var blocks := Sources(indices);
    FlatProperties(blocks);
    FlatRoundTrip(blocks);
    (BatchIdx(blocks), Cat(blocks))
  }

  /** `_get_tgt_permutation_idx`: (batch_idx, tgt_idx). */
  function TgtPermutationIdx(indices: seq<ImageMatch>): (r: (seq<nat>, seq<nat>))
    ensures |r.0| == |r.1| == TotalLen(Targets(indices))
    ensures forall p :: 0 <= p < |r.0| ==> r.0[p] < |indices|
    ensures forall p, p' :: 0 <= p <= p' < |r.0| ==> r.0[p] <= r.0[p']
    ensures forall i :: 0 <= i < |indices| ==> multiset(r.0)[i] == |indices[i].tgt|
    ensures forall i :: 0 <= i < |indices| ==> Select(r.0, r.1, i) == indices[i].tgt
  {
    var blocks := Targets(indices);
    FlatProperties(blocks);
    FlatRoundTrip(blocks);
    (BatchIdx(blocks), Cat(blocks))
  }

  /** Match k of image i sits at flat position Offset(Sources(indices), i) + k. */
  lemma SrcPermutationIdxAt(indices: seq<ImageMatch>, i: nat, k: nat)
    requires i < |indices| && k < |indices[i].src|
    ensures Offset(Sources(indices), i) + k < |SrcPermutationIdx(indices).0|
    ensures SrcPermutationIdx(indices).0[Offset(Sources(indices), i) + k] == i
    ensures SrcPermutationIdx(indices).1[Offset(Sources(indices), i) + k] == indices[i].src[k]
  {
    FlatAt(Sources(indices), i, k);
  }

  /** Match k of image i sits at flat position Offset(Targets(indices), i) + k. */
  lemma TgtPermutationIdxAt(indices: seq<ImageMatch>, i: nat, k: nat)
    requires i < |indices| && k < |indices[i].tgt|
    ensures Offset(Targets(indices), i) + k < |TgtPermutationIdx(indices).0|
    ensures TgtPermutationIdx(indices).0[Offset(Targets(indices), i) + k] == i
    ensures TgtPermutationIdx(indices).1[Offset(Targets(indices), i) + k] == indices[i].tgt[k]
  {
    FlatAt(Targets(indices), i, k);
  }

  /** Every flat position p is match p - Offset(i) of the image i = batch_idx[p]. */
  lemma SrcPermutationIdxFlat(indices: seq<ImageMatch>, p: nat)
    requires p < |SrcPermutationIdx(indices).0|
    ensures var (batch, src) := SrcPermutationIdx(indices);
      && batch[p] < |indices|
      && Offset(Sources(indices), batch[p]) <= p < Offset(Sources(indices), batch[p]) + |indices[batch[p]].src|
      && src[p] == indices[batch[p]].src[p - Offset(Sources(indices), batch[p])]
  {
    var blocks := Sources(indices);
    BatchIdxAt(blocks, p);
    CatAtFlat(blocks, p);
  }

  /** The worked example of the source's comment. */
  lemma SrcPermutationIdxExample()
    ensures SrcPermutationIdx([ImageMatch([0, 1], [1, 0]), ImageMatch([0], [0])]) == ([0, 0, 1], [0, 1, 0])
  {
    var indices: seq<ImageMatch> := [ImageMatch([0, 1], [1, 0]), ImageMatch([0], [0])];
    var blocks: seq<seq<nat>> := Sources(indices);
    assert blocks == [[0, 1], [0]];
    assert Cat(blocks[1..]) == [0] by { assert blocks[1..][1..] == []; }
    assert Cat(blocks) == [0, 1, 0];
    assert FullLike(blocks[0], 0) == [0, 0];
    assert FullLike(blocks[1], 1) == [1];
    assert BatchIdxFrom(blocks[1..], 1) == [1] by { assert blocks[1..][1..] == []; }
    assert BatchIdx(blocks) == [0, 0, 1];
  }

  // ---- generic facts about the flattening -------------------------------

  /** batch_idx[p] is the image whose block holds flat position p. */
  lemma {:induction false} BatchIdxFromAt<T>(blocks: seq<seq<T>>, start: nat, p: nat)
    requires p < TotalLen(blocks)
    ensures BatchIdxFrom(blocks, start)[p] == start + BlockIndex(blocks, p)
  {
    if p >= |blocks[0]| {
      BatchIdxFromAt(blocks[1..], start + 1, p - |blocks[0]|);
    }
  }

  lemma BatchIdxAt<T>(blocks: seq<seq<T>>, p: nat)
    requires p < TotalLen(blocks)
    ensures |BatchIdx(blocks)| == TotalLen(blocks)
    ensures BatchIdx(blocks)[p] == BlockIndex(blocks, p)
  {
    BatchIdxFromAt(blocks, 0, p);
  }

  /** Match k of block i lands at flat position Offset(i) + k, tagged with i. */
  lemma FlatAt<T>(blocks: seq<seq<T>>, i: nat, k: nat)
    requires i < |blocks| && k < |blocks[i]|
    ensures Offset(blocks, i) + k < |BatchIdx(blocks)| == |Cat(blocks)|
    ensures BatchIdx(blocks)[Offset(blocks, i) + k] == i
    ensures Cat(blocks)[Offset(blocks, i) + k] == blocks[i][k]
  {
    CatAt(blocks, i, k);
    BlockIndexAt(blocks, i, k);
    BatchIdxAt(blocks, Offset(blocks, i) + k);
  }

  lemma MultisetFull(n: nat, v: nat, x: nat)
    ensures multiset(seq(n, _ => v))[x] == if x == v then n else 0
  {
    if n > 0 {
      assert seq(n, _ => v) == seq(n - 1, _ => v) + [v];
      MultisetFull(n - 1, v, x);
    }
  }

  lemma {:induction false} BatchIdxFromCount<T>(blocks: seq<seq<T>>, start: nat, x: nat)
    ensures multiset(BatchIdxFrom(blocks, start))[x]
         == if start <= x < start + |blocks| then |blocks[x - start]| else 0
  {
    if |blocks| > 0 {
      var head: seq<nat> := FullLike(blocks[0], start);
      var rest: seq<nat> := BatchIdxFrom(blocks[1..], start + 1);
      assert BatchIdxFrom(blocks, start) == head + rest;
      var mh: multiset<nat>, mr: multiset<nat> := multiset(head), multiset(rest);
      assert multiset(BatchIdxFrom(blocks, start)) == mh + mr;
      BatchIdxFromCount(blocks[1..], start + 1, x);
      MultisetFull(|blocks[0]|, start, x);
      if start < x < start + |blocks| {
        assert blocks[1..][x - (start + 1)] == blocks[x - start];
      }
    }
  }

  lemma {:induction false} SelectAppend(b1: seq<nat>, s1: seq<nat>, b2: seq<nat>, s2: seq<nat>, x: nat)
    requires |b1| == |s1| && |b2| == |s2|
    ensures Select(b1 + b2, s1 + s2, x) == Select(b1, s1, x) + Select(b2, s2, x)
  {
    if |b1| > 0 {
      assert (b1 + b2)[1..] == b1[1..] + b2;
      assert (s1 + s2)[1..] == s1[1..] + s2;
      SelectAppend(b1[1..], s1[1..], b2, s2, x);
    } else {
      assert b1 + b2 == b2 && s1 + s2 == s2;
    }
  }

  lemma {:induction false} SelectFull(n: nat, v: nat, s: seq<nat>, x: nat)
    requires |s| == n
    ensures Select(seq(n, _ => v), s, x) == if x == v then s else []
  {
    if n > 0 {
      assert seq(n, _ => v)[1..] == seq(n - 1, _ => v);
      SelectFull(n - 1, v, s[1..], x);
      assert s == [s[0]] + s[1..];
    }
  }

  lemma {:induction false} BatchIdxFromSelect(blocks: seq<seq<nat>>, start: nat, x: nat)
    ensures |BatchIdxFrom(blocks, start)| == |Cat(blocks)|
    ensures Select(BatchIdxFrom(blocks, start), Cat(blocks), x)
         == if start <= x < start + |blocks| then blocks[x - start] else []
  {
    if |blocks| > 0 {
      var head, rest := blocks[0], blocks[1..];
      var tags, restTags := FullLike(head, start), BatchIdxFrom(rest, start + 1);
      assert BatchIdxFrom(blocks, start) == tags + restTags;
      assert Cat(blocks) == head + Cat(rest);
      var first, later := Select(tags, head, x), Select(restTags, Cat(rest), x);
      assert Select(BatchIdxFrom(blocks, start), Cat(blocks), x) == first + later by {
        SelectAppend(tags, head, restTags, Cat(rest), x);
      }
      assert first == if x == start then head else [] by {
        SelectFull(|head|, start, head, x);
      }
      assert later == if start + 1 <= x < start + |blocks| then blocks[x - start] else [] by {
        BatchIdxFromSelect(rest, start + 1, x);
        if start + 1 <= x < start + |blocks| {
          assert rest[x - (start + 1)] == blocks[x - start];
        }
      }
    }
  }

  /** batch_idx never decreases along the flat sequence. */
  lemma BatchIdxMono<T>(blocks: seq<seq<T>>, p: nat, p': nat)
    requires p <= p' < TotalLen(blocks)
    ensures |BatchIdx(blocks)| == TotalLen(blocks)
    ensures BatchIdx(blocks)[p] <= BatchIdx(blocks)[p']
  {
    BatchIdxAt(blocks, p);
    BatchIdxAt(blocks, p');
    BlockIndexMono(blocks, p, p');
  }

  /** The properties of the flattening that both helpers promise. */
  lemma FlatProperties<T>(blocks: seq<seq<T>>)
    ensures |BatchIdx(blocks)| == |Cat(blocks)| == TotalLen(blocks)
    ensures forall p :: 0 <= p < |BatchIdx(blocks)| ==> BatchIdx(blocks)[p] < |blocks|
    ensures forall p, p' :: 0 <= p <= p' < |BatchIdx(blocks)| ==> BatchIdx(blocks)[p] <= BatchIdx(blocks)[p']
    ensures forall i :: 0 <= i < |blocks| ==> multiset(BatchIdx(blocks))[i] == |blocks[i]|
  {
    BatchIdxBounded(blocks);
    BatchIdxSorted(blocks);
    BatchIdxCounts(blocks);
  }

  lemma BatchIdxBounded<T>(blocks: seq<seq<T>>)
    ensures |BatchIdx(blocks)| == TotalLen(blocks)
    ensures forall p :: 0 <= p < |BatchIdx(blocks)| ==> BatchIdx(blocks)[p] < |blocks|
  {
    forall p | 0 <= p < TotalLen(blocks) ensures BatchIdx(blocks)[p] < |blocks| {
      BatchIdxAt(blocks, p);
    }
  }

  lemma BatchIdxSorted<T>(blocks: seq<seq<T>>)
    ensures |BatchIdx(blocks)| == TotalLen(blocks)
    ensures forall p, p' :: 0 <= p <= p' < |BatchIdx(blocks)| ==> BatchIdx(blocks)[p] <= BatchIdx(blocks)[p']
  {
    forall p, p' | 0 <= p <= p' < TotalLen(blocks) ensures BatchIdx(blocks)[p] <= BatchIdx(blocks)[p'] {
      BatchIdxMono(blocks, p, p');
    }
  }

  lemma BatchIdxCounts<T>(blocks: seq<seq<T>>)
    ensures forall i :: 0 <= i < |blocks| ==> multiset(BatchIdx(blocks))[i] == |blocks[i]|
  {
    forall i: nat | i < |blocks| ensures multiset(BatchIdx(blocks))[i] == |blocks[i]| {
      BatchIdxFromCount(blocks, 0, i);
    }
  }

  /** Selecting image i from the flat pair gives back image i's own list. */
  lemma FlatRoundTrip(blocks: seq<seq<nat>>)
    ensures |BatchIdx(blocks)| == |Cat(blocks)|
    ensures forall i :: 0 <= i < |blocks| ==> Select(BatchIdx(blocks), Cat(blocks), i) == blocks[i]
  {
    forall i | 0 <= i < |blocks| ensures Select(BatchIdx(blocks), Cat(blocks), i) == blocks[i] {
      BatchIdxFromSelect(blocks, 0, i);
    }
  }
}
