/**
 * The position encodings of the DETR transformer input: the sine encoding,
 * built from running counts of the non-padded pixels, and the learned
 * encoding, built from two lookup tables. Real-valued arithmetic (sin, cos,
 * powers, the normalising division) is kept symbolic: a channel holds the
 * term it is computed from.
 */
module PositionEncoding {
  import opened Results

  /** The padding mask of a `NestedTensor`: [batch, height, width], true on
      padding. The dimensions are kept apart from the cells so that an empty
      batch still has a height and a width. */
  datatype Mask = Mask(batch: nat, height: nat, width: nat, pad: seq<seq<seq<bool>>>)

  predicate Shaped(m: Mask)
  {
    && |m.pad| == m.batch
    && (forall b :: 0 <= b < m.batch ==> |m.pad[b]| == m.height)
    && (forall b, h :: 0 <= b < m.batch && 0 <= h < m.height ==> |m.pad[b][h]| == m.width)
  }

  // ---- cumulative counts ---------------------------------------------------

  /** `torch.cumsum` of a boolean vector. */
  function Cumsum(xs: seq<bool>): (r: seq<nat>)
    ensures |r| == |xs|
    ensures forall k :: 0 <= k < |r| ==> r[k] <= k + 1
    ensures forall k :: 0 < k < |r| ==> r[k - 1] <= r[k]
  {
    if |xs| == 0 then []
    else
      var c := Cumsum(xs[..|xs| - 1]);
      c + [(if |c| == 0 then 0 else c[|c| - 1]) + (if xs[|xs| - 1] then 1 else 0)]
  }

  /** The positions 0..k holding true. */
  function Hits(xs: seq<bool>, k: nat): set<nat>
  {
    set j: nat | j <= k && j < |xs| && xs[j]
  }

  /** Cutting off the last entry leaves the earlier hits alone. */
  lemma HitsPrefix(xs: seq<bool>, n: nat, k: nat)
    requires k < n <= |xs|
    ensures Hits(xs[..n], k) == Hits(xs, k)
  {
  }

  /** The hits at 0..n are those at 0..n-1 and, when it holds true, n itself. */
  lemma HitsStep(xs: seq<bool>, n: nat)
    requires 0 < n < |xs|
    ensures |Hits(xs, n)| == |Hits(xs, n - 1)| + if xs[n] then 1 else 0
  {
    assert Hits(xs, n) == Hits(xs, n - 1) + if xs[n] then {n} else {};
  }

  /** Entry k of the running sum counts the true entries at 0..k. */
  lemma {:induction false} CumsumCounts(xs: seq<bool>, k: nat)
    requires k < |xs|
    ensures Cumsum(xs)[k] == |Hits(xs, k)|
  {
    var n := |xs| - 1;
    var init := xs[..n];
    assert Cumsum(xs) == Cumsum(init) + [Cumsum(xs)[n]];
    if k < n {
      CumsumCounts(init, k);
      HitsPrefix(xs, n, k);
    } else if n == 0 {
      assert Hits(xs, 0) == if xs[0] then {0} else {};
    } else {
      CumsumCounts(init, n - 1);
      HitsPrefix(xs, n, n - 1);
      HitsStep(xs, n);
    }
  }

  /** The running sum never decreases. */
  lemma {:induction false} CumsumMono(xs: seq<bool>, k: nat, k': nat)
    requires k <= k' < |xs|
    ensures Cumsum(xs)[k] <= Cumsum(xs)[k']
  {
    if k < k' {
      CumsumMono(xs, k, k' - 1);
    }
  }

  /** `~mask` down column w of one image. */
  function ColumnNotPad(img: seq<seq<bool>>, w: nat): (r: seq<bool>)
    requires forall h :: 0 <= h < |img| ==> w < |img[h]|
    ensures |r| == |img|
  {
    seq(|img|, h requires 0 <= h < |img| => !img[h][w])
  }

  /** `~mask` along one row. */
  function RowNotPad(row: seq<bool>): (r: seq<bool>)
    ensures |r| == |row|
  {
    seq(|row|, w requires 0 <= w < |row| => !row[w])
  }

  predicate InMask(m: Mask, b: nat, h: nat, w: nat)
  {
    Shaped(m) && b < m.batch && h < m.height && w < m.width
  }

  /** `not_mask.cumsum(1)` at (b, h, w). */
  function YEmbed(m: Mask, b: nat, h: nat, w: nat): nat
    requires InMask(m, b, h, w)
  {
    Cumsum(ColumnNotPad(m.pad[b], w))[h]
  }

  /** `not_mask.cumsum(2)` at (b, h, w). */
  function XEmbed(m: Mask, b: nat, h: nat, w: nat): nat
    requires InMask(m, b, h, w)
  {
    Cumsum(RowNotPad(m.pad[b][h]))[w]
  }

  /** The y coordinate counts the non-padded pixels of column w in rows 0..h;
      it lies in 0..h+1 and grows with h. */
  lemma YEmbedCounts(m: Mask, b: nat, h: nat, w: nat)
    requires InMask(m, b, h, w)
    ensures YEmbed(m, b, h, w) == |set r: nat | r <= h && r < m.height && !m.pad[b][r][w]|
    ensures YEmbed(m, b, h, w) <= h + 1 <= m.height
    ensures forall h' :: h <= h' < m.height ==> YEmbed(m, b, h, w) <= YEmbed(m, b, h', w)
  {
    var col := ColumnNotPad(m.pad[b], w);
    CumsumCounts(col, h);
    assert Hits(col, h) == set r: nat | r <= h && r < m.height && !m.pad[b][r][w];
    forall h' | h <= h' < m.height ensures YEmbed(m, b, h, w) <= YEmbed(m, b, h', w) {
      CumsumMono(col, h, h');
    }
  }

  /** The x coordinate counts the non-padded pixels of row h in columns 0..w;
      it lies in 0..w+1 and grows with w. */
  lemma XEmbedCounts(m: Mask, b: nat, h: nat, w: nat)
    requires InMask(m, b, h, w)
    ensures XEmbed(m, b, h, w) == |set c: nat | c <= w && c < m.width && !m.pad[b][h][c]|
    ensures XEmbed(m, b, h, w) <= w + 1 <= m.width
    ensures forall w' :: w <= w' < m.width ==> XEmbed(m, b, h, w) <= XEmbed(m, b, h, w')
  {
    var row := RowNotPad(m.pad[b][h]);
    CumsumCounts(row, w);
    assert Hits(row, w) == set c: nat | c <= w && c < m.width && !m.pad[b][h][c];
    forall w' | w <= w' < m.width ensures XEmbed(m, b, h, w) <= XEmbed(m, b, h, w') {
      CumsumMono(row, w, w');
    }
  }

  // ---- the sine encoding ---------------------------------------------------

  /** `scale`: 2 pi when none is given. */
  datatype Scale = TwoPi | Given(value: real)

  datatype Sine = Sine(numPosFeats: nat, temperature: int, normalize: bool, scale: Scale)

  /** `PositionEmbeddingSine(num_pos_feats=128, temperature=10000,
      normalize=False, scale=None)`, with the same defaults. */
  function NewSine(numPosFeats: nat := 128, temperature: int := 10000, normalize: bool := false, scale: Option<real> := None): (e: Sine)
    ensures e.numPosFeats == numPosFeats && e.temperature == temperature && e.normalize == normalize
    ensures e.scale == if scale.Some? then Given(scale.value) else TwoPi
  {
    Sine(numPosFeats, temperature, normalize, if scale.None? then TwoPi else Given(scale.value))
  }

  /** Built with no arguments, the encoding has 128 features, temperature
      10000, no normalisation and the scale 2 pi. */
  lemma NewSineDefaults()
    ensures NewSine() == Sine(128, 10000, false, TwoPi)
    ensures forall n: nat :: NewSine(n, normalize := true) == Sine(n, 10000, true, TwoPi)
  {
  }

  /** A pixel coordinate: the raw running count, or with normalisation
      `count / (last + 1e-6) * scale`, where `last` is the count at the end
      of the row or column. */
  datatype Coordinate = Count(count: nat) | Normalized(count: nat, last: nat, scale: Scale)

  function YCoord(e: Sine, m: Mask, b: nat, h: nat, w: nat): Coordinate
    requires InMask(m, b, h, w)
  {
    if e.normalize then Normalized(YEmbed(m, b, h, w), YEmbed(m, b, m.height - 1, w), e.scale)
    else Count(YEmbed(m, b, h, w))
  }

  function XCoord(e: Sine, m: Mask, b: nat, h: nat, w: nat): Coordinate
    requires InMask(m, b, h, w)
  {
    if e.normalize then Normalized(XEmbed(m, b, h, w), XEmbed(m, b, h, m.width - 1), e.scale)
    else Count(XEmbed(m, b, h, w))
  }

  /** `coord / temperature ** (expIndex / numPosFeats)`. */
  datatype Phase = Phase(coord: Coordinate, temperature: int, expIndex: nat, numPosFeats: nat)

  datatype Wave = Sin(phase: Phase) | Cos(phase: Phase)

  /** `2 * (k // 2)`, the exponent index of channel k in `dim_t`. */
  function FreqIndex(k: nat): nat
  {
    2 * (k / 2)
  }

  /** Channels 2m and 2m+1 share a wavelength. */
  lemma SharedWavelength(m: nat)
    ensures FreqIndex(2 * m) == FreqIndex(2 * m + 1) == 2 * m
  {
  }

  /** `coord[..., None] / dim_t`: one phase per channel. */
  function Phases(e: Sine, coord: Coordinate): (r: seq<Phase>)
    ensures |r| == e.numPosFeats
    ensures forall k :: 0 <= k < |r| ==> r[k] == Phase(coord, e.temperature, FreqIndex(k), e.numPosFeats)
  {
    seq(e.numPosFeats, k requires 0 <= k => Phase(coord, e.temperature, FreqIndex(k), e.numPosFeats))
  }

  /** `s[0::2]`. */
  function Evens<T>(s: seq<T>): (r: seq<T>)
    ensures |r| == (|s| + 1) / 2
    ensures forall j :: 0 <= j < |r| ==> r[j] == s[2 * j]
  {
    if |s| <= 1 then s else [s[0]] + Evens(s[2..])
  }

  /** `s[1::2]`. */
  function Odds<T>(s: seq<T>): (r: seq<T>)
    ensures |r| == |s| / 2
    ensures forall j :: 0 <= j < |r| ==> r[j] == s[2 * j + 1]
  {
    if |s| <= 1 then [] else [s[1]] + Odds(s[2..])
  }

  /** `torch.stack((a, b), dim=-1).flatten(-2)` on equal-length vectors. */
  function Interleave<T>(a: seq<T>, b: seq<T>): (r: seq<T>)
    requires |a| == |b|
    ensures |r| == 2 * |a|
    ensures forall j :: 0 <= j < |a| ==> r[2 * j] == a[j] && r[2 * j + 1] == b[j]
  {
    if |a| == 0 then [] else [a[0], b[0]] + Interleave(a[1..], b[1..])
  }

  function SinAll(ps: seq<Phase>): (r: seq<Wave>)
    ensures |r| == |ps| && forall j :: 0 <= j < |ps| ==> r[j] == Sin(ps[j])
  {
    seq(|ps|, j requires 0 <= j < |ps| => Sin(ps[j]))
  }

  function CosAll(ps: seq<Phase>): (r: seq<Wave>)
    ensures |r| == |ps| && forall j :: 0 <= j < |ps| ==> r[j] == Cos(ps[j])
  {
    seq(|ps|, j requires 0 <= j < |ps| => Cos(ps[j]))
  }

  /** `torch.stack((pos[..., 0::2].sin(), pos[..., 1::2].cos()), dim=4).flatten(3)`
      at one pixel; the stack fails when the two halves differ in length. */
  function Waves(ps: seq<Phase>): Result<seq<Wave>>
  {
    var s, c := SinAll(Evens(ps)), CosAll(Odds(ps));
    if |s| != |c| then Err(ShapeMismatch) else Ok(Interleave(s, c))
  }

  /** The interleave succeeds exactly for an even number of channels, and
      then puts the sine of channel k on even k and its cosine on odd k. */
  lemma WavesChannels(ps: seq<Phase>)
    ensures Waves(ps).Ok? <==> |ps| % 2 == 0
    ensures Waves(ps).Ok? ==> |Waves(ps).value| == |ps|
    ensures Waves(ps).Ok? ==> forall k :: 0 <= k < |ps| ==>
      Waves(ps).value[k] == if k % 2 == 0 then Sin(ps[k]) else Cos(ps[k])
  {
    var s, c := SinAll(Evens(ps)), CosAll(Odds(ps));
    assert |s| == (|ps| + 1) / 2 && |c| == |ps| / 2;
    if |ps| % 2 == 0 {
      assert |s| == |c|;
      var v := Interleave(s, c);
      forall k | 0 <= k < |ps| ensures v[k] == if k % 2 == 0 then Sin(ps[k]) else Cos(ps[k]) {
        var j := k / 2;
        if k % 2 == 0 {
          assert k == 2 * j && j < |s|;
          assert v[2 * j] == s[j] == Sin(Evens(ps)[j]);
        } else {
          assert k == 2 * j + 1 && j < |c|;
          assert v[2 * j + 1] == c[j] == Cos(Odds(ps)[j]);
        }
      }
    }
  }

  /** The channels of one pixel: `torch.cat((pos_y, pos_x), dim=3)`. */
  function PixelChannels(e: Sine, m: Mask, b: nat, h: nat, w: nat): (v: seq<Wave>)
    requires InMask(m, b, h, w) && e.numPosFeats % 2 == 0
    ensures |v| == 2 * e.numPosFeats
  {
    var y, x := Phases(e, YCoord(e, m, b, h, w)), Phases(e, XCoord(e, m, b, h, w));
    WavesChannels(y);
    WavesChannels(x);
    Waves(y).value + Waves(x).value
  }

  /** `PositionEmbeddingSine.forward`: a [batch, 2 * num_pos_feats, height,
      width] tensor, or the failure of the stack when num_pos_feats is odd
      (the halves have ceil(n/2) and floor(n/2) channels). */
  function SineForward(e: Sine, m: Mask): (r: Result<seq<seq<seq<seq<Wave>>>>>)
    requires Shaped(m)
  {
    var n := e.numPosFeats;
    if (n + 1) / 2 != n / 2 then Err(ShapeMismatch)
    else
      Ok(seq(m.batch, b requires 0 <= b < m.batch =>
        seq(2 * n, c requires 0 <= c < 2 * n =>
          seq(m.height, h requires 0 <= h < m.height =>
            seq(m.width, w requires 0 <= w < m.width => PixelChannels(e, m, b, h, w)[c])))))
  }

  /** The channel that `SineForward` puts at (b, c, h, w): channels below n
      come from the y coordinate, the rest from the x coordinate; within a
      block, even channels are sines and odd ones cosines, and a channel
      uses exponent index 2 * (k // 2). */
  function SineChannel(e: Sine, m: Mask, b: nat, c: nat, h: nat, w: nat): Wave
    requires InMask(m, b, h, w)
  {
    var n := e.numPosFeats;
    var coord := if c < n then YCoord(e, m, b, h, w) else XCoord(e, m, b, h, w);
    var k := if c < n then c else c - n;
    var p := Phase(coord, e.temperature, FreqIndex(k), n);
    if k % 2 == 0 then Sin(p) else Cos(p)
  }

  /** The sine encoding fails exactly when num_pos_feats is odd, and
      otherwise holds one [2n, height, width] block per image. */
  lemma SineShape(e: Sine, m: Mask)
    requires Shaped(m)
    ensures SineForward(e, m).Ok? <==> e.numPosFeats % 2 == 0
    ensures SineForward(e, m).Err? ==> SineForward(e, m).error == ShapeMismatch
    ensures SineForward(e, m).Ok? ==> |SineForward(e, m).value| == m.batch
    ensures SineForward(e, m).Ok? ==> forall b :: 0 <= b < m.batch ==>
      |SineForward(e, m).value[b]| == 2 * e.numPosFeats
  {
  }

  /** Position (b, c, h, w) of the sine encoding holds `SineChannel`:
      channels below n from the y coordinate, the rest from the x
      coordinate, sines on even and cosines on odd channels of a block. */
  lemma SineAt(e: Sine, m: Mask, b: nat, c: nat, h: nat, w: nat)
    requires InMask(m, b, h, w) && c < 2 * e.numPosFeats
    requires SineForward(e, m).Ok?
    ensures b < |SineForward(e, m).value|
    ensures |SineForward(e, m).value[b]| == 2 * e.numPosFeats
    ensures |SineForward(e, m).value[b][c]| == m.height
    ensures |SineForward(e, m).value[b][c][h]| == m.width
    ensures SineForward(e, m).value[b][c][h][w] == SineChannel(e, m, b, c, h, w)
  {
    var y, x := Phases(e, YCoord(e, m, b, h, w)), Phases(e, XCoord(e, m, b, h, w));
    WavesChannels(y);
    WavesChannels(x);
    assert SineForward(e, m).value[b][c][h][w] == (Waves(y).value + Waves(x).value)[c];
  }

  // ---- the learned encoding ------------------------------------------------

  /** Rows of each `nn.Embedding` table: the largest height and width it serves. */
  const TableRows: nat := 50

  /** A learned encoding: `row_embed` and `col_embed` weights. */
  datatype Learned = Learned(numPosFeats: nat, rowEmbed: seq<seq<real>>, colEmbed: seq<seq<real>>)

  predicate TableShaped(t: seq<seq<real>>, width: nat)
  {
    |t| == TableRows && forall i :: 0 <= i < |t| ==> |t[i]| == width
  }

  predicate LearnedValid(e: Learned)
  {
    TableShaped(e.rowEmbed, e.numPosFeats) && TableShaped(e.colEmbed, e.numPosFeats)
  }

  /** A `TableRows` x width table whose entries are drawn by `draw`. */
  function Table(width: nat, draw: (nat, nat) -> real): (t: seq<seq<real>>)
    ensures TableShaped(t, width)
    ensures forall i, j :: 0 <= i < TableRows && 0 <= j < width ==> t[i][j] == draw(i, j)
  {
    seq(TableRows, i requires 0 <= i => seq(width, j requires 0 <= j => draw(i, j)))
  }

  /** `PositionEmbeddingLearned(num_pos_feats)`: the uniform initial weights
      are the draws `rowDraw` and `colDraw`. */
  function NewLearned(numPosFeats: nat, rowDraw: (nat, nat) -> real, colDraw: (nat, nat) -> real): (e: Learned)
    ensures e.numPosFeats == numPosFeats && LearnedValid(e)
  {
    Learned(numPosFeats, Table(numPosFeats, rowDraw), Table(numPosFeats, colDraw))
  }

  /** `torch.arange(n)`. */
  function Range(n: nat): (r: seq<nat>)
    ensures |r| == n && forall i :: 0 <= i < n ==> r[i] == i
  {
    seq(n, i requires 0 <= i => i)
  }

  /** `nn.Embedding` lookup of a vector of indices: an index past the table
      is an error. */
  function Embed(table: seq<seq<real>>, idx: seq<nat>): (r: Result<seq<seq<real>>>)
    ensures r.Ok? <==> forall k :: 0 <= k < |idx| ==> idx[k] < |table|
    ensures r.Err? ==> r.error == IndexOutOfRange
    ensures r.Ok? ==> |r.value| == |idx| && forall k :: 0 <= k < |idx| ==> r.value[k] == table[idx[k]]
  {
    if |idx| == 0 then Ok([])
    else if idx[0] >= |table| then Err(IndexOutOfRange)
    else
      var rest := Embed(table, idx[1..]);
      if rest.Err? then rest else Ok([table[idx[0]]] + rest.value)
  }

  /** `y_emb.unsqueeze(1).repeat(1, w, 1)`: each of the [H, C] row vectors,
      copied for every one of w columns, giving [H, w, C]. */
  function RepeatAcross(ys: seq<seq<real>>, w: nat): (r: seq<seq<seq<real>>>)
    ensures |r| == |ys|
    ensures forall i :: 0 <= i < |ys| ==> |r[i]| == w && forall j :: 0 <= j < w ==> r[i][j] == ys[i]
  {
    seq(|ys|, i requires 0 <= i < |ys| => seq(w, _ => ys[i]))
  }

  /** Two tensors of the same [H, W] layout. */
  predicate SameGrid(a: seq<seq<seq<real>>>, b: seq<seq<seq<real>>>)
  {
    |a| == |b| && forall i :: 0 <= i < |a| ==> |a[i]| == |b[i]|
  }

  /** `torch.cat([a, b], dim=-1)`: at every (h, w) the vector of a followed
      by the vector of b. */
  function CatLast(a: seq<seq<seq<real>>>, b: seq<seq<seq<real>>>): (r: seq<seq<seq<real>>>)
    requires SameGrid(a, b)
    ensures SameGrid(r, a)
    ensures forall i, j :: 0 <= i < |a| && 0 <= j < |a[i]| ==> r[i][j] == a[i][j] + b[i][j]
  {
    seq(|a|, i requires 0 <= i < |a| => seq(|a[i]|, j requires 0 <= j < |a[i]| => a[i][j] + b[i][j]))
  }

  /** `.permute(2, 0, 1)` of an [H, W, k] tensor: [k, H, W]. */
  function Permute(t: seq<seq<seq<real>>>, width: nat, k: nat): (r: seq<seq<seq<real>>>)
    requires forall i :: 0 <= i < |t| ==> |t[i]| == width && forall j :: 0 <= j < width ==> |t[i][j]| == k
    ensures |r| == k
    ensures forall c :: 0 <= c < k ==> |r[c]| == |t|
    ensures forall c, i :: 0 <= c < k && 0 <= i < |t| ==> |r[c][i]| == width
    ensures forall c, i, j :: 0 <= c < k && 0 <= i < |t| && 0 <= j < width ==> r[c][i][j] == t[i][j][c]
  {
    seq(k, c requires 0 <= c < k =>
      seq(|t|, i requires 0 <= i < |t| =>
        seq(width, j requires 0 <= j < width => t[i][j][c])))
  }

  /** The [2C, height, width] block built from the looked-up embeddings:
      the column vectors repeated down the rows and the row vectors repeated
      across the columns, concatenated along the channels, then permuted to
      channels first. */
  function LearnedImage(n: nat, xs: seq<seq<real>>, ys: seq<seq<real>>): (r: seq<seq<seq<real>>>)
    requires forall w :: 0 <= w < |xs| ==> |xs[w]| == n
    requires forall h :: 0 <= h < |ys| ==> |ys[h]| == n
    ensures |r| == 2 * n
    ensures forall c :: 0 <= c < 2 * n ==> |r[c]| == |ys|
    ensures forall c, h :: 0 <= c < 2 * n && 0 <= h < |ys| ==> |r[c][h]| == |xs|
  {
    var down, across := Repeat(xs, |ys|), RepeatAcross(ys, |xs|);
    var pos := CatLast(down, across);
    assert forall i, j :: 0 <= i < |ys| && 0 <= j < |xs| ==> pos[i][j] == xs[j] + ys[i];
    Permute(pos, |xs|, 2 * n)
  }

  /** Looking up 0..n-1 returns the first n rows. */
  lemma EmbedRange(table: seq<seq<real>>, n: nat)
    requires n <= |table|
    ensures Embed(table, Range(n)) == Ok(table[..n])
  {
    var r := Embed(table, Range(n));
    assert r.Ok?;
    assert forall k :: 0 <= k < n ==> r.value[k] == table[k];
    assert r.value == table[..n];
  }

  /** `embed(torch.arange(n))`: the first n rows of the table, or the
      out-of-range error when the table has fewer than n rows. */
  function Lookup(table: seq<seq<real>>, n: nat): (r: Result<seq<seq<real>>>)
    ensures r.Ok? <==> n <= |table|
    ensures r.Err? ==> r.error == IndexOutOfRange
    ensures r.Ok? ==> |r.value| == n && forall k :: 0 <= k < n ==> r.value[k] == table[k]
  {
    if n <= |table| then Ok(table[..n]) else Err(IndexOutOfRange)
  }

  /** Looking up 0..n-1 one index at a time gives the same result, error
      included. */
  lemma LookupEmbed(table: seq<seq<real>>, n: nat)
    ensures Lookup(table, n) == Embed(table, Range(n))
  {
    if n <= |table| {
      EmbedRange(table, n);
    } else {
      assert Range(n)[|table|] == |table|;
    }
  }

  /** `x.unsqueeze(0).repeat(n, ...)`: n copies of x. */
  function Repeat<T>(x: T, n: nat): (r: seq<T>)
    ensures |r| == n && forall i :: 0 <= i < n ==> r[i] == x
  {
    seq(n, _ => x)
  }

  /** Every copy of the block holds, at channel c, row h and column w, the
      column vector's entry for c < C and the row vector's entry otherwise. */
  lemma LearnedImageAt(n: nat, xs: seq<seq<real>>, ys: seq<seq<real>>, batch: nat, b: nat, c: nat, h: nat, w: nat)
    requires forall w :: 0 <= w < |xs| ==> |xs[w]| == n
    requires forall h :: 0 <= h < |ys| ==> |ys[h]| == n
    requires b < batch && c < 2 * n && h < |ys| && w < |xs|
    ensures Repeat(LearnedImage(n, xs, ys), batch)[b][c][h][w] == if c < n then xs[w][c] else ys[h][c - n]
  {
    var pos := CatLast(Repeat(xs, |ys|), RepeatAcross(ys, |xs|));
    assert pos[h][w] == xs[w] + ys[h];
    assert LearnedImage(n, xs, ys)[c][h][w] == pos[h][w][c];
  }

  /** `PositionEmbeddingLearned.forward`: the lookups, then the image block
      repeated over the batch (`.unsqueeze(0).repeat(B, 1, 1, 1)`). */
  function LearnedForward(e: Learned, m: Mask): (r: Result<seq<seq<seq<seq<real>>>>>)
    requires LearnedValid(e)
  {
    var x := Lookup(e.colEmbed, m.width);
    var y := Lookup(e.rowEmbed, m.height);
    if x.Err? then Err(x.error)
    else if y.Err? then Err(y.error)
    else
      var image := LearnedImage(e.numPosFeats, x.value, y.value);
      Ok(Repeat(image, m.batch))
  }

  /** The lookup succeeds exactly when height and width are at most 50. */
  lemma LearnedBounds(e: Learned, m: Mask)
    requires LearnedValid(e)
    ensures LearnedForward(e, m).Ok? <==> m.height <= TableRows && m.width <= TableRows
    ensures LearnedForward(e, m).Err? ==> LearnedForward(e, m).error == IndexOutOfRange
  {
  }

  /** A successful learned encoding is [batch, 2C, height, width]. */
  lemma LearnedShape(e: Learned, m: Mask)
    requires LearnedValid(e)
    requires LearnedForward(e, m).Ok?
    ensures |LearnedForward(e, m).value| == m.batch
    ensures forall b :: 0 <= b < m.batch ==> |LearnedForward(e, m).value[b]| == 2 * e.numPosFeats
    ensures forall b, c :: 0 <= b < m.batch && 0 <= c < 2 * e.numPosFeats ==>
      |LearnedForward(e, m).value[b][c]| == m.height
    ensures forall b, c, h :: 0 <= b < m.batch && 0 <= c < 2 * e.numPosFeats && 0 <= h < m.height ==>
      |LearnedForward(e, m).value[b][c][h]| == m.width
  {
  }

  /** Within the table bounds the lookups are the first rows of the tables,
      and every image of the batch gets the same block. */
  lemma LearnedValue(e: Learned, m: Mask)
    requires LearnedValid(e)
    requires m.height <= TableRows && m.width <= TableRows
    ensures LearnedForward(e, m) ==
      Ok(Repeat(LearnedImage(e.numPosFeats, e.colEmbed[..m.width], e.rowEmbed[..m.height]), m.batch))
  {
  }

  /** At (b, h, w), channel c < C is `col_embed[w][c]` and channel c >= C is
      `row_embed[h][c - C]`. */
  lemma LearnedAt(e: Learned, m: Mask, b: nat, c: nat, h: nat, w: nat)
    requires LearnedValid(e)
    requires LearnedForward(e, m).Ok?
    requires b < m.batch && c < 2 * e.numPosFeats && h < m.height && w < m.width
    ensures h < TableRows && w < TableRows
    ensures LearnedForward(e, m).value[b][c][h][w] ==
      if c < e.numPosFeats then e.colEmbed[w][c] else e.rowEmbed[h][c - e.numPosFeats]
  {
    LearnedBounds(e, m);
    LearnedValue(e, m);
    var x, y := e.colEmbed[..m.width], e.rowEmbed[..m.height];
    LearnedImageAt(e.numPosFeats, x, y, m.batch, b, c, h, w);
    assert x[w] == e.colEmbed[w] && y[h] == e.rowEmbed[h];
  }

  /** The result is a batch of [2C, height, width] blocks, and every image
      gets the same block: it depends only on the mask's height and width,
      neither on its padding nor on the image index. */
  lemma LearnedShapeOnly(e: Learned, m1: Mask, m2: Mask, b1: nat, b2: nat)
    requires LearnedValid(e)
    requires m1.height == m2.height && m1.width == m2.width
    requires LearnedForward(e, m1).Ok? && b1 < m1.batch && b2 < m2.batch
    ensures LearnedForward(e, m2).Ok?
    ensures |LearnedForward(e, m1).value| == m1.batch
    ensures LearnedForward(e, m1).value[b1] == LearnedForward(e, m2).value[b2]
  {
  }

  // ---- dispatch ------------------------------------------------------------

  /** The options `build_position_encoding` reads. */
  datatype Args = Args(positionEmbedding: string, hiddenDim: nat)

  datatype Encoding = SineEncoding(sine: Sine) | LearnedEncoding(learned: Learned)

  /** `build_position_encoding`: both encodings get `hidden_dim // 2`
      features per coordinate; any other option name is an error. */
  function Build(args: Args, rowDraw: (nat, nat) -> real, colDraw: (nat, nat) -> real): Result<Encoding>
  {
    var steps := args.hiddenDim / 2;
    if args.positionEmbedding in {"v2", "sine"} then Ok(SineEncoding(NewSine(numPosFeats := steps, normalize := true)))
    else if args.positionEmbedding in {"v3", "learned"} then Ok(LearnedEncoding(NewLearned(steps, rowDraw, colDraw)))
    else Err(UnsupportedPositionEmbedding(args.positionEmbedding))
  }

  /** Which encoding each option name selects, with what settings. */
  lemma BuildDispatch(args: Args, rowDraw: (nat, nat) -> real, colDraw: (nat, nat) -> real)
    ensures var r := Build(args, rowDraw, colDraw);
      && (r.Ok? <==> args.positionEmbedding in {"v2", "sine", "v3", "learned"})
      && (r.Err? ==> r.error == UnsupportedPositionEmbedding(args.positionEmbedding))
      && (r.Ok? && r.value.SineEncoding? <==> args.positionEmbedding in {"v2", "sine"})
      && (r.Ok? && r.value.SineEncoding? ==>
            r.value.sine == Sine(args.hiddenDim / 2, 10000, true, TwoPi))
      && (r.Ok? && r.value.LearnedEncoding? ==>
            r.value.learned.numPosFeats == args.hiddenDim / 2 && LearnedValid(r.value.learned))
  {
  }

  /** A built encoding has 2 * (hidden_dim // 2) channels, hidden_dim itself
      when it is even; the sine encoding needs hidden_dim // 2 to be even. */
  lemma BuildChannels(args: Args, rowDraw: (nat, nat) -> real, colDraw: (nat, nat) -> real, m: Mask)
    requires Shaped(m) && m.batch > 0
    requires Build(args, rowDraw, colDraw).Ok?
    ensures var enc := Build(args, rowDraw, colDraw).value;
      && (enc.SineEncoding? ==>
            (SineForward(enc.sine, m).Ok? <==> (args.hiddenDim / 2) % 2 == 0) &&
            (SineForward(enc.sine, m).Ok? ==> |SineForward(enc.sine, m).value[0]| == 2 * (args.hiddenDim / 2)))
      && (enc.LearnedEncoding? && LearnedForward(enc.learned, m).Ok? ==>
            |LearnedForward(enc.learned, m).value[0]| == 2 * (args.hiddenDim / 2))
    ensures args.hiddenDim % 2 == 0 ==> 2 * (args.hiddenDim / 2) == args.hiddenDim
  {
    var enc := Build(args, rowDraw, colDraw).value;
    if enc.SineEncoding? {
      SineShape(enc.sine, m);
    }
  }
}
