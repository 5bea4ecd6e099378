/**
 * Binned kinematic data (lenstronomy's KinBin): per-bin positions, values
 * and signal-to-noise ratios, a 2-D mask mapping every pixel of the unbinned
 * map to its bin, and the pixel grid of that map.
 */
module KinematicBin {
  import opened Wrappers

  /** A 2x2 pixel-to-angle matrix, row by row. */
  datatype Matrix2 = Matrix2(a00: real, a01: real, a10: real, a11: real)

  /** The default pixel-to-angle transform. */
  const Identity: Matrix2 := Matrix2(1.0, 0.0, 0.0, 1.0)

  /**
   * The pixel grid is an external collaborator; the model only records the
   * arguments it is built from.
   */
  datatype PixelGrid = PixelGrid(nx: nat, ny: nat, transformPix2Angle: Matrix2,
                                 raAtXy0: real, decAtXy0: real)

  /** The error numpy raises when two 1-D operands do not broadcast together. */
  datatype KinBinError = ShapeMismatch

  /** Element-wise quotient of two sequences of the same length. */
  function ElementwiseQuotient(num: seq<real>, den: seq<real>): (r: seq<real>)
    requires |num| == |den|
    requires forall i :: 0 <= i < |den| ==> den[i] != 0.0
    ensures |r| == |num|
    ensures forall i :: 0 <= i < |r| ==> r[i] == num[i] / den[i]
  {
    if |num| == 0 then []
    else [num[0] / den[0]] + ElementwiseQuotient(num[1..], den[1..])
  }

  /** Whether two 1-D shapes broadcast together under numpy's rules. */
  predicate Broadcastable(m: nat, n: nat)
  {
    m == n || m == 1 || n == 1
  }

  /**
   * numpy's `num / den` on two 1-D arrays: equal lengths divide element by
   * element, a length-1 operand is broadcast against the other, and any
   * other pair of lengths is a shape mismatch.
   * Broadcasting stretches the length-1 operand to the other's length.
   */
  function Quotient(num: seq<real>, den: seq<real>): (r: Result<seq<real>, KinBinError>)
    requires forall i :: 0 <= i < |den| ==> den[i] != 0.0
    ensures r.Success? <==> Broadcastable(|num|, |den|)
    ensures r.Success? && |num| == |den| ==>
              |r.value| == |num| &&
              forall i :: 0 <= i < |num| ==> r.value[i] == num[i] / den[i]
    ensures r.Success? && |num| == 1 ==>
              |r.value| == |den| &&
              forall i :: 0 <= i < |den| ==> r.value[i] == num[0] / den[i]
    ensures r.Success? && |den| == 1 ==>
              |r.value| == |num| &&
              forall i :: 0 <= i < |num| ==> r.value[i] == num[i] / den[0]
  {
    if |num| == |den| then Success(ElementwiseQuotient(num, den))
    else if |num| == 1 then Success(ElementwiseQuotient(seq(|den|, _ => num[0]), den))
    else if |den| == 1 then Success(ElementwiseQuotient(num, seq(|num|, _ => den[0])))
    else Failure(ShapeMismatch)
  }

  /** Noise times signal-to-noise gives back the measured values. */
  lemma NoiseTimesSnrIsData(data: seq<real>, snr: seq<real>)
    requires |data| == |snr|
    requires forall i :: 0 <= i < |snr| ==> snr[i] != 0.0
    ensures Quotient(data, snr).Success?
    ensures forall i :: 0 <= i < |data| ==> Quotient(data, snr).value[i] * snr[i] == data[i]
  {
  }

  /**
   * The value the binned image shows at a pixel whose mask entry is `m`:
   * the bin's value when `m` is a bin index, the fill value 0 otherwise.
   */
  function BinnedValue(m: int, values: seq<real>): (v: real)
  {
    if 0 <= m < |values| then values[m] else 0.0
  }

  /**
   * The value of one pixel with mask entry `m` after the fill has handled
   * bins 0 .. k-1 in turn: bin `idx` overwrites the pixel when `m == idx`
   * and leaves it alone otherwise; before any bin the pixel holds 0.
   */
  function FillBins(m: int, values: seq<real>, k: nat): (v: real)
    requires k <= |values|
  {
    if k == 0 then 0.0
    else if m == k - 1 then values[k - 1]
    else FillBins(m, values, k - 1)
  }

  /**
   * Handling the bins one after another gives the direct lookup: after bins
   * 0 .. k-1 a pixel holds its bin's value when its bin is among them, and 0
   * otherwise. With k == |values| this is `BinnedValue`.
   */
  lemma {:induction false} FillBinsIsLookup(m: int, values: seq<real>, k: nat)
    requires k <= |values|
    ensures FillBins(m, values, k) == (if 0 <= m < k then values[m] else 0.0)
    ensures k == |values| ==> FillBins(m, values, k) == BinnedValue(m, values)
  {
    if k > 0 && m != k - 1 {
      FillBinsIsLookup(m, values, k - 1);
    }
  }

  /**
   * Once the bin of a pixel has been handled, the later bins never
   * overwrite that pixel. A corollary of `FillBinsIsLookup` at `k` and `k'`.
   */
  lemma {:induction false} FillBinsSettled(m: int, values: seq<real>, k: nat, k': nat)
    requires 0 <= m < k <= k' <= |values|
    ensures FillBins(m, values, k') == FillBins(m, values, k)
    ensures FillBins(m, values, k') == values[m]
  {
    FillBinsIsLookup(m, values, k);
    FillBinsIsLookup(m, values, k');
  }

  class KinBin {
    /** Dimensions of the unbinned map, taken from the mask's shape. */
    const nx: nat
    const ny: nat
    const pixelGrid: PixelGrid
    /** Bin centres in RA and Dec; stored and never used by the operations. */
    const x: seq<real>
    const y: seq<real>
    /** Kinematic value and signal-to-noise ratio of each bin. */
    const data: seq<real>
    const snr: seq<real>
    /** Bin index of every pixel of the unbinned map. */
    const binMask: array2<int>
    /** The last noise computed by `Noise`; `None` before the first call. */
    var noiseCache: Option<seq<real>>

    /**
     * Takes the grid size from the mask, defaults the transform to the
     * identity, shifts the grid origin and stores the other inputs as given.
     * Nothing is validated: the lengths of the bin arrays may disagree.
     */
    constructor (binPosRa: seq<real>, binPosDec: seq<real>, binData: seq<real>,
                 binSnr: seq<real>, binMask: array2<int>,
                 raAtXy0: real := 0.0, decAtXy0: real := 0.0,
                 transformPix2Angle: Option<Matrix2> := None,
                 raShift: real := 0.0, decShift: real := 0.0)
      ensures nx == binMask.Length0 && ny == binMask.Length1
      ensures pixelGrid.nx == nx && pixelGrid.ny == ny
      ensures pixelGrid.transformPix2Angle ==
                (if transformPix2Angle.None? then Identity else transformPix2Angle.value)
      ensures pixelGrid.raAtXy0 == raAtXy0 + raShift
      ensures pixelGrid.decAtXy0 == decAtXy0 + decShift
      ensures x == binPosRa && y == binPosDec && data == binData && snr == binSnr
      ensures this.binMask == binMask
      ensures noiseCache == None
    {
      nx := binMask.Length0;
      ny := binMask.Length1;
      var transform := if transformPix2Angle.None? then Identity else transformPix2Angle.value;
      pixelGrid := PixelGrid(binMask.Length0, binMask.Length1, transform,
                             raAtXy0 + raShift, decAtXy0 + decShift);
      x := binPosRa;
      y := binPosDec;
      data := binData;
      snr := binSnr;
      this.binMask := binMask;
      noiseCache := None;
    }

    /**
     * The noise of every bin, value divided by signal-to-noise, remembered in
     * `noiseCache`. A shape mismatch leaves the cache as it was. Nothing else
     * of the object changes, so a second call returns the same result.
     */
    method Noise() returns (r: Result<seq<real>, KinBinError>)
      requires forall i :: 0 <= i < |snr| ==> snr[i] != 0.0
      modifies this`noiseCache
      ensures r == Quotient(data, snr)
      ensures r.Success? ==> noiseCache == Some(r.value)
      ensures r.Failure? ==> noiseCache == old(noiseCache)
    {
      r := Quotient(data, snr);
      if r.Success? {
        noiseCache := Some(r.value);
      }
    }

    /**
     * The full-resolution image of the bins: every pixel carries the value
     * of the bin its mask entry names. The fill goes bin by bin, comparing
     * each mask entry with the bin index and never indexing `data` with a
     * mask entry, so entries outside [0, |data|) keep the fill value 0.
     * The method has no `modifies` clause: mask, data and cache are left
     * alone.
     *
     * The source body refers to unqualified `bin_mask` and `bin_data`, names
     * that are not in scope in the method; this model uses the stored mask
     * and data, which is what the method evidently means.
     */
    method BinnedImage() returns (img: array2<real>)
      ensures fresh(img)
      ensures img.Length0 == binMask.Length0 && img.Length1 == binMask.Length1
      ensures forall i, j :: 0 <= i < img.Length0 && 0 <= j < img.Length1 ==>
                img[i, j] == BinnedValue(binMask[i, j], data)
      ensures forall i, j ::
                0 <= i < img.Length0 && 0 <= j < img.Length1 && 0 <= binMask[i, j] < |data|
                ==> img[i, j] == data[binMask[i, j]]
      ensures forall i, j ::
                0 <= i < img.Length0 && 0 <= j < img.Length1 && !(0 <= binMask[i, j] < |data|)
                ==> img[i, j] == 0.0
    {
      var m, n := binMask.Length0, binMask.Length1;
      img := new real[m, n]((i, j) => 0.0);
      var k := 0;
      while k < |data|
        invariant 0 <= k <= |data|
        invariant forall i, j :: 0 <= i < m && 0 <= j < n ==>
                    img[i, j] == FillBins(binMask[i, j], data, k)
      {
        var r := 0;
        while r < m
          invariant 0 <= r <= m
          invariant forall i, j :: 0 <= i < r && 0 <= j < n ==>
                      img[i, j] == FillBins(binMask[i, j], data, k + 1)
          invariant forall i, j :: r <= i < m && 0 <= j < n ==>
                      img[i, j] == FillBins(binMask[i, j], data, k)
        {
          var c := 0;
          while c < n
            invariant 0 <= c <= n
            invariant forall i, j :: 0 <= i < m && 0 <= j < n && (i < r || (i == r && j < c)) ==>
                        img[i, j] == FillBins(binMask[i, j], data, k + 1)
            invariant forall i, j :: 0 <= i < m && 0 <= j < n && (i > r || (i == r && j >= c)) ==>
                        img[i, j] == FillBins(binMask[i, j], data, k)
          {
            if binMask[r, c] == k {
              img[r, c] := data[k];
            }
            c := c + 1;
          }
          r := r + 1;
        }
        k := k + 1;
      }
      forall i, j | 0 <= i < m && 0 <= j < n
        ensures img[i, j] == BinnedValue(binMask[i, j], data)
      {
        FillBinsIsLookup(binMask[i, j], data, |data|);
      }
    }
  }

  /**
   * Calling `Noise` twice on the same object gives the same result both
   * times, and the cache then holds it.
   */
  method NoiseTwice(kb: KinBin) returns (first: Result<seq<real>, KinBinError>,
                                         second: Result<seq<real>, KinBinError>)
    requires forall i :: 0 <= i < |kb.snr| ==> kb.snr[i] != 0.0
    modifies kb
    ensures first == second
    ensures first.Success? ==> kb.noiseCache == Some(first.value)
    ensures first.Failure? ==> kb.noiseCache == old(kb.noiseCache)
  {
    first := kb.Noise();
    second := kb.Noise();
  }

  /** Two bins in a checkerboard; noise and image worked out by hand. */
  method ScenarioCheckerboard()
  {
    var mask := new int[2, 2];
    mask[0, 0], mask[0, 1], mask[1, 0], mask[1, 1] := 0, 1, 1, 0;
    var kb := new KinBin([0.0, 1.0], [0.0, 1.0], [10.0, 20.0], [2.0, 4.0], mask);
    assert kb.nx == 2 && kb.ny == 2;
    assert kb.pixelGrid == PixelGrid(2, 2, Identity, 0.0, 0.0);
    var noise := kb.Noise();
    assert noise.Success? && |noise.value| == 2;
    assert noise.value[0] == 10.0 / 2.0 && noise.value[1] == 20.0 / 4.0;
    assert noise.value == [5.0, 5.0];
    assert noise == Success([5.0, 5.0]);
    var img := kb.BinnedImage();
    assert img[0, 0] == 10.0 && img[0, 1] == 20.0;
    assert img[1, 0] == 20.0 && img[1, 1] == 10.0;
  }

  /** A pixel outside every bin keeps the fill value 0. */
  method ScenarioUnassignedPixel()
  {
    var mask := new int[1, 3];
    mask[0, 0], mask[0, 1], mask[0, 2] := 0, -1, 5;
    var kb := new KinBin([0.0], [0.0], [7.0], [1.0], mask, raShift := 1.5,
                         transformPix2Angle := Some(Matrix2(0.0, -1.0, 1.0, 0.0)));
    assert kb.pixelGrid == PixelGrid(1, 3, Matrix2(0.0, -1.0, 1.0, 0.0), 1.5, 0.0);
    var img := kb.BinnedImage();
    assert img[0, 0] == 7.0 && img[0, 1] == 0.0 && img[0, 2] == 0.0;
    // The image is a new array: writing into it leaves the mask alone.
    img[0, 1] := 3.0;
    assert mask[0, 1] == -1;
  }
}
