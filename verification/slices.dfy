/**
 The "fractalised" slice layout: the rectangles passed to the canvas draw
 primitive when the image is cut into `parts` vertical slices and redrawn as
 bands across the canvas, each band's source shifted progressively left by the
 fixed shard constant. Only the rectangle arithmetic is modelled (exact reals),
 not the pixels the draw primitive produces; the vertical source and
 destination offsets are always 0 and are left implicit.
 */
module SliceLayout {

  /** One draw call: source x, source width and height; destination x, width and height. */
  datatype DrawCall = DrawCall(sx: real, sw: real, sh: real, dx: real, dw: real, dh: real)

  /** The fixed shard-shift constant; each band moves its source left by ShardShift / parts more. */
  const ShardShift: real := 1000.0

  /** The layout inputs: image size, canvas size and slice count. */
  datatype Frame = Frame(imgWidth: real, imgHeight: real, canvasWidth: real, canvasHeight: real, parts: nat)
  {
    predicate Valid() { parts >= 1 }

    /** Width of one source slice. */
    function WidthOfOne(): real
      requires Valid()
    {
      imgWidth / parts as real
    }

    /** Width of one destination band. */
    function CanvasWidthOfOne(): real
      requires Valid()
    {
      canvasWidth / parts as real
    }

    /** How far apart consecutive source slices start: one slice width less
        the per-band share of the shard shift. */
    function SourceStride(): real
      requires Valid()
    {
      (imgWidth - ShardShift) / parts as real
    }
  }

  /** The draw issued before the loop: slice 0, unshifted, into band 0. */
  function FirstDraw(f: Frame): DrawCall
    requires f.Valid()
  {
    DrawCall(0.0, f.WidthOfOne(), f.imgHeight, 0.0, f.CanvasWidthOfOne(), f.canvasHeight)
  }

  /** The draw issued by loop iteration i. */
  function LoopDraw(f: Frame, i: nat): DrawCall
    requires f.Valid()
  {
    var k := i as real;
    DrawCall(k * f.WidthOfOne() - k * (ShardShift / f.parts as real), f.WidthOfOne(), f.imgHeight,
             k * f.CanvasWidthOfOne(), f.CanvasWidthOfOne(), f.canvasHeight)
  }

  /** The draws of loop iterations i, i+1, ..., parts (the bound is inclusive). */
  function LoopDraws(f: Frame, i: nat): (r: seq<DrawCall>)
    requires f.Valid() && 1 <= i
    ensures |r| == if i <= f.parts then f.parts - i + 1 else 0
    ensures forall k :: 0 <= k < |r| ==> r[k] == LoopDraw(f, i + k)
    decreases f.parts + 1 - i
  {
    if i > f.parts then [] else [LoopDraw(f, i)] + LoopDraws(f, i + 1)
  }

  /** Draw i of a render: the pre-loop draw for i == 0, loop iteration i otherwise. */
  function Band(f: Frame, i: nat): DrawCall
    requires f.Valid()
  {
    if i == 0 then FirstDraw(f) else LoopDraw(f, i)
  }

  /** All draws of one render, in the order they are issued: the pre-loop draw,
      then one per loop iteration 1..parts, parts + 1 in all. */
  function Layout(f: Frame): (r: seq<DrawCall>)
    requires f.Valid()
    ensures |r| == f.parts + 1
    ensures forall i :: 0 <= i < |r| ==> r[i] == Band(f, i)
  {
    [FirstDraw(f)] + LoopDraws(f, 1)
  }

  /** Every draw i (including the first) takes a source slice of one slice width
      and full image height and paints band i, of one band width and full canvas
      height, starting i band widths from the left edge. */
  lemma BandGeometry(f: Frame, i: nat)
    requires f.Valid()
    ensures var d := Band(f, i);
            && d.sw == f.WidthOfOne() && d.sh == f.imgHeight
            && d.dw == f.CanvasWidthOfOne() && d.dh == f.canvasHeight
            && d.dx == i as real * f.CanvasWidthOfOne()
  {
  }

  /** The source of draw i starts i*(imgWidth - ShardShift)/parts from the image's
      left edge: band 0 unshifted, then ShardShift/parts further left per band
      than the unshifted slice position. */
  lemma SourceOffset(f: Frame, i: nat)
    requires f.Valid()
    ensures Band(f, i).sx == i as real * f.SourceStride()
  {
    if i > 0 {
      ScaledDifference(i as real, f.imgWidth, ShardShift, f.parts as real);
    }
  }

  /** k*(a/n) - k*(b/n) == k*((a-b)/n). */
  lemma ScaledDifference(k: real, a: real, b: real, n: real)
    requires n > 0.0
    ensures k * (a / n) - k * (b / n) == k * ((a - b) / n)
  {
    assert a / n - b / n == (a - b) / n;
    assert k * (a / n) - k * (b / n) == k * (a / n - b / n);
  }

  /** Consecutive multiples of c lie c apart. */
  lemma NextMultiple(k: real, c: real)
    ensures k * c + c == (k + 1.0) * c
  {
  }

  /** Consecutive bands are contiguous: each starts where the previous one ends. */
  lemma BandsContiguous(f: Frame, i: nat)
    requires f.Valid()
    ensures Band(f, i).dx + Band(f, i).dw == Band(f, i + 1).dx
  {
    BandGeometry(f, i);
    BandGeometry(f, i + 1);
    NextMultiple(i as real, f.CanvasWidthOfOne());
  }

  /** Sum of the destination widths of a sequence of draws. */
  function TotalWidth(ds: seq<DrawCall>): real
  {
    if |ds| == 0 then 0.0 else TotalWidth(ds[..|ds| - 1]) + ds[|ds| - 1].dw
  }

  /** The first n draws together are n band widths wide. */
  lemma {:induction false} PrefixWidth(f: Frame, n: nat)
    requires f.Valid() && n <= f.parts + 1
    ensures TotalWidth(Layout(f)[..n]) == n as real * f.CanvasWidthOfOne()
  {
    if n > 0 {
      var r := Layout(f);
      PrefixWidth(f, n - 1);
      assert r[..n][..n - 1] == r[..n - 1];
      BandGeometry(f, n - 1);
      NextMultiple((n - 1) as real, f.CanvasWidthOfOne());
    }
  }

  /** parts * (w / parts) == w. */
  lemma WholeOfParts(w: real, n: real)
    requires n > 0.0
    ensures n * (w / n) == w
  {
  }

  /** Draws 0..parts-1 tile the canvas width exactly, and the last draw (the
      loop's inclusive bound) starts at the canvas's right edge. */
  lemma BandsTileCanvas(f: Frame)
    requires f.Valid()
    ensures TotalWidth(Layout(f)[..f.parts]) == f.canvasWidth
    ensures Layout(f)[f.parts].dx == f.canvasWidth
  {
    PrefixWidth(f, f.parts);
    BandGeometry(f, f.parts);
    WholeOfParts(f.canvasWidth, f.parts as real);
  }

  /** k*(w/n) < w exactly when k < n, for positive w and n. */
  lemma BelowWhole(k: real, w: real, n: real)
    requires w > 0.0 && n > 0.0
    ensures k * (w / n) < w <==> k < n
  {
    assert w == n * (w / n);
    assert w / n > 0.0;
  }

  /** On a canvas of positive width, a draw starts inside the canvas exactly when
      it is one of the first `parts`: of the parts + 1 draws, exactly `parts` land
      on the canvas and the last falls wholly beyond its right edge. */
  lemma VisibleBands(f: Frame, i: nat)
    requires f.Valid() && f.canvasWidth > 0.0 && i <= f.parts
    ensures Band(f, i).dx < f.canvasWidth <==> i < f.parts
  {
    BandGeometry(f, i);
    BelowWhole(i as real, f.canvasWidth, f.parts as real);
  }

  /** Adjacent source slices start (imgWidth - ShardShift)/parts apart, so the
      source drifts left whenever the image is narrower than the shift constant. */
  lemma SourceStep(f: Frame, i: nat)
    requires f.Valid()
    ensures Band(f, i + 1).sx - Band(f, i).sx == f.SourceStride()
  {
    SourceOffset(f, i);
    SourceOffset(f, i + 1);
    NextMultiple(i as real, f.SourceStride());
  }

  /** With ten slices, band 9's source starts at 9*(W/10) - 900. */
  lemma TenSliceExample(imgWidth: real, imgHeight: real, canvasWidth: real, canvasHeight: real)
    ensures var f := Frame(imgWidth, imgHeight, canvasWidth, canvasHeight, 10);
            |Layout(f)| == 11 && Layout(f)[9].sx == 9.0 * (imgWidth / 10.0) - 900.0
  {
    var f := Frame(imgWidth, imgHeight, canvasWidth, canvasHeight, 10);
    assert Layout(f)[9] == Band(f, 9);
  }
}
