/**
 The aspect-ratio fit used to size the canvas: the content is scaled
 uniformly so that it either fits entirely inside the container ("contain") or
 covers it entirely ("cover"), and is centred by the returned offsets.
 Arithmetic is over exact reals; all four dimensions are positive.
 */
module ObjectFit {

  /** The fitted rectangle: its size and the offsets that centre it in the container. */
  datatype FitRect = FitRect(width: real, height: real, x: real, y: real)

  /** Content ratio width/height compared with the container ratio; `contains`
      selects the "contain" test and its negation flips it to "cover". */
  predicate WidthFlush(contains: bool, containerWidth: real, containerHeight: real, width: real, height: real)
    requires containerHeight > 0.0 && height > 0.0
  {
    var doRatio := width / height;
    var cRatio := containerWidth / containerHeight;
    if contains then doRatio > cRatio else doRatio < cRatio
  }

  /** Computes the fitted rectangle. */
  function ObjectFitSize(contains: bool, containerWidth: real, containerHeight: real, width: real, height: real): (r: FitRect)
    requires containerWidth > 0.0 && containerHeight > 0.0
    requires width > 0.0 && height > 0.0
    ensures r.width > 0.0 && r.height > 0.0
    // same aspect ratio as the content
    ensures r.width * height == r.height * width
    // one side is flush with the container
    ensures r.width == containerWidth || r.height == containerHeight
    // centred: equal margins on both sides in each direction
    ensures r.x + r.width + r.x == containerWidth
    ensures r.y + r.height + r.y == containerHeight
    // contain: the rectangle lies inside the container
    ensures contains ==> r.width <= containerWidth && r.height <= containerHeight && r.x >= 0.0 && r.y >= 0.0
    // cover: the rectangle covers the container
    ensures !contains ==> r.width >= containerWidth && r.height >= containerHeight && r.x <= 0.0 && r.y <= 0.0
  {
    var doRatio := width / height;
    var (targetWidth, targetHeight) :=
      if WidthFlush(contains, containerWidth, containerHeight, width, height) then
        (containerWidth, containerWidth / doRatio)
      else
        (containerHeight * doRatio, containerHeight);
    FitBranchAlgebra(contains, containerWidth, containerHeight, width, height, targetWidth, targetHeight);
    FitRect(targetWidth, targetHeight, (containerWidth - targetWidth) / 2.0, (containerHeight - targetHeight) / 2.0)
  }

  /** The algebra behind ObjectFitSize's contract, on the two branch results. */
  lemma FitBranchAlgebra(contains: bool, cw: real, ch: real, w: real, h: real, tw: real, th: real)
    requires cw > 0.0 && ch > 0.0 && w > 0.0 && h > 0.0
    requires WidthFlush(contains, cw, ch, w, h) ==> tw == cw && th == cw / (w / h)
    requires !WidthFlush(contains, cw, ch, w, h) ==> th == ch && tw == ch * (w / h)
    ensures tw > 0.0 && th > 0.0
    ensures tw * h == th * w
    ensures contains ==> tw <= cw && th <= ch
    ensures !contains ==> tw >= cw && th >= ch
  {
    // w / h > cw / ch  <==>  w * ch > cw * h
    CrossCompare(w, h, cw, ch);
    if WidthFlush(contains, cw, ch, w, h) {
      assert th == cw * h / w;
      assert th * w == cw * h;
    } else {
      assert tw == ch * w / h;
      assert tw * h == ch * w;
    }
  }

  /** Comparing two ratios is comparing the cross products. */
  lemma CrossCompare(a: real, b: real, c: real, d: real)
    requires b > 0.0 && d > 0.0
    ensures a / b > c / d <==> a * d > c * b
    ensures a / b < c / d <==> a * d < c * b
  {
  }

  /** The uniform scale factor: the smaller of the two per-axis factors for
      "contain", the larger for "cover". */
  function Scale(contains: bool, containerWidth: real, containerHeight: real, width: real, height: real): real
    requires width > 0.0 && height > 0.0
  {
    var sx := containerWidth / width;
    var sy := containerHeight / height;
    if contains then (if sx <= sy then sx else sy) else (if sx >= sy then sx else sy)
  }

  /** ObjectFitSize is the content scaled by the reference factor of Scale. */
  lemma FitIsUniformScale(contains: bool, containerWidth: real, containerHeight: real, width: real, height: real)
    requires containerWidth > 0.0 && containerHeight > 0.0
    requires width > 0.0 && height > 0.0
    ensures var r := ObjectFitSize(contains, containerWidth, containerHeight, width, height);
            var s := Scale(contains, containerWidth, containerHeight, width, height);
            r.width == s * width && r.height == s * height
  {
  }

  /** "contain" yields the largest rectangle of the content's shape that fits. */
  lemma ContainIsLargest(containerWidth: real, containerHeight: real, width: real, height: real, k: real)
    requires containerWidth > 0.0 && containerHeight > 0.0
    requires width > 0.0 && height > 0.0
    requires k > 0.0 && k * width <= containerWidth && k * height <= containerHeight
    ensures var r := ObjectFitSize(true, containerWidth, containerHeight, width, height);
            k * width <= r.width && k * height <= r.height
  {
  }

  /** "cover" yields the smallest rectangle of the content's shape that covers. */
  lemma CoverIsSmallest(containerWidth: real, containerHeight: real, width: real, height: real, k: real)
    requires containerWidth > 0.0 && containerHeight > 0.0
    requires width > 0.0 && height > 0.0
    requires k > 0.0 && k * width >= containerWidth && k * height >= containerHeight
    ensures var r := ObjectFitSize(false, containerWidth, containerHeight, width, height);
            k * width >= r.width && k * height >= r.height
  {
  }

  /** Which side is flush: the width exactly when the content is at least as
      wide, relative to its height, as the container (contain) or at most as
      wide (cover); both sides exactly when the two shapes agree. */
  lemma FlushSide(contains: bool, containerWidth: real, containerHeight: real, width: real, height: real)
    requires containerWidth > 0.0 && containerHeight > 0.0
    requires width > 0.0 && height > 0.0
    ensures var r := ObjectFitSize(contains, containerWidth, containerHeight, width, height);
            r.width == containerWidth <==>
              if contains then width * containerHeight >= containerWidth * height
              else width * containerHeight <= containerWidth * height
    ensures var r := ObjectFitSize(contains, containerWidth, containerHeight, width, height);
            r.height == containerHeight <==>
              if contains then width * containerHeight <= containerWidth * height
              else width * containerHeight >= containerWidth * height
  {
    var r := ObjectFitSize(contains, containerWidth, containerHeight, width, height);
    CrossCompare(width, height, containerWidth, containerHeight);
    if !WidthFlush(contains, containerWidth, containerHeight, width, height) {
      // height flush: r.width == containerHeight * width / height
      assert r.width * height == containerHeight * width;
      assert r.width == containerWidth <==> width * containerHeight == containerWidth * height;
    } else {
      assert r.height * width == containerWidth * height;
      assert r.height == containerHeight <==> width * containerHeight == containerWidth * height;
    }
  }
}
