/**
 * Target dimensions of a resize (lambda_function.py, lines 55-66).
 *
 * The handler computes `aspect_ratio = w / h` as a float and truncates
 * `MAX_WIDTH / aspect_ratio` or `MAX_HEIGHT * aspect_ratio` with `int(...)`.
 * All operands are non-negative, so truncation is the floor, and the model
 * uses the exact integer forms `(maxWidth * h) / w` and `(maxHeight * w) / h`.
 * For h > 0, `aspect_ratio > 1` holds exactly when w > h.
 */
module Geometry {

  datatype Size = Size(width: nat, height: nat)

  /** The image is no larger than the configured box in either direction. */
  predicate Fits(w: nat, h: nat, maxWidth: nat, maxHeight: nat) {
    w <= maxWidth && h <= maxHeight
  }

  /** `aspect_ratio > 1`, for a positive height. */
  predicate Landscape(w: nat, h: nat) {
    w > h
  }

  /** Floor division, characterised by its two bounds. */
  function FloorDiv(n: nat, d: nat): (q: nat)
    requires d > 0
    ensures q * d <= n < (q + 1) * d
  {
    n / d
  }

  /**
   * The size the image is resized to. An image that fits keeps its size; a
   * landscape image gets the maximum width and the height floor(maxWidth * h / w);
   * any other image gets the maximum height and the width floor(maxHeight * w / h).
   * Nothing bounds the other dimension, and nothing keeps it above 0.
   */
  function Fit(w: nat, h: nat, maxWidth: nat, maxHeight: nat): (r: Size)
    requires h > 0
    ensures Fits(w, h, maxWidth, maxHeight) ==> r == Size(w, h)
    ensures !Fits(w, h, maxWidth, maxHeight) && Landscape(w, h) ==>
      r.width == maxWidth && r.height * w <= maxWidth * h < (r.height + 1) * w
    ensures !Fits(w, h, maxWidth, maxHeight) && !Landscape(w, h) ==>
      r.height == maxHeight && r.width * h <= maxHeight * w < (r.width + 1) * h
  {
    if Fits(w, h, maxWidth, maxHeight) then Size(w, h)
    else if Landscape(w, h) then Size(maxWidth, FloorDiv(maxWidth * h, w))
    else Size(FloorDiv(maxHeight * w, h), maxHeight)
  }

  lemma MulLeft(a: nat, b: nat, c: nat)
    requires a <= b
    ensures a * c <= b * c
  {
  }

  /** In the landscape branch the new height is strictly below the maximum width. */
  lemma LandscapeHeightBelowMaxWidth(w: nat, h: nat, maxWidth: nat, maxHeight: nat)
    requires h > 0 && maxWidth > 0
    requires !Fits(w, h, maxWidth, maxHeight) && Landscape(w, h)
    ensures Fit(w, h, maxWidth, maxHeight).height < maxWidth
  {
    var r := Fit(w, h, maxWidth, maxHeight);
    if r.height >= maxWidth {
      MulLeft(maxWidth, r.height, w);
      MulLeft(h + 1, w, maxWidth);
      assert false;
    }
  }

  /** In the portrait branch the new width is at most the maximum height. */
  lemma PortraitWidthAtMostMaxHeight(w: nat, h: nat, maxWidth: nat, maxHeight: nat)
    requires h > 0
    requires !Fits(w, h, maxWidth, maxHeight) && !Landscape(w, h)
    ensures Fit(w, h, maxWidth, maxHeight).width <= maxHeight
  {
    var r := Fit(w, h, maxWidth, maxHeight);
    if r.width > maxHeight {
      MulLeft(maxHeight + 1, r.width, h);
      MulLeft(w, h, maxHeight);
      assert false;
    }
  }

  /**
   * The landscape result stays within the maximum height exactly when
   * maxWidth * h < (maxHeight + 1) * w; the code never checks this.
   */
  lemma LandscapeWithinHeightIff(w: nat, h: nat, maxWidth: nat, maxHeight: nat)
    requires h > 0
    requires !Fits(w, h, maxWidth, maxHeight) && Landscape(w, h)
    ensures Fit(w, h, maxWidth, maxHeight).height <= maxHeight <==> maxWidth * h < (maxHeight + 1) * w
  {
    var r := Fit(w, h, maxWidth, maxHeight);
    if r.height <= maxHeight {
      MulLeft(r.height + 1, maxHeight + 1, w);
    } else {
      MulLeft(maxHeight + 1, r.height, w);
    }
  }

  /**
   * The portrait result stays within the maximum width exactly when
   * maxHeight * w < (maxWidth + 1) * h; the code never checks this.
   */
  lemma PortraitWithinWidthIff(w: nat, h: nat, maxWidth: nat, maxHeight: nat)
    requires h > 0
    requires !Fits(w, h, maxWidth, maxHeight) && !Landscape(w, h)
    ensures Fit(w, h, maxWidth, maxHeight).width <= maxWidth <==> maxHeight * w < (maxWidth + 1) * h
  {
    var r := Fit(w, h, maxWidth, maxHeight);
    if r.width <= maxWidth {
      MulLeft(r.width + 1, maxWidth + 1, h);
    } else {
      MulLeft(maxWidth + 1, r.width, h);
    }
  }

  /** The three worked sizes for the default 800x600 box. */
  lemma DefaultBoxScenarios()
    ensures Fit(1600, 1200, 800, 600) == Size(800, 600)
    ensures Fit(600, 1200, 800, 600) == Size(300, 600)
    ensures Fit(400, 300, 800, 600) == Size(400, 300)
  {
  }

  /**
   * What the unguarded branches do: the landscape branch overshoots the
   * maximum height and can enlarge the image, the portrait branch enlarges
   * when the box is taller than wide, and extreme ratios give a 0 dimension.
   */
  lemma UnguardedEdges()
    ensures Fit(900, 800, 800, 600) == Size(800, 711)
    ensures Fit(700, 650, 800, 600) == Size(800, 742)
    ensures Fit(700, 700, 600, 800) == Size(800, 800)
    ensures Fit(1000, 1, 800, 600) == Size(800, 0)
    ensures Fit(1, 1000, 800, 600) == Size(0, 600)
  {
  }
}
