/**
 * The cover fit that normalises a background image to 1920x1080
 * (resizeUrlImageTo1920x1080Base64 in src/utils.ts): the image is scaled
 * by the larger of the two target ratios, so it covers the whole frame
 * with its aspect ratio kept, and is centred; the overflow is cropped.
 */
module CoverFit {

  const TargetWidth: real := 1920.0
  const TargetHeight: real := 1080.0

  /** Where the image is drawn: its scale, its scaled size and its top-left corner. */
  datatype Placement = Placement(scale: real, scaledWidth: real, scaledHeight: real,
                                 offsetX: real, offsetY: real)

  function Max(a: real, b: real): real { if a >= b then a else b }

  /** The scale and offsets for an image of width w and height h. */
  function Fit(w: real, h: real): Placement
    requires w > 0.0 && h > 0.0
  {
    var scale := Max(TargetWidth / w, TargetHeight / h);
    var scaledWidth := w * scale;
    var scaledHeight := h * scale;
    Placement(scale, scaledWidth, scaledHeight,
              (TargetWidth - scaledWidth) / 2.0, (TargetHeight - scaledHeight) / 2.0)
  }

  /** The axis-aligned rectangle an image is drawn into contains the point (x, y). */
  predicate Contains(p: Placement, x: real, y: real)
  {
    p.offsetX <= x <= p.offsetX + p.scaledWidth && p.offsetY <= y <= p.offsetY + p.scaledHeight
  }

  lemma ScaleCovers(w: real, h: real)
    requires w > 0.0 && h > 0.0
    ensures Fit(w, h).scaledWidth >= TargetWidth && Fit(w, h).scaledHeight >= TargetHeight
  {
    var s := Fit(w, h).scale;
    assert s >= TargetWidth / w && s >= TargetHeight / h;
    assert w * s >= w * (TargetWidth / w);
    assert h * s >= h * (TargetHeight / h);
  }

  /** The image covers the frame, and one scaled side matches its target exactly. */
  lemma FitCovers(w: real, h: real)
    requires w > 0.0 && h > 0.0
    ensures Fit(w, h).scaledWidth >= TargetWidth && Fit(w, h).scaledHeight >= TargetHeight
    ensures Fit(w, h).scaledWidth == TargetWidth || Fit(w, h).scaledHeight == TargetHeight
  {
    ScaleCovers(w, h);
    var s := Fit(w, h).scale;
    if TargetWidth / w >= TargetHeight / h {
      assert s == TargetWidth / w;
      assert w * (TargetWidth / w) == TargetWidth;
    } else {
      assert s == TargetHeight / h;
      assert h * (TargetHeight / h) == TargetHeight;
    }
  }

  /** The aspect ratio is kept: scaledWidth / scaledHeight == w / h. */
  lemma FitKeepsAspect(w: real, h: real)
    requires w > 0.0 && h > 0.0
    ensures Fit(w, h).scale > 0.0
    ensures Fit(w, h).scaledWidth * h == Fit(w, h).scaledHeight * w
  {
    var s := Fit(w, h).scale;
    assert TargetWidth / w > 0.0;
    assert w * s * h == h * s * w;
  }

  /** The image is centred on the frame and its corner is never inside the frame. */
  lemma FitCentres(w: real, h: real)
    requires w > 0.0 && h > 0.0
    ensures Fit(w, h).offsetX <= 0.0 && Fit(w, h).offsetY <= 0.0
    ensures Fit(w, h).offsetX + Fit(w, h).scaledWidth / 2.0 == TargetWidth / 2.0
    ensures Fit(w, h).offsetY + Fit(w, h).scaledHeight / 2.0 == TargetHeight / 2.0
  {
    ScaleCovers(w, h);
  }

  /** Every point of the 1920x1080 frame is painted by the image. */
  lemma FitContainsFrame(w: real, h: real, x: real, y: real)
    requires w > 0.0 && h > 0.0
    requires 0.0 <= x <= TargetWidth && 0.0 <= y <= TargetHeight
    ensures Contains(Fit(w, h), x, y)
  {
    FitCentres(w, h);
  }

  /** No smaller scale covers the frame: the fit crops as little as possible. */
  lemma FitScaleMinimal(w: real, h: real, s: real)
    requires w > 0.0 && h > 0.0
    requires w * s >= TargetWidth && h * s >= TargetHeight
    ensures Fit(w, h).scale <= s
  {
    assert s >= TargetWidth / w by {
      assert (w * s) / w == s;
    }
    assert s >= TargetHeight / h by {
      assert (h * s) / h == s;
    }
  }
}
