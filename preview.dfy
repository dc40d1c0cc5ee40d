/** Fitting an export-size canvas into an on-screen preview box. */
module Preview {

  /** A width and a height. */
  datatype Box = Box(width: real, height: real)

  function Min(a: real, b: real): real { if a <= b then a else b }

  /** `Math.min(container.width / w, container.height / h)`. */
  function FitScale(container: Box, w: real, h: real): real
    requires w > 0.0 && h > 0.0
  {
    Min(container.width / w, container.height / h)
  }

  /**
   * Scaling a w × h canvas by the fit scale keeps it inside the container
   * on both axes and fills it exactly on at least one.
   */
  lemma FitScaleFits(container: Box, w: real, h: real)
    requires w > 0.0 && h > 0.0
    ensures var s := FitScale(container, w, h);
      && w * s <= container.width && h * s <= container.height
      && (w * s == container.width || h * s == container.height)
  {
    var sx, sy := container.width / w, container.height / h;
    assert w * sx == container.width;
    assert h * sy == container.height;
    if sx <= sy {
      assert h * sx <= h * sy;
    } else {
      assert w * sy <= w * sx;
    }
  }
}
