/**
 * The desktop editor's own logic: the preview box per aspect ratio, the
 * preview scale, the resolutions offered for an aspect ratio and the
 * effect that picks one when the ratio changes, the blob-count slider, the
 * Remove Image button and the blur and weight controls.
 */
module DesktopApp {

  import opened Wrappers
  import opened Draws
  import opened Constants
  import opened Preview
  import WallpaperStore

  /** The largest preview box of each aspect ratio. */
  function PreviewDimensions(a: Aspect): (b: Box)
    ensures b.width > 0.0 && b.height > 0.0
  {
    match a
    case Desktop => Box(768.0, 432.0)
    case Mobile => Box(293.0, 520.0)
    case Square => Box(520.0, 520.0)
  }

  /**
   * The scale at which a resolution is shown in the preview box of the
   * current aspect ratio: it fits on both axes and fills one exactly.
   */
  function GetPreviewScale(aspect: Aspect, r: Resolution): (s: real)
    requires r.width > 0 && r.height > 0
    ensures var box := PreviewDimensions(aspect);
      && r.width as real * s <= box.width && r.height as real * s <= box.height
      && (r.width as real * s == box.width || r.height as real * s == box.height)
  {
    FitScaleFits(PreviewDimensions(aspect), r.width as real, r.height as real);
    FitScale(PreviewDimensions(aspect), r.width as real, r.height as real)
  }

  /**
   * The preview box for a container width: the aspect ratio's box, shrunk
   * (never grown) to the container width, keeping its proportions.
   */
  function GetDynamicPreviewDimensions(aspect: Aspect, containerWidth: real): (b: Box)
    ensures var m := PreviewDimensions(aspect);
      && b.width <= m.width && b.height <= m.height
      && b.width * m.height == b.height * m.width
      && (containerWidth >= m.width ==> b == m)
      && (containerWidth <= m.width ==> b.width == containerWidth)
  {
    var m := PreviewDimensions(aspect);
    var scale := Min(1.0, containerWidth / m.width);
    assert m.width * scale <= m.width * 1.0 && m.height * scale <= m.height * 1.0 by {
      assert m.width * (1.0 - scale) >= 0.0 && m.height * (1.0 - scale) >= 0.0;
    }
    assert (m.width * scale) * m.height == (m.height * scale) * m.width;
    Box(m.width * scale, m.height * scale)
  }

  /**
   * The size the preview is drawn at: the measured size, or the aspect
   * ratio's box on an axis not measured yet (0). It is never degenerate.
   */
  function PreviewBox(measured: Box, aspect: Aspect): (b: Box)
    ensures measured.width >= 0.0 && measured.height >= 0.0 ==> b.width > 0.0 && b.height > 0.0
    ensures measured.width != 0.0 ==> b.width == measured.width
    ensures measured.height != 0.0 ==> b.height == measured.height
  {
    var m := PreviewDimensions(aspect);
    Box(if measured.width != 0.0 then measured.width else m.width,
        if measured.height != 0.0 then measured.height else m.height)
  }

  /** `rs.filter((r) => r.ratio === a)`. */
  function FilterByRatio(rs: seq<Resolution>, a: Aspect): (r: seq<Resolution>)
    ensures |r| <= |rs|
    ensures forall i :: 0 <= i < |r| ==> r[i].ratio == a
  {
    if rs == [] then []
    else (if rs[0].ratio == a then [rs[0]] else []) + FilterByRatio(rs[1..], a)
  }

  /** The filter keeps exactly the entries of that ratio. */
  lemma {:induction false} FilterByRatioMembers(rs: seq<Resolution>, a: Aspect)
    ensures forall x :: x in FilterByRatio(rs, a) <==> x in rs && x.ratio == a
  {
    if rs != [] {
      FilterByRatioMembers(rs[1..], a);
      assert forall x :: x in rs <==> x == rs[0] || x in rs[1..];
    }
  }

  /** The filter keeps order: its first element is the first entry of that ratio. */
  lemma {:induction false} FilterByRatioFirst(rs: seq<Resolution>, a: Aspect, k: nat)
    requires k < |rs| && rs[k].ratio == a
    requires forall j :: 0 <= j < k ==> rs[j].ratio != a
    ensures |FilterByRatio(rs, a)| > 0 && FilterByRatio(rs, a)[0] == rs[k]
  {
    if k > 0 {
      FilterByRatioFirst(rs[1..], a, k - 1);
    }
  }

  /** The resolutions offered for an aspect ratio. */
  function FilteredResolutions(a: Aspect): seq<Resolution>
  {
    FilterByRatio(RESOLUTIONS, a)
  }

  /** The HD entry of an aspect ratio. */
  function HDResolution(a: Aspect): Resolution
  {
    RESOLUTIONS[match a case Desktop => 0 case Mobile => 3 case Square => 6]
  }

  /**
   * Every aspect ratio has resolutions, and the first one offered, which
   * the aspect-ratio effect selects, is that ratio's HD entry.
   */
  lemma FilteredResolutionsStartAtHD(a: Aspect)
    ensures |FilteredResolutions(a)| > 0
    ensures FilteredResolutions(a)[0] == HDResolution(a)
    ensures HDResolution(a).ratio == a
  {
    ResolutionsWellFormed();
    match a
    case Desktop => FilterByRatioFirst(RESOLUTIONS, a, 0);
    case Mobile => FilterByRatioFirst(RESOLUTIONS, a, 3);
    case Square => FilterByRatioFirst(RESOLUTIONS, a, 6);
  }

  /** The blur presets the Background tab shows. */
  function BlurOptions(isSafari: bool): (opts: seq<BlurOption>)
    ensures WellFormedBlurOptions(opts)
  {
    BlurOptionsWellFormed();
    if isSafari then SAFARI_BLUR_OPTIONS else BLUR_OPTIONS
  }

  /** A blur button is disabled when it is "None" and there is no background image. */
  predicate BlurOptionDisabled(opt: BlurOption, hasImage: bool)
  {
    !hasImage && opt.value == 0
  }

  /**
   * Without a background image exactly the first preset ("None") is
   * disabled; with one, none is.
   */
  lemma OnlyNoneBlurDisabled(isSafari: bool, hasImage: bool)
    ensures var opts := BlurOptions(isSafari);
      forall i :: 0 <= i < |opts| ==> (BlurOptionDisabled(opts[i], hasImage) <==> !hasImage && i == 0)
  {
    var opts := BlurOptions(isSafari);
    forall i | 0 < i < |opts| ensures opts[i].value > 0 {
      assert opts[0].value < opts[i].value;
    }
  }

  /** The weight slider is disabled unless the selected font is found and variable. */
  function WeightSliderDisabled(fonts: seq<FontOption>, family: string): (disabled: bool)
    ensures !disabled <==> exists i :: 0 <= i < |fonts| && fonts[i].name == family && fonts[i].variable
                                     && forall j :: 0 <= j < i ==> fonts[j].name != family
  {
    match FindFontIndex(fonts, family)
    case None => true
    case Some(k) => !fonts[k].variable
  }

  /**
   * The blob-count slider's list: the first min(value, |circles|) circles
   * are kept as they are; new circles take the palette colour of their
   * index, cyclically, at random positions.
   */
  method ResizeCircles(circles: seq<Circle>, value: nat, colors: seq<string>, draws: seq<(real, real)>)
    returns (newCircles: seq<Circle>)
    requires |colors| > 0
    requires value > |circles| ==> |draws| == value - |circles|
    requires forall i :: 0 <= i < |draws| ==> WallpaperStore.IsPositionDraw(draws[i])
    ensures |newCircles| == value
    ensures forall i :: 0 <= i < value && i < |circles| ==> newCircles[i] == circles[i]
    ensures forall i :: |circles| <= i < value ==>
      && newCircles[i].color == colors[i % |colors|]
      && 0.0 <= newCircles[i].cx < 100.0 && 0.0 <= newCircles[i].cy < 100.0
  {
    newCircles := circles;
    if value > |circles| {
      var i := |circles|;
      while i < value
        invariant |circles| <= i <= value && |newCircles| == i
        invariant forall j :: 0 <= j < |circles| ==> newCircles[j] == circles[j]
        invariant forall j :: |circles| <= j < i ==>
          && newCircles[j].color == colors[j % |colors|]
          && 0.0 <= newCircles[j].cx < 100.0 && 0.0 <= newCircles[j].cy < 100.0
      {
        var d := draws[i - |circles|];
        newCircles := newCircles + [Circle(colors[i % |colors|], Percent(d.0), Percent(d.1))];
        i := i + 1;
      }
    } else {
      newCircles := newCircles[..value];
    }
  }

  /** The desktop editor's local state, over the shared store. */
  class View {
    const store: WallpaperStore.Store
    var aspectRatio: Aspect
    var isAspectRatioChanging: bool

    constructor (store: WallpaperStore.Store)
      ensures this.store == store && aspectRatio == Desktop && !isAspectRatioChanging
    {
      this.store := store;
      aspectRatio := Desktop;
      isAspectRatioChanging := false;
    }

    /**
     * The effect that runs when the aspect ratio changes: select the
     * ratio's first resolution, its HD entry, and flag the change.
     */
    method AspectRatioEffect()
      modifies store`resolution, this`isAspectRatioChanging
      ensures store.resolution == HDResolution(aspectRatio)
      ensures isAspectRatioChanging
    {
      var a := aspectRatio;
      var forRatio := FilteredResolutions(a);
      FilteredResolutionsStartAtHD(a);
      if |forRatio| > 0 {
        isAspectRatioChanging := true;
        store.SetResolution(forRatio[0]);
      }
    }

    /** The timer callback one second after an aspect-ratio change. */
    method FinishAspectRatioChange()
      modifies this`isAspectRatioChanging
      ensures !isAspectRatioChanging
    {
      isAspectRatioChanging := false;
    }

    /** Choose an aspect ratio; the effect runs only when the value changes. */
    method SetAspectRatio(a: Aspect)
      modifies this`aspectRatio, this`isAspectRatioChanging, store`resolution
      ensures aspectRatio == a
      ensures a != old(aspectRatio) ==> store.resolution == HDResolution(a) && isAspectRatioChanging
      ensures a == old(aspectRatio) ==> store.resolution == old(store.resolution)
                                        && isAspectRatioChanging == old(isAspectRatioChanging)
    {
      if a != aspectRatio {
        aspectRatio := a;
        AspectRatioEffect();
      }
    }

    /** The blob-count slider: record the count and resize the circle list to it. */
    method OnBlobCountChange(value: nat, draws: seq<(real, real)>)
      requires |store.colors| > 0
      requires value > |store.circles| ==> |draws| == value - |store.circles|
      requires forall i :: 0 <= i < |draws| ==> WallpaperStore.IsPositionDraw(draws[i])
      modifies store`numCircles, store`circles
      ensures store.numCircles == value && |store.circles| == value
      ensures forall i :: 0 <= i < value && i < |old(store.circles)| ==> store.circles[i] == old(store.circles)[i]
      ensures forall i :: |old(store.circles)| <= i < value ==>
        && store.circles[i].color == store.colors[i % |store.colors|]
        && 0.0 <= store.circles[i].cx < 100.0 && 0.0 <= store.circles[i].cy < 100.0
    {
      store.SetNumCircles(value);
      var newCircles := ResizeCircles(store.circles, value, store.colors, draws);
      store.SetCircles(newCircles);
    }

    /** Remove Image: clear the photo, and bring back a blur of 600 if blur was off. */
    method RemoveImage()
      modifies store`backgroundImage, store`blur
      ensures store.backgroundImage == None
      ensures store.blur == if old(store.blur) == 0.0 then 600.0 else old(store.blur)
    {
      store.SetBackgroundImage(None);
      if store.blur == 0.0 {
        store.SetBlur(600.0);
      }
    }

    /** Click on an enabled blur preset. */
    method SelectBlurOption(opt: BlurOption)
      requires !BlurOptionDisabled(opt, store.backgroundImage.Some?)
      modifies store`blur
      ensures store.blur == opt.value as real
      ensures store.blur == 0.0 ==> store.backgroundImage.Some?
    {
      store.SetBlur(opt.value as real);
    }
  }
}
