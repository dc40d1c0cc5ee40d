/**
 * The mobile editor's own logic: its smaller preview boxes and preview
 * scale, the styles that scale with the export width (blur, font size,
 * letter spacing, line height), the filter and text-decoration strings of
 * the preview, the colour layer and the Colors tab when a photo is set,
 * the aspect-ratio effect, and the tab pager that remembers the direction
 * of the last tab change.
 */
module MobileApp {

  import opened Wrappers
  import opened Strings
  import opened Constants
  import opened Preview
  import Css
  import CanvasPreview
  import DesktopApp
  import WallpaperStore

  /** The preview box of each aspect ratio. */
  function PreviewDimensions(a: Aspect): (b: Box)
    ensures b.width > 0.0 && b.height > 0.0
  {
    match a
    case Desktop => Box(240.0, 120.0)
    case Mobile => Box(120.0, 240.0)
    case Square => Box(230.0, 230.0)
  }

  /** The scale of the preview transform: the resolution fits the box on both axes and fills one. */
  function GetPreviewScale(aspect: Aspect, r: Resolution): (s: real)
    requires r.width > 0 && r.height > 0
    ensures var box := PreviewDimensions(aspect);
      && r.width as real * s <= box.width && r.height as real * s <= box.height
      && (r.width as real * s == box.width || r.height as real * s == box.height)
  {
    FitScaleFits(PreviewDimensions(aspect), r.width as real, r.height as real);
    FitScale(PreviewDimensions(aspect), r.width as real, r.height as real)
  }

  /** The width the style values are given for: HD landscape. */
  const REFERENCE_WIDTH: real := 1920.0

  /** `(value * width) / 1920`: a style value scaled to the export width. */
  function ScaleToWidth(value: real, width: nat): real
  {
    value * width as real / REFERENCE_WIDTH
  }

  /**
   * Scaling is the identity at the reference width, keeps the sign of the
   * value, and grows with the width for a non-negative value.
   */
  lemma ScaleToWidthProperties(value: real, w1: nat, w2: nat)
    ensures ScaleToWidth(value, 1920) == value
    ensures value >= 0.0 ==> ScaleToWidth(value, w1) >= 0.0
    ensures value >= 0.0 && w1 <= w2 ==> ScaleToWidth(value, w1) <= ScaleToWidth(value, w2)
  {
    if value >= 0.0 && w1 <= w2 {
      assert value * w2 as real - value * w1 as real == value * (w2 as real - w1 as real);
      assert value * (w2 as real - w1 as real) >= 0.0;
    }
  }

  /**
   * Scaling is proportional: the values at two widths stand in the ratio
   * of the widths, so every resolution of one aspect ratio shows the same
   * picture once the preview transform shrinks it to the box.
   */
  lemma ScaleToWidthProportional(value: real, w1: nat, w2: nat)
    ensures ScaleToWidth(value, w1) * w2 as real == ScaleToWidth(value, w2) * w1 as real
  {
    assert ScaleToWidth(value, w1) * w2 as real == value * (w1 as real * w2 as real) / REFERENCE_WIDTH;
    assert ScaleToWidth(value, w2) * w1 as real == value * (w2 as real * w1 as real) / REFERENCE_WIDTH;
  }

  /** The width-dependent part of the preview's styles. */
  datatype ScaledStyle = ScaledStyle(blurPx: real, fontSizePx: real, letterSpacingEm: real, lineHeightEm: real)

  /** The preview's blur, font size, letter spacing and line height for an export width. */
  function StyleFor(blur: real, fontSize: real, letterSpacing: real, lineHeight: real, width: nat): ScaledStyle
  {
    ScaledStyle(ScaleToWidth(blur, width), ScaleToWidth(fontSize, width),
                ScaleToWidth(letterSpacing, width), ScaleToWidth(lineHeight, width))
  }

  /**
   * At 1920 pixels wide the preview uses the store's values unchanged, and
   * a wider export never gets a smaller blur, font size or line height.
   */
  lemma StyleForWidth(blur: real, fontSize: real, letterSpacing: real, lineHeight: real, w1: nat, w2: nat)
    ensures StyleFor(blur, fontSize, letterSpacing, lineHeight, 1920)
            == ScaledStyle(blur, fontSize, letterSpacing, lineHeight)
    ensures blur >= 0.0 && fontSize >= 0.0 && lineHeight >= 0.0 && w1 <= w2 ==>
      var s1, s2 := StyleFor(blur, fontSize, letterSpacing, lineHeight, w1),
                    StyleFor(blur, fontSize, letterSpacing, lineHeight, w2);
      && s1.blurPx <= s2.blurPx && s1.fontSizePx <= s2.fontSizePx && s1.lineHeightEm <= s2.lineHeightEm
  {
    ScaleToWidthProperties(blur, w1, w2);
    ScaleToWidthProperties(fontSize, w1, w2);
    ScaleToWidthProperties(letterSpacing, w1, w2);
    ScaleToWidthProperties(lineHeight, w1, w2);
  }

  /** The filter of the gradient or photo layer, as a chain of filter functions. */
  function FilterTerms(blur: real, brightness: real, contrast: real, saturation: real, width: nat): seq<Css.FilterTerm>
  {
    [Css.Blur(ScaleToWidth(blur, width)), Css.Brightness(brightness), Css.Contrast(contrast), Css.Saturate(saturation)]
  }

  /** The filter template string of the gradient and photo layers. */
  function LayerFilter(blur: real, brightness: real, contrast: real, saturation: real, width: nat,
                       fmt: real -> string): string
  {
    "blur(" + fmt(ScaleToWidth(blur, width)) + "px) brightness(" + fmt(brightness)
    + "%) contrast(" + fmt(contrast) + "%) saturate(" + fmt(saturation) + "%)"
  }

  /** The template is the four-function chain, blur first even when blur is 0. */
  lemma LayerFilterChain(blur: real, brightness: real, contrast: real, saturation: real, width: nat,
                         fmt: real -> string)
    ensures LayerFilter(blur, brightness, contrast, saturation, width, fmt)
            == Css.Chain(FilterTerms(blur, brightness, contrast, saturation, width), fmt)
  {
    var t := FilterTerms(blur, brightness, contrast, saturation, width);
    var parts := Css.RenderAll(t, fmt);
    assert parts == [Css.Render(t[0], fmt), Css.Render(t[1], fmt), Css.Render(t[2], fmt), Css.Render(t[3], fmt)];
    JoinFour(parts[0], parts[1], parts[2], parts[3], " ");
    assert "px) brightness(" == "px)" + " " + "brightness(";
    assert "%) contrast(" == "%)" + " " + "contrast(";
    assert "%) saturate(" == "%)" + " " + "saturate(";
    Regroup("blur(", fmt(ScaleToWidth(blur, width)), "px)", "brightness(", fmt(brightness), "%)",
            "contrast(", fmt(contrast), "%)", "saturate(", fmt(saturation), "%)");
  }

  /** Moving the separators of a template's literal pieces to the joins between its parts. */
  lemma Regroup(x0: string, x: string, q1: string, r1: string, b: string, q2: string, r2: string,
                c: string, q3: string, r3: string, s: string, q4: string)
    ensures x0 + x + (q1 + " " + r1) + b + (q2 + " " + r2) + c + (q3 + " " + r3) + s + q4
         == (x0 + x + q1) + " " + (r1 + b + q2) + " " + (r2 + c + q3) + " " + (r3 + s + q4)
  {
  }

  /**
   * The canvas compositor's chain has the same last three functions but
   * drops blur at 0 and uses a quarter of it otherwise, where the layer
   * scales it with the width.
   */
  lemma LayerFilterMatchesCanvas(blur: real, brightness: real, contrast: real, saturation: real, width: nat)
    ensures var t := FilterTerms(blur, brightness, contrast, saturation, width);
      var c := CanvasPreview.FilterTerms(CanvasPreview.Filters(blur, brightness, contrast, saturation));
      && |t| == 4 && t[0] == Css.Blur(ScaleToWidth(blur, width))
      && t[1..] == c[|c| - 3..]
      && (blur == 0.0 ==> |c| == 3)
      && (blur > 0.0 ==> |c| == 4 && c[0] == Css.Blur(blur / 4.0))
  {
  }

  /** `${u ? "underline" : ""} ${s ? "line-through" : ""}`.trim() */
  function TextDecoration(underline: bool, strikethrough: bool): string
  {
    Trim((if underline then "underline" else "") + " " + (if strikethrough then "line-through" else ""))
  }

  /**
   * The decoration is "underline line-through", "underline",
   * "line-through" or "" for the four flag combinations: the joining
   * space never survives on its own.
   */
  lemma TextDecorationCases(underline: bool, strikethrough: bool)
    ensures TextDecoration(underline, strikethrough)
            == if underline && strikethrough then "underline line-through"
               else if underline then "underline"
               else if strikethrough then "line-through"
               else ""
  {
    var u, l := "underline", "line-through";
    assert !IsTrimmable(u[0]) && !IsTrimmable(u[|u| - 1]);
    assert !IsTrimmable(l[0]) && !IsTrimmable(l[|l| - 1]);
    if underline && strikethrough {
      TrimKeeps(u + " " + l);
    } else if underline {
      assert u + " " + "" == u + [' '];
      TrimTrailing(u, ' ');
      assert TrimEnd(u) == u;
    } else if strikethrough {
      assert "" + " " + l == [' '] + l;
      TrimLeading(' ', l);
      TrimKeeps(l);
    } else {
      assert "" + " " + "" == [' '] + "";
      TrimLeading(' ', "");
    }
  }

  /** The colour of the background layer: transparent under a photo, the background colour otherwise. */
  function BackgroundLayerColor(backgroundImage: Option<string>, backgroundColor: string): string
  {
    if backgroundImage.Some? then "transparent" else backgroundColor
  }

  /** The tabs of the mobile editor, in order. */
  const MOBILE_TABS: seq<WallpaperStore.Tab> := [WallpaperStore.TextTab, WallpaperStore.ColorsTab, WallpaperStore.EffectsTab]

  /** A tab trigger is disabled only for Colors, and only while a photo is set. */
  predicate TabDisabled(tab: WallpaperStore.Tab, backgroundImage: Option<string>)
  {
    tab == WallpaperStore.ColorsTab && backgroundImage.Some?
  }

  /**
   * A photo makes the colour layer transparent and locks the Colors tab;
   * without one the layer shows the background colour and no tab is locked.
   */
  lemma PhotoHidesColors(backgroundImage: Option<string>, backgroundColor: string)
    ensures backgroundImage.Some? ==>
      BackgroundLayerColor(backgroundImage, backgroundColor) == "transparent"
      && TabDisabled(WallpaperStore.ColorsTab, backgroundImage)
      && !TabDisabled(WallpaperStore.TextTab, backgroundImage)
      && !TabDisabled(WallpaperStore.EffectsTab, backgroundImage)
    ensures backgroundImage.None? ==>
      BackgroundLayerColor(backgroundImage, backgroundColor) == backgroundColor
      && forall tab :: !TabDisabled(tab, backgroundImage)
  {
  }

  /** `tabs.indexOf(tab)`: the first index of the tab, or -1. */
  function TabIndexIn(tabs: seq<WallpaperStore.Tab>, tab: WallpaperStore.Tab): (i: int)
    ensures -1 <= i < |tabs|
    ensures i == -1 <==> tab !in tabs
    ensures i >= 0 ==> tabs[i] == tab && tab !in tabs[..i]
  {
    if tabs == [] then -1
    else if tabs[0] == tab then 0
    else
      var j := TabIndexIn(tabs[1..], tab);
      assert j >= 0 ==> tabs[..j + 1] == [tabs[0]] + tabs[1..][..j];
      if j == -1 then -1 else j + 1
  }

  /** The pager position of the active tab; the Background tab, absent on mobile, gives -1. */
  function TabIndex(tab: WallpaperStore.Tab): int
  {
    TabIndexIn(MOBILE_TABS, tab)
  }

  /** Text, Colors and Effects sit at 0, 1 and 2; the Background tab is not on the pager. */
  lemma TabIndices()
    ensures TabIndex(WallpaperStore.TextTab) == 0
    ensures TabIndex(WallpaperStore.ColorsTab) == 1
    ensures TabIndex(WallpaperStore.EffectsTab) == 2
    ensures TabIndex(WallpaperStore.BackgroundTab) == -1
  {
    assert MOBILE_TABS[0] == WallpaperStore.TextTab;
    assert MOBILE_TABS[1] == WallpaperStore.ColorsTab;
    assert MOBILE_TABS[2] == WallpaperStore.EffectsTab;
  }

  /** The pager's `[page, direction]` pair. */
  datatype Pager = Pager(page: int, direction: int)

  /** The tab effect's update: move to the new index, forwards (1) if it is past the page, else backwards (-1). */
  function NextPager(p: Pager, tabIndex: int): (q: Pager)
    ensures q.page == tabIndex
    ensures q.direction == 1 || q.direction == -1
    ensures q.direction == 1 <==> tabIndex > p.page
  {
    Pager(tabIndex, if tabIndex > p.page then 1 else -1)
  }

  /** The mobile editor's local state, over the shared store. */
  class MobileView {
    const store: WallpaperStore.Store
    var aspectRatio: Aspect
    var page: int
    var direction: int

    constructor (store: WallpaperStore.Store)
      ensures this.store == store && aspectRatio == Mobile && page == 0 && direction == 0
    {
      this.store := store;
      aspectRatio := Mobile;
      page := 0;
      direction := 0;
    }

    /** The effect on the tab index: record the new page and the direction of travel. */
    method TabEffect(tabIndex: int)
      modifies this`page, this`direction
      ensures Pager(page, direction) == NextPager(Pager(old(page), old(direction)), tabIndex)
    {
      var newDirection := if tabIndex > page then 1 else -1;
      page, direction := tabIndex, newDirection;
    }

    /** A click on an enabled tab trigger; the effect runs when the tab index changes. */
    method SelectTab(tab: WallpaperStore.Tab)
      requires tab in MOBILE_TABS && !TabDisabled(tab, store.backgroundImage)
      modifies store`activeTab, this`page, this`direction
      ensures store.activeTab == tab
      ensures TabIndex(tab) != TabIndex(old(store.activeTab)) ==>
        Pager(page, direction) == NextPager(Pager(old(page), old(direction)), TabIndex(tab))
      ensures TabIndex(tab) == TabIndex(old(store.activeTab)) ==> page == old(page) && direction == old(direction)
    {
      var before := TabIndex(store.activeTab);
      store.SetActiveTab(tab);
      if TabIndex(tab) != before {
        TabEffect(TabIndex(tab));
      }
    }

    /** The effect on the aspect ratio: select the ratio's first resolution, its HD entry. */
    method AspectRatioEffect()
      modifies store`resolution
      ensures store.resolution == DesktopApp.HDResolution(aspectRatio)
    {
      var forRatio := DesktopApp.FilteredResolutions(aspectRatio);
      DesktopApp.FilteredResolutionsStartAtHD(aspectRatio);
      if |forRatio| > 0 {
        store.SetResolution(forRatio[0]);
      }
    }
  }
}
