/**
 * The page that hosts both layouts: the font-weight correction run when
 * the font family changes, the colour-picker dispatch, upload validation
 * and the download file name.
 */
module Page {

  import opened Wrappers
  import opened Strings
  import opened Constants
  import WallpaperStore

  function Abs(x: int): nat { if x < 0 then -x else x }

  /**
   * The index the weight reduce settles on after the first k weights: the
   * running best is replaced only by a strictly nearer weight.
   */
  function NearestIndex(weights: seq<int>, target: int, k: nat): (i: nat)
    requires 1 <= k <= |weights|
    ensures i < k
    ensures forall j :: 0 <= j < k ==> Abs(weights[i] - target) <= Abs(weights[j] - target)
    ensures forall j :: 0 <= j < i ==> Abs(weights[j] - target) > Abs(weights[i] - target)
  {
    if k == 1 then 0
    else
      var prev := NearestIndex(weights, target, k - 1);
      if Abs(weights[k - 1] - target) < Abs(weights[prev] - target) then k - 1 else prev
  }

  /**
   * `weights.reduce(...)`: the weight nearest the target; on a tie the
   * earliest such weight wins.
   */
  function ClosestWeight(weights: seq<int>, target: int): (w: int)
    requires |weights| > 0
    ensures w in weights
    ensures forall j :: 0 <= j < |weights| ==> Abs(w - target) <= Abs(weights[j] - target)
    ensures exists i :: 0 <= i < |weights| && weights[i] == w
                        && forall j :: 0 <= j < i ==> Abs(weights[j] - target) > Abs(w - target)
  {
    var i := NearestIndex(weights, target, |weights|);
    weights[i]
  }

  /** What the font-weight effect does. */
  datatype WeightFix =
    | KeepWeight              // the font is variable: any weight is valid
    | SetWeight(weight: int)  // snap to the nearest weight the font has
    | ReduceOfEmptyArray      // unknown font: `reduce` on [] throws a TypeError

  /** The font-weight effect's decision for a family and the current weight. */
  function FontWeightCorrection(family: string, weight: int): (r: WeightFix)
    ensures r.KeepWeight? <==> FindFont(FONTS, family).Some? && FindFont(FONTS, family).value.variable
    ensures r.ReduceOfEmptyArray? <==> FindFont(FONTS, family).None?
    ensures r.SetWeight? ==>
      && FindFont(FONTS, family).Some?
      && r.weight == ClosestWeight(FindFont(FONTS, family).value.weights, weight)
  {
    var font := FindFont(FONTS, family);
    if font.Some? && font.value.variable then KeepWeight
    else
      var weights := if font.Some? then font.value.weights else [];
      FontsWellFormed();
      if |weights| == 0 then ReduceOfEmptyArray
      else SetWeight(ClosestWeight(weights, weight))
  }

  /**
   * For every font the picker offers the effect never throws, and a fixed
   * weight is snapped to a weight the font has, as near as any.
   */
  lemma FontWeightCorrectionSafe(i: nat, weight: int)
    requires i < |FONTS|
    ensures !FontWeightCorrection(FONTS[i].name, weight).ReduceOfEmptyArray?
    ensures var r := FontWeightCorrection(FONTS[i].name, weight);
      r.SetWeight? ==> exists k :: 0 <= k < |FONTS| && r.weight in FONTS[k].weights
  {
    var r := FontWeightCorrection(FONTS[i].name, weight);
    if r.SetWeight? {
      var k :| 0 <= k < |FONTS| && FONTS[k] == FindFont(FONTS, FONTS[i].name).value;
    }
  }

  /** The font-weight effect, run whenever the font family changes. */
  method FontWeightEffect(store: WallpaperStore.Store) returns (r: WeightFix)
    modifies store`fontWeight
    ensures r == FontWeightCorrection(old(store.fontFamily), old(store.fontWeight))
    ensures store.fontWeight == if r.SetWeight? then r.weight else old(store.fontWeight)
  {
    r := FontWeightCorrection(store.fontFamily, store.fontWeight);
    if r.SetWeight? {
      store.SetFontWeight(r.weight);
    }
  }

  /**
   * The colour picker writes to the field its colour type selects: the
   * text colour, the background colour, or the active circle, and nothing
   * when no circle is active.
   */
  method HandleColorChange(store: WallpaperStore.Store, color: string)
    requires store.activeColorType == WallpaperStore.GradientColor && store.activeColor.Some?
             ==> store.activeColor.value < |store.circles|
    modifies store`textColor, store`backgroundColor, store`circles
    ensures store.textColor == if store.activeColorType == WallpaperStore.TextColor then color else old(store.textColor)
    ensures store.backgroundColor == if store.activeColorType == WallpaperStore.BackgroundColor then color
                                     else old(store.backgroundColor)
    ensures store.circles == if store.activeColorType == WallpaperStore.GradientColor && store.activeColor.Some?
                             then WallpaperStore.Recolored(old(store.circles), store.activeColor.value, color)
                             else old(store.circles)
  {
    match store.activeColorType
    case TextColor => store.SetTextColor(color);
    case BackgroundColor => store.SetBackgroundColor(color);
    case GradientColor =>
      if store.activeColor.Some? {
        store.UpdateColor(color, store.activeColor.value);
      }
  }

  /** The file an upload input yields: its size in bytes and its MIME type. */
  datatype File = File(size: nat, mimeType: string)

  /** The outcome of upload validation. */
  datatype UploadCheck = NoFile | TooLarge | NotAnImage | Accepted

  /** The upload size limit: 10 MiB. */
  const MAX_UPLOAD_BYTES: nat := 10 * 1024 * 1024

  /**
   * Upload validation: a file is accepted iff it is at most 10 MiB and its
   * type starts with "image/"; the size is checked first, so an oversized
   * file of any type is reported as too large.
   */
  function ValidateUpload(file: Option<File>): (r: UploadCheck)
    ensures r == NoFile <==> file.None?
    ensures r == TooLarge <==> file.Some? && file.value.size > MAX_UPLOAD_BYTES
    ensures r == NotAnImage <==> file.Some? && file.value.size <= MAX_UPLOAD_BYTES
                                 && !StartsWith(file.value.mimeType, "image/")
    ensures r == Accepted <==> file.Some? && file.value.size <= 10485760
                               && |file.value.mimeType| >= 6 && file.value.mimeType[..6] == "image/"
  {
    match file
    case None => NoFile
    case Some(f) =>
      if f.size > MAX_UPLOAD_BYTES then TooLarge
      else if !StartsWith(f.mimeType, "image/") then NotAnImage
      else Accepted
  }

  /** `gradii-{width}x{height}.png`. */
  function DownloadFilename(r: Resolution): (name: string)
    ensures StartsWith(name, "gradii-")
    ensures |name| >= 4 && name[|name| - 4..] == ".png"
  {
    "gradii-" + NatToString(r.width) + "x" + NatToString(r.height) + ".png"
  }

  predicate AllDigits(s: string)
  {
    forall i :: 0 <= i < |s| ==> IsDigit(s[i])
  }

  /** Reads the width and height back from a download file name. */
  function ParseFilename(name: string): Option<(nat, nat)>
  {
    if |name| < 11 || name[..7] != "gradii-" || name[|name| - 4..] != ".png" then None
    else
      var mid := name[7..|name| - 4];
      match IndexOf(mid, 'x')
      case None => None
      case Some(k) =>
        var a, b := mid[..k], mid[k + 1..];
        if |a| > 0 && |b| > 0 && AllDigits(a) && AllDigits(b) then Some((DigitsValue(a), DigitsValue(b)))
        else None
  }

  /** The file name records the resolution: it reads back to its width and height. */
  lemma DownloadFilenameRoundTrip(r: Resolution)
    ensures ParseFilename(DownloadFilename(r)) == Some((r.width, r.height))
  {
    var w, h := NatToString(r.width), NatToString(r.height);
    var mid := w + "x" + h;
    assert DownloadFilename(r) == "gradii-" + mid + ".png";
    FilenameFrame(mid);
    DigitsThenX(w, h);
    NatToStringValue(r.width);
    NatToStringValue(r.height);
  }

  /** The prefix and extension of a file name frame the text between them. */
  lemma FilenameFrame(mid: string)
    ensures var name := "gradii-" + mid + ".png";
      && |name| == |mid| + 11 && name[..7] == "gradii-" && name[|name| - 4..] == ".png"
      && name[7..|name| - 4] == mid
  {
  }

  /** In digits, "x", more text, the first "x" is the one after the digits. */
  lemma DigitsThenX(w: string, h: string)
    requires AllDigits(w)
    ensures var mid := w + "x" + h;
      && IndexOf(mid, 'x') == Some(|w|) && mid[..|w|] == w && mid[|w| + 1..] == h
  {
    var mid := w + "x" + h;
    assert mid[|w|] == 'x';
    assert 'x' !in w by {
      forall i | 0 <= i < |w| ensures w[i] != 'x' {
        assert IsDigit(w[i]);
      }
    }
    assert mid[..|w|] == w;
  }
}
