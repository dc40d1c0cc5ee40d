/**
 * The settings store: every field of the editor's global state, the
 * initial state, the setters, colour update, the record of user-modified
 * properties, and palette generation.
 *
 * Each setter modifies exactly its own field, named in its `modifies`
 * clause, so every other field is framed out.
 */
module WallpaperStore {

  import opened Wrappers
  import opened Draws
  import opened Constants

  datatype Tab = ColorsTab | TextTab | EffectsTab | BackgroundTab

  /** What the colour picker writes to. */
  datatype ColorType = TextColor | BackgroundColor | GradientColor

  datatype TextShadow = TextShadow(color: string, blur: real, offsetX: real, offsetY: real)

  /** The argument of setTextShadow: a new value, or a function of the current one. */
  datatype ShadowUpdate = ShadowValue(value: TextShadow) | ShadowFunction(f: TextShadow -> TextShadow)

  /** The text sizes palette generation picks from. */
  const FONT_SIZES: seq<real> := [24.0, 28.0, 32.0, 36.0, 40.0, 44.0, 48.0, 52.0, 56.0, 60.0]

  /** The property names the user can have modified. */
  const FONT_SIZE_PROPERTY: string := "fontSize"
  const FONT_FAMILY_PROPERTY: string := "fontFamily"
  const BACKGROUND_COLOR_PROPERTY: string := "backgroundColor"
  const FONT_WEIGHT_PROPERTY: string := "fontWeight"
  const LETTER_SPACING_PROPERTY: string := "letterSpacing"

  /** A pair of draws for a circle's position. */
  predicate IsPositionDraw(d: (real, real)) { IsDraw(d.0) && IsDraw(d.1) }

  /** The initial circles: one per initial colour, in order, at random positions. */
  function InitialCircles(draws: seq<(real, real)>): (r: seq<Circle>)
    requires |draws| == |INITIAL_COLORS|
    requires forall i :: 0 <= i < |draws| ==> IsPositionDraw(draws[i])
    ensures |r| == |INITIAL_COLORS|
    ensures forall i :: 0 <= i < |r| ==> r[i].color == INITIAL_COLORS[i]
    ensures forall i :: 0 <= i < |r| ==> 0.0 <= r[i].cx < 100.0 && 0.0 <= r[i].cy < 100.0
  {
    seq(|INITIAL_COLORS|, i requires 0 <= i < |INITIAL_COLORS| =>
      assert IsPositionDraw(draws[i]);
      Circle(INITIAL_COLORS[i], Percent(draws[i].0), Percent(draws[i].1)))
  }

  /** The circle list with circle `index` recoloured. */
  function Recolored(circles: seq<Circle>, index: nat, newColor: string): (r: seq<Circle>)
    requires index < |circles|
  {
    circles[index := circles[index].(color := newColor)]
  }

  /**
   * Recolouring replaces one element: the length is kept, circle `index`
   * takes the new colour and keeps its position, and every other circle is
   * unchanged.
   */
  lemma RecoloredReplacesOne(circles: seq<Circle>, index: nat, newColor: string)
    requires index < |circles|
    ensures var r := Recolored(circles, index, newColor);
      && |r| == |circles|
      && r[index] == Circle(newColor, circles[index].cx, circles[index].cy)
      && forall i :: 0 <= i < |r| && i != index ==> r[i] == circles[i]
  {
  }

  /** The circle list at new random positions, colours and order kept. */
  function Repositioned(circles: seq<Circle>, draws: seq<(real, real)>): (r: seq<Circle>)
    requires |draws| == |circles|
    requires forall i :: 0 <= i < |draws| ==> IsPositionDraw(draws[i])
    ensures |r| == |circles|
    ensures forall i :: 0 <= i < |r| ==> r[i].color == circles[i].color
    ensures forall i :: 0 <= i < |r| ==> 0.0 <= r[i].cx < 100.0 && 0.0 <= r[i].cy < 100.0
  {
    seq(|circles|, i requires 0 <= i < |circles| =>
      assert IsPositionDraw(draws[i]);
      circles[i].(cx := Percent(draws[i].0), cy := Percent(draws[i].1)))
  }

  /** The record of modified properties after one more is tracked. */
  function Tracked(modified: set<string>, property: string): (r: set<string>)
  {
    modified + {property}
  }

  /**
   * Tracking adds exactly the one name, keeps every earlier one, and
   * tracking the same name twice is the same as tracking it once.
   */
  lemma TrackedGrows(modified: set<string>, property: string)
    ensures var r := Tracked(modified, property);
      && property in r && modified <= r && r - modified <= {property}
      && |r| == |modified| + (if property in modified then 0 else 1)
      && Tracked(r, property) == r
  {
    var r := Tracked(modified, property);
    if property !in modified {
      assert r - {property} == modified;
    } else {
      assert r == modified;
    }
  }

  /** A random background colour from the background palette. */
  function RandomBackgroundColor(r: real): string
    requires IsDraw(r)
  {
    INITIAL_BACKGROUND_COLORS[Pick(r, |INITIAL_BACKGROUND_COLORS|)]
  }

  /** A random background colour is one of the background palette's hex colours. */
  lemma RandomBackgroundColorInPalette(r: real)
    requires IsDraw(r)
    ensures RandomBackgroundColor(r) in INITIAL_BACKGROUND_COLORS && IsHexColor(RandomBackgroundColor(r))
  {
    PalettesWellFormed();
  }

  /** A random font family: the name of a FONTS entry. */
  function RandomFontFamily(r: real): (name: string)
    requires IsDraw(r)
    ensures exists i :: 0 <= i < |FONTS| && FONTS[i].name == name
  {
    FONTS[Pick(r, |FONTS|)].name
  }

  /** A randomly drawn family is found in the catalogue. */
  lemma RandomFontFamilyFound(r: real)
    requires IsDraw(r)
    ensures FindFont(FONTS, RandomFontFamily(r)).Some?
  {
  }

  /**
   * A random weight: a random element of the weight list of an
   * independently drawn font. The drawn index is always in range and every
   * catalogue entry has a weight list, so the store's `||` fallback list is
   * never used.
   */
  function RandomFontWeight(fontDraw: real, weightDraw: real): (w: int)
    requires IsDraw(fontDraw) && IsDraw(weightDraw)
    ensures w in FONTS[Pick(fontDraw, |FONTS|)].weights
    ensures 100 <= w <= 900 && w % 100 == 0
  {
    FontsWellFormed();
    var weights := FONTS[Pick(fontDraw, |FONTS|)].weights;
    weights[Pick(weightDraw, |weights|)]
  }

  /** A random text size from FONT_SIZES. */
  function RandomFontSize(r: real): (size: real)
    requires IsDraw(r)
    ensures size in FONT_SIZES && 24.0 <= size <= 60.0
  {
    FONT_SIZES[Pick(r, |FONT_SIZES|)]
  }

  /** `Math.floor(v + 0.5)`: v rounded to an integer, ties upward. */
  function RoundHalfUp(v: real): (n: int)
    ensures -0.5 < n as real - v <= 0.5
  {
    (v + 0.5).Floor
  }

  /**
   * The hundredths `x.toFixed(2)` prints: toFixed rounds the magnitude,
   * ties upward, and keeps the sign, so ties go away from zero.
   */
  function Hundredths(x: real): (n: int)
    ensures -0.5 <= n as real - x * 100.0 <= 0.5
    ensures x >= 0.0 ==> n >= 0
  {
    if x < 0.0 then -RoundHalfUp(-x * 100.0) else RoundHalfUp(x * 100.0)
  }

  /** `Number(x.toFixed(2))`: a whole number of hundredths, within half a hundredth of x. */
  function ToFixed2(x: real): (r: real)
    ensures r * 100.0 == Hundredths(x) as real
    ensures -0.005 <= r - x <= 0.005
  {
    Hundredths(x) as real / 100.0
  }

  /** A random letter spacing: `Math.random() * 0.15 - 0.05` to two decimals, within [-0.05, 0.10]. */
  function RandomLetterSpacing(r: real): (s: real)
    requires IsDraw(r)
    ensures -0.05 <= s <= 0.1
    ensures s * 100.0 == Hundredths(r * 0.15 - 0.05) as real
  {
    var x := r * 0.15 - 0.05;
    var n := Hundredths(x);
    assert -5.5 <= n as real <= 10.5;
    assert -5 <= n <= 10;
    ToFixed2(x)
  }

  /** The random draws one palette generation consumes, in the order the store draws them. */
  datatype PaletteDraws = PaletteDraws(
    positions: seq<(real, real)>, background: real, family: real,
    weightFont: real, weight: real, size: real, spacing: real)

  predicate ValidPaletteDraws(d: PaletteDraws, n: nat)
  {
    && |d.positions| == n
    && (forall i :: 0 <= i < |d.positions| ==> IsPositionDraw(d.positions[i]))
    && IsDraw(d.background) && IsDraw(d.family) && IsDraw(d.weightFont)
    && IsDraw(d.weight) && IsDraw(d.size) && IsDraw(d.spacing)
  }

  /** The global settings store. */
  class Store {
    const colors: seq<string>
    const backgroundColors: seq<string>
    var activeColor: Option<nat>
    var circles: seq<Circle>
    var previousCircles: seq<Circle>
    var numCircles: int
    var backgroundColor: string

    var text: string
    var fontSize: real
    var fontWeight: int
    var letterSpacing: real
    var opacity: real
    var fontFamily: string
    var lineHeight: real
    var textColor: string
    var isItalic: bool
    var isUnderline: bool
    var isStrikethrough: bool

    var blur: real
    var saturation: real
    var contrast: real
    var brightness: real
    var grainIntensity: real
    var vignetteIntensity: real
    var textShadow: TextShadow

    var activeTab: Tab
    var activeColorPicker: string
    var activeColorType: ColorType
    var resolution: Resolution
    var modifiedProperties: set<string>
    var isDownloading: bool
    var isGenerating: bool
    var isUploading: bool
    var backgroundImage: Option<string>

    /** Only the two setters that track a property ever add to the record. */
    predicate RecordedBySetters()
      reads this`modifiedProperties
    {
      modifiedProperties <= {FONT_SIZE_PROPERTY, FONT_FAMILY_PROPERTY}
    }

    /** The initial state; `draws` are the position draws of the nine initial circles. */
    constructor (draws: seq<(real, real)>)
      requires |draws| == |INITIAL_COLORS|
      requires forall i :: 0 <= i < |draws| ==> IsPositionDraw(draws[i])
      ensures colors == INITIAL_COLORS && backgroundColors == INITIAL_BACKGROUND_COLORS
      ensures activeColor == None && circles == InitialCircles(draws) && previousCircles == []
      ensures numCircles == |INITIAL_COLORS| == |circles|
      ensures text == "Gradii." && fontSize == 36.0 && blur == 500.0 && fontWeight == 600
      ensures letterSpacing == -0.02 && opacity == 100.0 && fontFamily == DEFAULT_FONT_FAMILY
      ensures activeTab == TextTab && grainIntensity == 25.0 && vignetteIntensity == 0.0
      ensures backgroundColor == DEFAULT_BACKGROUND_COLOR && lineHeight == 1.0
      ensures textColor == "#f1f1f1" && activeColorPicker == "#f1f1f1" && activeColorType == TextColor
      ensures resolution == RESOLUTIONS[0] && saturation == 100.0 && contrast == 100.0 && brightness == 100.0
      ensures backgroundImage == None && !isItalic && !isUnderline && !isStrikethrough
      ensures modifiedProperties == {} && !isDownloading && !isGenerating && !isUploading
      ensures textShadow == TextShadow("#f5f5f5", 24.0, 0.0, 0.0)
      ensures RecordedBySetters()
    {
      colors := INITIAL_COLORS;
      backgroundColors := INITIAL_BACKGROUND_COLORS;
      activeColor := None;
      circles := InitialCircles(draws);
      previousCircles := [];
      numCircles := |INITIAL_COLORS|;
      text := "Gradii.";
      fontSize := 36.0;
      blur := 500.0;
      fontWeight := 600;
      letterSpacing := -0.02;
      opacity := 100.0;
      fontFamily := "Onest";
      activeTab := TextTab;
      grainIntensity := 25.0;
      vignetteIntensity := 0.0;
      backgroundColor := "#0D1319";
      lineHeight := 1.0;
      textColor := "#f1f1f1";
      activeColorPicker := "#f1f1f1";
      activeColorType := TextColor;
      resolution := RESOLUTIONS[0];
      saturation := 100.0;
      contrast := 100.0;
      brightness := 100.0;
      backgroundImage := None;
      isItalic := false;
      isUnderline := false;
      isStrikethrough := false;
      modifiedProperties := {};
      isDownloading := false;
      isGenerating := false;
      isUploading := false;
      textShadow := TextShadow("#f5f5f5", 24.0, 0.0, 0.0);
    }

    method SetCircles(c: seq<Circle>)
      modifies this`circles
      ensures circles == c
    {
      circles := c;
    }

    method SetPreviousCircles(c: seq<Circle>)
      modifies this`previousCircles
      ensures previousCircles == c
    {
      previousCircles := c;
    }

    method SetActiveColor(index: Option<nat>)
      modifies this`activeColor
      ensures activeColor == index
    {
      activeColor := index;
    }

    /** Recolour one circle, on a copy of the list. */
    method UpdateColor(newColor: string, index: nat)
      requires index < |circles|
      modifies this`circles
      ensures circles == Recolored(old(circles), index, newColor)
    {
      var newCircles := circles;
      newCircles := newCircles[index := newCircles[index].(color := newColor)];
      circles := newCircles;
    }

    method SetText(t: string)
      modifies this`text
      ensures text == t
    {
      text := t;
    }

    /** Set the text size and record that the user chose it. */
    method SetFontSize(size: real)
      modifies this`fontSize, this`modifiedProperties
      ensures fontSize == size
      ensures modifiedProperties == Tracked(old(modifiedProperties), FONT_SIZE_PROPERTY)
      ensures old(RecordedBySetters()) ==> RecordedBySetters()
    {
      TrackPropertyModification(FONT_SIZE_PROPERTY);
      fontSize := size;
    }

    method SetFontWeight(weight: int)
      modifies this`fontWeight
      ensures fontWeight == weight
    {
      fontWeight := weight;
    }

    /** Set the font family and record that the user chose it. */
    method SetFontFamily(family: string)
      modifies this`fontFamily, this`modifiedProperties
      ensures fontFamily == family
      ensures modifiedProperties == Tracked(old(modifiedProperties), FONT_FAMILY_PROPERTY)
      ensures old(RecordedBySetters()) ==> RecordedBySetters()
    {
      TrackPropertyModification(FONT_FAMILY_PROPERTY);
      fontFamily := family;
    }

    method SetBackgroundColor(color: string)
      modifies this`backgroundColor
      ensures backgroundColor == color
    {
      backgroundColor := color;
    }

    method SetTextColor(color: string)
      modifies this`textColor
      ensures textColor == color
    {
      textColor := color;
    }

    method TrackPropertyModification(property: string)
      modifies this`modifiedProperties
      ensures modifiedProperties == Tracked(old(modifiedProperties), property)
    {
      modifiedProperties := modifiedProperties + {property};
    }

    /**
     * Snapshot the circles into previousCircles and move every circle to a
     * new random position; then redraw each text and background setting
     * the user has not modified; then raise isGenerating.
     */
    method GenerateNewPalette(d: PaletteDraws)
      requires ValidPaletteDraws(d, |circles|)
      modifies this`previousCircles, this`circles, this`backgroundColor, this`fontFamily,
               this`fontWeight, this`fontSize, this`letterSpacing, this`isGenerating
      ensures previousCircles == old(circles)
      ensures circles == Repositioned(old(circles), d.positions)
      ensures backgroundColor == if BACKGROUND_COLOR_PROPERTY in modifiedProperties
                                 then old(backgroundColor) else RandomBackgroundColor(d.background)
      ensures fontFamily == if FONT_FAMILY_PROPERTY in modifiedProperties
                            then old(fontFamily) else RandomFontFamily(d.family)
      ensures fontWeight == if FONT_WEIGHT_PROPERTY in modifiedProperties
                            then old(fontWeight) else RandomFontWeight(d.weightFont, d.weight)
      ensures fontSize == if FONT_SIZE_PROPERTY in modifiedProperties
                          then old(fontSize) else RandomFontSize(d.size)
      ensures letterSpacing == if LETTER_SPACING_PROPERTY in modifiedProperties
                               then old(letterSpacing) else RandomLetterSpacing(d.spacing)
      ensures isGenerating
    {
      previousCircles := circles;
      circles := Repositioned(circles, d.positions);
      RedrawUnmodified(d);
      isGenerating := true;
    }

    /** Draw a new value for each text and background setting the user has not modified. */
    method RedrawUnmodified(d: PaletteDraws)
      requires ValidPaletteDraws(d, |d.positions|)
      modifies this`backgroundColor, this`fontFamily, this`fontWeight, this`fontSize, this`letterSpacing
      ensures backgroundColor == if BACKGROUND_COLOR_PROPERTY in modifiedProperties
                                 then old(backgroundColor) else RandomBackgroundColor(d.background)
      ensures fontFamily == if FONT_FAMILY_PROPERTY in modifiedProperties
                            then old(fontFamily) else RandomFontFamily(d.family)
      ensures fontWeight == if FONT_WEIGHT_PROPERTY in modifiedProperties
                            then old(fontWeight) else RandomFontWeight(d.weightFont, d.weight)
      ensures fontSize == if FONT_SIZE_PROPERTY in modifiedProperties
                          then old(fontSize) else RandomFontSize(d.size)
      ensures letterSpacing == if LETTER_SPACING_PROPERTY in modifiedProperties
                               then old(letterSpacing) else RandomLetterSpacing(d.spacing)
    {
      if BACKGROUND_COLOR_PROPERTY !in modifiedProperties {
        backgroundColor := RandomBackgroundColor(d.background);
      }
      if FONT_FAMILY_PROPERTY !in modifiedProperties {
        fontFamily := RandomFontFamily(d.family);
      }
      if FONT_WEIGHT_PROPERTY !in modifiedProperties {
        fontWeight := RandomFontWeight(d.weightFont, d.weight);
      }
      if FONT_SIZE_PROPERTY !in modifiedProperties {
        fontSize := RandomFontSize(d.size);
      }
      if LETTER_SPACING_PROPERTY !in modifiedProperties {
        letterSpacing := RandomLetterSpacing(d.spacing);
      }
    }

    /** The timer callback one second after palette generation. */
    method FinishGenerating()
      modifies this`isGenerating
      ensures !isGenerating
    {
      isGenerating := false;
    }

    method SetActiveTab(tab: Tab)
      modifies this`activeTab
      ensures activeTab == tab
    {
      activeTab := tab;
    }

    method SetLetterSpacing(spacing: real)
      modifies this`letterSpacing
      ensures letterSpacing == spacing
    {
      letterSpacing := spacing;
    }

    method SetOpacity(value: real)
      modifies this`opacity
      ensures opacity == value
    {
      opacity := value;
    }

    method SetLineHeight(height: real)
      modifies this`lineHeight
      ensures lineHeight == height
    {
      lineHeight := height;
    }

    method SetBlur(value: real)
      modifies this`blur
      ensures blur == value
    {
      blur := value;
    }

    method SetSaturation(value: real)
      modifies this`saturation
      ensures saturation == value
    {
      saturation := value;
    }

    method SetContrast(value: real)
      modifies this`contrast
      ensures contrast == value
    {
      contrast := value;
    }

    method SetBrightness(value: real)
      modifies this`brightness
      ensures brightness == value
    {
      brightness := value;
    }

    method SetGrainIntensity(intensity: real)
      modifies this`grainIntensity
      ensures grainIntensity == intensity
    {
      grainIntensity := intensity;
    }

    method SetVignetteIntensity(intensity: real)
      modifies this`vignetteIntensity
      ensures vignetteIntensity == intensity
    {
      vignetteIntensity := intensity;
    }

    /** Store the given shadow, or the given function applied to the current one. */
    method SetTextShadow(update: ShadowUpdate)
      modifies this`textShadow
      ensures update.ShadowValue? ==> textShadow == update.value
      ensures update.ShadowFunction? ==> textShadow == update.f(old(textShadow))
    {
      match update
      case ShadowValue(v) => textShadow := v;
      case ShadowFunction(f) => textShadow := f(textShadow);
    }

    method SetIsItalic(value: bool)
      modifies this`isItalic
      ensures isItalic == value
    {
      isItalic := value;
    }

    method SetIsUnderline(value: bool)
      modifies this`isUnderline
      ensures isUnderline == value
    {
      isUnderline := value;
    }

    method SetIsStrikethrough(value: bool)
      modifies this`isStrikethrough
      ensures isStrikethrough == value
    {
      isStrikethrough := value;
    }

    method SetResolution(r: Resolution)
      modifies this`resolution
      ensures resolution == r
    {
      resolution := r;
    }

    method SetBackgroundImage(image: Option<string>)
      modifies this`backgroundImage
      ensures backgroundImage == image
    {
      backgroundImage := image;
    }

    method SetIsUploading(value: bool)
      modifies this`isUploading
      ensures isUploading == value
    {
      isUploading := value;
    }

    method SetNumCircles(num: int)
      modifies this`numCircles
      ensures numCircles == num
    {
      numCircles := num;
    }

    method SetActiveColorPicker(color: string)
      modifies this`activeColorPicker
      ensures activeColorPicker == color
    {
      activeColorPicker := color;
    }

    method SetActiveColorType(t: ColorType)
      modifies this`activeColorType
      ensures activeColorType == t
    {
      activeColorType := t;
    }
  }

  /**
   * Since only font size and font family are ever recorded, palette
   * generation always redraws the background colour, the weight and the
   * letter spacing: the background comes from the background palette, the
   * weight from some font's weight list, the spacing from [-0.05, 0.10].
   */
  lemma PaletteAlwaysRedraws(modified: set<string>, d: PaletteDraws, n: nat)
    requires modified <= {FONT_SIZE_PROPERTY, FONT_FAMILY_PROPERTY}
    requires ValidPaletteDraws(d, n)
    ensures BACKGROUND_COLOR_PROPERTY !in modified && FONT_WEIGHT_PROPERTY !in modified
    ensures LETTER_SPACING_PROPERTY !in modified
    ensures RandomBackgroundColor(d.background) in INITIAL_BACKGROUND_COLORS
    ensures exists i :: 0 <= i < |FONTS| && RandomFontWeight(d.weightFont, d.weight) in FONTS[i].weights
    ensures -0.05 <= RandomLetterSpacing(d.spacing) <= 0.1
  {
    assert BACKGROUND_COLOR_PROPERTY != FONT_SIZE_PROPERTY && BACKGROUND_COLOR_PROPERTY != FONT_FAMILY_PROPERTY;
    assert FONT_WEIGHT_PROPERTY != FONT_SIZE_PROPERTY && FONT_WEIGHT_PROPERTY != FONT_FAMILY_PROPERTY;
    assert LETTER_SPACING_PROPERTY != FONT_SIZE_PROPERTY && LETTER_SPACING_PROPERTY != FONT_FAMILY_PROPERTY;
    RandomBackgroundColorInPalette(d.background);
    var k := Pick(d.weightFont, |FONTS|);
    assert RandomFontWeight(d.weightFont, d.weight) in FONTS[k].weights;
  }
}
