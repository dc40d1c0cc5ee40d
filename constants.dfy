/**
 * The editor's constant tables: the blob palette, the background palette,
 * the font catalogue, the export resolutions and the two blur preset lists,
 * together with the record types they are made of.
 */
module Constants {

  import opened Wrappers

  /** A blob of the gradient: its fill colour and its origin, in percent of the canvas. */
  datatype Circle = Circle(color: string, cx: real, cy: real)

  /** A font family offered by the editor; `variable` fonts accept any weight of the slider. */
  datatype FontOption = FontOption(name: string, variable: bool, weights: seq<int>)

  /** The three aspect ratios of the editor. */
  datatype Aspect = Desktop | Mobile | Square

  /** An export resolution. */
  datatype Resolution = Resolution(name: string, width: nat, height: nat, scale: string, ratio: Aspect)

  /** A preset of the blur selector. */
  datatype BlurOption = BlurOption(name: string, value: int)

  const INITIAL_COLORS: seq<string> := [
    "#001220", "#FF6600", "#002B50", "#FFB366", "#004080",
    "#FF8000", "#0066CC", "#000000", "#66A3FF"
  ]

  const INITIAL_BACKGROUND_COLORS: seq<string> := [
    "#0D1319", "#0D151A", "#0D161C", "#0D171D", "#0D191F",
    "#1A160D", "#1A130D", "#1A110D", "#0D0D0D"
  ]

  /** The weight lists the catalogue uses. */
  const WEIGHTS_100_900: seq<int> := [100, 200, 300, 400, 500, 600, 700, 800, 900]
  const WEIGHTS_200_800: seq<int> := [200, 300, 400, 500, 600, 700, 800]
  const WEIGHTS_300_700: seq<int> := [300, 400, 500, 600, 700]
  const WEIGHTS_400_700: seq<int> := [400, 500, 600, 700]
  const WEIGHTS_REGULAR: seq<int> := [400]
  const WEIGHTS_REGULAR_BOLD: seq<int> := [400, 700]

  const FONTS: seq<FontOption> := [
    FontOption("Bricolage Grotesque", true, WEIGHTS_200_800),
    FontOption("Geist", true, WEIGHTS_100_900),
    FontOption("Inter", true, WEIGHTS_100_900),
    FontOption("Manrope", true, WEIGHTS_200_800),
    FontOption("Montserrat", true, WEIGHTS_100_900),
    FontOption("Onest", true, WEIGHTS_100_900),
    FontOption("Poppins", false, WEIGHTS_100_900),
    FontOption("Space Grotesk", true, WEIGHTS_300_700),
    FontOption("DM Serif Display", false, WEIGHTS_REGULAR),
    FontOption("Instrument Serif", false, WEIGHTS_REGULAR),
    FontOption("Lora", true, WEIGHTS_400_700),
    FontOption("Ms Madi", false, WEIGHTS_REGULAR),
    FontOption("Space Mono", false, WEIGHTS_REGULAR_BOLD)
  ]

  /**
   * The export resolutions. The constants file keeps this table only as a
   * comment while every component still reads it; the model takes the
   * commented table as the reference data.
   */
  const RESOLUTIONS: seq<Resolution> := [
    Resolution("HD", 1920, 1080, "1", Desktop),
    Resolution("2K", 2560, 1440, "2", Desktop),
    Resolution("4K", 3840, 2160, "3", Desktop),
    Resolution("HD", 1080, 1920, "1", Mobile),
    Resolution("2K", 1440, 2560, "2", Mobile),
    Resolution("4K", 2160, 3840, "3", Mobile),
    Resolution("HD", 1080, 1080, "1", Square),
    Resolution("2K", 1440, 1440, "2", Square),
    Resolution("4K", 2160, 2160, "3", Square)
  ]

  const BLUR_OPTIONS: seq<BlurOption> := [
    BlurOption("None", 0), BlurOption("Low", 600), BlurOption("Medium", 900), BlurOption("High", 1200)
  ]

  const SAFARI_BLUR_OPTIONS: seq<BlurOption> := [
    BlurOption("None", 0), BlurOption("Low", 400), BlurOption("Medium", 600), BlurOption("High", 800)
  ]

  /** The store's default font family and background colour. */
  const DEFAULT_FONT_FAMILY: string := "Onest"
  const DEFAULT_BACKGROUND_COLOR: string := "#0D1319"

  /** `fonts.findIndex((f) => f.name === name)`: the index of the first entry with that name. */
  function FindFontIndex(fonts: seq<FontOption>, name: string): (r: Option<nat>)
    ensures r.None? <==> forall i :: 0 <= i < |fonts| ==> fonts[i].name != name
    ensures r.Some? ==> r.value < |fonts| && fonts[r.value].name == name
                        && forall j :: 0 <= j < r.value ==> fonts[j].name != name
  {
    if fonts == [] then None
    else if fonts[0].name == name then Some(0)
    else
      match FindFontIndex(fonts[1..], name)
      case None => None
      case Some(k) => Some(k + 1)
  }

  /** `fonts.find((f) => f.name === name)`: the first entry with that name, if any. */
  function FindFont(fonts: seq<FontOption>, name: string): (r: Option<FontOption>)
    ensures r.None? <==> forall i :: 0 <= i < |fonts| ==> fonts[i].name != name
    ensures r.Some? ==> r.value in fonts && r.value.name == name
    ensures r.Some? ==> exists k :: 0 <= k < |fonts| && fonts[k] == r.value
                                    && forall j :: 0 <= j < k ==> fonts[j].name != name
  {
    match FindFontIndex(fonts, name)
    case None => None
    case Some(k) => Some(fonts[k])
  }

  /** A weight list is non-empty, strictly ascending, and made of multiples of 100 within 100..900. */
  predicate WellFormedWeights(ws: seq<int>)
  {
    && |ws| > 0
    && (forall i, j :: 0 <= i < j < |ws| ==> ws[i] < ws[j])
    && (forall i :: 0 <= i < |ws| ==> 100 <= ws[i] <= 900 && ws[i] % 100 == 0)
  }

  /** `#` followed by six hexadecimal digits. */
  predicate IsHexColor(s: string)
  {
    |s| == 7 && s[0] == '#'
    && forall i :: 1 <= i < 7 ==> ('0' <= s[i] <= '9' || 'A' <= s[i] <= 'F' || 'a' <= s[i] <= 'f')
  }

  /** Blur presets start with ("None", 0) and their values strictly increase. */
  predicate WellFormedBlurOptions(opts: seq<BlurOption>)
  {
    && |opts| > 0 && opts[0] == BlurOption("None", 0)
    && forall i, j :: 0 <= i < j < |opts| ==> opts[i].value < opts[j].value
  }

  /** A check of a weight list that compares adjacent entries only. */
  predicate WeightsCheck(ws: seq<int>)
  {
    && |ws| > 0
    && (forall i :: 0 <= i < |ws| ==> 100 <= ws[i] <= 900 && ws[i] % 100 == 0)
    && (forall i :: 0 <= i < |ws| - 1 ==> ws[i] < ws[i + 1])
  }

  /** Adjacent entries ascending makes every later entry larger. */
  lemma {:induction false} AdjacentAscending(ws: seq<int>, i: nat, j: nat)
    requires forall k :: 0 <= k < |ws| - 1 ==> ws[k] < ws[k + 1]
    requires i < j < |ws|
    ensures ws[i] < ws[j]
    decreases j - i
  {
    if i + 1 < j {
      AdjacentAscending(ws, i + 1, j);
    }
  }

  lemma WeightsCheckSound(ws: seq<int>)
    requires WeightsCheck(ws)
    ensures WellFormedWeights(ws)
  {
    forall i, j | 0 <= i < j < |ws| ensures ws[i] < ws[j] {
      AdjacentAscending(ws, i, j);
    }
  }

  /** Every font of the catalogue has a well-formed weight list. */
  lemma FontsWellFormed()
    ensures forall i :: 0 <= i < |FONTS| ==> WellFormedWeights(FONTS[i].weights)
  {
    WeightListsChecked();
    forall i | 0 <= i < |FONTS| ensures WellFormedWeights(FONTS[i].weights) {
      var ws := FONTS[i].weights;
      assert ws == WEIGHTS_100_900 || ws == WEIGHTS_200_800 || ws == WEIGHTS_300_700
          || ws == WEIGHTS_400_700 || ws == WEIGHTS_REGULAR || ws == WEIGHTS_REGULAR_BOLD;
      WeightsCheckSound(ws);
    }
  }

  lemma WeightListsChecked()
    ensures WeightsCheck(WEIGHTS_100_900) && WeightsCheck(WEIGHTS_200_800) && WeightsCheck(WEIGHTS_300_700)
    ensures WeightsCheck(WEIGHTS_400_700) && WeightsCheck(WEIGHTS_REGULAR) && WeightsCheck(WEIGHTS_REGULAR_BOLD)
  {
    LongWeightListsChecked();
  }

  lemma LongWeightListsChecked()
    ensures WeightsCheck(WEIGHTS_100_900) && WeightsCheck(WEIGHTS_200_800)
  {
  }

  /** The default font is in the catalogue and is variable. */
  lemma DefaultFontIsVariable()
    ensures FindFont(FONTS, DEFAULT_FONT_FAMILY) == Some(FONTS[5])
    ensures FONTS[5].variable
  {
    var d := DEFAULT_FONT_FAMILY;
    assert |d| == 5 && d[0] == 'O';
    assert |FONTS[0].name| == 19 && |FONTS[3].name| == 7 && |FONTS[4].name| == 10;
    assert FONTS[1].name[0] == 'G' && FONTS[2].name[0] == 'I';
    assert forall j :: 0 <= j < 5 ==> FONTS[j].name != d;
    assert FONTS[5].name == d;
  }

  /** Both blur preset lists start with "None" and increase strictly. */
  lemma BlurOptionsWellFormed()
    ensures WellFormedBlurOptions(BLUR_OPTIONS) && WellFormedBlurOptions(SAFARI_BLUR_OPTIONS)
  {
  }

  /** The palettes: nine blob colours, nine backgrounds, all hex colours, the default background first. */
  lemma PalettesWellFormed()
    ensures |INITIAL_COLORS| == 9 && |INITIAL_BACKGROUND_COLORS| == 9
    ensures forall i :: 0 <= i < |INITIAL_COLORS| ==> IsHexColor(INITIAL_COLORS[i])
    ensures forall i :: 0 <= i < |INITIAL_BACKGROUND_COLORS| ==> IsHexColor(INITIAL_BACKGROUND_COLORS[i])
    ensures INITIAL_BACKGROUND_COLORS[0] == DEFAULT_BACKGROUND_COLOR
  {
  }

  /**
   * Every export resolution has positive dimensions, and each aspect ratio
   * has its three entries in a block that starts with its HD entry.
   */
  lemma ResolutionsWellFormed()
    ensures forall i :: 0 <= i < |RESOLUTIONS| ==> RESOLUTIONS[i].width > 0 && RESOLUTIONS[i].height > 0
    ensures forall i :: 0 <= i < |RESOLUTIONS| ==>
      RESOLUTIONS[i].ratio == (if i < 3 then Desktop else if i < 6 then Mobile else Square)
    ensures RESOLUTIONS[0].name == "HD" && RESOLUTIONS[3].name == "HD" && RESOLUTIONS[6].name == "HD"
  {
  }
}
