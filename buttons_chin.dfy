/**
 * The button bar under the preview: the aspect-ratio button that cycles
 * desktop, mobile, square; Generate Gradient; the image-upload input with
 * its re-entrancy guard; and the undo / remove-photo button.
 */
module ButtonsChin {

  import opened Wrappers
  import opened Constants
  import WallpaperStore
  import DesktopApp

  /** The aspect ratios in the button's cycle order. */
  const ASPECT_OPTIONS: seq<Aspect> := [Desktop, Mobile, Square]

  /** `options.findIndex((opt) => opt.value === a)`: the first index of `a`, or -1. */
  function AspectIndexIn(options: seq<Aspect>, a: Aspect): (i: int)
    ensures -1 <= i < |options|
    ensures i == -1 <==> a !in options
    ensures i >= 0 ==> options[i] == a && a !in options[..i]
  {
    if options == [] then -1
    else if options[0] == a then 0
    else
      var j := AspectIndexIn(options[1..], a);
      assert j >= 0 ==> options[..j + 1] == [options[0]] + options[1..][..j];
      if j == -1 then -1 else j + 1
  }

  /** The ratio the button switches to: the next option, wrapping around after the last. */
  function NextAspect(a: Aspect): Aspect
  {
    ASPECT_OPTIONS[(AspectIndexIn(ASPECT_OPTIONS, a) + 1) % |ASPECT_OPTIONS|]
  }

  /**
   * The cycle is desktop, mobile, square, desktop: a press always changes
   * the ratio, two presses never come back, and three presses do.
   */
  lemma AspectCycle(a: Aspect)
    ensures NextAspect(Desktop) == Mobile && NextAspect(Mobile) == Square && NextAspect(Square) == Desktop
    ensures NextAspect(a) != a && NextAspect(NextAspect(a)) != a
    ensures NextAspect(NextAspect(NextAspect(a))) == a
  {
    assert AspectIndexIn(ASPECT_OPTIONS, Desktop) == 0;
    assert AspectIndexIn(ASPECT_OPTIONS, Mobile) == 1 by {
      assert ASPECT_OPTIONS[1] == Mobile && Mobile !in ASPECT_OPTIONS[..1];
    }
    assert AspectIndexIn(ASPECT_OPTIONS, Square) == 2 by {
      assert ASPECT_OPTIONS[2] == Square && Square !in ASPECT_OPTIONS[..2];
    }
  }

  /** The store's circle list and its one-deep snapshot. */
  datatype History = History(circles: seq<Circle>, previous: seq<Circle>)

  /** Undo: restore the snapshot and drop it, when there is one. */
  function Undo(h: History): History
  {
    if |h.previous| > 0 then History(h.previous, []) else h
  }

  /**
   * Undo restores the snapshot and leaves none behind; with no snapshot,
   * or a second time in a row, it changes nothing.
   */
  lemma UndoOnce(h: History)
    ensures |h.previous| > 0 ==> Undo(h).circles == h.previous && Undo(h).previous == []
    ensures |h.previous| == 0 ==> Undo(h) == h
    ensures Undo(Undo(h)) == Undo(h)
  {
  }

  /** Undo right after Generate gives back the circles Generate replaced. */
  lemma UndoAfterGenerate(circles: seq<Circle>, draws: seq<(real, real)>)
    requires |circles| > 0 && |draws| == |circles|
    requires forall i :: 0 <= i < |draws| ==> WallpaperStore.IsPositionDraw(draws[i])
    ensures Undo(History(WallpaperStore.Repositioned(circles, draws), circles)).circles == circles
  {
  }

  /** The bar's own state, over the shared store. */
  class Chin {
    const store: WallpaperStore.Store
    var isUploading: bool

    constructor (store: WallpaperStore.Store)
      ensures this.store == store && !isUploading
    {
      this.store := store;
      isUploading := false;
    }

    /** The aspect-ratio button: switch the view to the next ratio of the cycle. */
    method OnAspectClick(view: DesktopApp.View)
      requires view.store == store
      modifies view`aspectRatio, view`isAspectRatioChanging, store`resolution
      ensures view.aspectRatio == NextAspect(old(view.aspectRatio))
      ensures store.resolution == DesktopApp.HDResolution(view.aspectRatio)
      ensures view.isAspectRatioChanging
    {
      AspectCycle(view.aspectRatio);
      view.SetAspectRatio(NextAspect(view.aspectRatio));
    }

    /**
     * Generate Gradient, a disabled button while a palette is being
     * generated: generate, drop the photo, and turn blur on (200) if it
     * was off.
     */
    method OnGenerate(d: WallpaperStore.PaletteDraws)
      requires WallpaperStore.ValidPaletteDraws(d, |store.circles|)
      modifies store`previousCircles, store`circles, store`backgroundColor, store`fontFamily,
               store`fontWeight, store`fontSize, store`letterSpacing, store`isGenerating,
               store`backgroundImage, store`blur
      ensures old(store.isGenerating) ==>
        && store.circles == old(store.circles) && store.previousCircles == old(store.previousCircles)
        && store.backgroundImage == old(store.backgroundImage) && store.blur == old(store.blur)
        && store.backgroundColor == old(store.backgroundColor) && store.fontFamily == old(store.fontFamily)
        && store.fontWeight == old(store.fontWeight) && store.fontSize == old(store.fontSize)
        && store.letterSpacing == old(store.letterSpacing)
        && store.isGenerating
      ensures !old(store.isGenerating) ==>
        && store.previousCircles == old(store.circles)
        && store.circles == WallpaperStore.Repositioned(old(store.circles), d.positions)
        && store.backgroundImage == None
        && store.blur == (if old(store.blur) == 0.0 then 200.0 else old(store.blur))
        && store.isGenerating
      ensures !old(store.isGenerating) ==>
        && store.backgroundColor == (if WallpaperStore.BACKGROUND_COLOR_PROPERTY in store.modifiedProperties
                                     then old(store.backgroundColor) else WallpaperStore.RandomBackgroundColor(d.background))
        && store.fontFamily == (if WallpaperStore.FONT_FAMILY_PROPERTY in store.modifiedProperties
                                then old(store.fontFamily) else WallpaperStore.RandomFontFamily(d.family))
        && store.fontWeight == (if WallpaperStore.FONT_WEIGHT_PROPERTY in store.modifiedProperties
                                then old(store.fontWeight) else WallpaperStore.RandomFontWeight(d.weightFont, d.weight))
        && store.fontSize == (if WallpaperStore.FONT_SIZE_PROPERTY in store.modifiedProperties
                              then old(store.fontSize) else WallpaperStore.RandomFontSize(d.size))
        && store.letterSpacing == (if WallpaperStore.LETTER_SPACING_PROPERTY in store.modifiedProperties
                                   then old(store.letterSpacing) else WallpaperStore.RandomLetterSpacing(d.spacing))
    {
      if store.isGenerating {
        return;
      }
      store.GenerateNewPalette(d);
      store.SetBackgroundImage(None);
      if store.blur == 0.0 {
        store.SetBlur(200.0);
      }
    }

    /** The undo / remove-photo button: drop the photo, then undo. */
    method OnUndo()
      modifies store`backgroundImage, store`circles, store`previousCircles
      ensures store.backgroundImage == None
      ensures History(store.circles, store.previousCircles)
              == Undo(History(old(store.circles), old(store.previousCircles)))
    {
      store.SetBackgroundImage(None);
      if |store.previousCircles| > 0 {
        store.SetCircles(store.previousCircles);
        store.SetPreviousCircles([]);
      }
    }

    /**
     * The file input's change handler: ignored while an upload is under
     * way; otherwise the upload handler is called with the flag raised,
     * and the flag is lowered again whatever the handler did. The result
     * says whether the handler was called.
     */
    method OnUploadChange() returns (handled: bool)
      modifies this`isUploading
      ensures handled == !old(isUploading)
      ensures handled ==> !isUploading
      ensures !handled ==> isUploading
    {
      if isUploading {
        return false;
      }
      isUploading := true;
      isUploading := false;
      return true;
    }
  }
}
