/** CSS filter chains, as the canvas `filter` property and the `filter` style read them. */
module Css {

  import opened Strings

  /** One filter function of a chain. */
  datatype FilterTerm = Blur(px: real) | Brightness(percent: real) | Contrast(percent: real) | Saturate(percent: real)

  /**
   * The text of one filter function; `fmt` is how a number is written
   * into a template string.
   */
  function Render(t: FilterTerm, fmt: real -> string): (s: string)
    ensures |s| > 0
  {
    match t
    case Blur(px) => "blur(" + fmt(px) + "px)"
    case Brightness(p) => "brightness(" + fmt(p) + "%)"
    case Contrast(p) => "contrast(" + fmt(p) + "%)"
    case Saturate(p) => "saturate(" + fmt(p) + "%)"
  }

  function RenderAll(terms: seq<FilterTerm>, fmt: real -> string): (r: seq<string>)
    ensures |r| == |terms|
    ensures forall i :: 0 <= i < |terms| ==> r[i] == Render(terms[i], fmt)
  {
    if terms == [] then [] else [Render(terms[0], fmt)] + RenderAll(terms[1..], fmt)
  }

  /** The chain written out: its functions separated by single spaces. */
  function Chain(terms: seq<FilterTerm>, fmt: real -> string): string
  {
    Join(RenderAll(terms, fmt), " ")
  }
}
