/**
 * The video iframe component: it reads the iframe's width and height and
 * picks a landscape or portrait container class. The HTML parsing itself is
 * not modelled: its outcome is an input.
 */
module VideoIframe {

  import opened Wrappers
  import opened PhpValues

  /**
   * What `extractIframeDimensions` found: None when the markup has no iframe
   * element; otherwise each attribute, None when it is missing or falsy
   * (`getAttribute(...) ?: null`).
   */
  datatype Dimensions = Dimensions(width: Option<int>, height: Option<int>)

  datatype IframeError =
    | BlankIframe       // InvalidArgumentException: blank markup
    | NoIframe          // InvalidArgumentException: no dimensions found
    | MissingDimension  // TypeError: null passed to isHorizontalIframe(int, int)

  datatype VideoIframe = VideoIframe(iframe: string, isLandscape: bool)

  /** `isHorizontalIframe`: landscape exactly when strictly wider than high. */
  function IsHorizontalIframe(width: int, height: int): (b: bool)
    ensures b <==> width > height
    ensures width == height ==> !b
  {
    width > height
  }

  /** The constructor, given the outcome of extracting the dimensions. */
  function NewVideoIframe(iframe: string, dims: Option<Dimensions>): (r: Result<VideoIframe, IframeError>)
    ensures IsBlank(iframe) ==> r == Failure(BlankIframe)
    ensures !IsBlank(iframe) && dims.None? ==> r == Failure(NoIframe)
    ensures r.Success? ==> dims.Some? && dims.value.width.Some? && dims.value.height.Some?
    ensures r.Success? ==>
      (&& r.value.iframe == iframe
       && (r.value.isLandscape <==> dims.value.width.value > dims.value.height.value))
    ensures !IsBlank(iframe) && dims.Some? && (dims.value.width.None? || dims.value.height.None?) ==>
      r == Failure(MissingDimension)
    ensures !IsBlank(iframe) && dims.Some? && dims.value.width.Some? && dims.value.height.Some? ==> r.Success?
  {
    if IsBlank(iframe) then Failure(BlankIframe)
    else match dims
      case None => Failure(NoIframe)
      case Some(d) =>
        if d.width.None? || d.height.None? then Failure(MissingDimension)
        else Success(VideoIframe(iframe, IsHorizontalIframe(d.width.value, d.height.value)))
  }

  /** `getContentClasses`. */
  function GetContentClasses(v: VideoIframe): (c: string)
    ensures v.isLandscape ==> c == "video-content"
    ensures !v.isLandscape ==> c == "short-content"
  {
    if v.isLandscape then "video-content" else "short-content"
  }

  /** A square frame gets the portrait container. */
  lemma SquareIsShort(iframe: string, side: int)
    requires !IsBlank(iframe)
    ensures NewVideoIframe(iframe, Some(Dimensions(Some(side), Some(side)))).Success?
    ensures GetContentClasses(NewVideoIframe(iframe, Some(Dimensions(Some(side), Some(side)))).value) == "short-content"
  {
  }
}
