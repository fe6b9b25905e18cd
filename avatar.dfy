/**
 * The avatar: an image when there is a source that has not failed to load,
 * otherwise a fallback text, with the accessible label and alternative text
 * that go with each.
 */
module AvatarView {
  import opened Wrappers
  import opened JsStrings

  const InitialsLabel: string := "Avatar with initials "

  /** Upper-casing of one character, for the ASCII letters. */
  function UpperAscii(c: char): (u: char)
    ensures 'a' <= c <= 'z' ==> 'A' <= u <= 'Z' && u as int == c as int - 32
    ensures !('a' <= c <= 'z') ==> u == c
  {
    if 'a' <= c <= 'z' then (c as int - 32) as char else c
  }

  /** `alt?.charAt(0).toUpperCase()`: nothing for a missing or empty `alt`. */
  function Initial(alt: Option<string>): (r: string)
    ensures |r| <= 1 && (r == "" <==> PropText(alt) == "")
  {
    if PropText(alt) == "" then "" else [UpperAscii(alt.value[0])]
  }

  /** The fallback is shown when there is no source or the image failed. */
  function ShowFallback(src: Option<string>, imageError: bool): (r: bool)
    ensures src.None? || src.value == "" || imageError ==> r
    ensures !r ==> src.Some? && |src.value| > 0 && !imageError
  {
    PropText(src) == "" || imageError
  }

  /** The fallback text: the `fallback` prop, else the upper-cased first
      character of `alt`, else "?"; never empty. */
  function FallbackText(fallback: Option<string>, alt: Option<string>): (r: string)
    ensures r != ""
    ensures PropText(fallback) != "" ==> r == fallback.value
    ensures PropText(fallback) == "" && PropText(alt) != "" ==> r == [UpperAscii(alt.value[0])]
    ensures PropText(fallback) == "" && PropText(alt) == "" ==> r == "?"
  {
    Or(PropText(fallback), Or(Initial(alt), "?"))
  }

  /** The container's `aria-label`: present only while the fallback is
      shown, and then `alt` if it is non-empty, else the initials phrase. */
  function AriaLabel(src: Option<string>, alt: Option<string>, fallback: Option<string>,
                     imageError: bool): (r: Option<string>)
    ensures r.Some? <==> ShowFallback(src, imageError)
    ensures r.Some? ==> r.value != ""
    ensures r.Some? && PropText(alt) != "" ==> r.value == alt.value
    ensures r.Some? && PropText(alt) == "" ==>
      r.value == InitialsLabel + FallbackText(fallback, alt)
  {
    if ShowFallback(src, imageError) then
      Some(Or(PropText(alt), InitialsLabel + FallbackText(fallback, alt)))
    else None
  }

  /** The image's `alt`: the prop unless it is missing or empty, else "Avatar". */
  function ImageAlt(alt: Option<string>): (r: string)
    ensures r != ""
    ensures PropText(alt) != "" ==> r == alt.value
  {
    Or(PropText(alt), "Avatar")
  }

  class Avatar {
    var src: Option<string>
    var alt: Option<string>
    var fallback: Option<string>
    var imageError: bool

    constructor (src: Option<string>, alt: Option<string>, fallback: Option<string>)
      ensures this.src == src && this.alt == alt && this.fallback == fallback
      ensures !imageError
    {
      this.src := src;
      this.alt := alt;
      this.fallback := fallback;
      imageError := false;
    }

    /** The image's error event. The image exists only while the fallback is
        not shown; once it fails, the fallback is shown. */
    method ImageFailed()
      modifies this`imageError
      ensures imageError == (old(imageError) || PropText(src) != "")
      ensures ShowFallback(src, imageError)
    {
      if !ShowFallback(src, imageError) {
        imageError := true;
      }
    }

    /** New props. The error flag is never cleared, so a failed avatar keeps
        its fallback whatever source it is given next. */
    method SetProps(src: Option<string>, alt: Option<string>, fallback: Option<string>)
      modifies this`src, this`alt, this`fallback
      ensures this.src == src && this.alt == alt && this.fallback == fallback
      ensures imageError == old(imageError)
      ensures old(imageError) ==> ShowFallback(this.src, imageError)
    {
      this.src := src;
      this.alt := alt;
      this.fallback := fallback;
    }
  }
}
