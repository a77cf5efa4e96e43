/**
 * The avatar component (`components/avatar/avatar.js`): which image it shows
 * for its `src` property, the fallback on a load error, and the tap event.
 */
module Avatar {
  import opened Wrappers
  import opened Text

  const DEFAULT_AVATAR: string := "/images/mock_avatar.png"

  /** A colour value such as '#FF6B6B', possibly padded with white space. */
  predicate IsColour(src: string) {
    StartsWith(Trim(src), "#")
  }

  /** `updateDisplaySrc`: empty or a colour shows the default, anything else is shown as given. */
  function DisplaySrc(src: string): (r: string)
    ensures src == "" || IsColour(src) ==> r == DEFAULT_AVATAR
    ensures src != "" && !IsColour(src) ==> r == src
  {
    if src == "" || IsColour(src) then DEFAULT_AVATAR else src
  }

  /** What is shown is never empty and never a colour. */
  lemma DisplaySrcIsImage(src: string)
    ensures DisplaySrc(src) != "" && !IsColour(DisplaySrc(src))
  {
    DefaultIsImage();
  }

  lemma DefaultIsImage()
    ensures DEFAULT_AVATAR != "" && !IsColour(DEFAULT_AVATAR)
  {
    var d := DEFAULT_AVATAR;
    assert d[0] == '/' && d[|d| - 1] == 'g';
    TrimUnpadded(d);
    assert Trim(d)[0] == '/';
  }

  /** Feeding the shown value back as `src` shows the same thing. */
  lemma DisplaySrcIdempotent(src: string)
    ensures DisplaySrc(DisplaySrc(src)) == DisplaySrc(src)
  {
    DisplaySrcIsImage(src);
  }

  class AvatarComponent {
    var src: string
    var clickable: bool
    var displaySrc: string

    /** `attached`: the shown image follows the initial `src`. */
    constructor (src: string, clickable: bool)
      ensures this.src == src && this.clickable == clickable && displaySrc == DisplaySrc(src)
    {
      this.src := src;
      this.clickable := clickable;
      displaySrc := DisplaySrc(src);
    }

    /** The `src` observer: a new property value updates the shown image. */
    method SetSrc(newSrc: string)
      modifies this
      ensures src == newSrc && displaySrc == DisplaySrc(newSrc) && clickable == old(clickable)
    {
      src := newSrc;
      UpdateDisplaySrc(newSrc);
    }

    method UpdateDisplaySrc(s: string)
      modifies this
      ensures displaySrc == DisplaySrc(s) && src == old(src) && clickable == old(clickable)
    {
      if s == "" || StartsWith(Trim(s), "#") {
        displaySrc := DEFAULT_AVATAR;
      } else {
        displaySrc := s;
      }
    }

    /** `onImageError`: fall back to the default image. */
    method OnImageError()
      modifies this
      ensures displaySrc == DEFAULT_AVATAR && src == old(src) && clickable == old(clickable)
    {
      displaySrc := DEFAULT_AVATAR;
    }

    /** `onAvatarTap`: the `avatarTap` event and its `src`, fired only when clickable. */
    method OnAvatarTap() returns (event: Option<string>)
      ensures clickable ==> event == Some(displaySrc)
      ensures !clickable ==> event.None?
    {
      event := if clickable then Some(displaySrc) else None;
    }
  }
}
