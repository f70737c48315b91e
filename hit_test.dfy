/**
 * The hit test of `handleGlobalClick` in VITE/src/CubicGallery.tsx: of the
 * elements under the pointer, front to back as the browser lists them, the
 * first one carrying the gallery tile class is the one clicked.
 */
module HitTest {
  import opened Wrappers

  const GalleryItemClass: string := "cubic-gallery-item"

  /** An element under the pointer: its class list and its inline background image. */
  datatype Element = Element(classList: seq<string>, backgroundImage: string)

  predicate IsGalleryItem(e: Element)
  {
    GalleryItemClass in e.classList
  }

  /** The image reference inside a CSS `url(<image>)` background, if it has that form. */
  function BackgroundUrl(css: string): Option<string>
  {
    if |css| >= 5 && css[..4] == "url(" && css[|css| - 1] == ')'
    then Some(css[4..|css| - 1])
    else None
  }

  /** The element rendered for an input image; its background names that image again. */
  function TileElement(image: string): (e: Element)
    ensures IsGalleryItem(e)
    ensures BackgroundUrl(e.backgroundImage) == Some(image)
  {
    var css := "url(" + image + ")";
    assert css[..4] == "url(" && css[4..|css| - 1] == image;
    Element([GalleryItemClass], css)
  }

  /** Index of the first gallery tile in `elements` (`elements.find`), if any. */
  function FirstGalleryItem(elements: seq<Element>): (r: Option<nat>)
    ensures r.None? <==> forall i :: 0 <= i < |elements| ==> !IsGalleryItem(elements[i])
    ensures r.Some? ==> r.value < |elements| && IsGalleryItem(elements[r.value])
    ensures r.Some? ==> forall i :: 0 <= i < r.value ==> !IsGalleryItem(elements[i])
  {
    if elements == [] then None
    else if IsGalleryItem(elements[0]) then Some(0)
    else match FirstGalleryItem(elements[1..])
      case None => None
      case Some(i) => Some(i + 1)
  }

  /** Elements in front of the first tile that are not tiles do not change the choice. */
  lemma {:induction false} SkipsNonTiles(front: seq<Element>, rest: seq<Element>)
    requires forall i :: 0 <= i < |front| ==> !IsGalleryItem(front[i])
    ensures FirstGalleryItem(front + rest) ==
      match FirstGalleryItem(rest)
      case None => None
      case Some(i) => Some(|front| + i)
  {
    var all := front + rest;
    match FirstGalleryItem(rest)
    case None =>
      forall i | 0 <= i < |all| ensures !IsGalleryItem(all[i]) {
        if i >= |front| { assert all[i] == rest[i - |front|]; }
      }
    case Some(j) =>
      assert all[|front| + j] == rest[j];
      forall i | 0 <= i < |front| + j ensures !IsGalleryItem(all[i]) {
        if i >= |front| { assert all[i] == rest[i - |front|]; }
      }
  }
}
