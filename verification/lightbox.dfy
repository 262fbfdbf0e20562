/** The image viewer of the listing pages (`openGallery`, `closeGallery`,
    `nextImage`, `prevImage` and the auto-slide step), the same in the
    management page and the public gallery. */
module Lightbox {
  import opened Values

  /** The viewer state: open or not, the images of the listing shown
      (`None` when no listing is selected) and the index shown. */
  datatype Viewer = Viewer(open: bool, images: Option<seq<string>>, index: int)

  /** The index always designates an image of the selected listing, which
      has at least one. */
  predicate Wf(v: Viewer) {
    && (v.open ==> v.images.Some?)
    && (v.images.Some? ==> |v.images.value| > 0 && 0 <= v.index < |v.images.value|)
  }

  const Closed := Viewer(false, None, 0)

  /** `openGallery(listing, index)`: nothing happens for a listing without
      images; otherwise the viewer opens on that listing at `index`. */
  function Open(v: Viewer, images: seq<string>, index: int): (r: Viewer)
    ensures images == [] ==> r == v
    ensures images != [] ==> r.open && r.images == Some(images) && r.index == index
    ensures Wf(v) && (images != [] ==> 0 <= index < |images|) ==> Wf(r)
  {
    if images == [] then v else Viewer(true, Some(images), index)
  }

  /** `closeGallery()`. */
  function Close(v: Viewer): (r: Viewer)
    ensures !r.open && r.images.None? && r.index == 0 && Wf(r)
  {
    Closed
  }

  /** `nextImage()`: one forward, from the last back to the first. The
      JavaScript `%` agrees with Dafny's on the non-negative operands used
      here. */
  function Next(v: Viewer): (r: Viewer)
    requires Wf(v)
    ensures Wf(r)
    ensures r.open == v.open && r.images == v.images
    ensures v.images.Some? ==> r.index == (if v.index == |v.images.value| - 1 then 0 else v.index + 1)
    ensures v.images.None? ==> r == v
  {
    match v.images
    case None => v
    case Some(imgs) => v.(index := (v.index + 1) % |imgs|)
  }

  /** `prevImage()`: one back, from the first to the last. */
  function Prev(v: Viewer): (r: Viewer)
    requires Wf(v)
    ensures Wf(r)
    ensures r.open == v.open && r.images == v.images
    ensures v.images.Some? ==> r.index == (if v.index == 0 then |v.images.value| - 1 else v.index - 1)
    ensures v.images.None? ==> r == v
  {
    match v.images
    case None => v
    case Some(imgs) => v.(index := (v.index - 1 + |imgs|) % |imgs|)
  }

  /** `nextImage` and `prevImage` undo each other. */
  lemma NextPrevInverse(v: Viewer)
    requires Wf(v)
    ensures Prev(Next(v)) == v && Next(Prev(v)) == v
  {
  }

  /** The auto-slide timer of the public gallery runs only while the viewer
      is open on a listing with more than one image; each tick is one
      forward step. */
  predicate AutoSlides(v: Viewer) {
    v.open && v.images.Some? && |v.images.value| > 1
  }

  function Tick(v: Viewer): (r: Viewer)
    requires Wf(v)
    ensures Wf(r)
    ensures !AutoSlides(v) ==> r == v
    ensures AutoSlides(v) ==> r == Next(v)
  {
    if AutoSlides(v) then Next(v) else v
  }
}
