/** The panorama viewer: which viewer a round is shown in, and the legacy
    viewer's drag-to-scroll handlers. */
module PanoramaViewer {
  import opened Basics
  import opened GameTypes

  /** The provider-based imagery of a round. */
  datatype Shot = Shot(provider: Provider, imageId: Option<string>, imageUrl: Option<string>)

  /** What the viewer renders: the interactive Mapillary viewer on an image,
      a static picture, or the legacy draggable panorama container. */
  datatype Viewer = MapillaryView(imageId: string) | StaticImage(url: string) | LegacyView

  /** `isLegacy`: no provider shot, but a non-empty legacy image URL.
      Whenever it holds (so the drag handlers are attached), the legacy
      container they are attached to is what is rendered. */
  predicate IsLegacy(shot: Option<Shot>, imageUrl: Option<string>): (b: bool)
    ensures b ==> SelectViewer(shot, imageUrl) == LegacyView
  {
    shot.None? && Truthy(imageUrl)
  }

  /** The rendering conditional: Mapillary with an image id first, then
      KartaView with an image (the shot's own URL preferred over the legacy
      one), and the legacy container otherwise. */
  function SelectViewer(shot: Option<Shot>, imageUrl: Option<string>): (v: Viewer)
    ensures v.MapillaryView? <==> shot.Some? && shot.value.provider == Mapillary && Truthy(shot.value.imageId)
    ensures v.MapillaryView? ==> v.imageId == shot.value.imageId.value
    ensures v.StaticImage? <==>
      shot.Some? && shot.value.provider == Kartaview && (Truthy(shot.value.imageUrl) || Truthy(imageUrl))
    ensures v.StaticImage? ==>
      v.url == (if Truthy(shot.value.imageUrl) then shot.value.imageUrl.value else imageUrl.value)
  {
    if shot.Some? && shot.value.provider == Mapillary && Truthy(shot.value.imageId) then
      MapillaryView(shot.value.imageId.value)
    else if shot.Some? && shot.value.provider == Kartaview && Truthy(OrElse(shot.value.imageUrl, imageUrl)) then
      StaticImage(OrElse(shot.value.imageUrl, imageUrl).value)
    else
      LegacyView
  }

  /** The converse fails: a Mapillary shot without an image id falls through
      to the legacy container, but no drag handlers are attached to it. */
  lemma LegacyContainerWithoutHandlers()
    ensures var shot := Some(Shot(Mapillary, None, None));
      SelectViewer(shot, Some("pano.jpg")) == LegacyView && !IsLegacy(shot, Some("pano.jpg"))
  {
  }

  datatype Cursor = Grab | Grabbing

  /** The horizontal scroll a drag produces: twice the horizontal travel
      since the drag started, subtracted from the scroll at that moment. */
  function DragScroll(scrollAtStart: real, startX: real, x: real): (s: real)
    ensures x == startX ==> s == scrollAtStart
    ensures x > startX ==> s < scrollAtStart
    ensures x < startX ==> s > scrollAtStart
  {
    scrollAtStart - (x - startX) * 2.0
  }

  /** The legacy viewer's drag state: the closure variables `isDragging`,
      `startX` and `scrollLeft` (here `scrollAtStart`) together with the
      element's own `scrollLeft` and cursor. */
  class DragScroller {
    /** Whether the effect attached the listeners (`isLegacy` held). */
    const attached: bool
    /** The element's `offsetLeft`. */
    const offsetLeft: real
    var isDragging: bool
    var startX: real
    var scrollAtStart: real
    var scrollLeft: real
    var cursor: Cursor

    constructor (shot: Option<Shot>, imageUrl: Option<string>, offset: real, initialScroll: real)
      ensures attached == IsLegacy(shot, imageUrl) && offsetLeft == offset
      ensures !isDragging && startX == 0.0 && scrollAtStart == 0.0
      ensures scrollLeft == initialScroll && cursor == Grab
    {
      attached := IsLegacy(shot, imageUrl);
      offsetLeft := offset;
      isDragging, startX, scrollAtStart := false, 0.0, 0.0;
      scrollLeft := initialScroll;
      cursor := Grab;
    }

    /** `mousedown`: a drag starts at the touch or mouse position, remembering the scroll. */
    method MouseDown(pageX: real)
      modifies this
      ensures scrollLeft == old(scrollLeft)
      ensures attached ==>
        isDragging && startX == pageX - offsetLeft && scrollAtStart == old(scrollLeft) && cursor == Grabbing
      ensures !attached ==> unchanged(this)
    {
      if attached {
        isDragging := true;
        startX := pageX - offsetLeft;
        scrollAtStart := scrollLeft;
        cursor := Grabbing;
      }
    }

    /** `mouseup` and `mouseleave`: the drag ends. */
    method MouseUp()
      modifies this
      ensures startX == old(startX) && scrollAtStart == old(scrollAtStart) && scrollLeft == old(scrollLeft)
      ensures attached ==> !isDragging && cursor == Grab
      ensures !attached ==> unchanged(this)
    {
      if attached {
        isDragging := false;
        cursor := Grab;
      }
    }

    /** `mousemove`: while dragging, scroll by twice the horizontal travel. */
    method MouseMove(pageX: real)
      modifies this`scrollLeft
      ensures attached && isDragging ==> scrollLeft == DragScroll(scrollAtStart, startX, pageX - offsetLeft)
      ensures !(attached && isDragging) ==> scrollLeft == old(scrollLeft)
    {
      if attached && isDragging {
        scrollLeft := DragScroll(scrollAtStart, startX, pageX - offsetLeft);
      }
    }

    /** `touchstart` at the first touch point: like `mousedown`, without
        the cursor change. */
    method TouchStart(pageX: real)
      modifies this
      ensures scrollLeft == old(scrollLeft) && cursor == old(cursor)
      ensures attached ==> isDragging && startX == pageX - offsetLeft && scrollAtStart == old(scrollLeft)
      ensures !attached ==> unchanged(this)
    {
      if attached {
        isDragging := true;
        startX := pageX - offsetLeft;
        scrollAtStart := scrollLeft;
      }
    }

    /** `touchend`: the drag ends. */
    method TouchEnd()
      modifies this`isDragging
      ensures attached ==> !isDragging
      ensures !attached ==> isDragging == old(isDragging)
    {
      if attached {
        isDragging := false;
      }
    }

    /** `touchmove` at the first touch point: like `mousemove`. */
    method TouchMove(pageX: real)
      modifies this`scrollLeft
      ensures attached && isDragging ==> scrollLeft == DragScroll(scrollAtStart, startX, pageX - offsetLeft)
      ensures !(attached && isDragging) ==> scrollLeft == old(scrollLeft)
    {
      if attached && isDragging {
        scrollLeft := DragScroll(scrollAtStart, startX, pageX - offsetLeft);
      }
    }
  }

  /** A mouse drag on the legacy viewer that wanders to `x1` and comes back
      to where it started leaves the panorama where it was; a move after
      the button is released scrolls nothing. */
  method DragThereAndBack(imageUrl: string, offset: real, initialScroll: real, x0: real, x1: real, x2: real)
    returns (midway: real, back: real, afterRelease: real)
    requires imageUrl != ""
    ensures midway == initialScroll - (x1 - x0) * 2.0
    ensures back == initialScroll
    ensures afterRelease == initialScroll
  {
    var d := new DragScroller(None, Some(imageUrl), offset, initialScroll);
    d.MouseDown(x0);
    d.MouseMove(x1);
    midway := d.scrollLeft;
    d.MouseMove(x0);
    back := d.scrollLeft;
    d.MouseUp();
    d.MouseMove(x2);
    afterRelease := d.scrollLeft;
  }

  /** Without `isLegacy` nothing is attached: dragging never scrolls. */
  method DragWithoutHandlers(shot: Shot, imageUrl: Option<string>, initialScroll: real, x0: real, x1: real)
    returns (after: real)
    ensures after == initialScroll
  {
    var d := new DragScroller(Some(shot), imageUrl, 0.0, initialScroll);
    d.TouchStart(x0);
    d.TouchMove(x1);
    after := d.scrollLeft;
  }
}
