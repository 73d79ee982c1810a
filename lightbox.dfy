/**
  The image lightbox of the page: the list of images being browsed, the index of
  the one shown, a zoom level and a pan offset moved by dragging with the mouse.
  The page keeps these in component state and changes them from its handlers;
  here they are the fields of a `Viewer` object.

  The page's zoom factor only ever moves in steps of 0.25 from 1, so it is kept
  exactly as a whole number of quarters: 2 is 0.5, 4 is 1, 12 is 3. Mouse
  coordinates and the pan offset are whole pixels.
 */
module Lightbox {

  const MinZoom: int := 2     // 0.5
  const NormalZoom: int := 4  // 1
  const MaxZoom: int := 12    // 3

  datatype Point = Point(x: int, y: int)

  /** `Math.min(zoom + 0.25, 3)`. */
  function ZoomedIn(zoom: int): (r: int)
    ensures r <= MaxZoom
    ensures zoom < MaxZoom ==> r == zoom + 1
    ensures MinZoom <= zoom <= MaxZoom ==> MinZoom <= r <= MaxZoom && (r == zoom <==> zoom == MaxZoom)
  {
    if zoom + 1 < MaxZoom then zoom + 1 else MaxZoom
  }

  /** `Math.max(zoom - 0.25, 0.5)`. */
  function ZoomedOut(zoom: int): (r: int)
    ensures r >= MinZoom
    ensures zoom > MinZoom ==> r == zoom - 1
    ensures MinZoom <= zoom <= MaxZoom ==> MinZoom <= r <= MaxZoom && (r == zoom <==> zoom == MinZoom)
  {
    if zoom - 1 > MinZoom then zoom - 1 else MinZoom
  }

  /** Below the top of the range, zooming out undoes zooming in. */
  lemma ZoomOutUndoesZoomIn(zoom: int)
    requires MinZoom <= zoom < MaxZoom
    ensures ZoomedOut(ZoomedIn(zoom)) == zoom
  {
  }

  /** Above the bottom of the range, zooming in undoes zooming out. */
  lemma ZoomInUndoesZoomOut(zoom: int)
    requires MinZoom < zoom <= MaxZoom
    ensures ZoomedIn(ZoomedOut(zoom)) == zoom
  {
  }

  /** `n` zoom-in clicks in a row. */
  function ZoomedInTimes(zoom: int, n: nat): int {
    if n == 0 then zoom else ZoomedIn(ZoomedInTimes(zoom, n - 1))
  }

  /** `n` zoom-in clicks from a zoom in range climb one quarter each and stop at the top. */
  lemma {:induction false} ZoomedInTimesSaturates(zoom: int, n: nat)
    requires MinZoom <= zoom <= MaxZoom
    ensures ZoomedInTimes(zoom, n) == if zoom + n < MaxZoom then zoom + n else MaxZoom
  {
    if n > 0 {
      ZoomedInTimesSaturates(zoom, n - 1);
    }
  }

  /** `prev > 0 ? prev - 1 : prev`. */
  function PreviousIndex(index: int): (r: int)
    ensures index > 0 ==> r == index - 1
    ensures index <= 0 ==> r == index
  {
    if index > 0 then index - 1 else index
  }

  /** `prev < count - 1 ? prev + 1 : prev`. */
  function NextIndex(index: int, count: nat): (r: int)
    ensures index < count - 1 ==> r == index + 1
    ensures index >= count - 1 ==> r == index
  {
    if index < count - 1 then index + 1 else index
  }

  /**
    Stepping keeps an index that is in range in range, stops at either end
    instead of wrapping around, and a step back undoes a step forward.
   */
  lemma StepsStayInRange(index: int, count: nat)
    requires 0 <= index < count
    ensures 0 <= PreviousIndex(index) < count && 0 <= NextIndex(index, count) < count
    ensures PreviousIndex(index) == index <==> index == 0
    ensures NextIndex(index, count) == index <==> index == count - 1
    ensures index < count - 1 ==> PreviousIndex(NextIndex(index, count)) == index
    ensures index > 0 ==> NextIndex(PreviousIndex(index), count) == index
  {
  }

  /** Where a drag starts: the pointer's offset from the image's current position. */
  function DragAnchor(position: Point, pointer: Point): Point {
    Point(pointer.x - position.x, pointer.y - position.y)
  }

  /** Where the image goes while dragging: the pointer less the anchor. */
  function DraggedTo(anchor: Point, pointer: Point): Point {
    Point(pointer.x - anchor.x, pointer.y - anchor.y)
  }

  /** The image follows the pointer: it moves by exactly the pointer's displacement since the press. */
  lemma DragFollowsPointer(position: Point, down: Point, move: Point)
    ensures DraggedTo(DragAnchor(position, down), move)
         == Point(position.x + (move.x - down.x), position.y + (move.y - down.y))
  {
  }

  class Viewer {
    var selectedImages: seq<string>
    var currentImageIndex: int
    var zoomLevel: int
    var imagePosition: Point
    var isDragging: bool
    var dragStart: Point

    /** The zoom stays between 0.5 and 3. */
    ghost predicate Valid()
      reads this
    {
      MinZoom <= zoomLevel <= MaxZoom
    }

    ghost predicate IndexInRange()
      reads this
    {
      0 <= currentImageIndex < |selectedImages|
    }

    constructor ()
      ensures Valid()
      ensures selectedImages == [] && currentImageIndex == 0
      ensures zoomLevel == NormalZoom && imagePosition == Point(0, 0)
      ensures !isDragging && dragStart == Point(0, 0)
    {
      selectedImages, currentImageIndex := [], 0;
      zoomLevel, imagePosition := NormalZoom, Point(0, 0);
      isDragging, dragStart := false, Point(0, 0);
    }

    /** `openImageModal`: shows `images` from `index`, as given; zoom and pan are kept from before. */
    method OpenImageModal(images: seq<string>, index: int)
      modifies this`selectedImages, this`currentImageIndex
      ensures selectedImages == images && currentImageIndex == index
    {
      selectedImages, currentImageIndex := images, index;
    }

    /** `prevImage`: one image back, except at the first. */
    method PrevImage()
      modifies this`currentImageIndex
      ensures currentImageIndex == PreviousIndex(old(currentImageIndex))
      ensures old(IndexInRange()) ==> IndexInRange()
    {
      if currentImageIndex > 0 {
        currentImageIndex := currentImageIndex - 1;
      }
    }

    /** `nextImage`: one image forward, except at the last. */
    method NextImage()
      modifies this`currentImageIndex
      ensures currentImageIndex == NextIndex(old(currentImageIndex), |selectedImages|)
      ensures old(IndexInRange()) ==> IndexInRange()
    {
      if currentImageIndex < |selectedImages| - 1 {
        currentImageIndex := currentImageIndex + 1;
      }
    }

    /** `zoomIn`: a quarter more, up to 3. */
    method ZoomIn()
      modifies this`zoomLevel
      ensures zoomLevel == ZoomedIn(old(zoomLevel))
      ensures old(Valid()) ==> Valid()
    {
      zoomLevel := if zoomLevel + 1 < MaxZoom then zoomLevel + 1 else MaxZoom;
    }

    /** `zoomOut`: a quarter less, down to 0.5. */
    method ZoomOut()
      modifies this`zoomLevel
      ensures zoomLevel == ZoomedOut(old(zoomLevel))
      ensures old(Valid()) ==> Valid()
    {
      zoomLevel := if zoomLevel - 1 > MinZoom then zoomLevel - 1 else MinZoom;
    }

    /** `resetZoom`: zoom 1 and no pan, together. */
    method ResetZoom()
      modifies this`zoomLevel, this`imagePosition
      ensures Valid() && zoomLevel == NormalZoom && imagePosition == Point(0, 0)
    {
      zoomLevel, imagePosition := NormalZoom, Point(0, 0);
    }

    /** `handleMouseDown`: starts a drag anchored at the pointer, only while zoomed in past 1. */
    method HandleMouseDown(pointer: Point)
      modifies this`isDragging, this`dragStart
      ensures zoomLevel > NormalZoom ==> isDragging && dragStart == DragAnchor(imagePosition, pointer)
      ensures zoomLevel <= NormalZoom ==> isDragging == old(isDragging) && dragStart == old(dragStart)
    {
      if zoomLevel > NormalZoom {
        isDragging := true;
        dragStart := Point(pointer.x - imagePosition.x, pointer.y - imagePosition.y);
      }
    }

    /** `handleMouseMove`: moves the image with the pointer only during a drag while zoomed in past 1. */
    method HandleMouseMove(pointer: Point)
      modifies this`imagePosition
      ensures isDragging && zoomLevel > NormalZoom ==> imagePosition == DraggedTo(dragStart, pointer)
      ensures !(isDragging && zoomLevel > NormalZoom) ==> imagePosition == old(imagePosition)
    {
      if isDragging && zoomLevel > NormalZoom {
        imagePosition := Point(pointer.x - dragStart.x, pointer.y - dragStart.y);
      }
    }

    /** `handleMouseUp` (also bound to the pointer leaving the image area): ends any drag. */
    method HandleMouseUp()
      modifies this`isDragging
      ensures !isDragging
    {
      isDragging := false;
    }
  }

  /** At zoom 1 a drag is ignored; three zoom-in clicks from 1 read 1.75. */
  method ZoomSession(images: seq<string>) returns (v: Viewer)
    ensures fresh(v) && v.Valid() && v.zoomLevel == 7 && v.imagePosition == Point(0, 0) && !v.isDragging
  {
    v := new Viewer();
    v.OpenImageModal(images, 0);
    v.HandleMouseDown(Point(10, 10));
    v.HandleMouseMove(Point(40, 30));
    v.HandleMouseUp();
    assert v.imagePosition == Point(0, 0);
    v.ZoomIn();
    v.ZoomIn();
    v.ZoomIn();
  }

  /**
    Zoomed in, a drag moves the image by the pointer's displacement and stops
    with the button; browsing keeps zoom and pan; a reset restores zoom 1 and no pan.
   */
  method PanSession(v: Viewer)
    requires v.Valid() && v.zoomLevel > NormalZoom && |v.selectedImages| == 3 && v.currentImageIndex == 0
    modifies v
    ensures v.Valid() && v.currentImageIndex == 2 && !v.isDragging
  {
    var start := v.imagePosition;
    v.HandleMouseDown(Point(10, 10));
    v.HandleMouseMove(Point(40, 30));
    assert v.imagePosition == Point(start.x + 30, start.y + 20);
    v.HandleMouseUp();
    v.HandleMouseMove(Point(100, 100));
    assert v.imagePosition == Point(start.x + 30, start.y + 20);
    v.NextImage();
    v.NextImage();
    v.NextImage();
    assert v.currentImageIndex == 2 && v.imagePosition == Point(start.x + 30, start.y + 20);
    v.ResetZoom();
    assert v.zoomLevel == NormalZoom && v.imagePosition == Point(0, 0);
  }
}
