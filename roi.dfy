/** `RoiManager` (`src/image_view.cpp`, and its older form in
    `image_view.cpp`): a full image, an optional crop of it selected by a
    rectangle drawn in image coordinates, and the rectangle last applied. */
module Rois {
  import opened Wrappers
  import opened Raster
  import opened ImageUtils

  /** `QRectF`: a rectangle with real corner and size. */
  datatype RectF = RectF(x: real, y: real, width: real, height: real)

  /** `std::ceil` taken to an integer. */
  function Ceil(v: real): (n: int)
    ensures v <= n as real < v + 1.0
  {
    -((-v).Floor)
  }

  /** The rectangle lies inside the image and is not degenerate. */
  predicate InImage(r: Rect, m: Mat)
  {
    0 <= r.x && 0 <= r.y && 0 < r.width && 0 < r.height &&
    r.x + r.width <= m.cols && r.y + r.height <= m.rows
  }

  /** The crop of an image at a rectangle inside it. */
  function CropAt(m: Mat, r: Rect): (c: Mat)
    requires InImage(r, m)
    ensures c.rows == r.height && c.cols == r.width && c.channels == m.channels
    ensures forall i, j :: 0 <= i < r.height && 0 <= j < r.width ==> c.px[i][j] == m.px[r.y + i][r.x + j]
  {
    Crop(m, r.x, r.y, r.width, r.height)
  }

  /** The rectangle `applyRoi` crops for a drawn rectangle, or None when it
      refuses. The corner is rounded down and moved into the image; the size
      is rounded up and cut at the right and bottom edges (a corner moved in
      from a negative position keeps the full drawn size). It is refused
      exactly when the image is empty or nothing of the rectangle is left. */
  function RoiRect(full: Mat, roi: RectF): (r: Option<Rect>)
    ensures Empty(full) ==> r == None
    ensures r.Some? ==> InImage(r.value, full)
    ensures r.Some? ==> r.value.x == Max(0, roi.x.Floor) && r.value.y == Max(0, roi.y.Floor)
    ensures r.Some? ==>
      r.value.width <= Ceil(roi.width) && (r.value.width == Ceil(roi.width) || r.value.x + r.value.width == full.cols)
    ensures r.Some? ==>
      r.value.height <= Ceil(roi.height) && (r.value.height == Ceil(roi.height) || r.value.y + r.value.height == full.rows)
    ensures r.Some? <==>
      !Empty(full) && Max(0, roi.x.Floor) < full.cols && Max(0, roi.y.Floor) < full.rows &&
      Ceil(roi.width) > 0 && Ceil(roi.height) > 0
  {
    if Empty(full) then None
    else
      var x := Max(0, roi.x.Floor);
      var y := Max(0, roi.y.Floor);
      var w := Min(Ceil(roi.width), full.cols - x);
      var h := Min(Ceil(roi.height), full.rows - y);
      if w <= 0 || h <= 0 then None else Some(Rect(x, y, w, h))
  }

  /** `RoiManager` of `src/image_view.cpp`, which keeps the crop apart. */
  class RoiManager {
    var fullImage: Mat
    var roiImage: Mat
    var isRoiActive: bool
    var lastRoi: Rect

    /** An active ROI is the crop of the full image at the last rectangle,
        which lies inside it; an inactive one holds no image. */
    predicate Valid()
      reads this
    {
      (isRoiActive ==> InImage(lastRoi, fullImage) && roiImage == CropAt(fullImage, lastRoi)) &&
      (!isRoiActive ==> roiImage == EmptyMat)
    }

    /** No image, no ROI, a null last rectangle. */
    constructor ()
      ensures Valid()
      ensures fullImage == EmptyMat && roiImage == EmptyMat && !isRoiActive && lastRoi == NullRect
    {
      fullImage := EmptyMat;
      roiImage := EmptyMat;
      isRoiActive := false;
      lastRoi := NullRect;
    }

    /** `setFullImage`: the new image, with the ROI switched off and its
        image released. */
    method SetFullImage(img: Mat)
      modifies this
      ensures Valid()
      ensures fullImage == img && roiImage == EmptyMat && !isRoiActive && lastRoi == old(lastRoi)
    {
      fullImage := img;
      isRoiActive := false;
      roiImage := EmptyMat;
    }

    /** `getCurrentImage`: the crop at the last rectangle while the ROI is
        active, the full image otherwise. */
    function CurrentImage(): (m: Mat)
      requires Valid()
      reads this
      ensures isRoiActive ==> m == CropAt(fullImage, lastRoi)
      ensures !isRoiActive ==> m == fullImage
    {
      if isRoiActive then roiImage else fullImage
    }

    /** `applyRoi`. It succeeds exactly when `RoiRect` gives a rectangle; the
        ROI is then active, cropped at that rectangle, which is remembered.
        On refusal nothing changes. */
    method ApplyRoi(roi: RectF) returns (ok: bool)
      requires Valid()
      modifies this
      ensures Valid()
      ensures ok <==> RoiRect(old(fullImage), roi).Some?
      ensures fullImage == old(fullImage)
      ensures ok ==>
        isRoiActive && lastRoi == RoiRect(fullImage, roi).value && CurrentImage() == CropAt(fullImage, lastRoi)
      ensures !ok ==> roiImage == old(roiImage) && isRoiActive == old(isRoiActive) && lastRoi == old(lastRoi)
    {
      if Empty(fullImage) {
        return false;
      }
      var x := Max(0, roi.x.Floor);
      var y := Max(0, roi.y.Floor);
      var w := Min(Ceil(roi.width), fullImage.cols - x);
      var h := Min(Ceil(roi.height), fullImage.rows - y);
      if w <= 0 || h <= 0 {
        return false;
      }
      var r := Rect(x, y, w, h);
      roiImage := CropAt(fullImage, r);
      isRoiActive := true;
      lastRoi := r;
      return true;
    }

    /** `resetRoi`: an active ROI is switched off and its image released; an
        inactive one is left as it is. */
    method ResetRoi()
      requires Valid()
      modifies this
      ensures Valid()
      ensures !isRoiActive && roiImage == EmptyMat
      ensures fullImage == old(fullImage) && lastRoi == old(lastRoi)
      ensures !old(isRoiActive) ==> roiImage == old(roiImage)
      ensures CurrentImage() == fullImage
    {
      if isRoiActive {
        roiImage := EmptyMat;
        isRoiActive := false;
      }
    }

    /** `clear`: both images released and the ROI off; the last rectangle
        is kept. */
    method Clear()
      modifies this
      ensures Valid()
      ensures fullImage == EmptyMat && roiImage == EmptyMat && !isRoiActive && lastRoi == old(lastRoi)
    {
      fullImage := EmptyMat;
      roiImage := EmptyMat;
      isRoiActive := false;
    }
  }

  /** The older `RoiManager` of `image_view.cpp`, which keeps the image
      currently shown in a field of its own. */
  class OlderRoiManager {
    var fullImage: Mat
    var currentImage: Mat
    var isRoiActive: bool
    var lastRoi: Rect

    /** While the ROI is active the current image is the crop at the last
        rectangle, which lies inside the full image; otherwise it is the full
        image. */
    predicate Valid()
      reads this
    {
      (isRoiActive ==> InImage(lastRoi, fullImage) && currentImage == CropAt(fullImage, lastRoi)) &&
      (!isRoiActive ==> currentImage == fullImage)
    }

    /** No image, no ROI, a null last rectangle. */
    constructor ()
      ensures Valid()
      ensures fullImage == EmptyMat && currentImage == EmptyMat && !isRoiActive && lastRoi == NullRect
    {
      fullImage := EmptyMat;
      currentImage := EmptyMat;
      isRoiActive := false;
      lastRoi := NullRect;
    }

    /** `setFullImage`: the current image becomes the new full image and the
        ROI is off. */
    method SetFullImage(img: Mat)
      modifies this
      ensures Valid()
      ensures fullImage == img && currentImage == img && !isRoiActive && lastRoi == old(lastRoi)
    {
      fullImage := img;
      currentImage := fullImage;
      isRoiActive := false;
    }

    /** The same clamping and refusal rules as the newer `applyRoi`; on
        success the current image is the crop. */
    method ApplyRoi(roi: RectF) returns (ok: bool)
      requires Valid()
      modifies this
      ensures Valid()
      ensures ok <==> RoiRect(old(fullImage), roi).Some?
      ensures fullImage == old(fullImage)
      ensures ok ==>
        isRoiActive && lastRoi == RoiRect(fullImage, roi).value && currentImage == CropAt(fullImage, lastRoi)
      ensures !ok ==> currentImage == old(currentImage) && isRoiActive == old(isRoiActive) && lastRoi == old(lastRoi)
    {
      if Empty(fullImage) {
        return false;
      }
      var x := Max(0, roi.x.Floor);
      var y := Max(0, roi.y.Floor);
      var w := Min(Ceil(roi.width), fullImage.cols - x);
      var h := Min(Ceil(roi.height), fullImage.rows - y);
      if w <= 0 || h <= 0 {
        return false;
      }
      var r := Rect(x, y, w, h);
      currentImage := CropAt(fullImage, r);
      isRoiActive := true;
      lastRoi := r;
      return true;
    }

    /** The older `resetRoi`: whenever there is a full image, active ROI or
        not, the current image becomes the full image and the ROI is off;
        without a full image nothing changes. */
    method ResetRoi()
      requires Valid()
      modifies this
      ensures Valid()
      ensures fullImage == old(fullImage) && lastRoi == old(lastRoi)
      ensures !Empty(old(fullImage)) ==> currentImage == fullImage && !isRoiActive
      ensures Empty(old(fullImage)) ==> currentImage == old(currentImage) && isRoiActive == old(isRoiActive)
    {
      if !Empty(fullImage) {
        currentImage := fullImage;
        isRoiActive := false;
      }
    }

    /** The older `clear`: both images released and the ROI off. */
    method Clear()
      modifies this
      ensures Valid()
      ensures fullImage == EmptyMat && currentImage == EmptyMat && !isRoiActive && lastRoi == old(lastRoi)
    {
      fullImage := EmptyMat;
      currentImage := EmptyMat;
      isRoiActive := false;
    }
  }

  /** The two managers agree on what is current: the older manager's
      current image is what the newer one computes from the same state. */
  lemma OlderCurrentMatchesNewer(older: OlderRoiManager, newer: RoiManager)
    requires older.Valid() && newer.Valid()
    requires older.fullImage == newer.fullImage && older.isRoiActive == newer.isRoiActive
    requires older.isRoiActive ==> older.lastRoi == newer.lastRoi
    ensures older.currentImage == newer.CurrentImage()
  {
  }

  /** A rectangle that starts left of or above the image is moved to the
      edge without shrinking it: the crop is as wide as drawn, cut only at
      the right edge. */
  lemma RoiOverhangKeepsSize(full: Mat, roi: RectF)
    requires !Empty(full) && roi.x < 0.0 && roi.width > 0.0 && roi.y.Floor >= 0 && roi.y.Floor < full.rows
    requires roi.height > 0.0
    ensures RoiRect(full, roi).Some?
    ensures RoiRect(full, roi).value.x == 0 && RoiRect(full, roi).value.width == Min(Ceil(roi.width), full.cols)
  {
  }
}
