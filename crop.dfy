/** The "object-cover" source crop that both components compute before drawing the photo. */
module Crop {

  /** A rectangle given by its top-left corner and its extent. */
  datatype Rect = Rect(x: real, y: real, width: real, height: real)

  /** True when `r` lies inside an image of the given natural size. */
  predicate Inside(r: Rect, imgW: real, imgH: real)
  {
    0.0 <= r.x && 0.0 <= r.y && r.x + r.width <= imgW && r.y + r.height <= imgH
  }

  /**
   * The part of an `imgW` x `imgH` photo that is drawn into a `frameW` x `frameH`
   * frame: the whole of one axis, and on the other axis the centred slice that
   * gives the frame's aspect ratio. A photo wider than the frame keeps its full
   * height; any other photo keeps its full width.
   */
  function CoverCrop(imgW: real, imgH: real, frameW: real, frameH: real): (r: Rect)
    requires imgW > 0.0 && imgH > 0.0 && frameW > 0.0 && frameH > 0.0
    ensures Inside(r, imgW, imgH) && r.width > 0.0 && r.height > 0.0
    ensures r.width * frameH == r.height * frameW
    ensures r.x == (imgW - r.width) / 2.0 && r.y == (imgH - r.height) / 2.0
    ensures imgW / imgH > frameW / frameH ==> r.height == imgH && r.y == 0.0
    ensures imgW / imgH <= frameW / frameH ==> r.width == imgW && r.x == 0.0
  {
    var imgRatio := imgW / imgH;
    var containerRatio := frameW / frameH;
    RatioOrder(imgW, imgH, frameW, frameH);
    if imgRatio > containerRatio then
      var sWidth := imgH * containerRatio;
      CutWidth(imgW, imgH, frameW, frameH, sWidth);
      Rect((imgW - sWidth) / 2.0, 0.0, sWidth, imgH)
    else
      var sHeight := imgW / containerRatio;
      CutHeight(imgW, imgH, frameW, frameH, sHeight);
      Rect(0.0, (imgH - sHeight) / 2.0, imgW, sHeight)
  }

  /** Multiplying by a positive number keeps the order, strict and non-strict. */
  lemma ScaleOrder(a: real, b: real, c: real)
    requires c > 0.0
    ensures a < b <==> a * c < b * c
    ensures a <= b <==> a * c <= b * c
  {
    assert b * c - a * c == (b - a) * c;
  }

  /** Comparing the two aspect ratios is comparing the cross products. */
  lemma RatioOrder(imgW: real, imgH: real, frameW: real, frameH: real)
    requires imgW > 0.0 && imgH > 0.0 && frameW > 0.0 && frameH > 0.0
    ensures imgW / imgH > frameW / frameH <==> imgW * frameH > imgH * frameW
  {
    var r, c := imgW / imgH, frameW / frameH;
    var n := imgH * frameH;
    assert r * n == imgW * frameH by { assert r * imgH == imgW; }
    assert c * n == imgH * frameW by { assert c * frameH == frameW; }
    ScaleOrder(c, r, n);
  }

  /** The cut width of a photo wider than the frame: positive, inside the photo, of the frame's ratio. */
  lemma CutWidth(imgW: real, imgH: real, frameW: real, frameH: real, sWidth: real)
    requires imgW > 0.0 && imgH > 0.0 && frameW > 0.0 && frameH > 0.0
    requires imgW * frameH > imgH * frameW && sWidth == imgH * (frameW / frameH)
    ensures 0.0 < sWidth < imgW && sWidth * frameH == imgH * frameW
  {
    var c := frameW / frameH;
    assert c * frameH == frameW;
    assert sWidth * frameH == imgH * (c * frameH);
    ScaleOrder(sWidth, imgW, frameH);
    assert c > 0.0;
  }

  /** The cut height of a photo no wider than the frame: positive, inside the photo, of the frame's ratio. */
  lemma CutHeight(imgW: real, imgH: real, frameW: real, frameH: real, sHeight: real)
    requires imgW > 0.0 && imgH > 0.0 && frameW > 0.0 && frameH > 0.0
    requires imgW * frameH <= imgH * frameW && sHeight == imgW / (frameW / frameH)
    ensures 0.0 < sHeight <= imgH && sHeight * frameW == imgW * frameH
  {
    var c := frameW / frameH;
    assert c * frameH == frameW;
    assert c > 0.0;
    assert sHeight * c == imgW;
    assert sHeight * frameW == (sHeight * c) * frameH;
    ScaleOrder(sHeight, imgH, frameW);
    ScaleOrder(0.0, sHeight, c);
  }

  /** No rectangle of the frame's aspect ratio that fits inside the photo is larger than the cover crop. */
  lemma CoverCropIsLargest(imgW: real, imgH: real, frameW: real, frameH: real, w: real, h: real)
    requires imgW > 0.0 && imgH > 0.0 && frameW > 0.0 && frameH > 0.0
    requires 0.0 < w <= imgW && 0.0 < h <= imgH && w * frameH == h * frameW
    ensures w <= CoverCrop(imgW, imgH, frameW, frameH).width
    ensures h <= CoverCrop(imgW, imgH, frameW, frameH).height
  {
    var r := CoverCrop(imgW, imgH, frameW, frameH);
    if imgW / imgH > frameW / frameH {
      assert r.height == imgH;
      ScaleOrder(h, imgH, frameW);
      ScaleOrder(w, r.width, frameH);
    } else {
      assert r.width == imgW;
      ScaleOrder(w, imgW, frameH);
      ScaleOrder(h, r.height, frameW);
    }
  }

  /** A photo that already has the frame's aspect ratio is used whole. */
  lemma CoverCropOfMatchingPhoto(imgW: real, imgH: real, frameW: real, frameH: real)
    requires imgW > 0.0 && imgH > 0.0 && frameW > 0.0 && frameH > 0.0
    requires imgW * frameH == imgH * frameW
    ensures CoverCrop(imgW, imgH, frameW, frameH) == Rect(0.0, 0.0, imgW, imgH)
  {
    assert imgW / imgH == frameW / frameH;
    var r := CoverCrop(imgW, imgH, frameW, frameH);
    assert r.width == imgW;
    assert r.height * frameW == imgH * frameW;
  }

  /** A 2000 x 1000 photo in a 1080 x 1350 frame: the middle 800 x 1000, starting at x = 600. */
  lemma CoverCropLandscapeIntoFeed()
    ensures CoverCrop(2000.0, 1000.0, 1080.0, 1350.0) == Rect(600.0, 0.0, 800.0, 1000.0)
  {
    var r := CoverCrop(2000.0, 1000.0, 1080.0, 1350.0);
    assert 2000.0 / 1000.0 > 1080.0 / 1350.0;
    assert r.height == 1000.0;
    assert r.width * 1350.0 == 1000.0 * 1080.0;
  }
}
