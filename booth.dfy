/**
 * The session controller (src/components/Photobooth.jsx): the mode machine
 * initial -> camera -> frozen (or initial -> edit by upload), the camera and
 * frame-ratio toggles, and the download that composites the photo under the
 * frame overlay.
 */
module Booth {
  import opened Common
  import opened Crop
  import opened Frames
  import opened Canvas

  datatype Mode = Initial | Camera | Frozen | Edit

  const USER := "user"
  const ENVIRONMENT := "environment"
  /** Background colour painted before the photo. */
  const BACKDROP := "white"
  /** Size and position of the photo box when a session starts. */
  const DEFAULT_PHOTO_SIZE := Size(250.0, 250.0)
  const DEFAULT_PHOTO_POSITION := Point(0.0, 0.0)

  /** The "Flip Kamera" updater. */
  function NextFacing(prev: string): string
  {
    if prev == USER then ENVIRONMENT else USER
  }

  /** The ratio button's updater. */
  function NextRatio(prev: string): string
  {
    if prev == POST_ID then STORY_ID else POST_ID
  }

  predicate ValidFacing(f: string)
  {
    f == USER || f == ENVIRONMENT
  }

  predicate ValidRatio(r: string)
  {
    r == POST_ID || r == STORY_ID
  }

  /** On the two legal values each toggle swaps them, so pressing it twice changes nothing. */
  lemma TogglesAreInvolutions(f: string, r: string)
    requires ValidFacing(f) && ValidRatio(r)
    ensures ValidFacing(NextFacing(f)) && NextFacing(f) != f && NextFacing(NextFacing(f)) == f
    ensures ValidRatio(NextRatio(r)) && NextRatio(r) != r && NextRatio(NextRatio(r)) == r
  {
  }

  /** Resolution of the capture canvas: 1080 x 1350 for "4-5", 1080 x 1920 for anything else. */
  function CaptureSize(ratio: string): Size
  {
    if ratio == POST_ID then Size(1080.0, 1350.0) else Size(1080.0, 1920.0)
  }

  /** For either legal ratio the still is captured at exactly the size the download produces. */
  lemma CaptureMatchesDownload(ratio: string)
    requires ValidRatio(ratio)
    ensures CaptureSize(ratio) == Size(FrameSpec(ratio).width, FrameSpec(ratio).height)
  {
  }

  /** The capture test ("4-5") and the download test ("9-16") disagree on any other ratio id. */
  lemma CaptureAndDownloadDisagreeOffRange(ratio: string)
    requires !ValidRatio(ratio)
    ensures CaptureSize(ratio).height != FrameSpec(ratio).height
  {
  }

  /** Every call the download makes on its canvas, in order. */
  function DownloadProgram(spec: Spec, crop: Rect): seq<Op>
  {
    [Draw(Fill(BACKDROP), FullFrame(spec))] + ([Draw(Photo(crop), FullFrame(spec))] + [Draw(Overlay(spec.overlay), FullFrame(spec))])
  }

  /** Backdrop, then the cropped photo, then the overlay, each untransformed over the whole frame. */
  ghost predicate DownloadMeaning(ops: seq<Op>, spec: Spec, crop: Rect)
  {
    var t := Run(ops, Blank());
    |t.draws| == 3
    && t.draws[0].paint == Fill(BACKDROP) && t.draws[1].paint == Photo(crop) && t.draws[2].paint == Overlay(spec.overlay)
    && t.draws[0].dest == t.draws[1].dest == t.draws[2].dest == FullFrame(spec)
    && (forall i :: 0 <= i < |t.draws| ==> t.draws[i].transform == Identity())
  }

  lemma DownloadDraws(spec: Spec, crop: Rect)
    ensures DownloadMeaning(DownloadProgram(spec, crop), spec, crop)
  {
    var fill, photo, overlay := Draw(Fill(BACKDROP), FullFrame(spec)), Draw(Photo(crop), FullFrame(spec)),
                                Draw(Overlay(spec.overlay), FullFrame(spec));
    RunSingle(fill, Blank());
    RunSingle(photo, Blank());
    RunSingle(overlay, Blank());
    RunAppend([photo], [overlay], Blank());
    RunAppend([fill], [photo] + [overlay], Blank());
    var t := Run(DownloadProgram(spec, crop), Blank());
    assert t.draws == [Drawn(Fill(BACKDROP), Identity(), FullFrame(spec)), Drawn(Photo(crop), Identity(), FullFrame(spec)),
                       Drawn(Overlay(spec.overlay), Identity(), FullFrame(spec))];
  }

  /** What a download hands to the browser: the frame, the canvas size and the calls. */
  datatype Download = Download(spec: Spec, canvas: Size, program: seq<Op>)

  /** Every state field of the controller. */
  datatype View = View(imageSrc: Option<string>, mode: Mode, photoSize: Size, photoPosition: Point,
                       facingMode: string, frameRatio: string)

  class Photobooth {
    var imageSrc: Option<string>
    var mode: Mode
    var photoSize: Size
    var photoPosition: Point
    var facingMode: string
    var frameRatio: string

    function Snapshot(): View
      reads this
    {
      View(imageSrc, mode, photoSize, photoPosition, facingMode, frameRatio)
    }

    /** Only the two toggles change the facing mode and the ratio, so both stay legal. */
    ghost predicate Valid()
      reads this
    {
      ValidFacing(facingMode) && ValidRatio(frameRatio)
    }

    constructor ()
      ensures Valid()
      ensures Snapshot() == View(None, Initial, DEFAULT_PHOTO_SIZE, DEFAULT_PHOTO_POSITION, USER, POST_ID)
    {
      imageSrc, mode := None, Initial;
      photoSize, photoPosition := DEFAULT_PHOTO_SIZE, DEFAULT_PHOTO_POSITION;
      facingMode, frameRatio := USER, POST_ID;
    }

    /** "Buka Kamera". */
    method OpenCamera()
      requires Valid()
      modifies this
      ensures Valid()
      ensures Snapshot() == old(Snapshot()).(mode := Camera)
    {
      mode := Camera;
    }

    /**
     * "Ambil Foto": without a mounted webcam nothing happens. Otherwise the
     * video frame is drawn onto a canvas of the size the ratio selects,
     * encoded as `shot`, stored, and the session freezes.
     */
    method Capture(webcamMounted: bool, shot: string) returns (canvas: Option<Size>)
      requires Valid()
      modifies this
      ensures Valid()
      ensures !webcamMounted ==> canvas == None && Snapshot() == old(Snapshot())
      ensures webcamMounted ==>
                canvas == Some(Size(FrameSpec(frameRatio).width, FrameSpec(frameRatio).height))
                && Snapshot() == old(Snapshot()).(imageSrc := Some(shot), mode := Frozen)
    {
      if !webcamMounted {
        return None;
      }
      CaptureMatchesDownload(frameRatio);
      canvas := Some(CaptureSize(frameRatio));
      imageSrc, mode := Some(shot), Frozen;
    }

    /**
     * "Unggah Foto": `chosen` says whether a file was picked, and `result` is
     * what the reader holds when it finishes: the data URL, or nothing when
     * the read failed or was aborted. Either way the mode becomes edit.
     */
    method HandleFileUpload(chosen: bool, result: Option<string>)
      requires Valid()
      modifies this
      ensures Valid()
      ensures chosen ==> Snapshot() == old(Snapshot()).(imageSrc := result, mode := Edit)
      ensures !chosen ==> Snapshot() == old(Snapshot())
    {
      if chosen {
        imageSrc, mode := result, Edit;
      }
    }

    method OnResize(size: Size)
      requires Valid()
      modifies this
      ensures Valid()
      ensures Snapshot() == old(Snapshot()).(photoSize := size)
    {
      photoSize := size;
    }

    method OnDragStop(x: real, y: real)
      requires Valid()
      modifies this
      ensures Valid()
      ensures Snapshot() == old(Snapshot()).(photoPosition := Point(x, y))
    {
      photoPosition := Point(x, y);
    }

    /** "Batal" / "Ulangi": back to the start, keeping the camera and ratio choices. */
    method Reset()
      requires Valid()
      modifies this
      ensures Valid()
      ensures Snapshot() == old(Snapshot()).(imageSrc := None, mode := Initial,
                                             photoSize := DEFAULT_PHOTO_SIZE, photoPosition := DEFAULT_PHOTO_POSITION)
    {
      imageSrc, mode := None, Initial;
      photoSize, photoPosition := DEFAULT_PHOTO_SIZE, DEFAULT_PHOTO_POSITION;
    }

    /** "Flip Kamera": front and back camera swap. */
    method FlipCamera()
      requires Valid()
      modifies this
      ensures Valid()
      ensures facingMode != old(facingMode)
      ensures Snapshot() == old(Snapshot()).(facingMode := NextFacing(old(facingMode)))
    {
      facingMode := NextFacing(facingMode);
    }

    /** The "Vertikal" / "Horizontal" button: feed and story swap. */
    method ToggleFrameRatio()
      requires Valid()
      modifies this
      ensures Valid()
      ensures frameRatio != old(frameRatio)
      ensures Snapshot() == old(Snapshot()).(frameRatio := NextRatio(old(frameRatio)))
    {
      frameRatio := NextRatio(frameRatio);
    }

    /**
     * "Download": nothing without an image source. Otherwise a canvas of the
     * frame's size receives backdrop, cover-cropped photo and overlay, all
     * untransformed. `photoW` x `photoH` is the decoded photo's size.
     */
    method DownloadPhoto(photoW: real, photoH: real) returns (out: Option<Download>)
      requires photoW > 0.0 && photoH > 0.0
      ensures out.Some? <==> Present(imageSrc)
      ensures out.Some? ==>
                var spec := FrameSpec(frameRatio);
                out.value.spec == spec
                && out.value.canvas == Size(spec.width, spec.height)
                && DownloadMeaning(out.value.program, spec, CoverCrop(photoW, photoH, spec.width, spec.height))
    {
      if !Present(imageSrc) {
        return None;
      }
      var spec := FrameSpec(frameRatio);
      var crop := CoverCrop(photoW, photoH, spec.width, spec.height);
      var program := DownloadProgram(spec, crop);
      assert DownloadMeaning(program, spec, crop) by {
        DownloadDraws(spec, crop);
      }
      out := Some(Download(spec, Size(spec.width, spec.height), program));
    }
  }

  /** A whole session: the toggles pressed twice restore the choices, and reset keeps them. */
  method Session(b: Photobooth, shot: string, w: real, h: real)
    requires b.Valid() && w > 0.0 && h > 0.0
    modifies b
  {
    var facing, ratio := b.facingMode, b.frameRatio;
    b.OpenCamera();
    b.FlipCamera();
    b.FlipCamera();
    b.ToggleFrameRatio();
    b.ToggleFrameRatio();
    assert b.facingMode == facing && b.frameRatio == ratio && b.mode == Camera;
    var canvas := b.Capture(true, shot);
    assert b.mode == Frozen && b.imageSrc == Some(shot);
    var d := b.DownloadPhoto(w, h);
    assert shot != "" ==> d.Some?;
    b.Reset();
    assert b.mode == Initial && b.imageSrc == None && b.facingMode == facing && b.frameRatio == ratio;
    d := b.DownloadPhoto(w, h);
    assert d == None;
  }
}
