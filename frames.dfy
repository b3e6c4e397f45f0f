/** The two frame variants: a 4:5 feed post and a 9:16 story. */
module Frames {
  import opened Crop

  /** Output size, overlay graphic and download name of a frame variant. */
  datatype Spec = Spec(width: real, height: real, overlay: string, filename: string)

  const POST_ID := "4-5"
  const STORY_ID := "9-16"

  /** The variant `id` selects: "9-16" is the story, every other id the feed post. */
  function FrameSpec(id: string): (r: Spec)
    ensures r.width == 1080.0
    ensures id == STORY_ID ==> r.height == 1920.0 && r.overlay == "/frame-story.png" && r.filename == "photobooth-story.png"
    ensures id != STORY_ID ==> r.height == 1350.0 && r.overlay == "/frame.png" && r.filename == "photobooth-post.png"
  {
    if id == STORY_ID then Spec(1080.0, 1920.0, "/frame-story.png", "photobooth-story.png")
    else Spec(1080.0, 1350.0, "/frame.png", "photobooth-post.png")
  }

  /** The whole output in logical (frame) coordinates. */
  function FullFrame(spec: Spec): Rect
  {
    Rect(0.0, 0.0, spec.width, spec.height)
  }

  /** The output of each variant has the aspect ratio its id names, which is also the preview box's ratio. */
  lemma FrameAspect(id: string)
    ensures id == STORY_ID ==> FrameSpec(id).width * 16.0 == FrameSpec(id).height * 9.0
    ensures id != STORY_ID ==> FrameSpec(id).width * 5.0 == FrameSpec(id).height * 4.0
    ensures FrameSpec(id).width > 0.0 && FrameSpec(id).height > 0.0
  {
  }
}
