/**
 * The camera parameters record (`CameraSettings`) and its video quality tag,
 * a classification of the frame width into four bands.
 */
module Camera {
  import opened Wrappers

  /** Kotlin's `data class CameraSettings`; `serverIp` is absent until a stream is set up. */
  datatype CameraSettings = CameraSettings(
    width: int,
    height: int,
    fps: int,
    cameraName: string,
    serverIp: Option<string>)

  /** `getVideoQualityTag`: the first band, from the top, whose lower width bound is met. */
  function VideoQualityTag(c: CameraSettings): (tag: string)
    ensures tag == "4K UHD" <==> c.width >= 3840
    ensures tag == "Full HD" <==> 1920 <= c.width < 3840
    ensures tag == "HD" <==> 1280 <= c.width < 1920
    ensures tag == "SD" <==> c.width < 1280
  {
    if c.width >= 3840 then "4K UHD"
    else if c.width >= 1920 then "Full HD"
    else if c.width >= 1280 then "HD"
    else "SD"
  }

  /** Position of a tag in the order SD < HD < Full HD < 4K UHD. */
  function QualityRank(tag: string): nat
  {
    if tag == "4K UHD" then 3
    else if tag == "Full HD" then 2
    else if tag == "HD" then 1
    else 0
  }

  /** The tag reads the width and nothing else of the settings. */
  lemma QualityTagDependsOnlyOnWidth(a: CameraSettings, b: CameraSettings)
    requires a.width == b.width
    ensures VideoQualityTag(a) == VideoQualityTag(b)
  {
  }

  /** A wider frame never gets a lower quality tag. */
  lemma QualityTagMonotone(a: CameraSettings, b: CameraSettings)
    requires a.width <= b.width
    ensures QualityRank(VideoQualityTag(a)) <= QualityRank(VideoQualityTag(b))
  {
  }
}
