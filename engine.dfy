/**
  The vocabulary shared by every image process: the three image
  representations the CoreImage pipeline passes through, the two errors a
  process throws, the outcome of running a process, and the rendering back
  end, which the model never looks inside.
 */
module Engine {

  /** A `UIImage`: the value a process receives and returns. */
  type Image(!new)

  /** A `CIImage`: the filter engine's working representation. */
  type EngineImage(!new)

  /** A `CGImage`: the bitmap that `CIContext.createCGImage` renders. */
  type Bitmap(!new)

  /** A Swift `Float` filter parameter (an intensity or a contrast level),
      kept opaque: no pixel arithmetic is modelled. */
  type Float(!new)

  datatype Option<+T> = None | Some(value: T)

  /** `ProcessError`: the only errors the processes of this engine throw. */
  datatype ProcessError = InputImageFailed | OutputImageFailed

  /** What `process(image:)` does: return an image or throw. */
  datatype Outcome = Ok(value: Image) | Err(error: ProcessError)

  /** The built-in CoreImage filters the variants are built from
      (`CIFilter.sepiaTone()`, `CIFilter.photoEffectNoir()`, ...). */
  datatype FilterName =
    | SepiaTone
    | PhotoEffectNoir
    | PhotoEffectFade
    | PhotoEffectChrome
    | PhotoEffectInstant
    | PhotoEffectProcess
    | PhotoEffectTransfer
    | PhotoEffectMono
    | ColorMonochrome
    | VignetteFilter
    | ColorControls

  /** The parameter keys a variant sets on its filter besides the input
      image: `intensity` (kCIInputIntensityKey) and kCIInputContrastKey. */
  datatype ParamKey = IntensityKey | ContrastKey

  type Params = map<ParamKey, Float>

  /**
    The rendering back end, an external collaborator given to every
    process as a parameter:
    - `toEngine` is `CIImage(image:)`, which may give nil;
    - `filter` is a CoreImage filter whose input image (possibly nil) and
      parameters are set, read through `outputImage`, which may be nil;
    - `render` is `context.createCGImage(output, from: output.extent)`,
      which may give nil;
    - `toImage` is `UIImage(cgImage:)`, which always succeeds.
   */
  datatype Backend = Backend(
    toEngine: Image -> Option<EngineImage>,
    filter: (FilterName, Params, Option<EngineImage>) -> Option<EngineImage>,
    render: EngineImage -> Option<Bitmap>,
    toImage: Bitmap -> Image)
}
