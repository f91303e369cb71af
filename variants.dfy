/**
  The eleven concrete processes (`Sepia`, `Noir`, ..., `Contrast`). In the
  source each is a struct with its own copy of the same guard sequence;
  here they are one datatype of variants and one `Run` function, with two
  tables saying which CoreImage filter each variant runs and which
  parameters it binds.
 */
module Variants {
  import opened Engine

  datatype Variant =
    | Sepia(intensity: Float)
    | Noir
    | Fade
    | Chrome
    | Instant
    | Blue
    | Transfer
    | Mono
    | Monochrome(intensity: Float)
    | Vignette(intensity: Float)
    | Contrast(level: Float, intensity: Float)

  /** The filter each struct instantiates; note that `Blue` runs the
      "process" photo effect. */
  function FilterOf(v: Variant): FilterName {
    match v
    case Sepia(_) => SepiaTone
    case Noir => PhotoEffectNoir
    case Fade => PhotoEffectFade
    case Chrome => PhotoEffectChrome
    case Instant => PhotoEffectInstant
    case Blue => PhotoEffectProcess
    case Transfer => PhotoEffectTransfer
    case Mono => PhotoEffectMono
    case Monochrome(_) => ColorMonochrome
    case Vignette(_) => VignetteFilter
    case Contrast(_, _) => ColorControls
  }

  /** The parameters a variant sets on its filter before reading the
      output. Only `Sepia`, `Monochrome` and `Vignette` bind an intensity,
      and `Contrast` binds its `level` alone: its `intensity` field is
      never passed to the filter. */
  function ParamsOf(v: Variant): (r: Params)
    ensures IntensityKey in r <==> v.Sepia? || v.Monochrome? || v.Vignette?
    ensures IntensityKey in r ==> r[IntensityKey] == v.intensity
    ensures ContrastKey in r <==> v.Contrast?
    ensures ContrastKey in r ==> r[ContrastKey] == v.level
  {
    match v
    case Sepia(i) => map[IntensityKey := i]
    case Monochrome(i) => map[IntensityKey := i]
    case Vignette(i) => map[IntensityKey := i]
    case Contrast(level, _) => map[ContrastKey := level]
    case _ => map[]
  }

  /** `filter.outputImage` once the input image (`CIImage(image:)`, which
      may be nil) and the parameters are set. */
  function FilterOutput(eng: Backend, v: Variant, image: Image): Option<EngineImage> {
    eng.filter(FilterOf(v), ParamsOf(v), eng.toEngine(image))
  }

  /** `process(image:)` of every variant: no filter output throws
      `InputImageFailed`, no rendered bitmap throws `OutputImageFailed`,
      and otherwise the rendered bitmap is returned as an image. */
  function Run(eng: Backend, v: Variant, image: Image): (r: Outcome)
    ensures r == Err(InputImageFailed) <==> FilterOutput(eng, v, image) == None
    ensures r == Err(OutputImageFailed) <==>
              FilterOutput(eng, v, image).Some? && eng.render(FilterOutput(eng, v, image).value) == None
    ensures r.Ok? <==>
              FilterOutput(eng, v, image).Some? && eng.render(FilterOutput(eng, v, image).value).Some?
    ensures r.Ok? ==> r.value == eng.toImage(eng.render(FilterOutput(eng, v, image).value).value)
  {
    match FilterOutput(eng, v, image)
    case None => Err(InputImageFailed)
    case Some(output) =>
      match eng.render(output)
      case None => Err(OutputImageFailed)
      case Some(bitmap) => Ok(eng.toImage(bitmap))
  }

  /** A back end whose filters produce nothing without an input image. */
  ghost predicate NeedsInput(eng: Backend) {
    forall f, ps :: eng.filter(f, ps, None) == None
  }

  /** An image the engine cannot convert surfaces as `InputImageFailed`
      (through the missing filter output, not through a check of its own),
      provided the filters need an input. */
  lemma UnconvertibleInputFails(eng: Backend, v: Variant, image: Image)
    requires NeedsInput(eng)
    requires eng.toEngine(image) == None
    ensures Run(eng, v, image) == Err(InputImageFailed)
  {
  }

  /** A variant's outcome depends on nothing but the filter it names and
      the parameters it binds. */
  lemma OutcomeFollowsFilterCall(eng: Backend, v: Variant, w: Variant, image: Image)
    requires FilterOf(v) == FilterOf(w) && ParamsOf(v) == ParamsOf(w)
    ensures Run(eng, v, image) == Run(eng, w, image)
  {
  }

  /** Two `Contrast` processes with the same level behave alike, whatever
      their intensities. */
  lemma ContrastIgnoresIntensity(eng: Backend, level: Float, i1: Float, i2: Float, image: Image)
    ensures Run(eng, Contrast(level, i1), image) == Run(eng, Contrast(level, i2), image)
  {
    OutcomeFollowsFilterCall(eng, Contrast(level, i1), Contrast(level, i2), image);
  }
}
