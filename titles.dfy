/**
  The `title` every process carries in the copy of the engine that has
  titles: each variant is titled after its struct, every
  `AnyImageProcess` (and so every result of `empty`, `compose`, `concat`
  and `append`) is titled "Any", and a `Processor` is titled "Processor".
 */
module Titles {
  import Variants
  import opened Processes
  import Processors

  const AnyTitle: string := "Any"

  /** `Processor.title`, fixed whatever the stack holds. */
  function ProcessorTitle(s: Processors.Processor): string {
    "Processor"
  }

  function VariantTitle(v: Variants.Variant): string {
    match v
    case Sepia(_) => "Sepia"
    case Noir => "Noir"
    case Fade => "Fade"
    case Chrome => "Chrome"
    case Instant => "Instant"
    case Blue => "Blue"
    case Transfer => "Transfer"
    case Mono => "Mono"
    case Monochrome(_) => "Monochrome"
    case Vignette(_) => "Vignette"
    case Contrast(_, _) => "Contrast"
  }

  function Title(p: ImageProcess): string {
    match p
    case Any(_) => AnyTitle
    case Variant(v) => VariantTitle(v)
  }

  /** The combinators all return an `AnyImageProcess`, so a composite
      process never carries the title of the processes inside it. */
  lemma CombinatorTitles(a: ImageProcess, b: ImageProcess, ps: seq<ImageProcess>)
    ensures Title(Empty()) == AnyTitle
    ensures Title(Compose(a, b)) == AnyTitle
    ensures Title(Append(a, b)) == AnyTitle
    ensures Title(Concat(ps)) == AnyTitle
  {
  }

  /** Titles tell variants apart exactly as the filters they run do, and
      no variant shares its title with a composite process or with a
      `Processor`. */
  lemma VariantTitlesDistinct(v: Variants.Variant, w: Variants.Variant, s: Processors.Processor)
    ensures Title(Variant(v)) == Title(Variant(w)) <==> Variants.FilterOf(v) == Variants.FilterOf(w)
    ensures Title(Variant(v)) != AnyTitle && Title(Variant(v)) != ProcessorTitle(s)
  {
  }
}
