# Image-process composition engine of Negpho / PhonegX

This project models the engine that the photo editor uses to chain filters.
The engine exists in two nearly identical copies, `stackedFilters.swift` and
`Negpho/stackedFilters.swift`. Its parts are:

- the `ImageProcess` contract: a process maps an image to an image or throws
  one of the two `ProcessError`s, `InputImageFailed` or `OutputImageFailed`;
- `AnyImageProcess`, which wraps a closure, and the protocol-extension
  combinators `empty`, `compose`, `concat` (a `reduce` from `empty` with
  `compose`) and `append`;
- the `Processor` class: a stack of processes that is itself a process;
- the eleven concrete processes: Sepia, Noir, Fade, Chrome, Instant, Blue,
  Transfer, Mono, Monochrome, Vignette and Contrast.

The two copies share one model because they differ only in `title`. The root
copy gives every process a title; the Negpho copy has none. Titles are
modelled in their own module, `Titles`, which only the root copy needs.

Module layout:

- `Engine` (`engine.dfy`) holds the value types and the rendering back end.
  - `Image`, `EngineImage`, `Bitmap` and `Float` are opaque types. They stand
    for `UIImage`, `CIImage`, `CGImage` and Swift's `Float`.
  - `Outcome` is either `Ok(image)` or `Err(ProcessError)`. It is the model
    of a call that returns or throws.
  - `Backend` bundles four functions: conversion to the engine
    (`CIImage(image:)`), running a named filter with parameters, rendering
    (`createCGImage`), and wrapping a bitmap (`UIImage(cgImage:)`). Every
    process receives a `Backend` as a parameter. CoreImage itself is never
    interpreted.
- `Variants` (`variants.dfy`) models the eleven structs as one datatype.
  - `FilterOf` says which filter each variant runs.
  - `ParamsOf` says which parameters it binds.
  - `Run` does the shared guard sequence of every struct's `process(image:)`.
- `Processes` (`processes.dfy`) holds the `ImageProcess` contract.
  - `ImageProcess` is either `Any(closure)` for `AnyImageProcess` or
    `Variant(v)`. `Apply` dispatches `process(image:)` on it.
  - `Then` models `try` on a result that may already be an error.
  - `Empty`, `Compose`, `Concat` and `Append` build `Any` closures, as the
    Swift code does. `Concat` is the left fold.
  - `RunInOrder` is an independent reference that applies a sequence of
    processes front to back and stops at the first error. `Chain` describes
    the images a successful run passes through. The lemmas relate the fold
    to both.
- `Processors` (`processor.dfy`) holds the `Processor` class.
  - Its `processes: seq<ImageProcess>` field changes only through `Push`,
    `DropLastProcess` and `ReplaceLast`.
  - `Process` folds the stack and applies the fold.
  - Three client methods run scenarios against the class contracts: replace
    last, drop on an empty stack, and push followed by reprocessing the
    original image.
- `Titles` (`titles.dfy`) holds the titles of the root copy.

How the errors arise in the code:

- The code never checks `CIImage(image:)`. A nil conversion is passed to
  the filter as its input image, and `InputImageFailed` is thrown only when
  `filter.outputImage` is nil (stackedFilters.swift:80-86).
  `Variants.UnconvertibleInputFails` shows that a failed conversion still
  ends in `InputImageFailed`, provided the engine's filters give no output
  without an input.
- `OutputImageFailed` is thrown only when `createCGImage` gives nil
  (stackedFilters.swift:87-90). `UIImage(cgImage:)` cannot fail.

## Model

| member | source | states |
|---|---|---|
| `Processes.Empty` | stackedFilters.swift:36-38 | `empty()` returns every image unchanged and never throws, whatever the back end |
| `Processes.EmptyIsUnit` | Negpho/stackedFilters.swift:34-39 | `empty()` is a unit on both sides of `compose` |
| `Processes.ComposeIsSequential` | stackedFilters.swift:39-41 | `compose(first, second)` equals running `[first, second]` in order: `second` gets `first`'s image, and an error from `first` is the result |
| `Processes.ComposeSkipsSecondOnError` | Negpho/stackedFilters.swift:37-39 | when `first` throws, `compose(first, s)` gives that same error for every `s`, so `second` has no effect |
| `Processes.ComposeAssociative` | stackedFilters.swift:39-41 | `compose(compose(a, b), c)` and `compose(a, compose(b, c))` agree on every image, failures included |
| `Processes.ConcatSnoc` | stackedFilters.swift:42-44 | `concat([])` is `empty()`, and `concat(ps + [p])` is `compose(concat(ps), p)` |
| `Processes.ConcatRunsInOrder` | Negpho/stackedFilters.swift:40-42 | applying `concat(ps)` equals applying the elements of `ps` in order, stopping at the first error |
| `Processes.RunInOrderSnoc` | stackedFilters.swift:42-44 | running `ps + [p]` is `p` applied to the outcome of running `ps`; an earlier error stays the result |
| `Processes.RunInOrderJoin` | stackedFilters.swift:42-44 | running `xs + ys` is running `xs` and then `ys` on its image, with an error of `xs` as the result |
| `Processes.ConcatOfJoin` | Negpho/stackedFilters.swift:40-42 | `concat(xs + ys)` and `compose(concat(xs), concat(ys))` agree on every image |
| `Processes.ConcatStopsAtFirstError` | stackedFilters.swift:42-44 | when the steps before `failing` succeed and `failing` throws, `concat` of `done + [failing] + rest` throws `failing`'s error for every `rest` |
| `Processes.ChainRuns` | stackedFilters.swift:42-44 | a chain of successful steps through images `imgs` makes `concat(ps)` return the last of them |
| `Processes.RunsChain` | Negpho/stackedFilters.swift:40-42 | when `concat(ps)` succeeds, there is a chain of successful steps from the input image to the result |
| `Processes.AppendExtendsConcat` | stackedFilters.swift:47-51 | `concat(ps).append(other)` runs `ps + [other]` in order |
| `Processors.DropLast` | Negpho/stackedFilters.swift:57-59 | Swift's `dropLast()` gives the prefix of the stack that is one element shorter, or `[]` for `[]` |
| `Processors.Processor.constructor` | stackedFilters.swift:55 | a new processor has an empty stack |
| `Processors.Processor.Push` | stackedFilters.swift:57-59 | the stack becomes `old + [p]` |
| `Processors.Processor.DropLastProcess` | stackedFilters.swift:60-62 | a non-empty stack loses exactly its last element; an empty stack stays empty |
| `Processors.Processor.ReplaceLast` | stackedFilters.swift:63-66 | the stack becomes `dropLast(old) + [p]`, or `[p]` when it was empty; its length is kept when non-empty, it ends with `p`, and everything before is `dropLast(old)` |
| `Processors.Processor.Process` | stackedFilters.swift:68-70 | the result equals `concat(processes)` applied to the image, which equals running the stack in order; the stack is left unchanged (no `modifies`) on success and on error |
| `Processors.ReplaceLastDiscardsOldLast` | Negpho/stackedFilters.swift:60-63 | after replace-last, the stack runs as if the replacement had been pushed in place of the old last process, which is fully discarded |
| `Processors.ReplaceLastScenario` | Negpho/stackedFilters.swift:51-67 | `push(t1); push(t2); replaceLast(t3); process(i)` equals `concat([t1, t3])` applied to `i` |
| `Processors.PushThenReprocessOriginal` | Negpho/EditingViewController.swift:136-137 | pushing `p` and reprocessing the original image gives `p` applied to what the stack gave before the push; the stack becomes `old + [p]` |
| `Processors.DropOnEmptyScenario` | stackedFilters.swift:60-70 | `dropLastProcess()` on a new processor, then `process(i)`, returns `i` |
| `Variants.ParamsOf` | stackedFilters.swift:81-288 | only Sepia, Monochrome and Vignette bind the intensity key, to their `intensity`; only Contrast binds the contrast key, to its `level` |
| `Variants.Run` | stackedFilters.swift:79-92 | the three outcomes of every variant: no filter output throws `InputImageFailed`; no rendered bitmap throws `OutputImageFailed`; otherwise the rendered bitmap is returned as an image |
| `Variants.UnconvertibleInputFails` | Negpho/stackedFilters.swift:75-81 | an image the engine cannot convert throws `InputImageFailed` when the filters need an input |
| `Variants.OutcomeFollowsFilterCall` | Negpho/stackedFilters.swift:70-88 | two variants that name the same filter with the same parameters have the same outcome on every image and back end |
| `Variants.ContrastIgnoresIntensity` | Negpho/stackedFilters.swift:266-285 | two Contrasts with equal `level` behave the same whatever their `intensity` |
| `Titles.CombinatorTitles` | stackedFilters.swift:23-51 | `empty`, `compose`, `append` and `concat` all return a process titled "Any" |
| `Titles.VariantTitlesDistinct` | stackedFilters.swift:73-300 | two variants have the same title exactly when they run the same filter; no variant is titled "Any" or "Processor" |

The operations themselves are defined by functions without contracts of
their own. The lemmas above state their properties.

- `Processes.Apply` models `process(image:)`: stackedFilters.swift:30-32 for `AnyImageProcess` and stackedFilters.swift:79 for the variants.
- `Processes.Then` models `try` on a result that may already have thrown: stackedFilters.swift:40.
- `Processes.Compose` models stackedFilters.swift:39-41.
- `Processes.Concat` models stackedFilters.swift:42-44.
- `Processes.Append` models stackedFilters.swift:47-51.
- `Variants.FilterOf` models the `let filter = CIFilter.…()` lines: stackedFilters.swift:77, 98, 118, 138, 158, 178, 198, 218, 239, 261 and 284.
- `Variants.ParamsOf` covers the parameter bindings: stackedFilters.swift:81, 243, 265 and 288.
- `Titles.VariantTitle` and `Titles.Title` model the `title` lines: stackedFilters.swift:24 for "Any" and stackedFilters.swift:74, 96, 116, 136, 156, 176, 196, 216, 236, 258 and 280 for the variants.
- `Titles.ProcessorTitle` models stackedFilters.swift:54.

## Left out

- The code behind the UI: view controllers, collection-view data sources, storyboards, alerts, photo-library saving, the canvas drawing and its undo. It is UI plumbing, outside the engine.
- The call sites: the root copy's `replaceLast` followed by processing the already filtered image, and the Negpho copy's `push` followed by reprocessing the original. These are UI policy. Only the Negpho policy appears, as the client method `Processors.PushThenReprocessOriginal`.
- Concurrency: the `DispatchQueue` hops and the slider debounce. The code has no request sequence numbers, so there is no stale-result logic to model.
- CoreImage, `CIContext` rendering, `UIImage`/`CGImage` conversion and filter pixel math: they are foreign library calls. They are the `Backend` parameter, and `Float` parameters are opaque.
- The `CIFilter` object that each variant struct keeps and mutates between calls. Each call sets the same keys before reading the output, so the model passes the bound parameters on every call instead.
- Closures wrapped by `AnyImageProcess` that throw errors other than `ProcessError`: `Outcome` carries only `ProcessError`.
- A `Processor` that is pushed as a process onto a stack: `Processor` is a reference type, and the aliasing this creates is not modelled. `Process` here covers closures and the variants.
- Direct assignment to the public `processes` field: only the three mutators are modelled.
- The `throws` on `compose`, `concat` and `append`: building a process never throws, so the model's functions are total. Errors arise only when a process is applied.
- The empty `StackedFilters` / `stackedFilters` view classes: they have no behaviour.
- The thumbnail cache keyed by title in `DataSources.swift`: it is UI caching.
