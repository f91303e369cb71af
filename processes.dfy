/**
  The `ImageProcess` contract and its combinators. A process is either an
  `AnyImageProcess` wrapping a closure or one of the concrete variants;
  `empty`, `compose`, `concat` and `append` build `AnyImageProcess`
  closures exactly as the protocol extension does. `RunInOrder` is an
  independent reading of a sequence of processes (apply them front to
  back, stop at the first error) against which the fold is proved.
 */
module Processes {
  import opened Engine
  import Variants

  datatype ImageProcess =
    | Any(f: (Backend, Image) -> Outcome)
    | Variant(v: Variants.Variant)

  /** `p.process(image:)`, dispatched on the kind of process. */
  function Apply(eng: Backend, p: ImageProcess, image: Image): Outcome {
    match p
    case Any(f) => f(eng, image)
    case Variant(v) => Variants.Run(eng, v, image)
  }

  /** `try p.process(image: x)` where `x` is itself the result of a `try`:
      an error is rethrown without running `p`. */
  function Then(eng: Backend, r: Outcome, p: ImageProcess): Outcome {
    match r
    case Err(e) => Err(e)
    case Ok(image) => Apply(eng, p, image)
  }

  /** `empty()`: the identity process. */
  function Empty(): (r: ImageProcess)
    ensures forall eng, image :: Apply(eng, r, image) == Ok(image)
  {
    Any((eng, image) => Ok(image))
  }

  /** `compose(first:second:)`: run `first`, then `second` on its image. */
  function Compose(first: ImageProcess, second: ImageProcess): ImageProcess {
    Any((eng, image) => Then(eng, Apply(eng, first, image), second))
  }

  /** `concat(processes:)`: `reduce` from `empty()` with `compose`. */
  function Concat(ps: seq<ImageProcess>): ImageProcess
    decreases |ps|
  {
    if |ps| == 0 then Empty() else Compose(Concat(ps[..|ps| - 1]), ps[|ps| - 1])
  }

  /** `p.append(other:)`. */
  function Append(p: ImageProcess, other: ImageProcess): ImageProcess {
    Compose(p, other)
  }

  /** Run `ps` front to back, each on the previous one's image, stopping
      at the first error. */
  function RunInOrder(eng: Backend, ps: seq<ImageProcess>, image: Image): Outcome
    decreases |ps|
  {
    if |ps| == 0 then Ok(image)
    else
      match Apply(eng, ps[0], image)
      case Err(e) => Err(e)
      case Ok(next) => RunInOrder(eng, ps[1..], next)
  }

  /** `imgs` are the images a successful run of `ps` passes through. */
  ghost predicate Chain(eng: Backend, ps: seq<ImageProcess>, imgs: seq<Image>) {
    |imgs| == |ps| + 1 &&
    forall k :: 0 <= k < |ps| ==> Apply(eng, ps[k], imgs[k]) == Ok(imgs[k + 1])
  }

  // ---------------------------------------------------------------------
  // Composition

  /** `compose` is sequential application: the second process sees the
      first one's image, and an error of the first is the result. */
  lemma ComposeIsSequential(eng: Backend, first: ImageProcess, second: ImageProcess, image: Image)
    ensures Apply(eng, Compose(first, second), image) == RunInOrder(eng, [first, second], image)
    ensures Apply(eng, first, image).Ok? ==>
              Apply(eng, Compose(first, second), image) == Apply(eng, second, Apply(eng, first, image).value)
    ensures Apply(eng, first, image).Err? ==>
              Apply(eng, Compose(first, second), image) == Apply(eng, first, image)
  {
    var ps := [first, second];
    assert ps[0] == first && ps[1..] == [second] && ps[1..][1..] == [];
    match Apply(eng, first, image)
    case Err(e) =>
    case Ok(mid) =>
      assert RunInOrder(eng, ps, image) == RunInOrder(eng, [second], mid);
  }

  /** Fail-fast: once `first` throws, `second` has no influence, so it is
      never usefully run. */
  lemma ComposeSkipsSecondOnError(eng: Backend, first: ImageProcess, s1: ImageProcess, s2: ImageProcess, image: Image)
    requires Apply(eng, first, image).Err?
    ensures Apply(eng, Compose(first, s1), image) == Apply(eng, Compose(first, s2), image)
    ensures Apply(eng, Compose(first, s1), image) == Apply(eng, first, image)
  {
  }

  /** `empty()` is a unit on either side of `compose`. */
  lemma EmptyIsUnit(eng: Backend, p: ImageProcess, image: Image)
    ensures Apply(eng, Compose(Empty(), p), image) == Apply(eng, p, image)
    ensures Apply(eng, Compose(p, Empty()), image) == Apply(eng, p, image)
  {
  }

  /** `compose` is associative on every input, failures included. */
  lemma ComposeAssociative(eng: Backend, a: ImageProcess, b: ImageProcess, c: ImageProcess, image: Image)
    ensures Apply(eng, Compose(Compose(a, b), c), image) == Apply(eng, Compose(a, Compose(b, c)), image)
  {
  }

  // ---------------------------------------------------------------------
  // The fold

  /** `concat([])` is `empty()`, and each further element is composed
      after the fold of the ones before it. */
  lemma ConcatSnoc(ps: seq<ImageProcess>, p: ImageProcess)
    ensures Concat([]) == Empty()
    ensures Concat(ps + [p]) == Compose(Concat(ps), p)
  {
    assert (ps + [p])[..|ps|] == ps;
  }

  /** Appending a process to a sequence runs it on the sequence's result. */
  lemma {:induction false} RunInOrderSnoc(eng: Backend, ps: seq<ImageProcess>, p: ImageProcess, image: Image)
    ensures RunInOrder(eng, ps + [p], image) == Then(eng, RunInOrder(eng, ps, image), p)
    decreases |ps|
  {
    if |ps| == 0 {
      assert ps + [p] == [p];
      assert [p][1..] == [];
    } else {
      assert (ps + [p])[0] == ps[0];
      assert (ps + [p])[1..] == ps[1..] + [p];
      match Apply(eng, ps[0], image)
      case Err(e) =>
      case Ok(next) => RunInOrderSnoc(eng, ps[1..], p, next);
    }
  }

  /** The fold applies the elements of `ps` in order, stopping at the
      first error. */
  lemma {:induction false} ConcatRunsInOrder(eng: Backend, ps: seq<ImageProcess>, image: Image)
    ensures Apply(eng, Concat(ps), image) == RunInOrder(eng, ps, image)
    decreases |ps|
  {
    if |ps| > 0 {
      var init, last := ps[..|ps| - 1], ps[|ps| - 1];
      assert ps == init + [last];
      ConcatRunsInOrder(eng, init, image);
      RunInOrderSnoc(eng, init, last, image);
    }
  }

  /** Running `xs + ys` is running `xs`, then `ys` on its image. */
  lemma {:induction false} RunInOrderJoin(eng: Backend, xs: seq<ImageProcess>, ys: seq<ImageProcess>, image: Image)
    ensures RunInOrder(eng, xs + ys, image) ==
              match RunInOrder(eng, xs, image)
              case Err(e) => Err(e)
              case Ok(mid) => RunInOrder(eng, ys, mid)
    decreases |xs|
  {
    if |xs| == 0 {
      assert xs + ys == ys;
    } else {
      assert (xs + ys)[0] == xs[0];
      assert (xs + ys)[1..] == xs[1..] + ys;
      match Apply(eng, xs[0], image)
      case Err(e) =>
      case Ok(next) => RunInOrderJoin(eng, xs[1..], ys, next);
    }
  }

  /** Folding a concatenation is composing the two folds: the fold is
      associative as a function. */
  lemma ConcatOfJoin(eng: Backend, xs: seq<ImageProcess>, ys: seq<ImageProcess>, image: Image)
    ensures Apply(eng, Concat(xs + ys), image) == Apply(eng, Compose(Concat(xs), Concat(ys)), image)
  {
    ConcatRunsInOrder(eng, xs + ys, image);
    RunInOrderJoin(eng, xs, ys, image);
    ConcatRunsInOrder(eng, xs, image);
    match RunInOrder(eng, xs, image)
    case Err(e) =>
    case Ok(mid) => ConcatRunsInOrder(eng, ys, mid);
  }

  /** The first failing step decides the result of the whole fold: what
      comes after it is never run. */
  lemma ConcatStopsAtFirstError(eng: Backend, done: seq<ImageProcess>, failing: ImageProcess, rest: seq<ImageProcess>, image: Image)
    requires RunInOrder(eng, done, image).Ok?
    requires Apply(eng, failing, RunInOrder(eng, done, image).value).Err?
    ensures Apply(eng, Concat(done + [failing] + rest), image) ==
              Apply(eng, failing, RunInOrder(eng, done, image).value)
  {
    ConcatRunsInOrder(eng, done + [failing] + rest, image);
    RunInOrderJoin(eng, done + [failing], rest, image);
    RunInOrderSnoc(eng, done, failing, image);
  }

  /** A chain of successful steps is a successful run of the fold. */
  lemma {:induction false} ChainRuns(eng: Backend, ps: seq<ImageProcess>, imgs: seq<Image>)
    requires Chain(eng, ps, imgs)
    ensures Apply(eng, Concat(ps), imgs[0]) == Ok(imgs[|ps|])
    decreases |ps|
  {
    ConcatRunsInOrder(eng, ps, imgs[0]);
    if |ps| > 0 {
      assert Apply(eng, ps[0], imgs[0]) == Ok(imgs[1]);
      assert Chain(eng, ps[1..], imgs[1..]) by {
        forall k | 0 <= k < |ps[1..]|
          ensures Apply(eng, ps[1..][k], imgs[1..][k]) == Ok(imgs[1..][k + 1])
        {
          assert Apply(eng, ps[k + 1], imgs[k + 1]) == Ok(imgs[k + 2]);
        }
      }
      ChainRuns(eng, ps[1..], imgs[1..]);
      ConcatRunsInOrder(eng, ps[1..], imgs[1]);
    }
  }

  /** Conversely, a successful fold passes through a chain of successful
      steps from the input image to the result. */
  lemma {:induction false} RunsChain(eng: Backend, ps: seq<ImageProcess>, image: Image, result: Image)
    requires Apply(eng, Concat(ps), image) == Ok(result)
    ensures exists imgs :: Chain(eng, ps, imgs) && imgs[0] == image && imgs[|ps|] == result
    decreases |ps|
  {
    ConcatRunsInOrder(eng, ps, image);
    if |ps| == 0 {
      assert Chain(eng, ps, [image]);
    } else {
      var next := Apply(eng, ps[0], image).value;
      ConcatRunsInOrder(eng, ps[1..], next);
      RunsChain(eng, ps[1..], next, result);
      var tail :| Chain(eng, ps[1..], tail) && tail[0] == next && tail[|ps[1..]|] == result;
      var imgs := [image] + tail;
      assert Chain(eng, ps, imgs) by {
        forall k | 0 <= k < |ps|
          ensures Apply(eng, ps[k], imgs[k]) == Ok(imgs[k + 1])
        {
          if k > 0 {
            assert ps[k] == ps[1..][k - 1];
          }
        }
      }
    }
  }

  /** `append` puts `other` after the processes already folded into `p`. */
  lemma AppendExtendsConcat(eng: Backend, ps: seq<ImageProcess>, other: ImageProcess, image: Image)
    ensures Apply(eng, Append(Concat(ps), other), image) == RunInOrder(eng, ps + [other], image)
  {
    ConcatSnoc(ps, other);
    ConcatRunsInOrder(eng, ps + [other], image);
  }
}
