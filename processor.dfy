/**
  `Processor`: a stack of processes that is itself a process. Its stack
  changes only through `push`, `dropLastProcess` and `replaceLast`, and
  processing an image folds the whole stack and applies the fold.
 */
module Processors {
  import opened Engine
  import opened Processes

  /** Swift's `dropLast()` on an array: everything but the last element,
      and the empty array for the empty array. */
  function DropLast(ps: seq<ImageProcess>): (r: seq<ImageProcess>)
    ensures |r| == if |ps| == 0 then 0 else |ps| - 1
    ensures r == ps[..|r|]
  {
    if |ps| == 0 then [] else ps[..|ps| - 1]
  }

  class Processor {
    var processes: seq<ImageProcess>

    constructor ()
      ensures processes == []
    {
      processes := [];
    }

    /** `push(process:)` */
    method Push(p: ImageProcess)
      modifies this
      ensures processes == old(processes) + [p]
    {
      processes := processes + [p];
    }

    /** `dropLastProcess()`: a no-op on an empty stack. */
    method DropLastProcess()
      modifies this
      ensures processes == DropLast(old(processes))
      ensures old(processes) == [] ==> processes == []
      ensures old(processes) != [] ==> processes + [old(processes)[|old(processes)| - 1]] == old(processes)
    {
      processes := DropLast(processes);
    }

    /** `replaceLast(with:)`: drop the last process, then push `p`. */
    method ReplaceLast(p: ImageProcess)
      modifies this
      ensures processes == DropLast(old(processes)) + [p]
      ensures |processes| == if old(processes) == [] then 1 else |old(processes)|
      ensures processes[|processes| - 1] == p
      ensures processes[..|processes| - 1] == DropLast(old(processes))
    {
      DropLastProcess();
      Push(p);
    }

    /** `process(image:)`: fold the stack and apply it. Whether it
        succeeds or throws, the stack is left as it was. */
    method Process(eng: Backend, image: Image) returns (r: Outcome)
      ensures r == Apply(eng, Concat(processes), image)
      ensures r == RunInOrder(eng, processes, image)
    {
      r := Apply(eng, Concat(processes), image);
      ConcatRunsInOrder(eng, processes, image);
    }
  }

  /** Replacing the last process discards it entirely: the stack runs as
      if the replacement had been pushed in its place. */
  lemma ReplaceLastDiscardsOldLast(eng: Backend, ps: seq<ImageProcess>, previous: ImageProcess, p: ImageProcess, image: Image)
    ensures Apply(eng, Concat(DropLast(ps + [previous]) + [p]), image) == RunInOrder(eng, ps + [p], image)
  {
    assert DropLast(ps + [previous]) == ps;
    ConcatRunsInOrder(eng, ps + [p], image);
  }

  /** Pushing `t1` and `t2`, replacing the last with `t3` and processing
      gives the fold of `[t1, t3]`. */
  method ReplaceLastScenario(eng: Backend, t1: ImageProcess, t2: ImageProcess, t3: ImageProcess, image: Image)
    returns (r: Outcome)
    ensures r == Apply(eng, Concat([t1, t3]), image)
    ensures r == RunInOrder(eng, [t1, t3], image)
  {
    var stack := new Processor();
    stack.Push(t1);
    stack.Push(t2);
    stack.ReplaceLast(t3);
    assert stack.processes == [t1, t3];
    r := stack.Process(eng, image);
  }

  /** The editor's filter selection: push `p`, then reprocess the original
      image. The new result is `p` applied to what the stack gave before
      the push, so filters never compound on an already filtered image. */
  method PushThenReprocessOriginal(stack: Processor, eng: Backend, p: ImageProcess, original: Image)
    returns (before: Outcome, after: Outcome)
    modifies stack
    ensures stack.processes == old(stack.processes) + [p]
    ensures before == RunInOrder(eng, old(stack.processes), original)
    ensures after == Then(eng, before, p)
  {
    ghost var previous := stack.processes;
    before := stack.Process(eng, original);
    stack.Push(p);
    after := stack.Process(eng, original);
    RunInOrderSnoc(eng, previous, p, original);
  }

  /** Dropping from an empty stack leaves a stack that processes every
      image into itself. */
  method DropOnEmptyScenario(eng: Backend, image: Image) returns (r: Outcome)
    ensures r == Ok(image)
  {
    var stack := new Processor();
    stack.DropLastProcess();
    r := stack.Process(eng, image);
  }
}
