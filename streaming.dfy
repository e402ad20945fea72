/** Consuming a streamed completion of the fast model while honouring the cooperative
    abort signal: before each chunk is appended the signal is checked, and a raised
    signal ends the consumption with an "Aborted" outcome. The value the signal has at
    each check is part of the input, one boolean per chunk. */
module Streaming {
  import opened Wrappers

  /** One chunk: whether the abort signal is raised when it is checked before this chunk
      is appended, and the chunk's delta content (None when the delta carries no content). */
  datatype Step = Step(abortSet: bool, delta: Option<string>)

  /** A streaming call: it raises before yielding anything, or it yields `steps` and then
      either ends (`failure == None`) or raises `failure`. */
  datatype StreamRun = Refused(msg: string) | Ran(steps: seq<Step>, failure: Option<string>)

  /** What consuming the yielded chunks gives: an abort, the whole text, or the text
      accumulated before the stream raised, with the exception's message. */
  datatype Consumed = Aborted | Finished(text: string) | Raised(partial: string, msg: string)

  /** The concatenated delta contents of `steps`, a missing content counting as "". */
  function Deltas(steps: seq<Step>): string {
    if steps == [] then "" else Deltas(steps[..|steps| - 1]) + steps[|steps| - 1].delta.GetOr("")
  }

  /** Some check in `steps` sees the abort signal raised. */
  predicate AnyAbort(steps: seq<Step>) {
    exists i :: 0 <= i < |steps| && steps[i].abortSet
  }

  /** The outcome of consuming `steps` followed by `failure`. */
  function Consume(steps: seq<Step>, failure: Option<string>): Consumed {
    if AnyAbort(steps) then Aborted
    else match failure
      case None => Finished(Deltas(steps))
      case Some(m) => Raised(Deltas(steps), m)
  }

  /** The chunk loop: check the signal, then append the chunk's content. */
  method ConsumeStream(steps: seq<Step>, failure: Option<string>) returns (c: Consumed)
    ensures c.Aborted? <==> exists i :: 0 <= i < |steps| && steps[i].abortSet
    ensures c.Finished? ==> failure.None? && c.text == Deltas(steps)
    ensures c.Raised? ==> failure == Some(c.msg) && c.partial == Deltas(steps)
    ensures c == Consume(steps, failure)
  {
    var text := "";
    for i := 0 to |steps|
      invariant !AnyAbort(steps[..i])
      invariant text == Deltas(steps[..i])
    {
      if steps[i].abortSet {
        assert !AnyAbort(steps[..i]) && steps[..i + 1][i].abortSet;
        return Aborted;
      }
      assert steps[..i + 1][..i] == steps[..i];
      text := text + steps[i].delta.GetOr("");
    }
    assert steps[..|steps|] == steps;
    match failure
    case None =>
      c := Finished(text);
    case Some(m) =>
      c := Raised(text, m);
  }

  /** The accumulated text of consecutive chunk runs is the concatenation of their texts. */
  lemma {:induction false} DeltasAppend(a: seq<Step>, b: seq<Step>)
    ensures Deltas(a + b) == Deltas(a) + Deltas(b)
    decreases |b|
  {
    if b != [] {
      assert (a + b)[..|a + b| - 1] == a + b[..|b| - 1];
      DeltasAppend(a, b[..|b| - 1]);
    } else {
      assert a + b == a;
    }
  }

  /** A chunk without content adds nothing; one with content adds exactly it. */
  lemma DeltasStep(steps: seq<Step>, s: Step)
    ensures Deltas(steps + [s]) == Deltas(steps) + s.delta.GetOr("")
  {
    assert (steps + [s])[..|steps|] == steps;
  }

  /** A stream that yields nothing never checks the signal. */
  lemma EmptyStreamNotAborted(failure: Option<string>)
    ensures Consume([], failure) != Aborted
  {
  }
}
