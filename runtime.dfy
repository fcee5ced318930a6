/**
 * What the .NET runtime supplies to the facade: the call stack, reduced to a
 * sequence of frames, and the deferred message (`Func<string>`).
 */
module Runtime {
  import opened Wrappers
  import opened Exceptions

  /** A stack frame's method: its declaring type's name, its own name, its assembly's name. */
  datatype Frame = Frame(className: string, methodName: string, assemblyName: string)

  /**
   * The runtime's view of one logging call: the frames of the stack, where
   * frame 0 is the method that builds the stack trace, and the managed id of
   * the calling thread.
   */
  datatype CallEnv = CallEnv(frames: seq<Frame>, threadId: nat)

  /** What `new StackTrace(n)` throws for a negative `n`. */
  const NegativeSkip: Exception :=
    RuntimeException("System.ArgumentOutOfRangeException", "Non-negative number required.")

  /** What `GetFrame(0).GetMethod()` throws when the skip count leaves no frame. */
  const NoFrame: Exception :=
    RuntimeException("System.NullReferenceException", "Object reference not set to an instance of an object.")

  /**
   * `new StackTrace(skipFrames).GetFrame(0).GetMethod()`: the frame `skipFrames`
   * levels up, or the exception the runtime throws when there is none.
   */
  function Probe(frames: seq<Frame>, skipFrames: int): (r: Result<Frame, Exception>)
    ensures r.Success? <==> 0 <= skipFrames < |frames|
    ensures r.Success? ==> r.value == frames[skipFrames]
  {
    if skipFrames < 0 then Failure(NegativeSkip)
    else if skipFrames >= |frames| then Failure(NoFrame)
    else Success(frames[skipFrames])
  }

  /**
   * A caller's `Func<string>`: what it returns (possibly null) or throws, and how
   * many times it has been invoked.
   */
  class MessageThunk {
    const outcome: Result<Option<string>, Exception>
    var calls: nat

    constructor (outcome: Result<Option<string>, Exception>)
      ensures this.outcome == outcome && calls == 0
    {
      this.outcome := outcome;
      calls := 0;
    }

    /** `getMessage()`. */
    method Invoke() returns (r: Result<Option<string>, Exception>)
      modifies this
      ensures r == outcome && calls == old(calls) + 1
    {
      r := outcome;
      calls := calls + 1;
    }
  }
}
