/**
 * Call-site resolution in the current `LogUtility.Log`: find the caller's frame
 * on the stack, stepping over frames whose declaring class is named `Logger`
 * (wrappers around the facade).
 */
module CallSite {
  import opened Wrappers
  import opened Text
  import opened Exceptions
  import opened Runtime

  /** Frames between the method that builds the stack trace and its caller's caller. */
  const SKIP_FRAMES: int := 2

  /** The class name that marks a wrapper frame to step over. */
  const LOGGER_CLASS: string := "Logger"

  /**
   * The state the walk leaves behind: the resolved frame (`method` in the source), the number
   * of extra frames probed and the error text of a failed re-probe (empty if
   * none); or the exception of the first probe, which escapes the walk.
   */
  datatype Walked = Failed(error: Exception) | Resolved(frame: Frame, extraFrames: nat, probeError: string)

  /** The walk as the loop performs it, from the first probe at `SKIP_FRAMES + stackFrameOffset`. */
  function Walk(frames: seq<Frame>, stackFrameOffset: int): (r: Walked)
    ensures r.Failed? <==> !(0 <= SKIP_FRAMES + stackFrameOffset < |frames|)
    ensures r.Resolved? && r.extraFrames == 0 ==> r.frame == frames[SKIP_FRAMES + stackFrameOffset]
  {
    match Probe(frames, SKIP_FRAMES + stackFrameOffset)
    case Failure(e) => Failed(e)
    case Success(f) => SkipLoggerFrames(frames, f, 0)
  }

  /** The loop from a state in which `current` is resolved after `extraFrames` re-probes. */
  function SkipLoggerFrames(frames: seq<Frame>, current: Frame, extraFrames: nat): (r: Walked)
    ensures r.Resolved? && r.extraFrames >= extraFrames
    ensures r.extraFrames == extraFrames <==> current.className != LOGGER_CLASS
    ensures r.extraFrames == extraFrames ==> r.frame == current
    decreases |frames| - extraFrames
  {
    if current.className != LOGGER_CLASS then Resolved(current, extraFrames, "")
    else
      match Probe(frames, SKIP_FRAMES + extraFrames + 1)
      case Failure(e) => Resolved(current, extraFrames + 1, "ERROR: " + e.message)
      case Success(f) => SkipLoggerFrames(frames, f, extraFrames + 1)
  }

  /** Every frame in `[lo, hi)` exists and belongs to a `Logger` class. */
  ghost predicate LoggerFramesBetween(frames: seq<Frame>, lo: int, hi: int)
  {
    forall k :: lo <= k < hi ==> 0 <= k < |frames| && frames[k].className == LOGGER_CLASS
  }

  /**
   * The `while (className == "Logger")` loop of `Log`, with the first probe
   * before it. Each re-probe reads frame `SKIP_FRAMES + extraFrames`; a failing
   * re-probe records `"ERROR: " + message` and stops the loop.
   */
  method ResolveCallSite(frames: seq<Frame>, stackFrameOffset: int) returns (w: Walked)
    ensures w == Walk(frames, stackFrameOffset)
  {
    var probe := Probe(frames, SKIP_FRAMES + stackFrameOffset);
    if probe.Failure? {
      return Failed(probe.error);
    }
    var current := probe.value;
    var className := current.className;
    var extraFrames: nat := 0;
    var extraText := "";
    while className == LOGGER_CLASS
      invariant className == current.className
      invariant extraFrames == 0 || SKIP_FRAMES + extraFrames < |frames|
      invariant SkipLoggerFrames(frames, current, extraFrames) == Walk(frames, stackFrameOffset)
      decreases |frames| - extraFrames
    {
      extraFrames := extraFrames + 1;
      var reprobe := Probe(frames, SKIP_FRAMES + extraFrames);
      if reprobe.Failure? {
        extraText := "ERROR: " + reprobe.error.message;
        break;
      }
      current := reprobe.value;
      className := current.className;
    }
    w := Resolved(current, extraFrames, extraText);
  }

  /**
   * What the loop leaves after `extraFrames` re-probes from `current`: it stops at
   * the first frame from `SKIP_FRAMES + extraFrames + 1` on whose class is not
   * `Logger`, or records the failed probe when the stack runs out first.
   */
  lemma {:induction false} SkipLoggerFramesOutcome(frames: seq<Frame>, current: Frame, extraFrames: nat)
    requires extraFrames > 0 ==> SKIP_FRAMES + extraFrames < |frames| && frames[SKIP_FRAMES + extraFrames] == current
    requires LoggerFramesBetween(frames, SKIP_FRAMES + 1, SKIP_FRAMES + extraFrames)
    ensures var w := SkipLoggerFrames(frames, current, extraFrames);
      && w.Resolved?
      && w.extraFrames >= extraFrames
      && (w.extraFrames == extraFrames <==> current.className != LOGGER_CLASS)
      && (w.extraFrames == extraFrames ==> w.frame == current && w.probeError == "")
      && LoggerFramesBetween(frames, SKIP_FRAMES + 1, SKIP_FRAMES + w.extraFrames)
      && (w.probeError == "" ==> w.frame.className != LOGGER_CLASS)
      && (w.probeError == "" && w.extraFrames > 0 ==>
            SKIP_FRAMES + w.extraFrames < |frames| && w.frame == frames[SKIP_FRAMES + w.extraFrames])
      && (w.probeError != "" ==>
            && w.probeError == "ERROR: " + NoFrame.message
            && SKIP_FRAMES + w.extraFrames >= |frames|
            && w.frame.className == LOGGER_CLASS)
    decreases |frames| - extraFrames
  {
    if current.className == LOGGER_CLASS {
      var p := Probe(frames, SKIP_FRAMES + extraFrames + 1);
      if p.Success? {
        SkipLoggerFramesOutcome(frames, p.value, extraFrames + 1);
      }
    }
  }

  /**
   * The walk, stated by positions. The first probe is frame
   * `SKIP_FRAMES + stackFrameOffset`; when it is not a `Logger` frame it is the
   * result and no extra frame is counted. Otherwise the re-probes read frames
   * `SKIP_FRAMES + 1, SKIP_FRAMES + 2, ...`, whatever the offset, and
   * `extraFrames` is the number of `Logger` frames stepped over: the first probe
   * and the re-probed `Logger` frames before the result. A walk that ends
   * normally resolves a frame whose class is not `Logger`; one that runs out of
   * stack keeps the last `Logger` frame and the probe's error text.
   */
  lemma WalkOutcome(frames: seq<Frame>, stackFrameOffset: int)
    ensures var first := SKIP_FRAMES + stackFrameOffset;
      var w := Walk(frames, stackFrameOffset);
      && (w.Failed? <==> !(0 <= first < |frames|))
      && (w.Failed? ==> w.error == (if first < 0 then NegativeSkip else NoFrame))
      && (w.Resolved? ==>
            && (w.extraFrames == 0 <==> frames[first].className != LOGGER_CLASS)
            && (w.extraFrames == 0 ==> w.frame == frames[first] && w.probeError == "")
            && LoggerFramesBetween(frames, SKIP_FRAMES + 1, SKIP_FRAMES + w.extraFrames)
            && (w.probeError == "" ==> w.frame.className != LOGGER_CLASS)
            && (w.probeError == "" && w.extraFrames > 0 ==>
                  SKIP_FRAMES + w.extraFrames < |frames| && w.frame == frames[SKIP_FRAMES + w.extraFrames])
            && (w.probeError != "" ==>
                  && w.probeError == "ERROR: " + NoFrame.message
                  && w.extraFrames > 0
                  && SKIP_FRAMES + w.extraFrames >= |frames|
                  && w.frame.className == LOGGER_CLASS))
  {
    var first := SKIP_FRAMES + stackFrameOffset;
    if 0 <= first < |frames| {
      SkipLoggerFramesOutcome(frames, frames[first], 0);
    }
  }

  /**
   * Once the first probe lands on a `Logger` frame the offset plays no further
   * part: any two offsets whose first probes both hit `Logger` frames resolve
   * the same frame with the same count, as long as the first re-probe finds a
   * frame (otherwise each keeps its own first frame).
   */
  lemma ReprobeIgnoresOffset(frames: seq<Frame>, offset1: int, offset2: int)
    requires 0 <= SKIP_FRAMES + offset1 < |frames| && frames[SKIP_FRAMES + offset1].className == LOGGER_CLASS
    requires 0 <= SKIP_FRAMES + offset2 < |frames| && frames[SKIP_FRAMES + offset2].className == LOGGER_CLASS
    requires SKIP_FRAMES + 1 < |frames|
    ensures Walk(frames, offset1) == Walk(frames, offset2)
  {
    var f1, f2 := frames[SKIP_FRAMES + offset1], frames[SKIP_FRAMES + offset2];
    assert Walk(frames, offset1) == SkipLoggerFrames(frames, f1, 0);
    assert Walk(frames, offset2) == SkipLoggerFrames(frames, f2, 0);
    assert Probe(frames, SKIP_FRAMES + 1) == Success(frames[SKIP_FRAMES + 1]);
  }

  /**
   * A caller that asks to skip two wrapper frames, when the frame it points at
   * is a `Logger` frame, gets back frame `SKIP_FRAMES + 1`: a frame nearer than
   * the one it asked for.
   */
  lemma OffsetReprobeResolvesNearerFrame(app: Frame, wrapper: Frame, logger: Frame, caller: Frame)
    requires logger.className == LOGGER_CLASS && wrapper.className != LOGGER_CLASS
    ensures var frames := [app, app, app, wrapper, logger, caller];
      Walk(frames, 2) == Resolved(frames[SKIP_FRAMES + 1], 1, "")
  {
    var frames := [app, app, app, wrapper, logger, caller];
    assert Probe(frames, SKIP_FRAMES + 2) == Success(logger);
    assert Probe(frames, SKIP_FRAMES + 1) == Success(wrapper);
    assert SkipLoggerFrames(frames, wrapper, 1) == Resolved(wrapper, 1, "");
    assert SkipLoggerFrames(frames, logger, 0) == SkipLoggerFrames(frames, wrapper, 1);
  }

  /**
   * The text `Log` puts in front of the message: the probe's error text, then
   * `"[Extra Frames: n] "` when `n`, the number of extra frames, is positive.
   */
  function ExtraText(w: Walked): (r: string)
    requires w.Resolved?
    ensures w.probeError <= r
    ensures |r| > |w.probeError| <==> w.extraFrames > 0
  {
    w.probeError + (if w.extraFrames == 0 then "" else "[Extra Frames: " + NatToString(w.extraFrames) + "] ")
  }

  /** The message gets a prefix exactly when the walk stepped over a `Logger` frame. */
  lemma ExtraTextEmptyIffNoExtraFrames(frames: seq<Frame>, stackFrameOffset: int)
    requires Walk(frames, stackFrameOffset).Resolved?
    ensures var w := Walk(frames, stackFrameOffset);
      ExtraText(w) == "" <==> w.extraFrames == 0
  {
    WalkOutcome(frames, stackFrameOffset);
  }
}
