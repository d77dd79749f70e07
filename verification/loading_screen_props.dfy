/**
 Properties of the loading overlay over whole sequences of loader reports
 and timer firings.
 */
module LoadingProgressProps {
  import opened LoadingProgress

  /**
   The overlay invariant: while loading it is shown, no hide is pending and
   the bar is at least the reported progress; once loading stopped it reads 100%.
   */
  ghost predicate Inv(s: LoadState) {
    && (s.active ==> s.visible && !s.timerPending && s.percentage >= s.progress && s.percentage >= 0.0)
    && (!s.active ==> s.percentage == 100.0)
  }

  datatype LoaderEvent = Loader(active: bool, progress: real) | Timer

  function Step(s: LoadState, e: LoaderEvent): LoadState {
    match e
    case Loader(active, progress) => Report(s, active, progress)
    case Timer => TimerFires(s)
  }

  function Run(s: LoadState, events: seq<LoaderEvent>): LoadState
    decreases |events|
  {
    if events == [] then s else Run(Step(s, events[0]), events[1..])
  }

  lemma MountEstablishesInv(active: bool, progress: real)
    ensures Inv(Mount(active, progress))
  {
  }

  lemma StepPreservesInv(s: LoadState, e: LoaderEvent)
    requires Inv(s)
    ensures Inv(Step(s, e))
  {
  }

  lemma {:induction false} RunPreservesInv(s: LoadState, events: seq<LoaderEvent>)
    requires Inv(s)
    ensures Inv(Run(s, events))
    decreases |events|
  {
    if events != [] {
      StepPreservesInv(s, events[0]);
      RunPreservesInv(Step(s, events[0]), events[1..]);
    }
  }

  /** Every state reached from the first commit satisfies the invariant. */
  lemma ReachableInv(active: bool, progress: real, events: seq<LoaderEvent>)
    ensures Inv(Run(Mount(active, progress), events))
  {
    MountEstablishesInv(active, progress);
    RunPreservesInv(Mount(active, progress), events);
  }

  /** During one loading phase the bar never moves back, and it ends at least at the last reported progress. */
  lemma {:induction false} NeverDecreasesWhileLoading(s: LoadState, events: seq<LoaderEvent>)
    requires Inv(s) && s.active
    requires forall k :: 0 <= k < |events| ==> events[k].Loader? && events[k].active
    ensures Run(s, events).percentage >= s.percentage
    ensures events != [] ==> Run(s, events).percentage >= events[|events| - 1].progress
    decreases |events|
  {
    if events != [] {
      var next := Step(s, events[0]);
      StepPreservesInv(s, events[0]);
      assert next.percentage >= s.percentage && next.percentage >= events[0].progress;
      NeverDecreasesWhileLoading(next, events[1..]);
      if |events| > 1 {
        assert events[1..][|events[1..]| - 1] == events[|events| - 1];
      }
    }
  }

  /** Loader reports alone never hide the overlay: only the timer does. */
  lemma {:induction false} OnlyTheTimerHides(s: LoadState, events: seq<LoaderEvent>)
    requires s.visible
    requires forall k :: 0 <= k < |events| ==> events[k].Loader?
    ensures Run(s, events).visible
    decreases |events|
  {
    if events != [] {
      OnlyTheTimerHides(Step(s, events[0]), events[1..]);
    }
  }

  /** Finishing and then letting the timer fire leaves the bar at 100% and the overlay hidden. */
  lemma FinishThenTimerHides(s: LoadState, progress: real)
    requires s.active
    ensures TimerFires(Report(s, false, progress)).percentage == 100.0
    ensures !TimerFires(Report(s, false, progress)).visible
  {
  }

  /** Loading that restarts before the timer fires cancels the hide: the overlay stays shown. */
  lemma RestartCancelsHide(s: LoadState, progress: real)
    requires !s.active && s.timerPending
    ensures Report(s, true, progress).visible
    ensures TimerFires(Report(s, true, progress)) == Report(s, true, progress)
  {
  }
}
