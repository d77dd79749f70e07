/**
 The loading overlay: a percentage, a visibility flag and a pending hide
 timer, driven by the loader's `active` flag and `progress` value.

 One render with new loader values commits the two effects in declaration
 order: the first (watching `active`) runs, after its previous cleanup,
 only when `active` changed; the second (watching `progress` and `active`)
 runs when either changed. State updates queued by the first are visible
 to the functional update of the second.
 */
module LoadingProgress {

  /** `active` and `progress` are the loader's values at the last commit. */
  datatype LoadState = LoadState(
    active: bool,
    progress: real,
    percentage: real,
    visible: bool,
    timerPending: bool
  )

  function Max(a: real, b: real): real {
    if a >= b then a else b
  }

  /** The effect on `active`: reset and show, or force 100% and arm the 500 ms hide timer. */
  function ActiveEffect(s: LoadState): (r: LoadState)
    ensures s.active ==> r.percentage == 0.0 && r.visible && r.timerPending == s.timerPending
    ensures !s.active ==> r.percentage == 100.0 && r.visible == s.visible && r.timerPending
    ensures r.active == s.active && r.progress == s.progress
  {
    if s.active then s.(percentage := 0.0, visible := true)
    else s.(percentage := 100.0, timerPending := true)
  }

  /** The cleanup of the previous run of the effect on `active`: `clearTimeout`. */
  function ClearTimer(s: LoadState): LoadState {
    s.(timerPending := false)
  }

  /** The effect on `progress` and `active`: while loading, keep the larger of the two. */
  function ProgressEffect(s: LoadState): (r: LoadState)
    ensures s.active ==> r.percentage >= s.percentage && r.percentage >= s.progress
    ensures s.active ==> (r.percentage == s.percentage || r.percentage == s.progress)
    ensures !s.active ==> r == s
    ensures r.visible == s.visible && r.timerPending == s.timerPending
  {
    if s.active then s.(percentage := Max(s.percentage, s.progress)) else s
  }

  /** The first commit: both effects run once with the loader's initial values. */
  function Mount(active: bool, progress: real): (r: LoadState)
    ensures r.active == active && r.progress == progress
    ensures active ==> r.percentage == Max(0.0, progress) && r.visible && !r.timerPending
    ensures !active ==> r.percentage == 100.0 && !r.visible && r.timerPending
  {
    ProgressEffect(ActiveEffect(LoadState(active, progress, 0.0, false, false)))
  }

  /** A render with new loader values and the effects it commits. */
  function Report(s: LoadState, active: bool, progress: real): (r: LoadState)
    ensures !s.active && active ==>
              r.percentage == Max(0.0, progress) && r.visible && !r.timerPending
    ensures s.active && active && progress != s.progress ==> r.percentage == Max(s.percentage, progress)
    ensures active == s.active && progress == s.progress ==> r == s
    ensures !s.active && !active ==> r.percentage == s.percentage && r.timerPending == s.timerPending
    ensures s.active && !active ==> r.percentage == 100.0 && r.timerPending && r.visible == s.visible
    ensures s.visible ==> r.visible
    ensures active == s.active ==> r.visible == s.visible && r.timerPending == s.timerPending
    ensures !s.active && !active ==> r == s.(progress := progress)
    ensures r.active == active && r.progress == progress
  {
    var next := s.(active := active, progress := progress);
    var afterActive := if active != s.active then ActiveEffect(ClearTimer(next)) else next;
    if active != s.active || progress != s.progress then ProgressEffect(afterActive) else afterActive
  }

  /** The hide timer firing; a cleared timer never fires. */
  function TimerFires(s: LoadState): (r: LoadState)
    ensures s.timerPending ==> !r.visible && !r.timerPending
    ensures !s.timerPending ==> r == s
    ensures r.percentage == s.percentage && r.active == s.active
  {
    if s.timerPending then s.(visible := false, timerPending := false) else s
  }
}
