/**
 The scene's click and hover state on the clickable model: whether the
 pointer is over it, whether it was clicked since the pointer arrived, and
 whether the three demo tracks have been started.
 */
module Pointer {

  datatype PointerState = PointerState(touched: bool, clicked: bool, play: bool)

  const Start := PointerState(false, false, false)

  datatype PointerEvent = Click | Enter | Leave

  function Step(s: PointerState, e: PointerEvent): (r: PointerState)
    ensures e == Click ==> r.clicked && r.play && r.touched == s.touched
    ensures e == Enter ==> r.touched && r.clicked == s.clicked && r.play == s.play
    ensures e == Leave ==> !r.touched && !r.clicked && r.play == s.play
  {
    match e
    case Click => s.(clicked := true, play := true)
    case Enter => s.(touched := true)
    case Leave => s.(touched := false, clicked := false)
  }

  function Run(s: PointerState, events: seq<PointerEvent>): PointerState
    decreases |events|
  {
    if events == [] then s else Run(Step(s, events[0]), events[1..])
  }

  /** The hover overlay's opacity: 0.1 while the pointer is over the model, otherwise 0. */
  function OverlayOpacity(s: PointerState): (r: real)
    ensures r == 0.1 <==> s.touched
    ensures r == 0.0 <==> !s.touched
  {
    if s.touched then 0.1 else 0.0
  }

  /** The outline is drawn exactly while the pointer is over the model. */
  predicate HasOutline(s: PointerState)
    ensures HasOutline(s) <==> OverlayOpacity(s) > 0.0
  {
    s.touched
  }

  /** The demo tracks mounted by the scene, as (url, scale) pairs. */
  function MountedTracks(s: PointerState): (r: seq<(string, int)>)
    ensures s.play ==> |r| == 3
    ensures !s.play ==> r == []
  {
    if s.play then [("/audio/synth.mp3", 20), ("/audio/snare.mp3", 30), ("/audio/drums.mp3", 40)]
    else []
  }

  /** No event turns `play` off: once started, the demo tracks stay mounted. */
  lemma {:induction false} PlayIsSticky(s: PointerState, events: seq<PointerEvent>)
    requires s.play
    ensures Run(s, events).play
    ensures MountedTracks(Run(s, events)) == MountedTracks(s)
    decreases |events|
  {
    if events != [] {
      PlayIsSticky(Step(s, events[0]), events[1..]);
    }
  }

  /** `play` holds exactly when it held before or some click happened. */
  lemma {:induction false} PlayIffClicked(s: PointerState, events: seq<PointerEvent>)
    ensures Run(s, events).play <==> s.play || exists k :: 0 <= k < |events| && events[k] == Click
    decreases |events|
  {
    if events != [] {
      PlayIffClicked(Step(s, events[0]), events[1..]);
      assert forall k :: 1 <= k < |events| ==> events[k] == events[1..][k - 1];
      if exists k :: 0 <= k < |events[1..]| && events[1..][k] == Click {
        var k :| 0 <= k < |events[1..]| && events[1..][k] == Click;
        assert events[k + 1] == Click;
      }
    }
  }

  /** From the start, the demo tracks are mounted exactly when the model has been clicked. */
  lemma TracksMountedIffEverClicked(events: seq<PointerEvent>)
    ensures |MountedTracks(Run(Start, events))| == 3 <==> exists k :: 0 <= k < |events| && events[k] == Click
  {
    PlayIffClicked(Start, events);
  }

  /** `clicked` is only ever set together with `play`. */
  lemma {:induction false} ClickedImpliesPlay(s: PointerState, events: seq<PointerEvent>)
    requires s.clicked ==> s.play
    ensures Run(s, events).clicked ==> Run(s, events).play
    decreases |events|
  {
    if events != [] {
      ClickedImpliesPlay(Step(s, events[0]), events[1..]);
    }
  }
}
