/**
 The zoom reactor: every frame, the camera's field of view follows the
 average of the selected track's last reported bins.
 */
module Zoom {
  import opened Wrappers
  import opened TrackList
  import opened Audio
  import opened Layout

  /** The camera's field of view on the first frame, in degrees. */
  const BaseFov: real := 45.0

  /** The field of view for an average: `45 - (avg || 0) / 35`; on a number `|| 0` changes only `NaN`, which a real average never is. */
  function FovFor(avg: real): real {
    BaseFov - avg / 35.0
  }

  /**
   One frame: with nothing selected (`selected == null`) or an empty slot the
   field of view is left alone; otherwise it is set from the slot's average.
   */
  function ZoomFrame(fov: real, selected: Option<nat>, store: Store): (r: real)
    ensures selected.None? ==> r == fov
    ensures selected.Some? && selected.value !in store ==> r == fov
    ensures selected.Some? && selected.value in store ==>
              (r < BaseFov <==> store[selected.value].avg > 0.0) &&
              (r == BaseFov <==> store[selected.value].avg == 0.0)
  {
    match selected
    case None => fov
    case Some(i) => if i in store then FovFor(store[i].avg) else fov
  }

  /** A zero average yields exactly the base field of view. */
  lemma ZeroAverageIsBase()
    ensures FovFor(0.0) == BaseFov
  {
  }

  /** A louder average gives a strictly narrower field of view. */
  lemma FovStrictlyDecreasing(a: real, b: real)
    requires a < b
    ensures FovFor(b) < FovFor(a)
  {
  }

  /** For byte averages the field of view stays within [45 - 255/35, 45]. */
  lemma FovBounds(bins: seq<Byte>)
    ensures BaseFov - 255.0 / 35.0 <= FovFor(Mean(bins)) <= BaseFov
  {
    MeanBounds(bins);
  }

  /** Index 0 is a selection: the test is against `null`, not truthiness. */
  lemma IndexZeroSelects(fov: real, store: Store)
    requires 0 in store
    ensures ZoomFrame(fov, Some(0), store) == BaseFov - store[0].avg / 35.0
  {
  }

  /** With nothing selected, any number of frames leaves the field of view unchanged. */
  function Frames(fov: real, selected: Option<nat>, store: Store, n: nat): (r: real)
    ensures selected.None? ==> r == fov
    decreases n
  {
    if n == 0 then fov else Frames(ZoomFrame(fov, selected, store), selected, store, n - 1)
  }

  /**
   One frame of the composed scene. The zoom reactor subscribed to frames
   before the renderers, which mount only once their audio has decoded, so
   it reads the store first; the renderers then write their fresh readings.
   Returns the field of view and the store after the frame.
   */
  function SceneFrame(scene: Scene, fov: real, store: Store, frameBins: seq<seq<Byte>>): (real, Store)
    requires scene.Shown? && |frameBins| == |scene.renderers|
  {
    (ZoomFrame(fov, scene.zoomIndex, store), RenderAll(scene.renderers, store, frameBins))
  }

  /**
   With track `i` selected and live, the field of view lags one frame: a
   frame sets it from the sample left in slot `i` by the previous frame, and
   the next frame sets it from this frame's bins, within [45 - 255/35, 45].
   */
  lemma ZoomFollowsSelectedTrack(
    tracks: seq<Track>, flags: seq<Flag>, i: nat,
    store: Store, frameBins: seq<seq<Byte>>, nextBins: seq<seq<Byte>>, fov: real)
    requires i < |tracks| && |frameBins| == |tracks| && |nextBins| == |tracks|
    requires Live(FlagAt(flags, i))
    ensures var scene := Compose(true, tracks, flags, Some(i));
      var (fov1, store1) := SceneFrame(scene, fov, store, frameBins);
      var (fov2, _) := SceneFrame(scene, fov1, store1, nextBins);
      && fov1 == (if i in store then FovFor(store[i].avg) else fov)
      && fov2 == FovFor(Mean(frameBins[i]))
      && BaseFov - 255.0 / 35.0 <= fov2 <= BaseFov
  {
    var scene := Compose(true, tracks, flags, Some(i));
    ComposedSlotsDistinct(tracks, flags, Some(i));
    RenderAllSlots(scene.renderers, store, frameBins);
    FovBounds(frameBins[i]);
  }
}
