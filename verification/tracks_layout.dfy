/**
 The track scene: one renderer per track, laid out by index, and the
 shared frequency store those renderers write every frame (one slot per
 track index) for the zoom reactor to read.
 */
module Layout {
  import opened Wrappers
  import opened TrackList
  import opened Audio

  /** Even indices get the instanced-bar renderer, odd ones the smoothed line. */
  datatype Variant = Bars | Line

  /** The props one renderer receives; it writes its readings to store slot `slot`. */
  datatype Renderer = Renderer(variant: Variant, scale: int, rotationY: int, url: Url, playing: Flag, slot: nat)

  /** The track scene: nothing until the panel is enabled, then the renderers and the zoom reactor. */
  datatype Scene = Hidden | Shown(renderers: seq<Renderer>, zoomIndex: Option<nat>)

  function RendererFor(i: nat, t: Track, flags: seq<Flag>): Renderer {
    var scale := 1 + i * 10 + 20;
    var alter := (i + 1) % 2;
    Renderer(if alter != 0 then Bars else Line, scale, i * 10, t.url, FlagAt(flags, i), i)
  }

  /** The scene rendered for a track list, its flags and the zoom selection. */
  function Compose(playUI: bool, tracks: seq<Track>, flags: seq<Flag>, selectedZoom: Option<nat>): (r: Scene)
    ensures r.Hidden? <==> !playUI
    ensures playUI ==> |r.renderers| == |tracks| && r.zoomIndex == selectedZoom
    ensures playUI ==> forall i :: 0 <= i < |tracks| ==>
              && r.renderers[i].url == tracks[i].url
              && r.renderers[i].slot == i
              && r.renderers[i].playing == FlagAt(flags, i)
              && r.renderers[i].scale == 21 + 10 * i
              && r.renderers[i].rotationY == 10 * i
              && (r.renderers[i].variant == Bars <==> i % 2 == 0)
  {
    if playUI then
      Shown(seq(|tracks|, i requires 0 <= i < |tracks| => RendererFor(i, tracks[i], flags)), selectedZoom)
    else Hidden
  }

  /** Farther tracks are drawn strictly larger. */
  lemma ScaleStrictlyIncreasing(tracks: seq<Track>, flags: seq<Flag>, sel: Option<nat>, i: nat, j: nat)
    requires i < j < |tracks|
    ensures Compose(true, tracks, flags, sel).renderers[i].scale < Compose(true, tracks, flags, sel).renderers[j].scale
  {
  }

  /** Neighbouring tracks always use different renderer variants. */
  lemma VariantsAlternate(tracks: seq<Track>, flags: seq<Flag>, sel: Option<nat>, i: nat)
    requires i + 1 < |tracks|
    ensures Compose(true, tracks, flags, sel).renderers[i].variant != Compose(true, tracks, flags, sel).renderers[i + 1].variant
  {
  }

  /**
   The renderer's `playing = true` default parameter: a missing flag
   (`undefined`) plays, a `null` flag is falsy and freezes the renderer.
   */
  predicate Live(f: Flag) {
    f == Hole || f == Val(true)
  }

  /** A demo track starts frozen, while an upload (whose flag was never created) starts live. */
  lemma DemoFrozenUploadLive(flags: seq<Flag>)
    requires flags == Initial().playing
    ensures !Live(FlagAt(flags, 0)) && Live(FlagAt(flags, 3))
  {
  }

  /**
   Pause All never pauses an upload: its flag slot lies past the end of the
   flag array, `map` skips it, and the renderer's default makes it play.
   */
  lemma PauseAllNeverPausesUpload(s: AppState, j: nat)
    requires j >= |s.playing|
    ensures FlagAt(PlayAll(s).playing, j) == Hole
    ensures Live(FlagAt(PlayAll(s).playing, j))
  {
  }

  /** One slot of the shared frequency store: the last average and bins a renderer reported. */
  datatype Sample = Sample(avg: real, bins: seq<Byte>)

  type Store = map<nat, Sample>

  /** One frame of one renderer: a live renderer reads its bins and reports them to its own slot; a frozen one does nothing. */
  function RenderFrame(r: Renderer, store: Store, bins: seq<Byte>): (s: Store)
    ensures forall k :: k != r.slot ==> (k in s <==> k in store)
    ensures forall k :: k in store && k != r.slot ==> s[k] == store[k]
    ensures Live(r.playing) ==> r.slot in s && s[r.slot] == Sample(Mean(bins), bins)
    ensures !Live(r.playing) ==> s == store
  {
    if Live(r.playing) then store[r.slot := Sample(Mean(bins), bins)] else store
  }

  /** One frame of all renderers in scene order; renderer `k` reads `frameBins[k]`. */
  function RenderAll(rs: seq<Renderer>, store: Store, frameBins: seq<seq<Byte>>): Store
    requires |frameBins| == |rs|
    decreases |rs|
  {
    if rs == [] then store
    else RenderAll(rs[1..], RenderFrame(rs[0], store, frameBins[0]), frameBins[1..])
  }

  /** Renderers with pairwise distinct slots: every slot has a single writer. */
  ghost predicate DistinctSlots(rs: seq<Renderer>) {
    forall i, j :: 0 <= i < j < |rs| ==> rs[i].slot != rs[j].slot
  }

  /**
   After a frame, the slot of each live renderer holds exactly what that
   renderer read, and slots no renderer owns are untouched.
   */
  lemma {:induction false} RenderAllSlots(rs: seq<Renderer>, store: Store, frameBins: seq<seq<Byte>>)
    requires |frameBins| == |rs| && DistinctSlots(rs)
    ensures var out := RenderAll(rs, store, frameBins);
      && (forall i :: 0 <= i < |rs| && Live(rs[i].playing) ==>
            rs[i].slot in out && out[rs[i].slot] == Sample(Mean(frameBins[i]), frameBins[i]))
      && (forall k :: (forall i :: 0 <= i < |rs| ==> rs[i].slot != k) ==>
            (k in out <==> k in store) && (k in store ==> out[k] == store[k]))
    decreases |rs|
  {
    if rs != [] {
      var mid := RenderFrame(rs[0], store, frameBins[0]);
      RenderAllSlots(rs[1..], mid, frameBins[1..]);
      var out := RenderAll(rs, store, frameBins);
      assert out == RenderAll(rs[1..], mid, frameBins[1..]);
      forall i | 0 <= i < |rs| && Live(rs[i].playing)
        ensures rs[i].slot in out && out[rs[i].slot] == Sample(Mean(frameBins[i]), frameBins[i])
      {
        if i == 0 {
          forall j | 0 <= j < |rs[1..]|
            ensures rs[1..][j].slot != rs[0].slot
          {
            assert rs[1..][j] == rs[j + 1];
          }
        } else {
          assert rs[1..][i - 1] == rs[i] && frameBins[1..][i - 1] == frameBins[i];
        }
      }
      forall k | forall i :: 0 <= i < |rs| ==> rs[i].slot != k
        ensures (k in out <==> k in store) && (k in store ==> out[k] == store[k])
      {
        assert rs[0].slot != k;
        forall j | 0 <= j < |rs[1..]|
          ensures rs[1..][j].slot != k
        {
          assert rs[1..][j] == rs[j + 1];
        }
      }
    }
  }

  /** The composed scene gives every track its own slot, numbered by index. */
  lemma ComposedSlotsDistinct(tracks: seq<Track>, flags: seq<Flag>, sel: Option<nat>)
    ensures DistinctSlots(Compose(true, tracks, flags, sel).renderers)
  {
  }
}
