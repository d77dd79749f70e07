# Track-list and audio-reactive state of the baked-texture audio visualizer

This project models, in Dafny, the state logic of a browser audio
visualizer. Users drop audio files into a panel. Each track gets a bar or
line renderer placed around a 3D model. The camera zooms with the loudness
of a selected track. The model covers:

- **Track panel** (`TrackList`, `TrackListProps`; `src/App.jsx`). The state
  is the track list, the parallel array of playing flags, the
  "all playing" flag and the zoom selection. There is one pure transition
  per UI event: file selection or drop, Remove, Play/Pause All, the
  per-track toggle and the zoom radio. Unmount cleanup is modelled too.
  JavaScript array semantics are kept:
  - A flag is `null`, a boolean, or a hole (`undefined`).
  - Writing past the end of the array extends it with holes.
  - `Array.prototype.map` skips holes.
  - Object URLs are fresh numbered `Blob` urls, and every revocation is
    recorded in the state.
- **Loading overlay** (`LoadingProgress`, `LoadingProgressProps`;
  `src/components/LoadingScreen.jsx`). The overlay holds a percentage, a
  visibility flag and a pending hide timer. A render with new loader values
  commits the effect on `active` (after its previous cleanup) and then the
  effect on `progress`/`active`. The timer firing is a separate event.
- **Track scene** (`Layout`; `src/components/Tracks.jsx`). It maps the track
  list to one renderer per track:
  - scale `21 + 10·i` and y-rotation `10·i`;
  - bars for even `i`, a line for odd `i`;
  - the track's flag.

  It also covers the shared frequency store. Each live renderer writes
  only its own slot every frame. Following the renderer's `playing = true`
  default, a missing flag plays and a `null` flag freezes.
- **Audio readout** (`Audio`; `src/Experience.jsx`). `update` folds the
  byte bins into their mean and stores it on the buffer. Also modelled: the
  bar height `(bin / 2500) · 10` and the hues `avg / 500` (bars) and
  `(avg / 500) % 1` (lines).
- **Zoom reactor** (`Zoom`; `src/components/Zoom.jsx`). The field of view
  becomes `45 − avg / 35` when a slot is selected and filled. Otherwise it
  is left alone.
- **Click and hover state** (`Pointer`; `src/Experience.jsx`). The flags are
  `touched`, `clicked` and `play`. From them follow the overlay opacity, the
  outline, and the three demo tracks mounted once `play` is set.

All arithmetic on averages and fields of view is over `real`. Bins are
integers in [0, 255].

Three behaviours follow JavaScript and React semantics rather than a
first reading of the handlers:

- On activation the loading percentage is reset to 0, but the progress
  effect runs in the same commit. So the value after activation is
  `max(0, progress)`, not 0 (`LoadingProgress.Report`).
- The per-track toggle on an upload whose flag was never created extends
  the flag array with holes (`TrackList.ToggleFlags`).
- Play/Pause All leaves holes as holes (`TrackList.PlayAll`).

## Model

| member | source | states |
|---|---|---|
| TrackList.Initial | src/App.jsx:10-21 | The first render holds the three demo tracks. None is an upload, each has a `null` flag, nothing is selected and `allPlaying` is `null`. |
| TrackList.Not | src/App.jsx:111 | JavaScript negation of a flag is true exactly when the flag is not `true`, so `null` and `undefined` negate to `true`. |
| TrackList.Accepts | src/App.jsx:26 | A file is accepted iff its MIME type starts with `audio` or its name ends in `.mp3` in any letter case. |
| TrackList.Filter | src/App.jsx:25-27 | The accepted files are drawn from the selection and all pass the filter. Every file of the selection that passes is kept, and the result is no longer than the selection. |
| TrackList.OnFiles | src/App.jsx:24-36 | If nothing is accepted the state is unchanged. Otherwise the old tracks remain as a prefix and one upload per accepted file follows, in order. Each upload has `isObject`, the file's name and a fresh object URL. Flags, `allPlaying`, the selection and the revocation log are untouched. |
| TrackList.RemoveTrack | src/App.jsx:66-77 | An in-range index removes exactly that entry and keeps the rest in order. Out of range nothing changes. The url is revoked iff the removed entry is an upload with a truthy url. The flags are never spliced. |
| TrackList.SetPresent | src/App.jsx:113 | `map` over the flags keeps the length, sets every present entry to the new value and leaves holes as holes. |
| TrackList.PlayAll | src/App.jsx:110-114 | The aggregate flips truthiness and becomes a boolean. Every present flag takes that boolean, holes stay holes, the length is kept, and the tracks are untouched. |
| TrackList.ToggleFlags | src/App.jsx:162-166 | Reading index `i` afterwards gives the negation of what it read before. Every other index reads as before. Writing past the end extends the array to `i + 1`. |
| TrackList.Toggle | src/App.jsx:160-167 | The per-track button changes only the flag of its own track. |
| TrackList.SelectZoom | src/App.jsx:142-147 | After a radio click exactly the clicked row's radio is checked. |
| TrackList.RevokeAll | src/App.jsx:58-60 | Cleanup revokes the url of every revocable captured track, and nothing else. |
| TrackListProps.FilterAppend | src/App.jsx:25-27 | Filtering a concatenation is the concatenation of the filtered parts, so accepted files keep their relative order. |
| TrackListProps.FilterCount | src/App.jsx:25-28 | A batch adds exactly as many tracks as it has accepted files. That count is zero iff no file is accepted. |
| TrackListProps.Mp3Suffix | src/App.jsx:26 | The character-wise test equals the case-insensitive `/\.mp3$/i`: the last four characters, lower-cased, are `.mp3`. |
| TrackListProps.InitialWf | src/App.jsx:10-21 | The first render is well formed: uploads are exactly the object-URL tracks, URLs are issued and distinct, and revocations are sound. |
| TrackListProps.OnFilesPreservesWf | src/App.jsx:29-35 | Uploads get object URLs that no other track and no earlier revocation uses. |
| TrackListProps.RemovePreservesWf | src/App.jsx:68-74 | After a removal the revoked URL is no longer in use, and no URL has been revoked twice. |
| TrackListProps.RunPreservesWf | src/App.jsx:24-166 | Well-formedness survives any sequence of panel events. |
| TrackListProps.RevokedAtMostOnce | src/App.jsx:66-77 | From the first render on, every revoked url is an object URL and none is revoked twice. |
| TrackListProps.RemoveRevokesIffUpload | src/App.jsx:69-70 | In a well-formed state, removal revokes exactly when the index is in range and the track is an upload. |
| TrackListProps.RemoveIsPermutationMinusOne | src/App.jsx:71-72 | The removed entry plus the remaining list is, as a multiset, the old list. |
| TrackListProps.UploadThenRemove | src/App.jsx:29-35 | Uploading one accepted file and removing it again restores the track list and the flags. It revokes exactly the new object URL. |
| TrackListProps.RemoveShiftsTracksNotFlags | src/App.jsx:68-74 | After removing index `i`, the track at `j >= i` is the old track `j + 1`. Its flag is still the old flag `j`. |
| TrackListProps.UploadThenRemoveFirstMisaligns | src/App.jsx:35 | Upload one file, then remove the first demo track. The upload moves to index 2 and inherits the `null` flag of `drums.mp3`. Before the removal it read `undefined`. |
| TrackListProps.FlagsNeverGrowWithoutToggle | src/App.jsx:110-114 | Without per-track toggles the flag array keeps its length through uploads, removals, Play/Pause All and zoom clicks. |
| TrackListProps.ToggleTwice | src/App.jsx:162-166 | Two toggles leave the flag at the boolean of its original truthiness and change no other index. |
| TrackListProps.ToggleInvolution | src/App.jsx:162-166 | On a present boolean flag, two toggles restore the state exactly. |
| TrackListProps.PlayAllFlipsLabel | src/App.jsx:110-117 | After Play/Pause All the button reads "Pause All" iff it read "Play All" before. |
| TrackListProps.PlayAllTwice | src/App.jsx:110-114 | Once the aggregate is a boolean, two clicks restore it, and every present flag then equals it. |
| TrackListProps.CleanupOnUnmount | src/App.jsx:55-63 | The intended cleanup revokes every revocable track present at unmount, and only urls of present tracks. |
| TrackListProps.CleanupAsWritten | src/App.jsx:55-63 | The cleanup as written only revokes urls of revocable first-render demo tracks, whatever the state at unmount. |
| TrackListProps.CleanupAsWrittenLeaks | src/App.jsx:55-63 | For every state, no object URL on the list at unmount is revoked by the cleanup as written. |
| TrackListProps.CleanupLeakWitness | src/App.jsx:24-63 | After uploading `a.mp3` from the first render, its object URL `Blob(0)` is on the list and the cleanup as written does not revoke it. |
| TrackListProps.CleanupRevokesEveryUpload | src/App.jsx:57-60 | In a well-formed state the intended cleanup revokes every object URL on the list. |
| LoadingProgress.Mount | src/components/LoadingScreen.jsx:6-26 | The first commit keeps the loader values. Loading shows the overlay at `max(0, progress)` with no timer. Idle reads 100% with the hide timer armed and the overlay not yet shown. |
| LoadingProgress.ActiveEffect | src/components/LoadingScreen.jsx:9-20 | Activation resets to 0 and shows the overlay. Deactivation forces 100, arms the hide timer and keeps the overlay as it was. |
| LoadingProgress.ProgressEffect | src/components/LoadingScreen.jsx:22-26 | While loading, the percentage never decreases and reaches at least the progress. It becomes one of the two values. While idle nothing changes. |
| LoadingProgress.Report | src/components/LoadingScreen.jsx:9-26 | A render with new loader values behaves as follows. Activation gives `max(0, progress)`, shown, no timer. Continued loading gives the max of old and new. Idle reports change nothing but the recorded progress. A report that keeps `active` leaves visibility and the timer alone. Finishing gives 100 with the timer armed and visibility unchanged. Unchanged values commit nothing. A report never hides the overlay. |
| LoadingProgress.TimerFires | src/components/LoadingScreen.jsx:17-18 | A pending timer hides the overlay. A cleared timer does nothing. |
| LoadingProgressProps.MountEstablishesInv | src/components/LoadingScreen.jsx:6-26 | After the first commit, the overlay is shown with no pending hide and at least the progress while loading. It reads 100% when idle. |
| LoadingProgressProps.StepPreservesInv | src/components/LoadingScreen.jsx:9-26 | Each report or timer firing preserves that invariant. |
| LoadingProgressProps.RunPreservesInv | src/components/LoadingScreen.jsx:9-26 | The invariant survives any sequence of reports and timer firings. |
| LoadingProgressProps.ReachableInv | src/components/LoadingScreen.jsx:6-26 | Every state reachable from the first commit satisfies the invariant. |
| LoadingProgressProps.NeverDecreasesWhileLoading | src/components/LoadingScreen.jsx:22-26 | During one loading phase the percentage never drops. It ends at least at the last reported progress. |
| LoadingProgressProps.OnlyTheTimerHides | src/components/LoadingScreen.jsx:9-20 | Loader reports alone never hide a shown overlay. |
| LoadingProgressProps.FinishThenTimerHides | src/components/LoadingScreen.jsx:14-17 | Finishing and then the timer leaves the overlay at 100% and hidden. |
| LoadingProgressProps.RestartCancelsHide | src/components/LoadingScreen.jsx:17-18 | Loading that restarts before the timer fires cancels the hide, and the overlay stays shown. |
| Layout.Compose | src/components/Tracks.jsx:9-45 | Without `playUI` nothing is rendered. With it there is one renderer per track, in order, with: the track's url, slot `i`, flag `playingStates[i]`, scale `21 + 10·i`, rotation `10·i`, bars iff `i` is even, and the zoom reactor on the selection. |
| Layout.ScaleStrictlyIncreasing | src/components/Tracks.jsx:14 | Later tracks are drawn strictly larger. |
| Layout.VariantsAlternate | src/components/Tracks.jsx:15-18 | Neighbouring tracks use different renderer variants. |
| Layout.DemoFrozenUploadLive | src/components/Track.jsx:14-53 | With the first-render flags, a demo track (`null`) is frozen. An upload, whose flag reads `undefined`, gets the default `playing = true` and runs. |
| Layout.PauseAllNeverPausesUpload | src/App.jsx:110-114 | An upload's flag slot lies past the end of `playingStates`, so Play/Pause All leaves it a hole and the renderer's `playing = true` default keeps it live: Pause All never pauses an upload. |
| Layout.RenderFrame | src/components/Tracks.jsx:25-27 | A live renderer writes its average and bins to its own slot only. A frozen one leaves the store alone. |
| Layout.RenderAllSlots | src/components/Tracks.jsx:12-43 | After one frame, every live renderer's slot holds exactly what it read, and slots no renderer owns are untouched. |
| Layout.ComposedSlotsDistinct | src/components/Tracks.jsx:25-38 | Every slot has a single writer. |
| Audio.Update | src/Experience.jsx:330-336 | The fold returns the arithmetic mean of the bins (0 for none), stores it on the buffer, and lies in [0, 255]. |
| Audio.MeanBounds | src/Experience.jsx:323-336 | The mean of byte bins lies in [0, 255]. |
| Audio.BarScale | src/Experience.jsx:282 | With the default `y = 2500` a bar's vertical scale lies in [0, 255/250]. |
| Audio.BarScaleMonotone | src/Experience.jsx:282 | A louder bin gives a strictly taller bar. |
| Audio.BarHueBounds | src/Experience.jsx:287 | A byte average gives a bar hue in [0, 0.51]. |
| Audio.FracJs | src/components/LineTrack.jsx:96 | JavaScript `% 1` yields a value in (-1, 1) that is non-negative for non-negative input. |
| Audio.LineHueAgrees | src/components/LineTrack.jsx:96 | For byte averages the line hue's `% 1` never wraps, so both variants get the same hue. |
| Zoom.ZoomFrame | src/components/Zoom.jsx:4-13 | No selection or an empty slot leaves the field of view alone. Otherwise it narrows below 45 iff the average is positive and is exactly 45 iff it is 0. |
| Zoom.ZeroAverageIsBase | src/components/Zoom.jsx:8-9 | A zero average yields exactly 45. |
| Zoom.FovStrictlyDecreasing | src/components/Zoom.jsx:9 | A higher average gives a strictly smaller field of view. |
| Zoom.FovBounds | src/components/Zoom.jsx:9 | For byte averages the field of view lies in [45 − 255/35, 45]. |
| Zoom.IndexZeroSelects | src/components/Zoom.jsx:5 | Index 0 counts as a selection, because the test is against `null`, not truthiness. |
| Zoom.Frames | src/components/Zoom.jsx:5 | With nothing selected, any number of frames leaves the field of view unchanged. |
| Zoom.ZoomFollowsSelectedTrack | src/components/Tracks.jsx:12-45 | With a live track `i` selected the field of view lags one frame. A frame sets it from the sample left in slot `i` by the previous frame, or keeps it if the slot is empty. The next frame sets it to `45 − mean/35` of this frame's bins, within [45 − 255/35, 45]. |
| Pointer.Step | src/Experience.jsx:179-187 | A click sets `clicked` and `play`. Entering sets `touched`. Leaving clears `touched` and `clicked`. Nothing else changes. |
| Pointer.OverlayOpacity | src/Experience.jsx:193 | The overlay opacity is 0.1 iff the pointer is over the model, and 0 otherwise. |
| Pointer.HasOutline | src/Experience.jsx:196-198 | The outline is drawn iff the overlay tint is visible, that is, iff the pointer is over the model. |
| Pointer.MountedTracks | src/Experience.jsx:218-224 | Three demo tracks are mounted iff `play` holds. |
| Pointer.PlayIsSticky | src/Experience.jsx:179-187 | No event turns `play` off, so the mounted tracks stay mounted. |
| Pointer.PlayIffClicked | src/Experience.jsx:179-182 | `play` holds iff it held before or some click happened. |
| Pointer.TracksMountedIffEverClicked | src/Experience.jsx:218-224 | From the start, the demo tracks are mounted iff the model has ever been clicked. |
| Pointer.ClickedImpliesPlay | src/Experience.jsx:179-182 | `clicked` never holds without `play`. |

## Left out

- Audio fetch and decode, `AudioContext`, gain and analyser wiring, connect and disconnect, and resume and suspend are left out. They are browser I/O. The model takes each frame's bins as a parameter instead.
- `src/lib/CreateAudio.js`, used by the component renderers, is not part of this model. `Audio.Update` follows the `createAudio` copy in `src/Experience.jsx`.
- The decode cache of `suspend-react` is library code and is not modelled.
- Per-frame geometry is floating-point work bound to the rendering library and is left out. This covers the circle layout, `lookAt`, Catmull-Rom smoothing, the shadow line and instance matrices. Only the bar scale and hue formulas are kept.
- GSAP camera tweens, orbit-control limits, post-processing and Leva controls, and the `debug` query flag are animation and library configuration, so they are left out.
- `src/components/TexturedEnv.jsx` uses identifiers it never defines, so it is not modelled.
- The UI components under `src/components/ui/`, the bootstrap in `src/index.jsx`, styling and layout are left out.
- Playlist mode, skip controls and a mute/unmute round trip do not occur in these sources, so they are not modelled.
- `volume` is passed to every renderer (`src/components/Tracks.jsx:24`, `:35`). The line renderer sets its gain to it (`src/components/LineTrack.jsx:28-30`). The bar renderer does not read it and passes it on to the mesh (`src/components/Track.jsx:16`, `:82`). On `playing`, the bar renderer sets its gain to 1 or 0 (`src/components/Track.jsx:38-43`) and the line renderer resumes or suspends its audio context (`src/components/LineTrack.jsx:45-47`). This is audio wiring, so `Layout.Renderer` has no `volume` field.
- `playUI` is an input of `Layout.Compose`. The only call of `setPlayUI(true)` is in the click handler of `src/components/TexturedEnv.jsx:61-67`, a component left out (above) that nothing mounts. No file shown renders `<Tracks>` or `<LoadingScreen>` either (`src/Experience.jsx:119-240`, `src/App.jsx:79-207`), so `Layout` and `LoadingProgress`, like `TrackList`, model components that `src/index.jsx:19` cannot reach. The scene component shown takes no props, so nothing mounted sets `playUI` to true. The track panel of `src/App.jsx:81` is gated by `playUI` too, and `src/index.jsx:19` mounts `Experience`, not `App`. So no panel transition of `TrackList` is reachable from the entry point shown; the model states them for the component on its own.
- Layout.RenderFrame: the renderer's `update()` comes from `src/lib/CreateAudio.js`, which is not part of this model; it is taken to return the mean of the bins like the copy in `src/Experience.jsx`. The store also holds a snapshot of the bins, whereas the source stores a reference to the analyser's live buffer, which later reads overwrite.
- Zoom.ZoomFollowsSelectedTrack: the order within a frame, zoom first and renderers after, is the rendering library's order of frame callbacks by subscription. The zoom subscribes before the renderers because they suspend until their audio decodes. These sources do not show that order.
- The drag-over handler and the file input's reset are left out, because they have no state of their own.
- Zoom.ZoomFrame: `item.avg || 0` also maps `NaN` and `undefined` to 0. Every store write carries a number, so the model's average is a `real` and only the zero case is represented.
- LoadingProgress.Report: the progress value is not clamped to [0, 100], because the loader is trusted for that. The model states its claims for any real progress.

## Findings

| source | as written | input that shows it | evidently intended | confidence | as-written member | corrected member |
|---|---|---|---|---|---|---|
| src/App.jsx:55-63 | The unmount cleanup closes over the first-render `tracks`, whose entries are all bundled assets, so it revokes nothing. | Upload `a.mp3` (object URL `Blob(0)`), then unmount: the cleanup revokes `[]`. | Revoke the object URL of every upload still on the list at unmount. | medium, not executed | TrackListProps.CleanupAsWrittenLeaks | TrackListProps.CleanupOnUnmount |
