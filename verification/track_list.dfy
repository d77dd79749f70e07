/**
 The track-list state of the application shell: the list of tracks, the
 parallel list of per-track playing flags, the "all playing" flag and the
 track selected for camera zoom, with one pure transition per UI event.

 The flag list is a JavaScript array, so it can hold `null`, booleans and
 holes (`undefined`). Only `tracks` grows and shrinks; the flag list is
 never extended by an upload nor spliced by a removal; the lemmas of
 `TrackListProps` exhibit the resulting misalignment.
 */
module TrackList {
  import opened Wrappers

  /** One slot of a JavaScript array of playing flags. */
  datatype Flag = Hole | Null | Val(b: bool)

  /** JavaScript truthiness of a flag: only `true` is truthy. */
  predicate Truthy(f: Flag) {
    f == Val(true)
  }

  /** JavaScript `!f`. */
  function Not(f: Flag): (r: bool)
    ensures r <==> !Truthy(f)
  {
    match f
    case Val(b) => !b
    case _ => true
  }

  /** Reading index `i` of a JavaScript array: past the end reads `undefined`. */
  function FlagAt(flags: seq<Flag>, i: nat): Flag {
    if i < |flags| then flags[i] else Hole
  }

  /** A track's source: a bundled asset path or an object URL handed out by the browser. */
  datatype Url = Static(path: string) | Blob(id: nat)

  /** JavaScript truthiness of a url string: object URLs are never empty. */
  predicate UrlTruthy(u: Url) {
    u.Blob? || u.path != ""
  }

  datatype Track = Track(url: Url, name: string, isObject: bool)

  /** A file offered by the file input or a drop: its media type and its name. */
  datatype File = File(mime: string, name: string)

  /**
   The application state. `nextBlob` stands for the browser's supply of fresh
   object URLs and `revoked` records every `URL.revokeObjectURL` call in order.
   */
  datatype AppState = AppState(
    tracks: seq<Track>,
    playing: seq<Flag>,
    allPlaying: Flag,
    selectedZoom: Option<nat>,
    nextBlob: nat,
    revoked: seq<Url>
  )

  const DefaultTracks: seq<Track> := [
    Track(Static("/audio/synth.mp3"), "synth.mp3", false),
    Track(Static("/audio/snare.mp3"), "snare.mp3", false),
    Track(Static("/audio/drums.mp3"), "drums.mp3", false)
  ]

  /** The state on first render: the three demo tracks, each with a `null` flag. */
  function Initial(): (s: AppState)
    ensures |s.tracks| == |s.playing| == 3
    ensures forall i :: 0 <= i < |s.playing| ==> s.playing[i] == Null
    ensures forall i :: 0 <= i < |s.tracks| ==> !s.tracks[i].isObject
    ensures s.allPlaying == Null && s.selectedZoom == None && s.revoked == []
  {
    AppState(DefaultTracks, seq(|DefaultTracks|, _ => Null), Null, None, 0, [])
  }

  // ----- upload -----------------------------------------------------------

  predicate StartsWithAudio(mime: string) {
    |mime| >= 5 && mime[..5] == "audio"
  }

  function LowerChar(c: char): char {
    if 'A' <= c <= 'Z' then (c as int + 32) as char else c
  }

  function Lower(s: string): (r: string)
    ensures |r| == |s|
    ensures forall i :: 0 <= i < |s| ==> r[i] == LowerChar(s[i])
  {
    seq(|s|, i requires 0 <= i < |s| => LowerChar(s[i]))
  }

  /** The regular expression `/\.mp3$/i`, matched character by character. */
  predicate EndsWithMp3(name: string) {
    var n := |name|;
    && n >= 4
    && name[n - 4] == '.'
    && LowerChar(name[n - 3]) == 'm'
    && LowerChar(name[n - 2]) == 'p'
    && name[n - 1] == '3'
  }

  /** The upload filter: an audio media type, or a name ending in `.mp3` in any case. */
  predicate Accepts(f: File)
    ensures Accepts(f) <==>
      || (|f.mime| >= 5 && f.mime[..5] == "audio")
      || (|f.name| >= 4 && Lower(f.name[|f.name| - 4..]) == ".mp3")
  {
    StartsWithAudio(f.mime) || EndsWithMp3(f.name)
  }

  /** The files of a selection that pass the upload filter, in their original order. */
  function Filter(files: seq<File>): (r: seq<File>)
    ensures |r| <= |files|
    ensures forall x :: x in r ==> x in files && Accepts(x)
    ensures forall f :: f in files && Accepts(f) ==> f in r
  {
    if files == [] then []
    else if Accepts(files[0]) then [files[0]] + Filter(files[1..])
    else Filter(files[1..])
  }

  /** The track records made for the accepted files, numbered from the next fresh object URL. */
  function Uploads(accepted: seq<File>, next: nat): seq<Track> {
    seq(|accepted|, k requires 0 <= k < |accepted| => Track(Blob(next + k), accepted[k].name, true))
  }

  /** Handling a file selection or drop. */
  function OnFiles(s: AppState, files: seq<File>): (r: AppState)
    ensures Filter(files) == [] ==> r == s
    ensures |r.tracks| == |s.tracks| + |Filter(files)|
    ensures r.tracks[..|s.tracks|] == s.tracks
    ensures forall k :: 0 <= k < |Filter(files)| ==>
              var t := r.tracks[|s.tracks| + k];
              t.isObject && t.name == Filter(files)[k].name && t.url == Blob(s.nextBlob + k)
    ensures r.playing == s.playing && r.allPlaying == s.allPlaying
    ensures r.selectedZoom == s.selectedZoom && r.revoked == s.revoked
  {
    var accepted := Filter(files);
    if |accepted| == 0 then s
    else s.(tracks := s.tracks + Uploads(accepted, s.nextBlob),
            nextBlob := s.nextBlob + |accepted|)
  }

  // ----- removal ----------------------------------------------------------

  /** Whether removing the track would call `URL.revokeObjectURL` on its url. */
  predicate Revocable(t: Track) {
    t.isObject && UrlTruthy(t.url)
  }

  /** Handling the Remove button of track `index`. */
  function RemoveTrack(s: AppState, index: nat): (r: AppState)
    ensures index < |s.tracks| ==> r.tracks == s.tracks[..index] + s.tracks[index + 1..]
    ensures index >= |s.tracks| ==> r.tracks == s.tracks
    ensures index < |s.tracks| && Revocable(s.tracks[index]) ==> r.revoked == s.revoked + [s.tracks[index].url]
    ensures !(index < |s.tracks| && Revocable(s.tracks[index])) ==> r.revoked == s.revoked
    ensures r.playing == s.playing && r.allPlaying == s.allPlaying
    ensures r.selectedZoom == s.selectedZoom && r.nextBlob == s.nextBlob
  {
    if index < |s.tracks| then
      var t := s.tracks[index];
      s.(tracks := s.tracks[..index] + s.tracks[index + 1..],
         revoked := if Revocable(t) then s.revoked + [t.url] else s.revoked)
    else s
  }

  // ----- playing flags ----------------------------------------------------

  /** The label of the Play/Pause All button. */
  function PlayAllLabel(s: AppState): string {
    if Truthy(s.allPlaying) then "Pause All" else "Play All"
  }

  /** `s.map(() => next)`: every present entry becomes `next`; holes are skipped and stay holes. */
  function SetPresent(flags: seq<Flag>, next: bool): (r: seq<Flag>)
    ensures |r| == |flags|
    ensures forall i :: 0 <= i < |flags| ==> r[i] == (if flags[i] == Hole then Hole else Val(next))
  {
    seq(|flags|, i requires 0 <= i < |flags| => if flags[i] == Hole then Hole else Val(next))
  }

  /** Handling the Play/Pause All button. */
  function PlayAll(s: AppState): (r: AppState)
    ensures Truthy(r.allPlaying) != Truthy(s.allPlaying)
    ensures r.allPlaying != Null && r.allPlaying != Hole
    ensures |r.playing| == |s.playing|
    ensures forall i :: 0 <= i < |s.playing| && s.playing[i] != Hole ==> r.playing[i] == r.allPlaying
    ensures forall i :: 0 <= i < |s.playing| && s.playing[i] == Hole ==> r.playing[i] == Hole
    ensures r.tracks == s.tracks && r.selectedZoom == s.selectedZoom
    ensures r.nextBlob == s.nextBlob && r.revoked == s.revoked
  {
    var next := Not(s.allPlaying);
    s.(allPlaying := Val(next), playing := SetPresent(s.playing, next))
  }

  /** `n` holes: what a JavaScript array gains when written past its end. */
  function Holes(n: nat): (r: seq<Flag>)
    ensures |r| == n && forall k :: 0 <= k < n ==> r[k] == Hole
  {
    seq(n, _ => Hole)
  }

  /** `next = s.slice(); next[i] = !next[i]` on a JavaScript array. */
  function ToggleFlags(flags: seq<Flag>, i: nat): (r: seq<Flag>)
    ensures |r| == if i < |flags| then |flags| else i + 1
    ensures r[i] == Val(!Truthy(FlagAt(flags, i)))
    ensures forall j: nat :: j != i ==> FlagAt(r, j) == FlagAt(flags, j)
  {
    if i < |flags| then flags[i := Val(Not(flags[i]))]
    else flags + Holes(i - |flags|) + [Val(true)]
  }

  /** Handling the Play/Pause button of track `i`. */
  function Toggle(s: AppState, i: nat): (r: AppState)
    ensures FlagAt(r.playing, i) == Val(!Truthy(FlagAt(s.playing, i)))
    ensures forall j: nat :: j != i ==> FlagAt(r.playing, j) == FlagAt(s.playing, j)
    ensures r.tracks == s.tracks && r.allPlaying == s.allPlaying
    ensures r.selectedZoom == s.selectedZoom && r.nextBlob == s.nextBlob && r.revoked == s.revoked
  {
    s.(playing := ToggleFlags(s.playing, i))
  }

  // ----- zoom selection ---------------------------------------------------

  /** Whether the zoom radio button of row `j` is checked (`selectedZoom === j`). */
  predicate RadioChecked(s: AppState, j: nat) {
    s.selectedZoom == Some(j)
  }

  /** Handling a click on the zoom radio button of row `i`. */
  function SelectZoom(s: AppState, i: nat): (r: AppState)
    ensures forall j: nat :: RadioChecked(r, j) <==> j == i
    ensures r.tracks == s.tracks && r.playing == s.playing && r.allPlaying == s.allPlaying
    ensures r.nextBlob == s.nextBlob && r.revoked == s.revoked
  {
    s.(selectedZoom := Some(i))
  }

  // ----- unmount ----------------------------------------------------------

  /** The urls revoked by walking `captured` and revoking every revocable entry, in order. */
  function RevokeAll(captured: seq<Track>): (r: seq<Url>)
    ensures |r| <= |captured|
    ensures forall u :: u in r ==> exists t :: t in captured && Revocable(t) && t.url == u
    ensures forall t :: t in captured && Revocable(t) ==> t.url in r
  {
    if captured == [] then []
    else (if Revocable(captured[0]) then [captured[0].url] else []) + RevokeAll(captured[1..])
  }
}
