/**
 Properties of the track-list transitions: the upload filter keeps the
 selection's order, every object URL is revoked at most once, the playing
 flags drift out of step with the tracks, and the toggles round-trip.
 */
module TrackListProps {
  import opened TrackList

  // ----- the upload filter ------------------------------------------------

  /** Filtering distributes over concatenation, so accepted files keep their relative order. */
  lemma {:induction false} FilterAppend(a: seq<File>, b: seq<File>)
    ensures Filter(a + b) == Filter(a) + Filter(b)
  {
    if a == [] {
      assert a + b == b;
    } else {
      assert (a + b)[1..] == a[1..] + b;
      FilterAppend(a[1..], b);
    }
  }

  /** Counting: a batch of N accepted and M rejected files adds exactly N tracks. */
  function CountAccepted(files: seq<File>): nat {
    if files == [] then 0 else (if Accepts(files[0]) then 1 else 0) + CountAccepted(files[1..])
  }

  lemma {:induction false} FilterCount(files: seq<File>)
    ensures |Filter(files)| == CountAccepted(files)
    ensures CountAccepted(files) == 0 <==> forall f :: f in files ==> !Accepts(f)
  {
    if files != [] {
      FilterCount(files[1..]);
      assert forall f :: f in files <==> f == files[0] || f in files[1..];
    }
  }

  /** The character-wise match is the regular expression `/\.mp3$/i`: the last four characters, lower-cased, are `.mp3`. */
  lemma Mp3Suffix(name: string)
    ensures EndsWithMp3(name) <==> |name| >= 4 && Lower(name[|name| - 4..]) == ".mp3"
  {
  }

  // ----- well-formedness --------------------------------------------------

  /** Uploads, and only uploads, carry object URLs, and those were handed out before `nextBlob`. */
  ghost predicate UrlsIssued(s: AppState) {
    forall i :: 0 <= i < |s.tracks| ==>
      && (s.tracks[i].isObject <==> s.tracks[i].url.Blob?)
      && (s.tracks[i].url.Blob? ==> s.tracks[i].url.id < s.nextBlob)
  }

  /** No two tracks share an object URL. */
  ghost predicate UrlsDistinct(s: AppState) {
    forall i, j :: 0 <= i < |s.tracks| && 0 <= j < |s.tracks| && i != j && s.tracks[i].url.Blob? ==>
      s.tracks[i].url != s.tracks[j].url
  }

  /** Revoked URLs are issued object URLs, none of them still in use, none revoked twice. */
  ghost predicate RevocationsSound(s: AppState) {
    && (forall k :: 0 <= k < |s.revoked| ==> s.revoked[k].Blob? && s.revoked[k].id < s.nextBlob)
    && (forall k, i :: 0 <= k < |s.revoked| && 0 <= i < |s.tracks| ==> s.revoked[k] != s.tracks[i].url)
    && (forall k, l :: 0 <= k < l < |s.revoked| ==> s.revoked[k] != s.revoked[l])
  }

  ghost predicate Wf(s: AppState) {
    UrlsIssued(s) && UrlsDistinct(s) && RevocationsSound(s)
  }

  lemma InitialWf()
    ensures Wf(Initial())
  {
  }

  lemma OnFilesPreservesWf(s: AppState, files: seq<File>)
    requires Wf(s)
    ensures Wf(OnFiles(s, files))
  {
  }

  lemma RemovePreservesWf(s: AppState, index: nat)
    requires Wf(s)
    ensures Wf(RemoveTrack(s, index))
  {
  }

  /** The UI events of the track panel. */
  datatype Event =
    | Select(files: seq<File>)
    | Remove(index: nat)
    | PlayAllClick
    | ToggleClick(track: nat)
    | ZoomClick(row: nat)

  function Step(s: AppState, e: Event): AppState {
    match e
    case Select(files) => OnFiles(s, files)
    case Remove(index) => RemoveTrack(s, index)
    case PlayAllClick => PlayAll(s)
    case ToggleClick(i) => Toggle(s, i)
    case ZoomClick(i) => SelectZoom(s, i)
  }

  function Run(s: AppState, events: seq<Event>): AppState
    decreases |events|
  {
    if events == [] then s else Run(Step(s, events[0]), events[1..])
  }

  lemma StepPreservesWf(s: AppState, e: Event)
    requires Wf(s)
    ensures Wf(Step(s, e))
  {
    match e
    case Select(files) => OnFilesPreservesWf(s, files);
    case Remove(index) => RemovePreservesWf(s, index);
    case _ =>
  }

  /** Every state reachable from the first render is well formed. */
  lemma {:induction false} RunPreservesWf(s: AppState, events: seq<Event>)
    requires Wf(s)
    ensures Wf(Run(s, events))
    decreases |events|
  {
    if events != [] {
      StepPreservesWf(s, events[0]);
      RunPreservesWf(Step(s, events[0]), events[1..]);
    }
  }

  /** Removing a track releases its object URL exactly once: never an unissued URL, never twice. */
  lemma RevokedAtMostOnce(events: seq<Event>)
    ensures var s := Run(Initial(), events);
      && (forall k, l :: 0 <= k < l < |s.revoked| ==> s.revoked[k] != s.revoked[l])
      && (forall k :: 0 <= k < |s.revoked| ==> s.revoked[k].Blob?)
  {
    InitialWf();
    RunPreservesWf(Initial(), events);
  }

  /** Under well-formedness, removal revokes exactly when the removed track is an upload. */
  lemma RemoveRevokesIffUpload(s: AppState, index: nat)
    requires Wf(s)
    ensures |RemoveTrack(s, index).revoked| == |s.revoked| + 1
        <==> index < |s.tracks| && s.tracks[index].isObject
  {
  }

  /** Removal drops exactly one entry: the removed track together with the rest is the old list. */
  lemma RemoveIsPermutationMinusOne(s: AppState, index: nat)
    requires index < |s.tracks|
    ensures multiset(RemoveTrack(s, index).tracks) + multiset{s.tracks[index]} == multiset(s.tracks)
  {
    assert s.tracks == s.tracks[..index] + [s.tracks[index]] + s.tracks[index + 1..];
  }

  /** Uploading one audio file and removing it again restores the track list and revokes its URL. */
  lemma UploadThenRemove(s: AppState, f: File)
    requires Accepts(f)
    ensures var r := RemoveTrack(OnFiles(s, [f]), |s.tracks|);
      && r.tracks == s.tracks
      && r.revoked == s.revoked + [Blob(s.nextBlob)]
      && r.playing == s.playing
  {
  }

  // ----- flags out of step with tracks ------------------------------------

  /** After removing `index`, the track now at `j >= index` is the old track `j + 1`, but its flag is still the old flag `j`. */
  lemma RemoveShiftsTracksNotFlags(s: AppState, index: nat, j: nat)
    requires index <= j < |s.tracks| - 1
    ensures RemoveTrack(s, index).tracks[j] == s.tracks[j + 1]
    ensures FlagAt(RemoveTrack(s, index).playing, j) == FlagAt(s.playing, j)
  {
  }

  /** A concrete instance: upload one file, remove the first demo track; the upload inherits the `null` flag of "drums.mp3". */
  lemma UploadThenRemoveFirstMisaligns()
    ensures var s := OnFiles(Initial(), [File("audio/mpeg", "a.mp3")]);
      var r := RemoveTrack(s, 0);
      && FlagAt(s.playing, 3) == Hole
      && s.tracks[2].name == "drums.mp3"
      && r.tracks[2].name == "a.mp3"
      && FlagAt(r.playing, 2) == Null
  {
  }

  /** Without per-track toggles the flag list keeps its first-render length, so every upload reads `undefined`. */
  lemma {:induction false} FlagsNeverGrowWithoutToggle(s: AppState, events: seq<Event>)
    requires forall k :: 0 <= k < |events| ==> !events[k].ToggleClick?
    ensures |Run(s, events).playing| == |s.playing|
    decreases |events|
  {
    if events != [] {
      FlagsNeverGrowWithoutToggle(Step(s, events[0]), events[1..]);
    }
  }

  // ----- toggles ----------------------------------------------------------

  /** Two toggles of a track leave it at the truthiness it started with and touch nothing else. */
  lemma ToggleTwice(s: AppState, i: nat)
    ensures FlagAt(Toggle(Toggle(s, i), i).playing, i) == Val(Truthy(FlagAt(s.playing, i)))
    ensures forall j: nat :: j != i ==> FlagAt(Toggle(Toggle(s, i), i).playing, j) == FlagAt(s.playing, j)
  {
  }

  /** On a present boolean flag two toggles restore the state exactly. */
  lemma ToggleInvolution(s: AppState, i: nat)
    requires i < |s.playing| && s.playing[i].Val?
    ensures Toggle(Toggle(s, i), i) == s
  {
  }

  /** Play/Pause All flips the button label. */
  lemma PlayAllFlipsLabel(s: AppState)
    ensures PlayAllLabel(PlayAll(s)) == "Pause All" <==> PlayAllLabel(s) == "Play All"
  {
  }

  /** Once `allPlaying` holds a boolean, two clicks of Play/Pause All restore it. */
  lemma PlayAllTwice(s: AppState)
    requires s.allPlaying.Val?
    ensures PlayAll(PlayAll(s)).allPlaying == s.allPlaying
    ensures forall i :: 0 <= i < |s.playing| && s.playing[i] != Hole ==> PlayAll(PlayAll(s)).playing[i] == s.allPlaying
  {
  }

  // ----- unmount cleanup --------------------------------------------------

  /** The unmount cleanup as written: its closure captured the first-render track list. */
  function CleanupAsWritten(s: AppState): (r: seq<Url>)
    ensures forall u :: u in r ==> exists t :: t in DefaultTracks && Revocable(t) && t.url == u
  {
    RevokeAll(Initial().tracks)
  }

  /** The cleanup as intended: revoke the object URLs of the tracks present at unmount. */
  function CleanupOnUnmount(s: AppState): (r: seq<Url>)
    ensures forall i :: 0 <= i < |s.tracks| && Revocable(s.tracks[i]) ==> s.tracks[i].url in r
    ensures forall u :: u in r ==> exists i :: 0 <= i < |s.tracks| && s.tracks[i].url == u
  {
    RevokeAll(s.tracks)
  }

  /** The cleanup as written revokes none of the object URLs on the list, whatever the state at unmount. */
  lemma CleanupAsWrittenLeaks(s: AppState)
    ensures forall i :: 0 <= i < |s.tracks| && s.tracks[i].url.Blob? ==> s.tracks[i].url !in CleanupAsWritten(s)
  {
  }

  /** Such a state exists: after one upload, the cleanup as written leaves `Blob(0)` unrevoked. */
  lemma CleanupLeakWitness()
    ensures var s := OnFiles(Initial(), [File("audio/mpeg", "a.mp3")]);
      && s.tracks[3].url == Blob(0)
      && Blob(0) !in CleanupAsWritten(s)
  {
  }

  /** The intended cleanup revokes every object URL still on the list. */
  lemma CleanupRevokesEveryUpload(s: AppState)
    requires Wf(s)
    ensures forall i :: 0 <= i < |s.tracks| && s.tracks[i].url.Blob? ==> s.tracks[i].url in CleanupOnUnmount(s)
  {
  }
}
