/**
 * The track list (`TrackList.tsx`): the per-track download state, the
 * single and bulk download handlers, the aggregates shown in the header,
 * and the decoding of the downloaded data URL into the bytes that are saved.
 *
 * The server action is an input (`Await<ActionResult>`); what the
 * component does to the world (calling the action, saving a file, showing
 * a toast, pausing) is recorded as a list of events.
 */
module TrackList {
  import opened Wrappers
  import opened Types
  import Text
  import Base64
  import Actions
  import TrackItem
  import DownloadRoute
  import Sequences

  /** The pause between two downloads of a bulk download. */
  const PauseMs := 300

  /** The content type given to the saved blob. */
  const AudioType := "audio/mpeg"

  /** The message of the exception `window.atob` throws on text that is not base 64, as a Chromium browser words it. */
  const InvalidEncodingMessage := "Failed to execute 'atob' on 'Window': The string to be decoded is not correctly encoded."

  /** A file's bytes with its content type. */
  datatype Blob = Blob(bytes: seq<Base64.Byte>, mimeType: string)

  /** What the component does to the world, in order. */
  datatype Event =
    | ServerCall(trackId: string)
    | SaveFile(name: string, blob: Blob)
    | Toast(title: string, description: string)
    | Pause(ms: int)

  /** The ids of a list of tracks. */
  function TrackIds(tracks: seq<Track>): set<string>
  {
    set t | t in tracks :: t.id
  }

  /** No id occurs twice in the list. */
  predicate Distinct(tracks: seq<Track>)
  {
    forall i, j :: 0 <= i < j < |tracks| ==> tracks[i].id != tracks[j].id
  }

  /** Status and progress go together: idle/0, downloading/50, completed/100, error/0. */
  predicate Paired(s: TrackDownloadState)
  {
    match s.status
    case Idle => s.progress == 0
    case Downloading => s.progress == 50
    case Completed => s.progress == 100
    case Error => s.progress == 0
  }

  // ---------------------------------------------------------------------
  // The initial state

  /** `initializeTrackStates`: every track of the list starts idle, with no progress. */
  method InitializeTrackStates(tracks: seq<Track>) returns (states: map<string, TrackDownloadState>)
    ensures states.Keys == TrackIds(tracks)
    ensures forall id :: id in states ==> states[id] == TrackDownloadState(Idle, 0)
  {
    states := map[];
    for i := 0 to |tracks|
      invariant states.Keys == TrackIds(tracks[..i])
      invariant forall id :: id in states ==> states[id] == TrackDownloadState(Idle, 0)
    {
      assert tracks[..i + 1] == tracks[..i] + [tracks[i]];
      states := states[tracks[i].id := TrackDownloadState(Idle, 0)];
    }
    assert tracks[..|tracks|] == tracks;
  }

  // ---------------------------------------------------------------------
  // From the data URL to the saved bytes

  /** `content.split(',')[1]`: the text after the first ',' up to the next one, or "undefined" when there is none. */
  function ClientBody(content: string): string
  {
    var parts := Text.Split(content, ',');
    if |parts| >= 2 then parts[1] else "undefined"
  }

  /** The bytes the client takes from a file's content; None when `atob` throws. */
  function ClientBytes(content: string): Option<seq<Base64.Byte>>
  {
    Base64.Decode(ClientBody(content))
  }

  /** `atob`: the decoded bytes as a string of characters below 256, or None for a throw. */
  function Atob(s: string): (r: Option<string>)
    ensures r.None? <==> Base64.Decode(s).None?
    ensures r.Some? ==> (|r.value| == |Base64.Decode(s).value| &&
      forall k :: 0 <= k < |r.value| ==> r.value[k] as int == Base64.Decode(s).value[k])
  {
    match Base64.Decode(s)
    case None => None
    case Some(b) => Some(seq(|b|, i requires 0 <= i < |b| => b[i] as char))
  }

  /** `atob` reads base 64 text of any bytes back as one character per byte, with that byte as its code. */
  lemma AtobReadsEncoded(b: seq<Base64.Byte>)
    ensures Atob(Base64.Encode(b)).Some?
    ensures |Atob(Base64.Encode(b)).value| == |b|
    ensures forall k :: 0 <= k < |b| ==> Atob(Base64.Encode(b)).value[k] as int == b[k]
  {
    Base64.DecodeEncode(b);
  }

  /** `base64ToBlob`: decode the body of a data URL and copy its character codes into a byte array. */
  method Base64ToBlob(content: string, mimeType: string) returns (blob: Option<Blob>)
    ensures blob.None? <==> ClientBytes(content).None?
    ensures blob.Some? ==> blob.value == Blob(ClientBytes(content).value, mimeType)
  {
    var byteCharacters := Atob(ClientBody(content));
    if byteCharacters.None? {
      return None;
    }
    var chars := byteCharacters.value;
    var byteNumbers := new Base64.Byte[|chars|];
    for i := 0 to |chars|
      invariant forall k :: 0 <= k < i ==> byteNumbers[k] == chars[k] as int
    {
      byteNumbers[i] := chars[i] as int;
    }
    assert byteNumbers[..] == ClientBytes(content).value;
    blob := Some(Blob(byteNumbers[..], mimeType));
  }

  /** The client reads back exactly the bytes the server action put in the data URL. */
  lemma ClientReadsDataUrl(bytes: seq<Base64.Byte>)
    ensures ClientBody(Actions.DataUrl(bytes)) == Base64.Encode(bytes)
    ensures ClientBytes(Actions.DataUrl(bytes)) == Some(bytes)
  {
    Actions.DataUrlSplits(bytes);
  }

  /** Content without a ',' makes `atob` throw: "undefined" is not base 64. */
  lemma NoCommaThrows(content: string)
    requires ',' !in content
    ensures ClientBytes(content).None?
  {
    Text.SplitNoSeparator(content, ',');
  }

  // ---------------------------------------------------------------------
  // One download

  /** The name the client saves a track under: artist first, then title. */
  function SaveName(track: Track): string
  {
    track.artist + " - " + track.title + ".mp3"
  }

  /** The end of a download: the track's final entry and the events after the server call. */
  datatype Attempt = Attempt(final: TrackDownloadState, events: seq<Event>)

  /** The catch block: the track fails and a toast names it and the error. */
  function Failed(track: Track, message: string): Attempt
  {
    Attempt(TrackDownloadState(Error, 0),
      [Toast("Download Error", "Could not download \"" + track.title + "\". " + message)])
  }

  /** The `try` block after the server call settles. */
  function Attempted(track: Track, outcome: Await<Actions.ActionResult>): Attempt
  {
    match outcome
    case Rejected(m) => Failed(track, m)
    case Resolved(r) =>
      if r.success && r.file.Some? then
        match ClientBytes(r.file.value.content)
        case None => Failed(track, InvalidEncodingMessage)
        case Some(bytes) => Attempt(TrackDownloadState(Completed, 100), [SaveFile(SaveName(track), Blob(bytes, AudioType))])
      else Failed(track, OrElse(r.error, "Download failed."))
  }

  /**
   * A download ends completed with progress 100 exactly when the action
   * succeeded with a file whose content decodes, and then saves those bytes
   * under "artist - title.mp3"; otherwise it ends in error with progress 0
   * and one toast, whose message is the thrown message, the result's error
   * or "Download failed.".
   */
  lemma AttemptOutcome(track: Track, outcome: Await<Actions.ActionResult>)
    ensures var a := Attempted(track, outcome);
      (a.final.status == Completed <==>
        outcome.Resolved? && outcome.value.success && outcome.value.file.Some? &&
        ClientBytes(outcome.value.file.value.content).Some?)
    ensures var a := Attempted(track, outcome);
      a.final.status == Completed ==>
        a.final.progress == 100 &&
        a.events == [SaveFile(SaveName(track), Blob(ClientBytes(outcome.value.file.value.content).value, AudioType))]
    ensures var a := Attempted(track, outcome);
      a.final.status != Completed ==> a.final == TrackDownloadState(Error, 0) && |a.events| == 1 && a.events[0].Toast?
    ensures outcome.Resolved? && !(outcome.value.success && outcome.value.file.Some?) ==>
      Attempted(track, outcome) == Failed(track, OrElse(outcome.value.error, "Download failed."))
  {
  }

  /** A success of the server action ends with the track completed and its audio saved, artist first. */
  lemma SuccessfulActionSaves(track: Track, meta: Await<Actions.MetaReply>, audio: Await<Actions.AudioReply>)
    requires Actions.DownloadTrackAction(track.id, meta, audio).success
    ensures audio.Resolved?
    ensures Attempted(track, Resolved(Actions.DownloadTrackAction(track.id, meta, audio))) ==
      Attempt(TrackDownloadState(Completed, 100), [SaveFile(SaveName(track), Blob(audio.value.bytes, AudioType))])
  {
    Actions.DownloadResultShape(track.id, meta, audio);
    ClientReadsDataUrl(audio.value.bytes);
  }

  /** The list saves "artist - title.mp3" where the conversion route names the same track "title - artist.mp3". */
  lemma SaveNamesDisagree(id: string, duration: string, art: ImagePlaceholder)
    ensures SaveName(Track(id, "Starlight", "Muse", duration, art)) == "Muse - Starlight.mp3"
    ensures DownloadRoute.OutputFileName(DownloadRoute.TrackInfo(id, "Starlight", "Muse")) == "Starlight - Muse.mp3"
  {
  }

  /** The saved name puts the artist first: for an artist without '-', the text before the first '-' is the artist and a space. */
  lemma SaveNameArtistFirst(track: Track)
    requires '-' !in track.artist
    ensures Text.Split(SaveName(track), '-')[0] == track.artist + " "
  {
    assert SaveName(track) == (track.artist + " ") + ['-'] + (" " + track.title + ".mp3");
    Text.SplitAtSeparator(track.artist + " ", " " + track.title + ".mp3", '-');
  }

  /**
   * For every track, the list's name is the conversion route's name with
   * title and artist swapped; for a title and an artist without '-', the two
   * names of the same track agree only when the title is the artist.
   */
  lemma SaveNameSwapsOutputName(id: string, title: string, artist: string, duration: string, art: ImagePlaceholder)
    ensures SaveName(Track(id, title, artist, duration, art)) == DownloadRoute.OutputFileName(DownloadRoute.TrackInfo(id, artist, title))
    ensures '-' !in title && '-' !in artist ==>
      (SaveName(Track(id, title, artist, duration, art)) == DownloadRoute.OutputFileName(DownloadRoute.TrackInfo(id, title, artist)) <==> title == artist)
  {
    if '-' !in title && '-' !in artist && title != artist {
      SaveNameArtistFirst(Track(id, title, artist, duration, art));
      DownloadRoute.FileNameTitleFirst(DownloadRoute.TrackInfo(id, title, artist));
      assert (artist + " ")[..|artist|] == artist && (title + " ")[..|title|] == title;
    }
  }

  /** The guard of `handleDownload`: only a track whose entry is present and idle is downloaded. */
  predicate Launches(view: map<string, TrackDownloadState>, id: string)
  {
    id in view && view[id].status == Idle
  }

  // ---------------------------------------------------------------------
  // The bulk download, specified

  /** The entries after the first `n` tracks of a bulk download, which tests each track against `snapshot`. */
  function BulkStates(tracks: seq<Track>, snapshot: map<string, TrackDownloadState>, states: map<string, TrackDownloadState>,
                      outcome: nat -> Await<Actions.ActionResult>, n: nat): map<string, TrackDownloadState>
    requires n <= |tracks|
  {
    if n == 0 then states
    else
      var prev := BulkStates(tracks, snapshot, states, outcome, n - 1);
      var t := tracks[n - 1];
      if Launches(snapshot, t.id) then prev[t.id := Attempted(t, outcome(n - 1)).final] else prev
  }

  /** The events of one turn of the bulk loop: for a track idle in the snapshot, the call, its end and a pause. */
  function TurnEvents(snapshot: map<string, TrackDownloadState>, t: Track, outcome: Await<Actions.ActionResult>): seq<Event>
  {
    if Launches(snapshot, t.id) then [ServerCall(t.id)] + Attempted(t, outcome).events + [Pause(PauseMs)] else []
  }

  /** The events of the first `n` tracks of a bulk download. */
  function BulkEvents(tracks: seq<Track>, snapshot: map<string, TrackDownloadState>,
                      outcome: nat -> Await<Actions.ActionResult>, n: nat): seq<Event>
    requires n <= |tracks|
  {
    if n == 0 then []
    else
      BulkEvents(tracks, snapshot, outcome, n - 1) + TurnEvents(snapshot, tracks[n - 1], outcome(n - 1))
  }

  /** One more track of a bulk download: its turn's entry and events come after those of the tracks before it. */
  lemma BulkStep(tracks: seq<Track>, snapshot: map<string, TrackDownloadState>, outcome: nat -> Await<Actions.ActionResult>, i: nat)
    requires i < |tracks|
    ensures BulkStates(tracks, snapshot, snapshot, outcome, i + 1) ==
      (if Launches(snapshot, tracks[i].id) then BulkStates(tracks, snapshot, snapshot, outcome, i)[tracks[i].id := Attempted(tracks[i], outcome(i)).final]
       else BulkStates(tracks, snapshot, snapshot, outcome, i))
    ensures BulkEvents(tracks, snapshot, outcome, i + 1) == BulkEvents(tracks, snapshot, outcome, i) + TurnEvents(snapshot, tracks[i], outcome(i))
  {
  }

  /** The ids of the first `n` tracks that are idle in `snapshot`, in list order (an id twice if listed twice). */
  function IdleInSnapshot(tracks: seq<Track>, snapshot: map<string, TrackDownloadState>, n: nat): seq<string>
    requires n <= |tracks|
  {
    if n == 0 then []
    else IdleInSnapshot(tracks, snapshot, n - 1) + (if Launches(snapshot, tracks[n - 1].id) then [tracks[n - 1].id] else [])
  }

  /** The tracks the events call the server for, in order. */
  function ServerCalls(events: seq<Event>): seq<string>
  {
    if events == [] then []
    else (if events[0].ServerCall? then [events[0].trackId] else []) + ServerCalls(events[1..])
  }

  /** The number of pauses among the events. */
  function Pauses(events: seq<Event>): nat
  {
    if events == [] then 0
    else (if events[0].Pause? then 1 else 0) + Pauses(events[1..])
  }

  lemma {:induction false} CountsConcat(a: seq<Event>, b: seq<Event>)
    ensures ServerCalls(a + b) == ServerCalls(a) + ServerCalls(b)
    ensures Pauses(a + b) == Pauses(a) + Pauses(b)
    decreases |a|
  {
    if a == [] {
      assert a + b == b;
    } else {
      assert (a + b)[0] == a[0] && (a + b)[1..] == a[1..] + b;
      CountsConcat(a[1..], b);
      var calls := if a[0].ServerCall? then [a[0].trackId] else [];
      assert calls + (ServerCalls(a[1..]) + ServerCalls(b)) == (calls + ServerCalls(a[1..])) + ServerCalls(b);
    }
  }

  /** The events of one download's end hold no server call and no pause. */
  lemma AttemptEventsQuiet(track: Track, outcome: Await<Actions.ActionResult>)
    ensures ServerCalls(Attempted(track, outcome).events) == [] && Pauses(Attempted(track, outcome).events) == 0
  {
    var evs := Attempted(track, outcome).events;
    assert |evs| == 1 && (evs[0].SaveFile? || evs[0].Toast?);
    assert evs[1..] == [];
  }

  /**
   * A bulk download calls the server for exactly the tracks idle in the
   * snapshot taken when it began, in list order, and pauses once after each.
   */
  lemma {:induction false} BulkLaunchOrder(tracks: seq<Track>, snapshot: map<string, TrackDownloadState>,
                                           outcome: nat -> Await<Actions.ActionResult>, n: nat)
    requires n <= |tracks|
    ensures ServerCalls(BulkEvents(tracks, snapshot, outcome, n)) == IdleInSnapshot(tracks, snapshot, n)
    ensures Pauses(BulkEvents(tracks, snapshot, outcome, n)) == |IdleInSnapshot(tracks, snapshot, n)|
  {
    if n > 0 {
      BulkLaunchOrder(tracks, snapshot, outcome, n - 1);
      var t := tracks[n - 1];
      var prev := BulkEvents(tracks, snapshot, outcome, n - 1);
      if Launches(snapshot, t.id) {
        var a := Attempted(t, outcome(n - 1)).events;
        AttemptEventsQuiet(t, outcome(n - 1));
        var block := [ServerCall(t.id)] + a + [Pause(PauseMs)];
        CountsConcat([ServerCall(t.id)], a);
        CountsConcat([ServerCall(t.id)] + a, [Pause(PauseMs)]);
        CountsConcat(prev, block);
        assert [ServerCall(t.id)][1..] == [] && [Pause(PauseMs)][1..] == [];
      } else {
        assert prev + [] == prev;
      }
    }
  }

  /** A track that is not idle in the snapshot keeps its entry through a bulk download. */
  lemma {:induction false} BulkSkipsBusy(tracks: seq<Track>, snapshot: map<string, TrackDownloadState>,
                                         states: map<string, TrackDownloadState>,
                                         outcome: nat -> Await<Actions.ActionResult>, n: nat, id: string)
    requires n <= |tracks| && id in states && !Launches(snapshot, id)
    ensures id in BulkStates(tracks, snapshot, states, outcome, n)
    ensures BulkStates(tracks, snapshot, states, outcome, n)[id] == states[id]
  {
    if n > 0 {
      BulkSkipsBusy(tracks, snapshot, states, outcome, n - 1, id);
    }
  }

  /** A track listed twice and idle in the snapshot is downloaded twice. */
  lemma DuplicateLaunchedTwice(t: Track, snapshot: map<string, TrackDownloadState>, outcome: nat -> Await<Actions.ActionResult>)
    requires Launches(snapshot, t.id)
    ensures ServerCalls(BulkEvents([t, t], snapshot, outcome, 2)) == [t.id, t.id]
  {
    BulkLaunchOrder([t, t], snapshot, outcome, 2);
    assert IdleInSnapshot([t, t], snapshot, 1) == [] + [t.id];
  }

  // ---------------------------------------------------------------------
  // Aggregates

  /** The ids whose entry is completed. */
  function CompletedIds(states: map<string, TrackDownloadState>): set<string>
  {
    set id | id in states && states[id].status == Completed
  }

  /** `downloadedCount`: how many entries are completed. */
  function DownloadedCount(states: map<string, TrackDownloadState>): nat
  {
    |CompletedIds(states)|
  }

  /** `allCompleted`: the count of completed entries equals the number of listed tracks. */
  predicate AllCompleted(states: map<string, TrackDownloadState>, tracks: seq<Track>)
  {
    DownloadedCount(states) == |tracks|
  }

  /** `totalProgress` as an exact ratio; None stands for the NaN of an empty list. */
  function TotalProgress(states: map<string, TrackDownloadState>, tracks: seq<Track>): Option<real>
  {
    if |tracks| == 0 then None else Some(DownloadedCount(states) as real / |tracks| as real * 100.0)
  }

  /** The row's entry: a missing entry shows as idle with no progress. */
  function RowState(states: map<string, TrackDownloadState>, id: string): TrackDownloadState
  {
    if id in states then states[id] else TrackDownloadState(Idle, 0)
  }

  /** A share of a positive whole, as a percentage, lies between 0 and 100 and is 100 only for the whole. */
  lemma RatioBounds(c: real, n: real)
    requires 0.0 <= c <= n && n > 0.0
    ensures 0.0 <= c / n * 100.0 <= 100.0
    ensures c / n * 100.0 == 100.0 <==> c == n
  {
    var q := c / n;
    assert q * n == c;
    if c == n {
      assert (q - 1.0) * n == 0.0;
    }
  }

  /** A proper subset is smaller. */
  lemma {:induction false} SubsetSmaller(a: set<string>, b: set<string>)
    requires a <= b
    ensures |a| <= |b|
    ensures |a| == |b| ==> a == b
    decreases |b|
  {
    if b != {} {
      var x :| x in b;
      SubsetSmaller(a - {x}, b - {x});
      if x in a {
        assert |a - {x}| == |a| - 1;
        assert a == (a - {x}) + {x} && b == (b - {x}) + {x};
      } else {
        assert a - {x} == a;
      }
    }
  }

  /** The ids and the distinctness of a list grown by one track. */
  lemma SnocIds(init: seq<Track>, last: Track)
    ensures TrackIds(init + [last]) == TrackIds(init) + {last.id}
    ensures Distinct(init + [last]) <==> Distinct(init) && last.id !in TrackIds(init)
  {
    var tracks := init + [last];
    assert forall t :: t in tracks <==> t in init || t == last;
    assert forall i :: 0 <= i < |init| ==> tracks[i] == init[i];
    if last.id in TrackIds(init) {
      var k :| 0 <= k < |init| && init[k].id == last.id;
      assert tracks[k].id == tracks[|tracks| - 1].id;
    }
    if Distinct(init) && last.id !in TrackIds(init) {
      forall i, j | 0 <= i < j < |tracks|
        ensures tracks[i].id != tracks[j].id
      {
        if j == |init| {
          assert init[i] in init;
        }
      }
    }
  }

  /** A list has at most as many ids as tracks, and exactly as many when no id repeats. */
  lemma {:induction false} IdsCardinality(tracks: seq<Track>)
    ensures |TrackIds(tracks)| <= |tracks|
    ensures |TrackIds(tracks)| == |tracks| <==> Distinct(tracks)
    decreases |tracks|
  {
    if tracks == [] {
      assert TrackIds(tracks) == {};
    } else {
      var init := tracks[..|tracks| - 1];
      var last := tracks[|tracks| - 1];
      assert tracks == init + [last];
      IdsCardinality(init);
      SnocIds(init, last);
    }
  }

  /** At most every entry is completed. */
  lemma CountBound(states: map<string, TrackDownloadState>)
    ensures DownloadedCount(states) <= |states.Keys|
  {
    SubsetSmaller(CompletedIds(states), states.Keys);
  }

  /**
   * With one entry per listed id, everything counts as downloaded exactly
   * when no id repeats and every entry is completed.
   */
  lemma AllCompletedIff(states: map<string, TrackDownloadState>, tracks: seq<Track>)
    requires states.Keys == TrackIds(tracks)
    ensures AllCompleted(states, tracks) <==> Distinct(tracks) && forall id :: id in states ==> states[id].status == Completed
  {
    var done := CompletedIds(states);
    SubsetSmaller(done, states.Keys);
    IdsCardinality(tracks);
    if forall id :: id in states ==> states[id].status == Completed {
      assert done == states.Keys;
    }
    if done == states.Keys {
      assert forall id :: id in states ==> id in done;
    }
  }

  /** With one entry per listed id, the progress lies between 0 and 100 and reaches 100 exactly when all are downloaded. */
  lemma ProgressRange(states: map<string, TrackDownloadState>, tracks: seq<Track>)
    requires states.Keys == TrackIds(tracks) && |tracks| > 0
    ensures TotalProgress(states, tracks).Some?
    ensures 0.0 <= TotalProgress(states, tracks).value <= 100.0
    ensures TotalProgress(states, tracks).value == 100.0 <==> AllCompleted(states, tracks)
  {
    CountBound(states);
    IdsCardinality(tracks);
    RatioBounds(DownloadedCount(states) as real, |tracks| as real);
  }

  // ---------------------------------------------------------------------
  // The retry button

  /**
   * A failed track shows an enabled "Retry" button, yet the guard lets only
   * idle tracks through: clicking it downloads nothing.
   */
  lemma RetryDoesNothing(states: map<string, TrackDownloadState>, id: string)
    requires id in states && states[id].status == Error
    ensures TrackItem.RowControl(RowState(states, id).status, RowState(states, id).progress) == TrackItem.DownloadButton("Retry", TrackItem.RetryIcon, true)
    ensures !Launches(states, id)
  {
    TrackItem.ErrorOffersRetry(states[id].progress);
  }

  /** The guard that lets through every status whose button is enabled. */
  predicate LaunchesActionable(view: map<string, TrackDownloadState>, id: string)
  {
    id in view && TrackItem.IsActionable(view[id].status)
  }

  /** With that guard, a click does something exactly when the row shows an enabled button. */
  lemma EnabledButtonLaunches(states: map<string, TrackDownloadState>, id: string)
    requires id in states
    ensures (TrackItem.RowControl(RowState(states, id).status, RowState(states, id).progress).DownloadButton? &&
      TrackItem.RowControl(RowState(states, id).status, RowState(states, id).progress).enabled) <==> LaunchesActionable(states, id)
  {
    TrackItem.ClickableRow(states[id].status, states[id].progress);
  }

  // ---------------------------------------------------------------------
  // The component's state

  class TrackListState {
    /** The tracks of the shown content, in order. */
    const tracks: seq<Track>
    /** `trackStates`: the entry of every listed id. */
    var trackStates: map<string, TrackDownloadState>
    /** `isBulkDownloading`: set by the bulk download and never reset. */
    var isBulkDownloading: bool
    /** What the component has done, in order. */
    var events: seq<Event>

    ghost predicate Valid()
      reads this
    {
      trackStates.Keys == TrackIds(tracks) && forall id :: id in trackStates ==> Paired(trackStates[id])
    }

    /** The component's first render: every track idle, no bulk download. */
    constructor (tracks: seq<Track>)
      ensures Valid() && this.tracks == tracks && !isBulkDownloading && events == []
      ensures forall id :: id in trackStates ==> trackStates[id] == TrackDownloadState(Idle, 0)
    {
      this.tracks := tracks;
      var states := InitializeTrackStates(tracks);
      trackStates := states;
      isBulkDownloading := false;
      events := [];
    }

    /** The guard and the first update of `handleDownload`, which reads `view` for the track's entry. */
    method Start(view: map<string, TrackDownloadState>, track: Track) returns (launched: bool)
      requires Valid() && track in tracks
      modifies this
      ensures Valid() && isBulkDownloading == old(isBulkDownloading)
      ensures launched == Launches(view, track.id)
      ensures launched ==> (trackStates == old(trackStates)[track.id := TrackDownloadState(Downloading, 50)] &&
        events == old(events) + [ServerCall(track.id)])
      ensures !launched ==> trackStates == old(trackStates) && events == old(events)
    {
      if track.id !in view || view[track.id].status != Idle {
        return false;
      }
      trackStates := trackStates[track.id := TrackDownloadState(Downloading, 50)];
      events := events + [ServerCall(track.id)];
      return true;
    }

    /** The saved file and the completed entry. */
    method Succeed(track: Track, blob: Blob)
      requires Valid() && track in tracks
      modifies this
      ensures Valid() && isBulkDownloading == old(isBulkDownloading)
      ensures trackStates == old(trackStates)[track.id := TrackDownloadState(Completed, 100)]
      ensures events == old(events) + [SaveFile(SaveName(track), blob)]
    {
      events := events + [SaveFile(SaveName(track), blob)];
      trackStates := trackStates[track.id := TrackDownloadState(Completed, 100)];
    }

    /** The catch block: the failed entry and the toast. */
    method Fail(track: Track, message: string)
      requires Valid() && track in tracks
      modifies this
      ensures Valid() && isBulkDownloading == old(isBulkDownloading)
      ensures trackStates == old(trackStates)[track.id := Failed(track, message).final]
      ensures events == old(events) + Failed(track, message).events
    {
      trackStates := trackStates[track.id := TrackDownloadState(Error, 0)];
      events := events + [Toast("Download Error", "Could not download \"" + track.title + "\". " + message)];
    }

    /** The rest of `handleDownload` once the server action has settled. */
    method Finish(track: Track, outcome: Await<Actions.ActionResult>)
      requires Valid() && track in tracks
      modifies this
      ensures Valid() && isBulkDownloading == old(isBulkDownloading)
      ensures trackStates == old(trackStates)[track.id := Attempted(track, outcome).final]
      ensures events == old(events) + Attempted(track, outcome).events
    {
      if outcome.Rejected? {
        Fail(track, outcome.message);
        return;
      }
      var result := outcome.value;
      if result.success && result.file.Some? {
        var blob := Base64ToBlob(result.file.value.content, AudioType);
        if blob.None? {
          Fail(track, InvalidEncodingMessage);
        } else {
          Succeed(track, blob.value);
        }
      } else {
        Fail(track, OrElse(result.error, "Download failed."));
      }
    }

    /**
     * `handleDownload` with the track's entry read from `view`: nothing
     * happens unless it is idle there; otherwise the track downloads, then
     * completes or fails, and no other entry changes.
     */
    method HandleDownload(view: map<string, TrackDownloadState>, track: Track, outcome: Await<Actions.ActionResult>)
      returns (launched: bool)
      requires Valid() && track in tracks
      modifies this
      ensures Valid() && isBulkDownloading == old(isBulkDownloading)
      ensures launched == Launches(view, track.id)
      ensures launched ==> (trackStates == old(trackStates)[track.id := Attempted(track, outcome).final] &&
        events == old(events) + [ServerCall(track.id)] + Attempted(track, outcome).events)
      ensures !launched ==> trackStates == old(trackStates) && events == old(events)
      ensures forall id :: id in old(trackStates) && id != track.id ==> id in trackStates && trackStates[id] == old(trackStates)[id]
    {
      launched := Start(view, track);
      if launched {
        Finish(track, outcome);
      }
    }

    /** A click on a row's button: `handleDownload` with the current entries. */
    method Click(track: Track, outcome: Await<Actions.ActionResult>) returns (launched: bool)
      requires Valid() && track in tracks
      modifies this
      ensures Valid() && isBulkDownloading == old(isBulkDownloading)
      ensures launched <==> old(trackStates)[track.id].status == Idle
      ensures launched ==> (trackStates == old(trackStates)[track.id := Attempted(track, outcome).final] &&
        events == old(events) + [ServerCall(track.id)] + Attempted(track, outcome).events)
      ensures !launched ==> trackStates == old(trackStates) && events == old(events)
    {
      launched := HandleDownload(trackStates, track, outcome);
    }

    /** One turn of the bulk loop: download the track if it was idle in `snapshot`, then pause. */
    method BulkTurn(snapshot: map<string, TrackDownloadState>, track: Track, outcome: Await<Actions.ActionResult>)
      requires Valid() && track in tracks && snapshot.Keys == TrackIds(tracks)
      modifies this
      ensures Valid() && isBulkDownloading == old(isBulkDownloading)
      ensures trackStates == (if Launches(snapshot, track.id) then old(trackStates)[track.id := Attempted(track, outcome).final] else old(trackStates))
      ensures events == old(events) + TurnEvents(snapshot, track, outcome)
    {
      assert track.id in TrackIds(tracks);
      if snapshot[track.id].status == Idle {
        var launched := HandleDownload(snapshot, track, outcome);
        events := events + [Pause(PauseMs)];
      }
    }

    /**
     * `handleBulkDownload`: set the flag, then go through the list in order
     * and download each track that was idle when the bulk download began,
     * pausing after each download.
     */
    method HandleBulkDownload(outcome: nat -> Await<Actions.ActionResult>)
      requires Valid()
      modifies this
      ensures Valid() && isBulkDownloading
      ensures trackStates == BulkStates(tracks, old(trackStates), old(trackStates), outcome, |tracks|)
      ensures events == old(events) + BulkEvents(tracks, old(trackStates), outcome, |tracks|)
    {
      isBulkDownloading := true;
      var snapshot := trackStates;
      ghost var before := events;
      for i := 0 to |tracks|
        invariant Valid() && isBulkDownloading
        invariant trackStates == BulkStates(tracks, snapshot, snapshot, outcome, i)
        invariant events == before + BulkEvents(tracks, snapshot, outcome, i)
      {
        BulkTurn(snapshot, tracks[i], outcome(i));
        BulkStep(tracks, snapshot, outcome, i);
        Sequences.Associative(before, BulkEvents(tracks, snapshot, outcome, i), TurnEvents(snapshot, tracks[i], outcome(i)));
      }
    }
  }
}
