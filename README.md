# spoti — a verified model of the download core

spoti turns a Spotify page address (track, album or playlist) into a list of
tracks and lets the user download them. This project models, in Dafny, the
logic of that core:

- **The track list** (`TrackList.tsx`, module `TrackList`). It keeps a
  per-track download state machine (`idle → downloading → completed | error`)
  in a class with a `map` of entries, a bulk flag and a log of what the
  component does:
  - server calls;
  - saved files;
  - toasts;
  - pauses.

  It also models:
  - the single and bulk download handlers;
  - the header aggregates;
  - the decoding of the downloaded data URL (`base64ToBlob`).
- **The row button** (`TrackItem.tsx`, module `TrackItem`): its label, its
  icon, and whether it is enabled or replaced by a progress bar.
- **The server actions** (`actions.ts`, module `Actions`):
  - the `m:ss` duration text;
  - the Spotify address pattern;
  - the detection of the content kind;
  - the shaping of Web API JSON into tracks, albums and playlists;
  - the single-track download, which answers with a base 64 data URL
    (section 3 of RFC 2397, section 4 of RFC 4648).
- **The Spotify proxy route** (`api/spotify/route.ts`, module `SpotifyRoute`):
  - the refresh-token request with its Basic credentials (section 2 of
    RFC 7617);
  - the parsing of the address into a kind and an id;
  - the whitelist;
  - the Web API address;
  - the mapping of outcomes to status codes.
- **The conversion route** (`api/download/route.ts`, module `DownloadRoute`):
  - the sequence of awaited steps and their early returns;
  - the 30-attempt poll of the conversion job;
  - the life of the temporary video file, as a ghost set of paths on disk;
  - the output file name.

  The route is modelled twice:
  - as a function of the outside world's answers (`PostRun`);
  - as a class `ConversionServer` that logs calls and changes its ghost
    file set step by step, proved equal to that function.

Helper modules:
- `Wrappers`: `Option`, and `Await`, an external call that resolves or throws.
- `Text`: `split`, `join`, `includes` and decimal printing.
- `Base64`: encoding and strict decoding, with the round trip.
- `Utf8`: what `Buffer.from(string)` produces.
- `Types`: the records of `lib/types.ts`.

Every external call is an input of the model:
- server actions, `fetch`, the search, the video download, the conversion
  service and the environment variables;
- a rejected promise or a throw is `Rejected(message)`.

Behaviours of the code that its own text suggests were not intended are
modelled as written:
- **Temp file clean-up.** The temporary video is removed only on the path
  that reaches the removal after polling (`api/download/route.ts:97`). The
  missing-key return (lines 33-36) and the catch-all (lines 103-105) leave
  it on disk.
- **Retry.** A failed track shows an enabled "Retry" button
  (`TrackItem.tsx:19`, `:32`). The guard of `handleDownload`
  (`TrackList.tsx:56`) lets only idle tracks through, so the click does
  nothing.
- **Seconds rounding.** The seconds are rounded without carrying into the
  minutes, so a duration can print as "1:60" where `lib/types.ts:7` promises
  "m:ss".
- **"failed" export.** The poll never tests for a `failed` export
  (`api/download/route.ts:92`), so such a job is polled until the 30
  attempts run out.
- **Timeout vs failure.** A time-out and a finished export without a file
  address both answer 500 "MP3 conversion failed"
  (`api/download/route.ts:98-100`).
- **Bulk flag.** The bulk flag is never reset, as the comment at
  `TrackList.tsx:96` says.

The first three have a corrected counterpart, listed under "## Findings".

## Model

| member | source | states |
|---|---|---|
| TrackList.InitializeTrackStates | src/components/spotdown/TrackList.tsx:18-23 | the key set is exactly the set of track ids and every entry is `{idle, 0}` |
| TrackList.TrackListState.constructor | src/components/spotdown/TrackList.tsx:49-52 | the first render: every entry idle, bulk flag off, nothing done yet, state invariant (one paired entry per listed id) holds |
| TrackList.TrackListState.Start | src/components/spotdown/TrackList.tsx:55-61 | the guard passes exactly when the entry read is present and idle; then only that track becomes `{downloading, 50}` and the server is called; otherwise nothing changes |
| TrackList.TrackListState.Succeed | src/components/spotdown/TrackList.tsx:65-71 | the file is saved as "artist - title.mp3" and only that track becomes `{completed, 100}` |
| TrackList.TrackListState.Fail | src/components/spotdown/TrackList.tsx:75-84 | only that track becomes `{error, 0}` and one "Download Error" toast names the track and the message |
| TrackList.TrackListState.Finish | src/components/spotdown/TrackList.tsx:63-85 | the track's entry and the events after the server call are those of `Attempted`: a decoded file completes it, anything else fails it |
| TrackList.TrackListState.HandleDownload | src/components/spotdown/TrackList.tsx:55-86 | nothing changes and no call is made unless the entry read is idle; otherwise call, then complete or fail; every other entry is unchanged; status/progress stay paired |
| TrackList.TrackListState.Click | src/components/spotdown/TrackList.tsx:161-167 | a click downloads exactly when the track's current entry is idle |
| TrackList.TrackListState.BulkTurn | src/components/spotdown/TrackList.tsx:90-95 | one loop turn: a track idle in the snapshot is downloaded and followed by a 300 ms pause; any other track is skipped with no event |
| TrackList.TrackListState.HandleBulkDownload | src/components/spotdown/TrackList.tsx:88-97 | the bulk flag is set and stays set; the entries and events are those of the turns over the list in order, each testing the snapshot taken at the start |
| TrackList.BulkLaunchOrder | src/components/spotdown/TrackList.tsx:88-97 | the server is called for exactly the tracks idle in the snapshot, in list order, with one pause per call |
| TrackList.BulkSkipsBusy | src/components/spotdown/TrackList.tsx:90-91 | a track not idle in the snapshot keeps its entry through the whole bulk download |
| TrackList.DuplicateLaunchedTwice | src/components/spotdown/TrackList.tsx:90-92 | a track listed twice and idle in the snapshot is downloaded twice, since the snapshot is not updated |
| TrackList.Atob | src/components/spotdown/TrackList.tsx:37 | `atob` throws exactly when the text is not base 64, and otherwise yields one character per decoded byte with that code |
| TrackList.AtobReadsEncoded | src/components/spotdown/TrackList.tsx:37 | `atob` of the base 64 text of any bytes succeeds and gives one character per byte, whose code is that byte |
| TrackList.ClientBody | src/components/spotdown/TrackList.tsx:37 | `split(',')[1]`, or "undefined" when there is no ','; stated by `ClientReadsDataUrl` and `NoCommaThrows` |
| TrackList.Base64ToBlob | src/components/spotdown/TrackList.tsx:36-44 | the array loop produces exactly the bytes decoded from the text between the first and the second ',' (`split(',')[1]`, "undefined" when there is no ','), throwing exactly when that text does not decode |
| TrackList.ClientReadsDataUrl | src/components/spotdown/TrackList.tsx:37 | `split(',')[1]` of the action's data URL is exactly the base 64 body, and it decodes to the original audio bytes |
| TrackList.NoCommaThrows | src/components/spotdown/TrackList.tsx:37 | content without ',' gives `atob("undefined")`, which throws |
| TrackList.AttemptOutcome | src/components/spotdown/TrackList.tsx:63-85 | completed/100 iff the action succeeded with a file that decodes, saving those bytes as "artist - title.mp3"; otherwise error/0 with one toast, the message falling back to "Download failed." |
| TrackList.Attempted | src/components/spotdown/TrackList.tsx:63-85 | the track's final entry and the events once the action settles; stated by `AttemptOutcome` |
| TrackList.SuccessfulActionSaves | src/components/spotdown/TrackList.tsx:64-71 | a successful server action ends with the track completed and its downloaded audio bytes saved |
| TrackList.SaveNamesDisagree | src/components/spotdown/TrackList.tsx:67 | on one concrete track, the list saves "artist - title.mp3" whereas the conversion route names it "title - artist.mp3" |
| TrackList.SaveName | src/components/spotdown/TrackList.tsx:67 | the saved name "artist - title.mp3"; its properties are stated by `SaveNameArtistFirst` and `SaveNameSwapsOutputName` |
| TrackList.SaveNameArtistFirst | src/components/spotdown/TrackList.tsx:67 | for every track whose artist holds no '-', the text of the saved name before its first '-' is the artist followed by a space |
| TrackList.SaveNameSwapsOutputName | src/components/spotdown/TrackList.tsx:67 | for every track, the saved name is the conversion route's file name with title and artist swapped; when neither holds a '-', the two names of the same track agree iff the title equals the artist |
| TrackList.IdsCardinality | src/components/spotdown/TrackList.tsx:18-23 | a list has at most as many ids as tracks, and exactly as many iff no id repeats |
| TrackList.CountBound | src/components/spotdown/TrackList.tsx:99 | the completed count never exceeds the number of entries |
| TrackList.AllCompletedIff | src/components/spotdown/TrackList.tsx:99-101 | with one entry per listed id, `allCompleted` iff no id repeats and every entry is completed |
| TrackList.ProgressRange | src/components/spotdown/TrackList.tsx:99-101 | for a non-empty list the progress lies in 0..100 and is 100 iff `allCompleted` |
| TrackList.DownloadedCount | src/components/spotdown/TrackList.tsx:99 | the number of completed entries; stated by `CountBound` |
| TrackList.AllCompleted | src/components/spotdown/TrackList.tsx:101 | the count equals the number of listed tracks; stated by `AllCompletedIff` |
| TrackList.TotalProgress | src/components/spotdown/TrackList.tsx:100 | the percentage of completed entries; stated by `ProgressRange` |
| TrackList.RetryDoesNothing | src/components/spotdown/TrackList.tsx:56 | an errored track shows an enabled "Retry" button, but the idle-only guard refuses it (as written) |
| TrackList.Launches | src/components/spotdown/TrackList.tsx:56 | the guard: the entry read is present and idle; stated by `RetryDoesNothing` and the `Start` contract |
| TrackList.RowState | src/components/spotdown/TrackList.tsx:165-166 | the row's status and progress, `idle` and 0 for a missing entry; used by `RetryDoesNothing` and `EnabledButtonLaunches` |
| TrackList.EnabledButtonLaunches | src/components/spotdown/TrackList.tsx:56 | with the guard accepting the actionable statuses, a click launches exactly when the row shows an enabled button (corrected) |
| TrackItem.LabelsDistinct | src/components/spotdown/TrackItem.tsx:28-33 | the four labels are pairwise different, so the label tells the status |
| TrackItem.ClickableRow | src/components/spotdown/TrackItem.tsx:18-40 | a row shows an enabled button exactly for an idle or errored track |
| TrackItem.Button | src/components/spotdown/TrackItem.tsx:18-40 | the label, the icon and the enabled flag for a status; stated by `LabelsDistinct`, `CompletedIsFinal` and `ErrorOffersRetry` |
| TrackItem.RowControl | src/components/spotdown/TrackItem.tsx:79-85 | the progress bar while downloading, the button otherwise; stated by `ClickableRow` and `ProgressBarWhileDownloading` |
| TrackItem.ProgressBarWhileDownloading | src/components/spotdown/TrackItem.tsx:79-85 | the progress bar replaces the button exactly while downloading, showing the entry's progress |
| TrackItem.CompletedIsFinal | src/components/spotdown/TrackItem.tsx:18-40 | a completed track shows a disabled "Completed" button with the check icon |
| TrackItem.ErrorOffersRetry | src/components/spotdown/TrackItem.tsx:18-40 | an errored track shows an enabled "Retry" button with the retry icon |
| Text.NatToString | src/app/actions.ts:15 | a number prints as a non-empty digit string without a leading zero, one digit exactly below 10 |
| Text.SplitJoin | src/app/api/spotify/route.ts:41 | splitting a join of separator-free pieces gives the pieces back |
| Text.JoinSplit | src/app/api/spotify/route.ts:41 | joining the pieces of a split gives the text back |
| Text.SplitConcat | src/app/api/spotify/route.ts:41 | splitting around a separator splits each side on its own |
| Actions.DurationReadsBack | src/app/actions.ts:12-16 | the duration text reads back as the whole minutes and the half-up rounded seconds, the seconds field having two digits |
| Actions.SecondsTextReadsBack | src/app/actions.ts:15 | the seconds field, "0"-padded below 10, has two digits and reads back as its value |
| Actions.SecondsRange | src/app/actions.ts:14 | the seconds value lies in 0..60, and is 60 iff the rest of the minute is at least 59.5 s |
| Actions.SixtySecondsShown | src/app/actions.ts:13-15 | 119500 ms prints "1:60" (as written) |
| Actions.CarriedDurationReadsBack | src/app/actions.ts:12-16 | with the rounding carried, seconds are below 60 and the text reads back as the rounded duration, agreeing with the as-written text whenever no carry occurs (corrected) |
| Actions.FormatDuration | src/app/actions.ts:12-16 | the "m:ss" text; what it reads back as is stated by `DurationReadsBack` and `SecondsRange` |
| Actions.PatternMatcherCorrect | src/app/actions.ts:8 | the matcher accepts a text iff some choice of the regex alternations (host, optional "embed/", kind) spells its start followed by a letter or digit |
| Actions.MatchesSpotifyPattern | src/app/actions.ts:8 | the regular expression, matched from the start; `PatternMatcherCorrect` proves it equal to the reading by alternations |
| Actions.ValidationError | src/app/actions.ts:39-45 | the first failing check's message (not a string, not a URL, not the pattern), or none; its effect is stated by `InvalidUrlNotFetched` |
| Actions.DetectType | src/app/actions.ts:61 | "track" if the address contains "/track/", else "album" if it contains "/album/", else "playlist"; `KindAlwaysIdentified` follows from it |
| Actions.InvalidUrlNotFetched | src/app/actions.ts:41-45 | a value failing validation gives its first message, whatever the tool call and the proxy would answer |
| Actions.KindAlwaysIdentified | src/app/actions.ts:61-106 | every address reads as track, album or playlist, so "Could not identify content from URL." is never answered |
| Actions.ContentFollowsKind | src/app/actions.ts:61-104 | an accepted address answered with a body of its kind gives content of that kind: the mapped track, an album with one track per item, a playlist iff no item is null; a track address answered with an album body gives a track with the album's id and name, duration "NaN:NaN" and the default artwork |
| Actions.ProcessUrl | src/app/actions.ts:35-111 | the content for a form value: validation message, error for a throw or a refused answer (the answer's error or its default), else content of the detected kind; stated by `InvalidUrlNotFetched`, `KindAlwaysIdentified` and `ContentFollowsKind` |
| Actions.AlbumBodyForTrackAddress | src/app/actions.ts:61-70 | for every accepted address read as a track, an album body gives a track built from the album with duration "NaN:NaN" and the default artwork |
| Actions.TrackThenAlbumAccepted | src/app/actions.ts:8 | "https://open.spotify.com/track/abc/album/xyz" passes validation and reads as a track |
| Actions.TrackThenAlbumParsed | src/app/api/spotify/route.ts:41-43 | the proxy reads that same address as the album "xyz" |
| Actions.TrackAddressFetchesAlbum | src/app/actions.ts:61-70 | so that address gets an album body from the proxy and is answered with a track whose duration is "NaN:NaN" |
| Actions.MappedArtwork | src/app/actions.ts:18-31 | the artwork is the default iff the album has no first image with a non-empty address; otherwise it is that image, described by the album name |
| Actions.MapSpotifyTrack | src/app/actions.ts:18-31 | a Web API track as a list row: id, name, joined artists, formatted duration, artwork; stated by `MappedArtwork` and `ArtistLineSplits` |
| Actions.MapAlbum | src/app/actions.ts:73-90 | an album: its id, name, address, joined artists, first image or the default, and each item mapped with the album put in; stated by `ContentFollowsKind` |
| Actions.AlbumAsTrack | src/app/actions.ts:63-70 | `mapSpotifyTrack` of an album body; stated by `AlbumBodyForTrackAddress` |
| Actions.ArtistLineSplits | src/app/actions.ts:23 | the artist line splits on ',' back into the names in order (after the first, with the separator's space in front) |
| Actions.MapPlaylistTracks | src/app/actions.ts:101 | the playlist maps iff no item's track is null, and then maps every item in order |
| Actions.DownloadResultShape | src/app/actions.ts:113-143 | success iff a file is carried iff no error; errors are non-empty; success iff lookup, preview address and audio all succeeded; the file is "id.mp3" holding the audio as a data URL |
| Actions.DownloadTrackAction | src/app/actions.ts:113-143 | the action's result for the proxy's and the audio host's answers; stated by `DownloadResultShape`, `DownloadFailureMessages` and `DataUrlSplits` |
| Actions.DownloadFailureMessages | src/app/actions.ts:118-129 | the proxy's error or its default, "No preview available for this track.", "Failed to download preview audio." |
| Actions.DataUrlSplits | src/app/actions.ts:132-138 | the data URL splits on ',' into the header and the base 64 body, which decodes to the audio bytes |
| Actions.DataUrl | src/app/actions.ts:132-137 | "data:audio/mpeg;base64," followed by the base 64 text of the audio; stated by `DataUrlSplits` |
| Actions.TrackLookupParses | src/app/actions.ts:116 | the proxy reads the address the action sends as a track with the action's id |
| Base64.DecodeEncode | src/app/actions.ts:132 | decoding the base 64 text of bytes gives the bytes back |
| Base64.Encode | src/app/actions.ts:132 | `Buffer.toString('base64')`: four characters per block of three bytes, padded with '='; stated by `EncodeLength`, `EncodeAlphabet` and `EncodeHasNoComma` |
| Base64.Decode | src/components/spotdown/TrackList.tsx:37 | the strict reading of padded base 64 text, None where `atob` throws; `DecodeEncode` makes it the inverse of `Encode` |
| Base64.EncodeLength | src/app/actions.ts:132 | the text has 4 characters per started block of 3 bytes |
| Base64.EncodeAlphabet | src/app/actions.ts:132 | every character is from the alphabet or '=' |
| Base64.EncodeHasNoComma | src/app/actions.ts:137 | the base 64 text holds no ',' |
| Utf8.EncodeAvoidsAscii | src/app/api/spotify/route.ts:15 | a text without an ASCII character has no byte of that value in its UTF-8 encoding |
| SpotifyRoute.MissingUrlIsBadRequest | src/app/api/spotify/route.ts:35-37 | no (or an empty) `url` gives 400 "URL is required" with no outgoing request |
| SpotifyRoute.Get | src/app/api/spotify/route.ts:31-75 | the response and the outgoing requests for a `url` parameter; stated by the four lemmas below |
| SpotifyRoute.GetAccessToken | src/app/api/spotify/route.ts:3-29 | the token or the thrown message, with the requests made; stated by `TokenFailureIsServerError` and `BasicCredentialsDecode` |
| SpotifyRoute.ParseSpotifyUrl | src/app/api/spotify/route.ts:41-43 | the kind and the id read off the two last segments; stated by `ParseKindAndId` and `TrailingSlashHasNoId` |
| SpotifyRoute.TokenFailureIsServerError | src/app/api/spotify/route.ts:3-40 | missing credentials or a failed token request give 500 whatever the address; no request without credentials, only the token request otherwise |
| SpotifyRoute.InvalidTargetIsBadRequest | src/app/api/spotify/route.ts:41-47 | once a token is held, an address without a served kind and a non-empty id gives 400 "Invalid Spotify URL" and nothing more is requested |
| SpotifyRoute.ValidTargetIsForwarded | src/app/api/spotify/route.ts:49-67 | a valid address is fetched at "https://api.spotify.com/v1/" + kind + "s/" + id with the bearer token; success relays with 200, failure keeps the upstream status with "Failed to fetch from Spotify: " + message |
| SpotifyRoute.ParseKindAndId | src/app/api/spotify/route.ts:41-43 | an address ending in "/kind/id" (optionally "?query") reads back as that kind and id |
| SpotifyRoute.TrailingSlashHasNoId | src/app/api/spotify/route.ts:43-45 | an address ending in '/' has an empty id |
| SpotifyRoute.BasicCredentialsDecode | src/app/api/spotify/route.ts:15 | the header is "Basic " + base 64 text decoding to UTF-8(id), ':', UTF-8(secret), with no ':' byte in the id's part |
| SpotifyRoute.BasicAuthorization | src/app/api/spotify/route.ts:15 | "Basic " and the base 64 of the UTF-8 of "id:secret"; stated by `BasicCredentialsDecode` |
| SpotifyRoute.UpstreamAddress | src/app/api/spotify/route.ts:49 | "https://api.spotify.com/v1/" + kind + "s/" + id; stated by `ValidTargetIsForwarded` |
| DownloadRoute.PollFromStopsAtFirst | src/app/api/download/route.ts:84-96 | at most 30 attempts; polling stops at the first delivered or thrown answer, taking the first file's address; a time-out means 30 undelivered answers |
| DownloadRoute.PollFrom | src/app/api/download/route.ts:84-96 | the outcome and attempt count of polling from an attempt on; stated by `PollFromStopsAtFirst` and `FailedExportKeepsPolling` |
| DownloadRoute.FailedExportKeepsPolling | src/app/api/download/route.ts:92 | a "failed" export at any attempt, the last included, is not recognised: polling goes on as if the answer had not come |
| DownloadRoute.PollJobUntilDelivered | src/app/api/download/route.ts:84-96 | the loop ends with the outcome and attempt count of the polling specification |
| DownloadRoute.PollCalls | src/app/api/download/route.ts:85-89 | each poll is preceded by a 2000 ms wait, and polling creates or removes no file |
| DownloadRoute.MissingIdIsBadRequest | src/app/api/download/route.ts:12-15 | a missing id gives 400 before any call |
| DownloadRoute.PostRun | src/app/api/download/route.ts:11-106 | the response and the calls of a request, step by step through the stages below; stated by the lemmas of this module |
| DownloadRoute.AfterLookup | src/app/api/download/route.ts:19-23 | a thrown lookup is caught; otherwise the search for "name artist" follows |
| DownloadRoute.AfterSearch | src/app/api/download/route.ts:23-30 | a thrown search is caught; no video gives 404; otherwise the video is downloaded to the temporary path |
| DownloadRoute.AfterDownload | src/app/api/download/route.ts:30-39 | a thrown download is caught; a missing key gives 500; otherwise the job is created with the bearer key |
| DownloadRoute.AfterJob | src/app/api/download/route.ts:39-81 | a thrown job creation is caught; otherwise the video is uploaded to the job's address |
| DownloadRoute.AfterUpload | src/app/api/download/route.ts:77-96 | a thrown upload is caught; otherwise the job is polled with a 2000 ms wait before each poll |
| DownloadRoute.AfterPolling | src/app/api/download/route.ts:97-105 | a thrown poll is caught; otherwise the temporary file is removed and the answer is the delivered address or 500 |
| DownloadRoute.NoVideoIsNotFound | src/app/api/download/route.ts:19-26 | no search result gives 404 after the lookup and the search for "name artist", with no file written |
| DownloadRoute.NoDownloadLeavesFiles | src/app/api/download/route.ts:11-26 | a request that never downloads removes nothing and leaves the files as they were |
| DownloadRoute.CleanupAfterPolling | src/app/api/download/route.ts:97 | a request that polls to the end without a throw removes the temporary file with its last call, and only then |
| DownloadRoute.LeakAfterDownload | src/app/api/download/route.ts:33-36 | a request that downloaded and then hits the missing key or a throw removes nothing and leaves the file on disk (as written) |
| DownloadRoute.MissingKeyLeavesTempFile | src/app/api/download/route.ts:33-36 | a missing API key gives 500 "Missing CloudConvert API key" and the video stays on disk (as written) |
| DownloadRoute.TempFileLifecycle | src/app/api/download/route.ts:29-105 | the three fates of the temporary file: never created, removed once at the end, or left behind |
| DownloadRoute.SuccessShape | src/app/api/download/route.ts:97-102 | 200 iff the request reached the clean-up and polling delivered a non-empty address; the body is that address and "title - artist.mp3" |
| DownloadRoute.ConversionFailureIndistinct | src/app/api/download/route.ts:98-100 | a time-out and a delivered answer without an address both give 500 "MP3 conversion failed" |
| DownloadRoute.FileNameTitleFirst | src/app/api/download/route.ts:102 | for every track whose title holds no '-', the text of the file name before its first '-' is the title followed by a space |
| DownloadRoute.OutputFileName | src/app/api/download/route.ts:102 | "title - artist.mp3"; stated by `FileNameTitleFirst` and `SuccessShape` |
| DownloadRoute.TempPath | src/app/api/download/route.ts:29 | "/tmp/" + id + ".mp4"; its life on disk is stated by `TempFileLifecycle` |
| DownloadRoute.SearchQuery | src/app/api/download/route.ts:20 | "name artist"; stated by `NoVideoIsNotFound` |
| DownloadRoute.Delivered | src/app/api/download/route.ts:92 | an export finished with at least one file; stated by `PollFromStopsAtFirst` and `FailedExportKeepsPolling` |
| DownloadRoute.CleanupLeavesNoTempFile | src/app/api/download/route.ts:97 | with the removal on every path after the download (corrected), the answers are unchanged, the temporary file is not on disk afterwards, and the files on disk end as they began whenever the temporary path was not on disk before the request |
| DownloadRoute.ConversionServer.Post | src/app/api/download/route.ts:11-106 | the response, the call log and the files on disk are those of the handler's specification |
| DownloadRoute.ConversionServer.HandleLookup | src/app/api/download/route.ts:19-20 | after the lookup: a throw is caught, otherwise the search follows, as specified |
| DownloadRoute.ConversionServer.HandleSearch | src/app/api/download/route.ts:23-30 | after the search: a throw is caught, no video gives 404, otherwise the video is downloaded to the temporary file |
| DownloadRoute.ConversionServer.HandleDownload | src/app/api/download/route.ts:30-39 | after the download: a throw is caught, a missing key gives 500, otherwise the job is created with the bearer key |
| DownloadRoute.ConversionServer.HandleJob | src/app/api/download/route.ts:39-81 | after the job is created: a throw is caught, otherwise the video is uploaded |
| DownloadRoute.ConversionServer.HandleUpload | src/app/api/download/route.ts:77-105 | after the upload: poll, remove the temporary file unless polling threw, and answer with the delivered address or 500 |

## Left out

- Rendering (JSX layout, icons, the header) and React scheduling. `setState`
  batching and interleaving of concurrent clicks are not modelled: each
  handler runs to completion before the next event.
- `downloadFile` (object URLs, the anchor element) is recorded as a
  `SaveFile` event, and `toast` as a `Toast` event. Timers are recorded as
  `Pause`/`Wait` events with their delay.
- `TrackList.TotalProgress`: the floating-point percentage is modelled as an
  exact real; `None` stands for the NaN of an empty list.
- `TrackList.Atob`: the decoder is strict. It does not model the leniency of
  browsers' `atob` towards whitespace and missing padding. Text the action
  produces is never affected.
- `TrackList.InvalidEncodingMessage`: the exception text is the full one a
  Chromium browser gives for `window.atob` ("Failed to execute 'atob' on
  'Window': ..."). Other browsers word it differently, and the toast of a
  failed decoding repeats whichever text the browser gives.
- `Actions.ValidationError`: the URL library's own `.url()` check is an
  input (`isUrl`); only the regular expression is modelled.
- `Actions.FormatDuration` takes a natural number of milliseconds. The
  source accepts any JSON number; negative and fractional durations are not
  modelled.
- `Actions.ProcessUrl`: the preliminary tool call and the proxy answer are
  inputs. The form value is already a string or absent, and the JSON bodies
  are given by the fields the code reads, as a track, an album or a playlist
  body. A body of another kind than the detected one is answered as the code
  does where it does not throw: an album body under a track address becomes
  a track with duration "NaN:NaN". In every other mismatch the code reads a
  missing field and throws, which gives the generic message. A body of none
  of the three kinds (`NoPayload`) is treated as such a throw.
- The `FormData` upload, the multipart streaming and the job-creation JSON
  of the conversion route are one `Upload` call and one `CreateJob` call;
  the environment is an input.
- `DownloadRoute.TempPath`: `path.join('/tmp', id + ".mp4")` is modelled as
  plain concatenation. The two agree for ids without "/" and "..".
- `DownloadRoute.ConversionServer.HandleDownload`: the temporary file counts
  as created as soon as the download call is made (`AfterSearch` logs it and
  `FileStep` adds the path), whatever the call's outcome. A download that
  throws before writing anything is therefore counted as leaving the file on
  disk. Partly written files are not distinguished.
- `DownloadRoute.PostRun`: the body is read with `await req.json()` before
  the `try` (`api/download/route.ts:12`). A body that is not JSON rejects the
  handler itself, with neither the 400 nor the 500 answer. The model's input
  is the `spotifyTrackId` field already read, so it does not express this
  case.
- `DownloadRoute.ConversionServer.HandleUpload`: the waits and polls are
  logged together after the polling loop has run, not one by one during it.
- `SpotifyRoute.Get`: the request body is not form-encoded. The JSON reads
  of `fetch` responses are part of each reply (`Rejected` for a body that
  does not parse).
- The search input already holds the first result or `None`, as the search
  library wrapper returns it. The library wrappers, the token bootstrap
  script and the Genkit placeholder flow are not part of this model.

## Findings

| source | as written | input that shows it | evidently intended | confidence | as-written member | corrected member |
|---|---|---|---|---|---|---|
| src/app/api/download/route.ts:33-36 | after the video is downloaded, the missing-key return and the catch-all return without removing the temporary file | a request whose download succeeds with `CLOUDCONVERT_API_KEY` unset | the temporary file is removed on every path after the download | high, not executed | DownloadRoute.MissingKeyLeavesTempFile | DownloadRoute.CleanupLeavesNoTempFile |
| src/app/actions.ts:13-15 | the seconds are rounded without carrying into the minutes | 119500 ms prints "1:60" | "2:00" | high, not executed | Actions.SixtySecondsShown | Actions.CarriedDurationReadsBack |
| src/components/spotdown/TrackList.tsx:56 | the guard lets only idle tracks through, so the enabled "Retry" button of a failed track does nothing | a track whose download failed, then a click on "Retry" | retry restarts the download of a failed track | medium, not executed | TrackList.RetryDoesNothing | TrackList.EnabledButtonLaunches |
