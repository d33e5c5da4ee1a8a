/**
 * The server actions (`src/app/actions.ts`): the duration text, the check
 * of a submitted Spotify address, the shaping of Web API JSON into tracks,
 * albums and playlists, and the single-track download that answers with a
 * base 64 data URL.
 *
 * The proxy route's answers, the download of the preview audio and the
 * preliminary tool call are inputs (`Await` values; `Rejected` is a throw).
 * The JSON bodies are given as records holding the fields the code reads.
 */
module Actions {
  import opened Wrappers
  import opened Types
  import Text
  import Base64
  import SpotifyRoute

  // ---------------------------------------------------------------------
  // Durations

  /** Whole minutes of a duration in milliseconds (`Math.floor(ms / 60000)`). */
  function Minutes(ms: nat): nat
  {
    ms / 60000
  }

  /** The seconds within the minute, rounded half up to a whole number (`toFixed(0)`). */
  function RoundedSeconds(ms: nat): nat
  {
    (ms % 60000 + 500) / 1000
  }

  /** The seconds field: a "0" in front of a single digit. */
  function SecondsText(s: nat): string
  {
    (if s < 10 then "0" else "") + Text.NatToString(s)
  }

  /** `formatDuration`: "m:ss" for a duration in milliseconds. */
  function FormatDuration(ms: nat): string
  {
    Text.NatToString(Minutes(ms)) + ":" + SecondsText(RoundedSeconds(ms))
  }

  /** Reading an "m:ss" text back: two non-empty digit fields around one ':'. */
  function ParseDuration(text: string): Option<(nat, nat)>
  {
    var parts := Text.Split(text, ':');
    if |parts| == 2 && parts[0] != "" && parts[1] != "" && Text.AllDigits(parts[0]) && Text.AllDigits(parts[1])
    then Some((Text.DecimalValue(parts[0]), Text.DecimalValue(parts[1])))
    else None
  }

  /** The seconds field always has two digits, and its value is what it prints. */
  lemma {:induction false} SecondsTextReadsBack(s: nat)
    requires s < 100
    ensures |SecondsText(s)| == 2 && Text.AllDigits(SecondsText(s)) && ':' !in SecondsText(s)
    ensures Text.DecimalValue(SecondsText(s)) == s
  {
    var digits := Text.NatToString(s);
    Text.DecimalRoundTrip(s);
    if s < 10 {
      Text.DecimalLeadingZero(digits);
    } else {
      assert digits == Text.NatToString(s / 10) + [Text.DigitChar(s % 10)];
      assert SecondsText(s) == digits;
    }
  }

  /** A digit string holds no ':'. */
  lemma DigitsHaveNoColon(s: string)
    requires Text.AllDigits(s)
    ensures ':' !in s
  {
  }

  /** The seconds value lies in 0..60; it is 60 exactly when the rest of the minute is 59.5 s or more. */
  lemma SecondsRange(ms: nat)
    ensures RoundedSeconds(ms) <= 60
    ensures RoundedSeconds(ms) == 60 <==> ms % 60000 >= 59500
  {
  }

  /** The duration text reads back as the whole minutes and the rounded seconds, with a two-digit seconds field. */
  lemma DurationReadsBack(ms: nat)
    ensures ParseDuration(FormatDuration(ms)) == Some((Minutes(ms), RoundedSeconds(ms)))
    ensures |Text.Split(FormatDuration(ms), ':')[1]| == 2
  {
    var m := Text.NatToString(Minutes(ms));
    var s := RoundedSeconds(ms);
    SecondsRange(ms);
    SecondsTextReadsBack(s);
    DigitsHaveNoColon(m);
    Text.SplitAtSeparator(m, SecondsText(s), ':');
    Text.SplitNoSeparator(SecondsText(s), ':');
    assert FormatDuration(ms) == m + [':'] + SecondsText(s);
    Text.DecimalRoundTrip(Minutes(ms));
  }

  /** 1 minute 59.5 seconds prints as "1:60": the rounding does not carry into the minutes. */
  lemma SixtySecondsShown()
    ensures FormatDuration(119500) == "1:60"
  {
    assert Minutes(119500) == 1 && RoundedSeconds(119500) == 60;
    assert Text.NatToString(60) == Text.NatToString(6) + [Text.DigitChar(0)];
  }

  /** The duration with the rounding carried: the whole duration is rounded to seconds first. */
  function FormatDurationCarried(ms: nat): string
  {
    var total := (ms + 500) / 1000;
    Text.NatToString(total / 60) + ":" + SecondsText(total % 60)
  }

  /**
   * The carried form always has seconds below 60, reads back as the rounded
   * duration, and agrees with `FormatDuration` whenever the seconds do not
   * round up to 60.
   */
  lemma CarriedDurationReadsBack(ms: nat)
    ensures ParseDuration(FormatDurationCarried(ms)).Some?
    ensures var (m, s) := ParseDuration(FormatDurationCarried(ms)).value;
      s < 60 && m * 60 + s == (ms + 500) / 1000
    ensures ms % 60000 < 59500 ==> FormatDurationCarried(ms) == FormatDuration(ms)
  {
    var total := (ms + 500) / 1000;
    var m := Text.NatToString(total / 60);
    SecondsTextReadsBack(total % 60);
    DigitsHaveNoColon(m);
    Text.SplitAtSeparator(m, SecondsText(total % 60), ':');
    Text.SplitNoSeparator(SecondsText(total % 60), ':');
    assert FormatDurationCarried(ms) == m + [':'] + SecondsText(total % 60);
    Text.DecimalRoundTrip(total / 60);
    if ms % 60000 < 59500 {
      CarryFree(ms);
    }
  }

  /** Below 59.5 s into the minute, rounding the whole duration keeps the minute. */
  lemma CarryFree(ms: nat)
    requires ms % 60000 < 59500
    ensures (ms + 500) / 1000 / 60 == Minutes(ms)
    ensures (ms + 500) / 1000 % 60 == RoundedSeconds(ms)
  {
    var q, r := ms / 60000, ms % 60000;
    assert ms == q * 60000 + r;
    assert ms + 500 == q * 60000 + (r + 500);
    assert (ms + 500) / 1000 == q * 60 + (r + 500) / 1000;
  }

  // ---------------------------------------------------------------------
  // The address check

  const PageHost := "https://open.spotify.com/"
  const UrlMessage := "Please provide a valid URL."
  const PatternMessage := "Please enter a valid Spotify URL (e.g., https://open.spotify.com/track/...)."

  predicate IsAlphanumeric(c: char)
  {
    'a' <= c <= 'z' || 'A' <= c <= 'Z' || '0' <= c <= '9'
  }

  /** `s` begins with `lead` followed by an ASCII letter or digit. */
  predicate LeadThenAlphanumeric(s: string, lead: string)
  {
    |lead| < |s| && s[..|lead|] == lead && IsAlphanumeric(s[|lead|])
  }

  /** After the host (and an optional "embed/"): a kind, '/', and a letter or digit. */
  predicate KindThenId(rest: string)
  {
    LeadThenAlphanumeric(rest, "track/") || LeadThenAlphanumeric(rest, "album/") || LeadThenAlphanumeric(rest, "playlist/")
  }

  /**
   * The pattern `^https://open\.spotify\.(com|com/embed)/(track|album|playlist)/[a-zA-Z0-9]+`,
   * matched left to right; nothing is required after the first letter or digit of the id.
   */
  predicate MatchesSpotifyPattern(s: string)
  {
    Text.StartsWith(s, PageHost) &&
      var rest := s[|PageHost|..];
      KindThenId(rest) || (Text.StartsWith(rest, "embed/") && KindThenId(rest[6..]))
  }

  const ContentKinds := {"track", "album", "playlist"}

  /** The text the pattern requires in front of the id, for a choice of the two alternations. */
  function PatternLead(embed: bool, kind: string): string
  {
    PageHost + (if embed then "embed/" else "") + kind + "/"
  }

  /** The pattern, read as: some choice of the alternations spells the start of `s`. */
  predicate PatternChoice(s: string)
  {
    exists embed: bool, kind: string | kind in ContentKinds :: LeadThenAlphanumeric(s, PatternLead(embed, kind))
  }

  /** Reading a lead in two pieces. */
  lemma LeadInPieces(s: string, a: string, b: string)
    requires |a| <= |s| && s[..|a|] == a
    ensures LeadThenAlphanumeric(s, a + b) <==> LeadThenAlphanumeric(s[|a|..], b)
  {
    if |a + b| < |s| {
      assert s[..|a + b|] == a + b <==> s[|a|..][..|b|] == b by {
        assert s[..|a + b|] == s[..|a|] + s[|a|..][..|b|];
      }
      assert s[|a + b|] == s[|a|..][|b|];
    }
  }

  /** One choice of the alternations, read as the host, then the optional "embed/", then the kind. */
  lemma ChoiceInPieces(s: string, embed: bool, kind: string)
    ensures LeadThenAlphanumeric(s, PatternLead(embed, kind)) <==>
      Text.StartsWith(s, PageHost) &&
      (if embed then Text.StartsWith(s[|PageHost|..], "embed/") && LeadThenAlphanumeric(s[|PageHost| + 6..], kind + "/")
       else LeadThenAlphanumeric(s[|PageHost|..], kind + "/"))
  {
    var lead := PatternLead(embed, kind);
    var tail := (if embed then "embed/" else "") + kind + "/";
    assert lead == PageHost + tail;
    if Text.StartsWith(s, PageHost) {
      var rest := s[|PageHost|..];
      LeadInPieces(s, PageHost, tail);
      if embed {
        assert tail == "embed/" + (kind + "/");
        if Text.StartsWith(rest, "embed/") {
          LeadInPieces(rest, "embed/", kind + "/");
          assert rest[6..] == s[|PageHost| + 6..];
        }
      } else {
        assert tail == kind + "/";
      }
    }
  }

  /** What the matcher accepts, some choice of the alternations spells. */
  lemma PatternMatcherSound(s: string)
    requires MatchesSpotifyPattern(s)
    ensures PatternChoice(s)
  {
    var rest := s[|PageHost|..];
    var embed := !KindThenId(rest);
    var r := if embed then rest[6..] else rest;
    var kind := if LeadThenAlphanumeric(r, "track/") then "track"
      else if LeadThenAlphanumeric(r, "album/") then "album" else "playlist";
    ChoiceInPieces(s, embed, kind);
  }

  /** What some choice of the alternations spells, the matcher accepts. */
  lemma PatternMatcherComplete(s: string, embed: bool, kind: string)
    requires kind in ContentKinds && LeadThenAlphanumeric(s, PatternLead(embed, kind))
    ensures MatchesSpotifyPattern(s)
  {
    ChoiceInPieces(s, embed, kind);
  }

  /** The left-to-right matcher accepts exactly the texts that some choice of the alternations spells. */
  lemma PatternMatcherCorrect(s: string)
    ensures MatchesSpotifyPattern(s) <==> PatternChoice(s)
  {
    if MatchesSpotifyPattern(s) {
      PatternMatcherSound(s);
    }
    if PatternChoice(s) {
      var embed: bool, kind: string :| kind in ContentKinds && LeadThenAlphanumeric(s, PatternLead(embed, kind));
      PatternMatcherComplete(s, embed, kind);
    }
  }

  /**
   * The first validation message for the submitted form value, if any: the
   * value must be a string, then a URL (the library's own check, given as
   * `isUrl`), then match the pattern. None means the value is accepted.
   */
  function ValidationError(url: Option<string>, isUrl: bool): Option<string>
  {
    if url.None? then Some("Expected string, received null")
    else if !isUrl then Some(UrlMessage)
    else if !MatchesSpotifyPattern(url.value) then Some(PatternMessage)
    else None
  }

  // ---------------------------------------------------------------------
  // Content kind

  /** The content kind as `processUrl` reads it off the address, by substring. */
  function DetectType(url: string): string
  {
    if Text.Contains(url, "/track/") then "track"
    else if Text.Contains(url, "/album/") then "album"
    else "playlist"
  }

  // ---------------------------------------------------------------------
  // JSON shaping

  /** The album fields a track's JSON carries: id, name and the addresses of its images. */
  datatype AlbumRef = AlbumRef(id: string, name: string, imageUrls: seq<string>)

  /** The fields of a Web API track object the code reads. */
  datatype TrackJson = TrackJson(id: string, name: string, artistNames: seq<string>, durationMs: nat, album: Option<AlbumRef>)

  /** The fields of a Web API album object the code reads. */
  datatype AlbumJson = AlbumJson(id: string, name: string, artistNames: seq<string>, imageUrls: seq<string>, items: seq<TrackJson>)

  /** The fields of a Web API playlist object; an item whose track is null is None. */
  datatype PlaylistJson = PlaylistJson(id: string, name: string, ownerName: string, description: string, items: seq<Option<TrackJson>>)

  /** The body of the proxy's answer, of the kind it describes. */
  datatype Payload = TrackPayload(track: TrackJson) | AlbumPayload(album: AlbumJson) | PlaylistPayload(playlist: PlaylistJson) | NoPayload

  /** The proxy's answer: `ok`, the `error` field, and the body. */
  datatype ProxyReply = ProxyReply(ok: bool, error: Option<string>, payload: Payload)

  /** Artist names joined with ", ", in order. */
  function ArtistLine(names: seq<string>): string
  {
    Text.Join(names, ", ")
  }

  /** The address of the first image of the track's album, if there is one. */
  function FirstAlbumImage(track: TrackJson): Option<string>
  {
    if track.album.Some? && |track.album.value.imageUrls| > 0 then Some(track.album.value.imageUrls[0]) else None
  }

  function AlbumArt(albumId: string, albumName: string, imageUrl: string): ImagePlaceholder
  {
    ImagePlaceholder(albumId, "Album art for " + albumName, imageUrl, "album art")
  }

  /** `mapSpotifyTrack`: a Web API track as the interface shows it; `unknownArt` is the default artwork. */
  function MapSpotifyTrack(track: TrackJson, unknownArt: ImagePlaceholder): Track
  {
    var image := FirstAlbumImage(track);
    Track(track.id, track.name, ArtistLine(track.artistNames), FormatDuration(track.durationMs),
      if Truthy(image) then AlbumArt(track.album.value.id, track.album.value.name, image.value) else unknownArt)
  }

  /**
   * The artwork of a mapped track is the default exactly when its album has
   * no first image with a non-empty address; otherwise it is that image,
   * described by the album name.
   */
  lemma MappedArtwork(track: TrackJson, unknownArt: ImagePlaceholder)
    ensures var art := MapSpotifyTrack(track, unknownArt).albumArt;
      (!Truthy(FirstAlbumImage(track)) ==> art == unknownArt) &&
      (Truthy(FirstAlbumImage(track)) ==>
        art.imageUrl == track.album.value.imageUrls[0] && art.description == "Album art for " + track.album.value.name)
  {
  }

  /**
   * The artist line splits on ',' back into the artist names, in order, each
   * after the first with the space of the ", " separator in front (names
   * without a ',' of their own).
   */
  lemma ArtistLineSplits(names: seq<string>)
    requires |names| >= 1
    requires forall i :: 0 <= i < |names| ==> ',' !in names[i]
    ensures Text.Split(ArtistLine(names), ',') == Text.PadTail(names, " ")
  {
    var padded := Text.PadTail(names, " ");
    Text.JoinPadded(names, ',', " ");
    assert ", " == [','] + " ";
    forall i | 0 <= i < |padded| ensures ',' !in padded[i] {
      if i > 0 {
        assert padded[i] == " " + names[i];
      }
    }
    Text.SplitJoin(padded, ',');
  }

  /** A track's JSON with the album of an album answer put in (`{...t, album: {...}}`). */
  function WithAlbum(track: TrackJson, album: AlbumJson): TrackJson
  {
    track.(album := Some(AlbumRef(album.id, album.name, album.imageUrls)))
  }

  function MapAlbum(album: AlbumJson, url: string, unknownArt: ImagePlaceholder): SpotifyContent
  {
    AlbumContent(album.id, album.name, url,
      seq(|album.items|, i requires 0 <= i < |album.items| => MapSpotifyTrack(WithAlbum(album.items[i], album), unknownArt)),
      ArtistLine(album.artistNames),
      if |album.imageUrls| > 0 then AlbumArt(album.id, album.name, album.imageUrls[0]) else unknownArt)
  }

  /** The mapped tracks of a playlist, or None when an item has a null track (the mapping throws). */
  function MapPlaylistTracks(items: seq<Option<TrackJson>>, unknownArt: ImagePlaceholder): (r: Option<seq<Track>>)
    ensures r.Some? <==> forall i :: 0 <= i < |items| ==> items[i].Some?
    ensures r.Some? ==> (|r.value| == |items| &&
      forall i :: 0 <= i < |items| ==> r.value[i] == MapSpotifyTrack(items[i].value, unknownArt))
    decreases |items|
  {
    if items == [] then Some([])
    else if items[0].None? then None
    else
      var rest := MapPlaylistTracks(items[1..], unknownArt);
      if rest.None? then None else Some([MapSpotifyTrack(items[0].value, unknownArt)] + rest.value)
  }

  /** `formatDuration(undefined)`: every arithmetic step gives NaN. */
  const UndefinedDuration := "NaN:NaN"

  /**
   * `mapSpotifyTrack` applied to an album body: the album has artists but no
   * `duration_ms` and no `album` field, so nothing throws, the duration is
   * NaN and the artwork is the default.
   */
  function AlbumAsTrack(album: AlbumJson, unknownArt: ImagePlaceholder): Track
  {
    Track(album.id, album.name, ArtistLine(album.artistNames), UndefinedDuration, unknownArt)
  }

  const UnexpectedMessage := "An unexpected error occurred. Please try again later."

  /**
   * `processUrl`: the content for a submitted form value. `isUrl` is the
   * URL library's verdict on the value, `prelude` the preliminary tool call
   * and `reply` the proxy's answer.
   */
  function ProcessUrl(url: Option<string>, isUrl: bool, unknownArt: ImagePlaceholder, prelude: Await<()>, reply: Await<ProxyReply>): SpotifyContent
  {
    var invalid := ValidationError(url, isUrl);
    if invalid.Some? then ProcessingError(invalid.value)
    else
      var address := url.value;
      match (prelude, reply)
      case (Rejected(_), _) => ProcessingError(UnexpectedMessage)
      case (_, Rejected(_)) => ProcessingError(UnexpectedMessage)
      case (Resolved(_), Resolved(r)) =>
        if !r.ok then ProcessingError(OrElse(r.error, "Failed to fetch data from Spotify."))
        else
          var kind := DetectType(address);
          if kind == "track" then
            if r.payload.TrackPayload? then SongContent(MapSpotifyTrack(r.payload.track, unknownArt), address)
            else if r.payload.AlbumPayload? then SongContent(AlbumAsTrack(r.payload.album, unknownArt), address)
            else ProcessingError(UnexpectedMessage)
          else if kind == "album" then
            if r.payload.AlbumPayload? then MapAlbum(r.payload.album, address, unknownArt)
            else ProcessingError(UnexpectedMessage)
          else if kind == "playlist" then
            if r.payload.PlaylistPayload? then
              var p := r.payload.playlist;
              var tracks := MapPlaylistTracks(p.items, unknownArt);
              if tracks.None? then ProcessingError(UnexpectedMessage)
              else PlaylistContent(p.id, p.name, address, tracks.value, p.ownerName, p.description, None)
            else ProcessingError(UnexpectedMessage)
          else ProcessingError("Could not identify content from URL.")
  }

  /** A rejected form value gives its first validation message and the proxy is never consulted. */
  lemma InvalidUrlNotFetched(url: Option<string>, isUrl: bool, unknownArt: ImagePlaceholder,
                             prelude: Await<()>, reply: Await<ProxyReply>, prelude': Await<()>, reply': Await<ProxyReply>)
    requires ValidationError(url, isUrl).Some?
    ensures ProcessUrl(url, isUrl, unknownArt, prelude, reply) == ProcessingError(ValidationError(url, isUrl).value)
    ensures ProcessUrl(url, isUrl, unknownArt, prelude, reply) == ProcessUrl(url, isUrl, unknownArt, prelude', reply')
  {
  }

  /**
   * Every address is read as one of the three kinds, so once the proxy has
   * answered, the final "Could not identify" answer is never given.
   */
  lemma KindAlwaysIdentified(url: Option<string>, isUrl: bool, unknownArt: ImagePlaceholder, reply: ProxyReply)
    requires reply.ok
    ensures DetectType(if url.Some? then url.value else "") in ContentKinds
    ensures ProcessUrl(url, isUrl, unknownArt, Resolved(()), Resolved(reply)) != ProcessingError("Could not identify content from URL.")
  {
  }

  /** An accepted address of a track, album or playlist, answered with a body of its kind, gives content of that kind. */
  lemma ContentFollowsKind(url: string, unknownArt: ImagePlaceholder, r: ProxyReply)
    requires ValidationError(Some(url), true).None? && r.ok
    ensures var c := ProcessUrl(Some(url), true, unknownArt, Resolved(()), Resolved(r));
      (DetectType(url) == "track" && r.payload.TrackPayload? ==> c == SongContent(MapSpotifyTrack(r.payload.track, unknownArt), url)) &&
      (DetectType(url) == "track" && r.payload.AlbumPayload? ==>
        c.SongContent? && c.track.id == r.payload.album.id && c.track.duration == UndefinedDuration && c.track.albumArt == unknownArt) &&
      (DetectType(url) == "album" && r.payload.AlbumPayload? ==> c.AlbumContent? && |c.tracks| == |r.payload.album.items|) &&
      (DetectType(url) == "playlist" && r.payload.PlaylistPayload? ==>
        (c.PlaylistContent? <==> forall i :: 0 <= i < |r.payload.playlist.items| ==> r.payload.playlist.items[i].Some?))
  {
  }

  // ---------------------------------------------------------------------
  // Single-track download

  const DataUrlHeader := "data:audio/mpeg;base64"

  /** The proxy's answer to the track lookup: `ok`, its `error` field and its `preview_url` field. */
  datatype MetaReply = MetaReply(ok: bool, error: Option<string>, previewUrl: Option<string>)

  /** The preview download: `ok` and the bytes of the body. */
  datatype AudioReply = AudioReply(ok: bool, bytes: seq<Base64.Byte>)

  datatype FileData = FileData(name: string, content: string)

  /** The result object of `downloadTrackAction`. */
  datatype ActionResult = ActionResult(success: bool, file: Option<FileData>, error: Option<string>)

  /** The Spotify page address of a track, as the action puts it in the proxy's query. */
  function TrackPageUrl(trackId: string): string
  {
    PageHost + "track/" + trackId
  }

  /** The data URL of section 3 of RFC 2397 holding the audio bytes in base 64. */
  function DataUrl(bytes: seq<Base64.Byte>): string
  {
    DataUrlHeader + "," + Base64.Encode(bytes)
  }

  function Failure(message: string): ActionResult
  {
    ActionResult(false, None, Some(message))
  }

  /** `downloadTrackAction`: look the track up through the proxy, fetch its preview, answer with a data URL. */
  function DownloadTrackAction(trackId: string, meta: Await<MetaReply>, audio: Await<AudioReply>): ActionResult
  {
    match meta
    case Rejected(m) => Failure(OrElse(Some(m), "Download failed."))
    case Resolved(data) =>
      if !data.ok then Failure(OrElse(data.error, "Failed to fetch track details from Spotify."))
      else if !Truthy(data.previewUrl) then Failure("No preview available for this track.")
      else match audio
        case Rejected(m) => Failure(OrElse(Some(m), "Download failed."))
        case Resolved(a) =>
          if !a.ok then Failure("Failed to download preview audio.")
          else ActionResult(true, Some(FileData(trackId + ".mp3", DataUrl(a.bytes))), None)
  }

  /**
   * A result succeeds exactly when it carries a file, and fails exactly when
   * it carries a non-empty message; a success means the lookup, the preview
   * address and the audio download all succeeded, and the file is the track
   * id with ".mp3" holding the audio as a data URL.
   */
  lemma DownloadResultShape(trackId: string, meta: Await<MetaReply>, audio: Await<AudioReply>)
    ensures var r := DownloadTrackAction(trackId, meta, audio);
      (r.success <==> r.file.Some?) && (r.success <==> r.error.None?) &&
      (r.error.Some? ==> r.error.value != "")
    ensures var r := DownloadTrackAction(trackId, meta, audio);
      r.success <==> meta.Resolved? && meta.value.ok && Truthy(meta.value.previewUrl) && audio.Resolved? && audio.value.ok
    ensures var r := DownloadTrackAction(trackId, meta, audio);
      r.success ==> r.file.value == FileData(trackId + ".mp3", DataUrl(audio.value.bytes))
  {
  }

  /** The failure messages: the proxy's own error or a default, a missing preview, a failed audio download. */
  lemma DownloadFailureMessages(trackId: string, meta: MetaReply, audio: Await<AudioReply>)
    ensures !meta.ok ==> (DownloadTrackAction(trackId, Resolved(meta), audio).error ==
      Some(OrElse(meta.error, "Failed to fetch track details from Spotify.")))
    ensures meta.ok && !Truthy(meta.previewUrl) ==> (DownloadTrackAction(trackId, Resolved(meta), audio).error ==
      Some("No preview available for this track."))
    ensures meta.ok && Truthy(meta.previewUrl) && audio.Resolved? && !audio.value.ok ==>
      DownloadTrackAction(trackId, Resolved(meta), audio).error == Some("Failed to download preview audio.")
  {
  }

  /**
   * The data URL has exactly one ',' (the base 64 alphabet has none), so
   * splitting it on ',' gives the header and the base 64 text, and the text
   * decodes to the audio bytes.
   */
  lemma DataUrlSplits(bytes: seq<Base64.Byte>)
    ensures Text.Split(DataUrl(bytes), ',') == [DataUrlHeader, Base64.Encode(bytes)]
    ensures Base64.Decode(Text.Split(DataUrl(bytes), ',')[1]) == Some(bytes)
  {
    var body := Base64.Encode(bytes);
    Base64.EncodeHasNoComma(bytes);
    assert ',' !in DataUrlHeader;
    assert DataUrl(bytes) == DataUrlHeader + [','] + body;
    Text.SplitAtSeparator(DataUrlHeader, body, ',');
    Text.SplitNoSeparator(body, ',');
    Base64.DecodeEncode(bytes);
  }

  /** An address with a track segment followed by an album segment. */
  const TrackThenAlbum := "https://open.spotify.com/track/abc/album/xyz"

  /** It passes the pattern and is detected as a track. */
  lemma TrackThenAlbumAccepted()
    ensures ValidationError(Some(TrackThenAlbum), true).None? && DetectType(TrackThenAlbum) == "track"
  {
    var u := TrackThenAlbum;
    assert u[..|PageHost|] == PageHost;
    assert u[|PageHost|..][..6] == "track/";
    assert Text.OccursAt(u, "/track/", 24);
  }

  /** The proxy, which looks only at the last two segments, fetches the album "xyz". */
  lemma TrackThenAlbumParsed()
    ensures SpotifyRoute.ParseSpotifyUrl(TrackThenAlbum) == (Some("album"), "xyz")
  {
    assert TrackThenAlbum == "https://open.spotify.com/track/abc" + "/" + "album" + "/" + "xyz" + "";
    SpotifyRoute.ParseKindAndId("https://open.spotify.com/track/abc", "album", "xyz", "");
  }

  /**
   * So an accepted address read as a track can be answered with an album
   * body, which becomes a "track" made of the album, with a NaN duration.
   */
  lemma TrackAddressFetchesAlbum(unknownArt: ImagePlaceholder, album: AlbumJson)
    ensures SpotifyRoute.ParseSpotifyUrl(TrackThenAlbum).0 == Some("album")
    ensures ProcessUrl(Some(TrackThenAlbum), true, unknownArt, Resolved(()), Resolved(ProxyReply(true, None, AlbumPayload(album)))) ==
      SongContent(Track(album.id, album.name, ArtistLine(album.artistNames), "NaN:NaN", unknownArt), TrackThenAlbum)
  {
    TrackThenAlbumAccepted();
    TrackThenAlbumParsed();
    AlbumBodyForTrackAddress(TrackThenAlbum, unknownArt, album);
  }

  /** An accepted address read as a track, answered with an album body, gives the album as a track. */
  lemma AlbumBodyForTrackAddress(url: string, unknownArt: ImagePlaceholder, album: AlbumJson)
    requires ValidationError(Some(url), true).None? && DetectType(url) == "track"
    ensures ProcessUrl(Some(url), true, unknownArt, Resolved(()), Resolved(ProxyReply(true, None, AlbumPayload(album)))) ==
      SongContent(Track(album.id, album.name, ArtistLine(album.artistNames), UndefinedDuration, unknownArt), url)
  {
  }

  /** The proxy reads the address the action sends as a track with the action's id (for an id without '/' or '?'). */
  lemma TrackLookupParses(trackId: string)
    requires '/' !in trackId && '?' !in trackId
    ensures SpotifyRoute.ParseSpotifyUrl(TrackPageUrl(trackId)) == (Some("track"), trackId)
  {
    assert TrackPageUrl(trackId) == "https://open.spotify.com" + "/" + "track" + "/" + trackId + "";
    SpotifyRoute.ParseKindAndId("https://open.spotify.com", "track", trackId, "");
  }
}
