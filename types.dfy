/** The records the components and server actions exchange (`src/lib/types.ts`). */
module Types {
  import opened Wrappers

  /** Where a track is in its download. */
  datatype DownloadStatus = Idle | Downloading | Completed | Error

  /** The per-track entry of the download state: a status and a progress percentage. */
  datatype TrackDownloadState = TrackDownloadState(status: DownloadStatus, progress: int)

  /** Artwork reference: an image address with its alt text and hint. */
  datatype ImagePlaceholder = ImagePlaceholder(id: string, description: string, imageUrl: string, imageHint: string)

  /** A track as the interface shows it; `duration` is the "m:ss" text. */
  datatype Track = Track(id: string, title: string, artist: string, duration: string, albumArt: ImagePlaceholder)

  /** What the URL form leads to: an album, a playlist, a single track, an error or nothing yet. */
  datatype SpotifyContent =
    | AlbumContent(id: string, name: string, url: string, tracks: seq<Track>, artist: string, albumArt: ImagePlaceholder)
    | PlaylistContent(id: string, name: string, url: string, tracks: seq<Track>, creator: string, description: string, playlistArt: Option<ImagePlaceholder>)
    | SongContent(track: Track, url: string)
    | ProcessingError(message: string)
    | InitialState
}
