/**
 * The shapes of the music service's responses that the web app and the bot
 * read, and the outcome of one call to it. The service itself is not modelled:
 * every call is an input that either delivers a value or throws.
 */
module Spotify {
  import opened Wrappers

  datatype Artist = Artist(name: string)

  datatype Image = Image(url: string)

  /** A track as the service describes it; `images` are its album's images. */
  datatype Track = Track(name: string, artists: seq<Artist>, durationMs: nat, images: seq<Image>)

  /**
   * The body of a current-playback response. `item` is absent when nothing
   * (or something other than a track) is playing.
   */
  datatype Playback = Playback(progressMs: nat, isPlaying: bool, item: Option<Track>)

  /** One recently played entry; `playedAt` is kept as the text shown for it. */
  datatype PlayHistory = PlayHistory(track: Track, playedAt: string)

  /** The result of one awaited call: its value, or an exception. */
  datatype Fetch<T> = Fetched(value: T) | Threw

  /** The track's first artist exists, so `track.artists[0].name` does not throw. */
  predicate HasFirstArtist(t: Track) {
    |t.artists| > 0
  }

  /** `track.artists[0].name`. */
  function FirstArtistName(t: Track): string
    requires HasFirstArtist(t)
  {
    t.artists[0].name
  }

  /** `track.artists.map(a => a.name)`. */
  function ArtistNames(t: Track): (names: seq<string>)
    ensures |names| == |t.artists|
    ensures forall k :: 0 <= k < |names| ==> names[k] == t.artists[k].name
  {
    seq(|t.artists|, k requires 0 <= k < |t.artists| => t.artists[k].name)
  }
}
