/**
 * Track records kept in the music queue (discord-bot.py, the `track_info`
 * dictionaries built by `play` and `handle_playlist`).
 */
module Tracks {
  import opened Wrappers

  /** The `'type'` key: an on-demand YouTube video or an Icecast stream. */
  datatype Kind = YouTube | Icecast

  /**
   * A resolved, playable audio source. The only thing the core reads from it
   * is the gain (volume percent) it was created with.
   */
  datatype Source = Source(gain: int)

  datatype Track = Track(
    kind: Kind,
    title: string,
    url: string,
    duration: Option<int>,
    uploader: string,
    source: Option<Source>)   // cached once resolved; `None` until then

  /** What resolving one video yields: its title, duration and uploader. */
  datatype Info = Info(title: string, duration: Option<int>, uploader: string)

  /** One entry of an extracted playlist; a missing key is `None`. */
  datatype Entry = Entry(
    title: Option<string>,
    webpageUrl: Option<string>,
    duration: Option<int>,
    uploader: Option<string>)

  /** The track a single resolved search becomes; its source is already cached. */
  function ResolvedTrack(search: string, info: Info, gain: int): (t: Track)
    ensures t.kind == YouTube && t.url == search && t.title == info.title
    ensures t.source == Some(Source(gain))
  {
    Track(YouTube, info.title, search, info.duration, info.uploader, Some(Source(gain)))
  }

  /** The track a playlist entry becomes, with the defaults for missing keys. */
  function EntryTrack(e: Entry): (t: Track)
    ensures t.kind == YouTube && t.source.None?
    ensures t.title == (if e.title.Some? then e.title.value else "Unknown")
    ensures t.url == (if e.webpageUrl.Some? then e.webpageUrl.value else "")
  {
    Track(YouTube, e.title.GetOr("Unknown"), e.webpageUrl.GetOr(""), e.duration, e.uploader.GetOr("Unknown"), None)
  }
}
