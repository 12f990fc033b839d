/** Shared vocabulary of the downloader: optional values, the exceptions the
    scraper can raise, the records passed between its stages, and the
    site constants. */
module Common {

  datatype Option<+T> = None | Some(value: T)

  /** A value, or the exception that the Python code would raise instead. */
  datatype Result<+T> = Ok(value: T) | Err(error: Error) {
    predicate IsFailure() { Err? }

    function PropagateFailure<U>(): Result<U>
      requires Err?
    {
      Err(error)
    }

    function Extract(): T
      requires Ok?
    {
      value
    }
  }

  /** Completion of an action that returns nothing. */
  datatype Outcome = Pass | Fail(error: Error)

  /** The exceptions the modelled code can raise, named after the Python
      exception or the message the code raises it with. */
  datatype Error =
    | ValueError                       // int() of text that is not a decimal integer
    | IndexError                       // a child index past the end of a table row
    | TypeError                        // int() of, or slicing of, a missing cell string
    | AttributeError                   // an attribute looked up on a missing element
    | KeyError                         // a missing HTML attribute such as href
    | SongInfoNotFound                 // "Song information could not be found in the requested page"
    | DownloadLinkNotFound(song: string) // "The download link for song ... could not be retrieved"
    | FileNotFound                     // the link-list file does not exist
    | HttpError(url: string)           // a failed request or an error status (4xx, 5xx)

  /** The errors get_song_info_list turns into SongInfoNotFound. */
  predicate IsAttributeOrKeyError(e: Error) {
    e.AttributeError? || e.KeyError?
  }

  const PAGE_PREFIX: string := "https://downloads.khinsider.com"

  /** The two codec families; the code compares labels with these by membership. */
  const LOSSY_AUDIO_CODECS: seq<string> := ["MP3"]
  const LOSSLESS_AUDIO_CODECS: seq<string> := ["OGG", "M4A", "FLAC"]

  /** What the user asked for on the command line. */
  datatype CodecChoices = CodecChoices(lossy: bool, noLossless: bool)

  /** The codec labels the album's table header advertises. */
  datatype CodecFormats = CodecFormats(lossy: Option<string>, lossless: Option<string>)

  /** Each advertised label belongs to its own family, as header detection guarantees. */
  predicate WellFormedFormats(f: CodecFormats) {
    && (f.lossy.Some? ==> f.lossy.value in LOSSY_AUDIO_CODECS)
    && (f.lossless.Some? ==> f.lossless.value in LOSSLESS_AUDIO_CODECS)
  }

  /** One data row of the album's song table. */
  datatype SongInfo = SongInfo(
    discNumber: Option<int>,
    songNumber: Option<int>,
    name: string,
    pageUrl: string)

  /** One download record: a song in one codec. A missing url is kept, not dropped. */
  datatype SongLink = SongLink(
    discNumber: Option<int>,
    nameWithCodec: string,
    url: Option<string>)

  /** Per-song lists of download records, in song order: the content of the link-list file. */
  type SongDownloadList = seq<seq<SongLink>>
}
