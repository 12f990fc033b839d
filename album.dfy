/** Header detection (src/parser/album.py) and the older album reader that
    also derives the album name (parser/album.py, utils.py). */
module Album {
  import opened Common
  import opened Markup
  import opened Text

  /** Index of the first string that is one of the labels, or |strings| when none is. */
  function FirstIndexIn(strings: seq<string>, labels: seq<string>): (k: nat)
    ensures k <= |strings|
    ensures forall j :: 0 <= j < k ==> strings[j] !in labels
    ensures k < |strings| ==> strings[k] in labels
  {
    if strings == [] || strings[0] in labels then 0 else 1 + FirstIndexIn(strings[1..], labels)
  }

  /** BeautifulSoup's find(string=labels) over the header's strings: the
      first string that equals one of the labels exactly, as found. */
  function FindString(strings: seq<string>, labels: seq<string>): (r: Option<string>)
    ensures r.None? <==> forall j :: 0 <= j < |strings| ==> strings[j] !in labels
    ensures r.Some? ==> r.value in labels
    ensures r.Some? ==> exists k :: 0 <= k < |strings| && strings[k] == r.value
                                    && forall j :: 0 <= j < k ==> strings[j] !in labels
  {
    var k := FirstIndexIn(strings, labels);
    if k < |strings| then Some(strings[k]) else None
  }

  /** What get_album_info returns. */
  datatype AlbumInfo = AlbumInfo(
    discNumberHeader: Option<string>,
    songNumberHeader: Option<string>,
    formats: CodecFormats)

  /** The four lookups in the header's strings. */
  function HeaderInfo(header: seq<string>): (info: AlbumInfo)
    ensures info.discNumberHeader.Some? <==> "CD" in header
    ensures info.discNumberHeader.Some? ==> info.discNumberHeader.value == "CD"
    ensures info.songNumberHeader.Some? <==> "#" in header
    ensures info.songNumberHeader.Some? ==> info.songNumberHeader.value == "#"
    ensures WellFormedFormats(info.formats)
    ensures info.formats.lossy == FindString(header, LOSSY_AUDIO_CODECS)
    ensures info.formats.lossless == FindString(header, LOSSLESS_AUDIO_CODECS)
    ensures info.formats.lossy.Some? ==> info.formats.lossy.value in header
    ensures info.formats.lossless.Some? ==> info.formats.lossless.value in header
    ensures info.formats.lossy.None? <==> forall j :: 0 <= j < |header| ==> header[j] !in LOSSY_AUDIO_CODECS
    ensures info.formats.lossless.None? <==> forall j :: 0 <= j < |header| ==> header[j] !in LOSSLESS_AUDIO_CODECS
  {
    AlbumInfo(
      FindString(header, ["CD"]),
      FindString(header, ["#"]),
      CodecFormats(FindString(header, LOSSY_AUDIO_CODECS), FindString(header, LOSSLESS_AUDIO_CODECS)))
  }

  /** get_album_info: a missing #songlist_header fails on None.find, with no partial result. */
  function GetAlbumInfo(page: AlbumPage): (r: Result<AlbumInfo>)
    ensures page.header.None? <==> r == Err(AttributeError)
    ensures r.Ok? ==> r.value == HeaderInfo(page.header.value)
  {
    match page.header
    case None => Err(AttributeError)
    case Some(header) => Ok(HeaderInfo(header))
  }

  /** The older album name: the heading with every ':' written ' -', or
      else the last '/'-separated segment of the album URL. */
  function LegacyAlbumName(url: string, heading: Option<string>): (name: string)
    ensures heading.Some? ==> name == ReplaceColons(heading.value)
    ensures heading.Some? ==> ':' !in name && |name| >= |heading.value|
    ensures heading.Some? && ':' !in heading.value ==> name == heading.value
    ensures heading.None? ==> '/' !in name && |name| <= |url| && name == url[|url| - |name|..]
    ensures heading.None? && |name| < |url| ==> url[|url| - |name| - 1] == '/'
  {
    match heading
    case Some(text) => ReplaceColons(text)
    case None => LastSegment(url)
  }

  /** What the older get_album_info returns: the name and the same four lookups. */
  datatype LegacyAlbumInfo = LegacyAlbumInfo(
    albumName: string,
    discNumberHeader: Option<string>,
    songNumberHeader: Option<string>,
    formats: CodecFormats)

  /** The older get_album_info: the name is derived first and cannot fail;
      the header lookups then behave exactly as in the current reader. */
  function GetAlbumInfoLegacy(url: string, page: AlbumPage): (r: Result<LegacyAlbumInfo>)
    ensures r.Ok? <==> GetAlbumInfo(page).Ok?
    ensures r.Err? ==> r.error == GetAlbumInfo(page).error
    ensures r.Ok? ==> var info := GetAlbumInfo(page).value;
      && r.value.albumName == LegacyAlbumName(url, page.heading)
      && r.value.discNumberHeader == info.discNumberHeader
      && r.value.songNumberHeader == info.songNumberHeader
      && r.value.formats == info.formats
  {
    var albumName := LegacyAlbumName(url, page.heading);
    match page.header
    case None => Err(AttributeError)
    case Some(header) =>
      var info := HeaderInfo(header);
      Ok(LegacyAlbumInfo(albumName, info.discNumberHeader, info.songNumberHeader, info.formats))
  }
}
