/** The page-level steps of src/parser/page.py and their older copies in
    main.py: the album name, reading the album page, resolving every song's
    download records (then saving them to the link-list file), and the
    choice between loading that file and scraping again. */
module Page {
  import opened Common
  import opened Markup
  import opened Text
  import opened Album
  import opened Song
  import opened Codecs

  /** get_album_name_from_page: the heading text, or else the last
      '/'-separated segment of the URL, passed through sanitize_filepath. */
  function AlbumNameFromPage(url: string, heading: Option<string>, sanitizeFilepath: string -> string): (name: string)
    ensures heading.Some? ==> name == sanitizeFilepath(heading.value)
    ensures heading.None? ==> exists segment :: (name == sanitizeFilepath(segment)
      && '/' !in segment && |segment| <= |url| && segment == url[|url| - |segment|..]
      && (|segment| < |url| ==> url[|url| - |segment| - 1] == '/'))
  {
    var raw := match heading
      case Some(text) => text
      case None => LastSegment(url);
    sanitizeFilepath(raw)
  }

  /** Without a heading the name comes from the text after the URL's last '/',
      or from the whole URL when it has no '/'. */
  lemma AlbumNameFromUrl(prefix: string, segment: string, sanitizeFilepath: string -> string)
    requires '/' !in segment
    ensures AlbumNameFromPage(prefix + "/" + segment, None, sanitizeFilepath) == sanitizeFilepath(segment)
    ensures AlbumNameFromPage(segment, None, sanitizeFilepath) == sanitizeFilepath(segment)
    ensures LegacyAlbumName(prefix + "/" + segment, None) == segment
    ensures LegacyAlbumName(segment, None) == segment
  {
    LastSegmentAfterSlash(prefix, segment);
  }

  /** The two album-name rules agree, up to sanitising, on a heading without ':'
      and on a page without a heading. */
  lemma AlbumNameVersions(url: string, heading: Option<string>)
    requires heading.Some? ==> ':' !in heading.value
    ensures AlbumNameFromPage(url, heading, s => s) == LegacyAlbumName(url, heading)
  {
  }

  /** get_album_info_from_page: header detection, then the song rows read
      with the header flags it found. */
  function AlbumInfoFromPage(page: AlbumPage, v: Variant): (r: Result<(seq<SongInfo>, CodecFormats)>)
    ensures page.header.None? ==> r == Err(AttributeError)
    ensures page.header.Some? && page.songList.None? ==> r == Err(SongInfoNotFound)
    ensures r.Ok? ==> var info := HeaderInfo(page.header.value);
      && WellFormedFormats(r.value.1)
      && r.value.1 == info.formats
      && SongInfoList(page.songList, info.discNumberHeader, info.songNumberHeader, v) == Ok(r.value.0)
    ensures page.header.Some? ==> var info := HeaderInfo(page.header.value);
      var songs := SongInfoList(page.songList, info.discNumberHeader, info.songNumberHeader, v);
      && (r.Ok? <==> songs.Ok?)
      && (r.Err? ==> r.error == songs.error)
  {
    var album :- GetAlbumInfo(page);
    var songs :- SongInfoList(page.songList, album.discNumberHeader, album.songNumberHeader, v);
    Ok((songs, album.formats))
  }

  /** The older get_album_info_from_page of main.py, which also returns the album name. */
  function LegacyAlbumInfoFromPage(url: string, page: AlbumPage): (r: Result<(seq<SongInfo>, string, CodecFormats)>)
    ensures r.Ok? <==> AlbumInfoFromPage(page, Legacy).Ok?
    ensures r.Ok? ==>
      && r.value.0 == AlbumInfoFromPage(page, Legacy).value.0
      && r.value.1 == LegacyAlbumName(url, page.heading)
      && r.value.2 == AlbumInfoFromPage(page, Legacy).value.1
    ensures r.Err? ==> r.error == AlbumInfoFromPage(page, Legacy).error
  {
    var album :- GetAlbumInfoLegacy(url, page);
    var songs :- SongInfoList(page.songList, album.discNumberHeader, album.songNumberHeader, Legacy);
    Ok((songs, album.albumName, album.formats))
  }

  /** The enumerate loop of get_song_link_from_pages from song position idx
      on: each song's page is fetched (anchorsOf stands for the fetch and
      the find_all of its download anchors) and resolved; the first failure
      ends the loop. */
  function ResolveFrom(songs: seq<SongInfo>, idx: int, codecs: seq<string>, anchorsOf: string -> seq<Option<string>>)
    : Result<SongDownloadList>
    decreases |songs|
  {
    if songs == [] then Ok([])
    else match SongLinks(idx, songs[0], anchorsOf(songs[0].pageUrl), codecs)
      case Err(e) => Err(e)
      case Ok(links) => Prepend([links], ResolveFrom(songs[1..], idx + 1, codecs, anchorsOf))
  }

  /** enumerate(song_list, start=1). */
  function ResolveLinks(songs: seq<SongInfo>, codecs: seq<string>, anchorsOf: string -> seq<Option<string>>)
    : Result<SongDownloadList>
  {
    ResolveFrom(songs, 1, codecs, anchorsOf)
  }

  /** One entry per song, in song order, entry i resolved with position
      idx + i; the loop fails exactly when some song's page has no usable
      download link. */
  lemma {:induction false} ResolveFromShape(songs: seq<SongInfo>, idx: int, codecs: seq<string>,
                                            anchorsOf: string -> seq<Option<string>>)
    ensures var r := ResolveFrom(songs, idx, codecs, anchorsOf);
      && (r.Ok? <==> forall i :: 0 <= i < |songs| ==> SongLinks(idx + i, songs[i], anchorsOf(songs[i].pageUrl), codecs).Ok?)
      && (r.Ok? ==> (|r.value| == |songs|
           && forall i :: 0 <= i < |songs| ==>
                SongLinks(idx + i, songs[i], anchorsOf(songs[i].pageUrl), codecs) == Ok(r.value[i])))
    decreases |songs|
  {
    if songs != [] {
      ResolveFromShape(songs[1..], idx + 1, codecs, anchorsOf);
      var r := ResolveFrom(songs, idx, codecs, anchorsOf);
      var tail := ResolveFrom(songs[1..], idx + 1, codecs, anchorsOf);
      forall i | 0 < i < |songs|
        ensures songs[i] == songs[1..][i - 1] && idx + i == (idx + 1) + (i - 1)
      {
      }
      if r.Ok? {
        var first := SongLinks(idx, songs[0], anchorsOf(songs[0].pageUrl), codecs);
        assert r.value == [first.value] + tail.value;
      }
    }
  }

  /** The position of the first song whose page has no usable download
      link, or |songs| when every page has one. */
  function FirstUnresolved(songs: seq<SongInfo>, idx: int, codecs: seq<string>, anchorsOf: string -> seq<Option<string>>)
    : (k: nat)
    ensures k <= |songs|
    ensures forall j :: 0 <= j < k ==> SongLinks(idx + j, songs[j], anchorsOf(songs[j].pageUrl), codecs).Ok?
    ensures k < |songs| ==> SongLinks(idx + k, songs[k], anchorsOf(songs[k].pageUrl), codecs).Err?
    decreases |songs|
  {
    if songs == [] || SongLinks(idx, songs[0], anchorsOf(songs[0].pageUrl), codecs).Err? then 0
    else 1 + FirstUnresolved(songs[1..], idx + 1, codecs, anchorsOf)
  }

  /** A failing loop stops at the first song whose page has no usable
      download link, naming that song. */
  lemma {:induction false} ResolveFromFirstError(songs: seq<SongInfo>, idx: int, codecs: seq<string>,
                                                 anchorsOf: string -> seq<Option<string>>)
    requires ResolveFrom(songs, idx, codecs, anchorsOf).Err?
    ensures var k := FirstUnresolved(songs, idx, codecs, anchorsOf);
      && k < |songs|
      && ResolveFrom(songs, idx, codecs, anchorsOf).error == DownloadLinkNotFound(songs[k].name)
    decreases |songs|
  {
    var first := SongLinks(idx, songs[0], anchorsOf(songs[0].pageUrl), codecs);
    if first.Ok? {
      ResolveFromFirstError(songs[1..], idx + 1, codecs, anchorsOf);
      var k := FirstUnresolved(songs[1..], idx + 1, codecs, anchorsOf);
      assert FirstUnresolved(songs, idx, codecs, anchorsOf) == k + 1;
      assert songs[k + 1] == songs[1..][k];
    }
  }

  /** With --no-lossless and without --lossy every song gets an empty list of
      records: the pages are still fetched, and a page without a first
      download anchor still stops the run. */
  lemma {:induction false} EmptyPlanEmptyRecords(songs: seq<SongInfo>, idx: int, anchorsOf: string -> seq<Option<string>>)
    requires ResolveFrom(songs, idx, [], anchorsOf).Ok?
    ensures forall entry :: entry in ResolveFrom(songs, idx, [], anchorsOf).value ==> entry == []
  {
    ResolveFromShape(songs, idx, [], anchorsOf);
  }

  /** The link-list file: written as a whole and read back verbatim. */
  class LinkListStore {
    /** The saved records; None while the file does not exist. */
    var saved: Option<SongDownloadList>

    constructor (initial: Option<SongDownloadList>)
      ensures saved == initial
    {
      saved := initial;
    }

    /** json.dump of the whole list. */
    method Dump(list: SongDownloadList)
      modifies this
      ensures saved == Some(list)
    {
      saved := Some(list);
    }

    /** json.load of the file; opening a file that does not exist raises. */
    method Load() returns (r: Result<SongDownloadList>)
      ensures saved.None? <==> r == Err(FileNotFound)
      ensures saved.Some? ==> r == Ok(saved.value)
    {
      if saved.None? {
        r := Err(FileNotFound);
      } else {
        r := Ok(saved.value);
      }
    }
  }

  /** Saving and loading back gives the same records, in the same order,
      missing URLs included. */
  method SaveThenLoad(store: LinkListStore, list: SongDownloadList) returns (r: Result<SongDownloadList>)
    modifies store
    ensures r == Ok(list) && store.saved == Some(list)
  {
    store.Dump(list);
    r := store.Load();
  }

  /** get_song_link_from_pages: the loop, then one write of the whole list;
      a failure leaves the file as it was. */
  method GetSongLinkFromPages(store: LinkListStore, songs: seq<SongInfo>, codecs: seq<string>,
                              anchorsOf: string -> seq<Option<string>>) returns (r: Result<SongDownloadList>)
    modifies store
    ensures r == ResolveLinks(songs, codecs, anchorsOf)
    ensures r.Ok? ==> store.saved == Some(r.value)
    ensures r.Err? ==> store.saved == old(store.saved)
  {
    var downloads: SongDownloadList := [];
    var i := 0;
    assert songs[0..] == songs;
    PrependNothing(ResolveFrom(songs, 1, codecs, anchorsOf));
    while i < |songs|
      invariant 0 <= i <= |songs|
      invariant store.saved == old(store.saved)
      invariant ResolveLinks(songs, codecs, anchorsOf)
                == Prepend(downloads, ResolveFrom(songs[i..], i + 1, codecs, anchorsOf))
    {
      var info := songs[i];
      assert songs[i..][1..] == songs[i + 1..];
      var links := GetSongLinks(i + 1, info, anchorsOf(info.pageUrl), codecs);
      if links.Err? {
        r := Err(links.error);
        assert ResolveFrom(songs[i..], i + 1, codecs, anchorsOf) == r;
        return;
      }
      assert forall rest: SongDownloadList :: downloads + ([links.value] + rest) == (downloads + [links.value]) + rest;
      downloads := downloads + [links.value];
      i := i + 1;
    }
    assert songs[i..] == [];
    assert downloads + [] == downloads;
    store.Dump(downloads);
    r := Ok(downloads);
  }

  /** A fresh scrape: header detection, row parsing, the codec plan, then link resolution. */
  function Scrape(page: AlbumPage, choices: CodecChoices, anchorsOf: string -> seq<Option<string>>, v: Variant)
    : (r: Result<SongDownloadList>)
    ensures AlbumInfoFromPage(page, v).Err? ==> r == Err(AlbumInfoFromPage(page, v).error)
    ensures AlbumInfoFromPage(page, v).Ok? ==>
      var songs := AlbumInfoFromPage(page, v).value.0;
      var codecs := CodecsToDownload(choices, AlbumInfoFromPage(page, v).value.1);
      && (r.Ok? <==> forall i :: 0 <= i < |songs| ==> SongLinks(1 + i, songs[i], anchorsOf(songs[i].pageUrl), codecs).Ok?)
      && (r.Ok? ==> (|r.value| == |songs|
           && forall i :: 0 <= i < |songs| ==>
                SongLinks(1 + i, songs[i], anchorsOf(songs[i].pageUrl), codecs) == Ok(r.value[i])))
      && (r.Err? ==> var k := FirstUnresolved(songs, 1, codecs, anchorsOf);
           k < |songs| && r.error == DownloadLinkNotFound(songs[k].name))
  {
    var album :- AlbumInfoFromPage(page, v);
    var codecs := CodecsToDownload(choices, album.1);
    var r := ResolveLinks(album.0, codecs, anchorsOf);
    ResolveFromShape(album.0, 1, codecs, anchorsOf);
    if r.Ok? then r
    else ResolveFromFirstError(album.0, 1, codecs, anchorsOf); r
  }

  /** get_info_from_page: with load_links_from_file the saved list is
      returned as it is and nothing is scraped or written; otherwise the
      album is scraped with the flags as codec choices and the result saved. */
  method GetInfoFromPage(store: LinkListStore, page: AlbumPage, anchorsOf: string -> seq<Option<string>>,
                         sanitize: string -> string, loadLinksFromFile: bool, lossyCodec: bool, noLosslessCodec: bool)
    returns (r: Result<SongDownloadList>)
    modifies store
    ensures loadLinksFromFile ==> (store.saved == old(store.saved)
      && r == (if store.saved.Some? then Ok(store.saved.value) else Err(FileNotFound)))
    ensures !loadLinksFromFile ==>
      r == Scrape(page, CodecChoices(lossyCodec, noLosslessCodec), anchorsOf, Current(sanitize))
    ensures !loadLinksFromFile && r.Ok? ==> store.saved == Some(r.value)
    ensures !loadLinksFromFile && r.Err? ==> store.saved == old(store.saved)
  {
    if loadLinksFromFile {
      r := store.Load();
      return;
    }
    var album := AlbumInfoFromPage(page, Current(sanitize));
    if album.Err? {
      return Err(album.error);
    }
    var codecs := GetCodecsToDownload(CodecChoices(lossyCodec, noLosslessCodec), album.value.1);
    r := GetSongLinkFromPages(store, album.value.0, codecs, anchorsOf);
  }

  /** The older get_info_from_page of main.py: it also returns the album
      name, which is the last URL segment when the list is loaded from file. */
  method GetInfoFromPageLegacy(store: LinkListStore, url: string, page: AlbumPage,
                               anchorsOf: string -> seq<Option<string>>,
                               loadLinksFromFile: bool, lossyCodec: bool, noLosslessCodec: bool)
    returns (r: Result<(string, SongDownloadList)>)
    modifies store
    ensures loadLinksFromFile ==> (store.saved == old(store.saved)
      && r == (if store.saved.Some? then Ok((LastSegment(url), store.saved.value)) else Err(FileNotFound)))
    ensures !loadLinksFromFile ==>
      var scraped := Scrape(page, CodecChoices(lossyCodec, noLosslessCodec), anchorsOf, Legacy);
      && (r.Ok? <==> scraped.Ok?)
      && (r.Ok? ==> r.value == (LegacyAlbumName(url, page.heading), scraped.value))
      && (r.Err? ==> r.error == scraped.error)
    ensures !loadLinksFromFile && r.Ok? ==> store.saved == Some(r.value.1)
    ensures !loadLinksFromFile && r.Err? ==> store.saved == old(store.saved)
  {
    if loadLinksFromFile {
      var albumName := LastSegment(url);
      var links := store.Load();
      if links.Err? {
        return Err(links.error);
      }
      return Ok((albumName, links.value));
    }
    var album := LegacyAlbumInfoFromPage(url, page);
    if album.Err? {
      return Err(album.error);
    }
    var codecs := GetCodecsToDownload(CodecChoices(lossyCodec, noLosslessCodec), album.value.2);
    var links := GetSongLinkFromPages(store, album.value.0, codecs, anchorsOf);
    if links.Err? {
      return Err(links.error);
    }
    r := Ok((album.value.1, links.value));
  }
}
