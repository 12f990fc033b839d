/** Reading the song table (get_song_numbers, get_song_info,
    get_song_info_list) and resolving a song's download records
    (get_song_links), in src/parser/song.py and in the older copies
    parser/song.py and utils.py. */
module Song {
  import opened Common
  import opened Markup
  import opened Text

  /** The two generations of the row reader. The current one sanitises the
      song name and reads a missing cell string as a missing number; the
      older one keeps the raw anchor text and fails on a missing string. */
  datatype Variant = Current(sanitize: string -> string) | Legacy

  /** Child offsets of the disc and track cells, keyed by which of the two
      optional headers the table has. */
  datatype Offsets = Offsets(disc: Option<nat>, track: Option<nat>)

  function NumberOffsets(hasDiscHeader: bool, hasSongHeader: bool): Offsets {
    Offsets(if hasDiscHeader then Some(3) else None, if hasSongHeader then Some(TrackCell(hasDiscHeader)) else None)
  }

  /** The child offset of the track cell: after the disc cell when there is one. */
  function TrackCell(hasDiscHeader: bool): nat {
    if hasDiscHeader then 5 else 3
  }

  /** int(row.contents[i].string), or int(row.contents[i].string[:-1]) for a track cell. */
  function ReadNumber(cells: seq<Option<string>>, i: nat, dropLast: bool, v: Variant): Result<Option<int>> {
    if i >= |cells| then Err(IndexError)
    else match cells[i]
      case None => if v.Current? then Ok(None) else Err(TypeError)
      case Some(text) =>
        match ParseInt(if dropLast then DropLast(text) else text)
        case None => Err(ValueError)
        case Some(n) => Ok(Some(n))
  }


  datatype SongNumbers = SongNumbers(discNumber: Option<int>, songNumber: Option<int>)

  /** get_song_numbers (and the number part of the older get_song_info):
      the disc cell is read first, then the track cell. */
  function GetSongNumbers(cells: seq<Option<string>>, discHeader: Option<string>, songHeader: Option<string>,
                          v: Variant): Result<SongNumbers>
  {
    var offsets := NumberOffsets(discHeader.Some?, songHeader.Some?);
    var disc :- if offsets.disc.Some? then ReadNumber(cells, offsets.disc.value, false, v) else Ok(None);
    var song :- if offsets.track.Some? then ReadNumber(cells, offsets.track.value, true, v) else Ok(None);
    Ok(SongNumbers(disc, song))
  }


  function SongName(v: Variant, text: string): string {
    match v
    case Current(sanitize) => sanitize(text)
    case Legacy => text
  }

  /** get_song_info: numbers first, then the row's first anchor: its text
      gives the name and PAGE_PREFIX + its href the song page. */
  function GetSongInfo(cells: seq<Option<string>>, anchor: Option<Anchor>, discHeader: Option<string>,
                       songHeader: Option<string>, v: Variant): Result<SongInfo>
  {
    var numbers :- GetSongNumbers(cells, discHeader, songHeader, v);
    match anchor
    case None => Err(AttributeError)
    case Some(a) =>
      var name := SongName(v, a.text);
      match a.href
      case None => Err(KeyError)
      case Some(href) => Ok(SongInfo(numbers.discNumber, numbers.songNumber, name, PAGE_PREFIX + href))
  }


  /** A child the loop passes over: a bare newline or a row with attributes. */
  predicate IsSkipped(line: Line) {
    (line.TextNode? && line.text == "\n") || (line.Row? && line.attributeCount > 0)
  }

  function RowInfo(line: Line, discHeader: Option<string>, songHeader: Option<string>, v: Variant): Result<SongInfo> {
    match line
    case TextNode(_) => Err(AttributeError)  // len(line.attrs) on a text node
    case Row(_, cells, anchor) => GetSongInfo(cells, anchor, discHeader, songHeader, v)
  }

  /** What get_song_info_list raises for the error of one row: AttributeError
      and KeyError become its "not found" AttributeError; any other error passes. */
  function ListError(e: Error): Error {
    if IsAttributeOrKeyError(e) then SongInfoNotFound else e
  }

  /** The loop of get_song_info_list over the children it has not reached yet;
      an AttributeError or KeyError leaves it as SongInfoNotFound. */
  function SongInfosFrom(lines: seq<Line>, discHeader: Option<string>, songHeader: Option<string>, v: Variant)
    : Result<seq<SongInfo>>
    decreases |lines|
  {
    if lines == [] then Ok([])
    else if IsSkipped(lines[0]) then SongInfosFrom(lines[1..], discHeader, songHeader, v)
    else match RowInfo(lines[0], discHeader, songHeader, v)
      case Err(e) => Err(ListError(e))
      case Ok(info) => Prepend([info], SongInfosFrom(lines[1..], discHeader, songHeader, v))
  }

  function Prepend<T>(done: seq<T>, r: Result<seq<T>>): Result<seq<T>> {
    match r
    case Ok(rest) => Ok(done + rest)
    case Err(e) => Err(e)
  }

  /** get_song_info_list: a missing #songlist container is an AttributeError too. */
  function SongInfoList(songList: Option<seq<Line>>, discHeader: Option<string>, songHeader: Option<string>, v: Variant)
    : Result<seq<SongInfo>>
  {
    match songList
    case None => Err(SongInfoNotFound)
    case Some(lines) => SongInfosFrom(lines, discHeader, songHeader, v)
  }

  /** The children that are not skipped: each must be a row that parses. */
  function DataLines(lines: seq<Line>): (r: seq<Line>)
    ensures |r| <= |lines|
    ensures forall line :: line in r ==> line in lines && !IsSkipped(line)
  {
    if lines == [] then []
    else if IsSkipped(lines[0]) then DataLines(lines[1..])
    else [lines[0]] + DataLines(lines[1..])
  }

  /** The children kept from two runs of children are those kept from each, in order. */
  lemma {:induction false} DataLinesAppend(a: seq<Line>, b: seq<Line>)
    ensures DataLines(a + b) == DataLines(a) + DataLines(b)
    decreases |a|
  {
    if a == [] {
      assert a + b == b;
    } else {
      assert (a + b)[0] == a[0] && (a + b)[1..] == a[1..] + b;
      DataLinesAppend(a[1..], b);
    }
  }

  /** Every child that is not skipped is kept. */
  lemma {:induction false} DataLinesComplete(lines: seq<Line>)
    ensures forall i :: 0 <= i < |lines| && !IsSkipped(lines[i]) ==> lines[i] in DataLines(lines)
    decreases |lines|
  {
    if lines != [] {
      DataLinesComplete(lines[1..]);
      forall i | 0 < i < |lines| && !IsSkipped(lines[i]) ensures lines[i] in DataLines(lines) {
        assert lines[i] == lines[1..][i - 1];
      }
    }
  }

  /** The loop succeeds exactly when every child it does not skip parses. */
  lemma {:induction false} SongInfosOkIffDataLinesParse(lines: seq<Line>, discHeader: Option<string>,
                                                        songHeader: Option<string>, v: Variant)
    ensures SongInfosFrom(lines, discHeader, songHeader, v).Ok?
        <==> forall line :: line in DataLines(lines) ==> RowInfo(line, discHeader, songHeader, v).Ok?
    decreases |lines|
  {
    if lines != [] {
      SongInfosOkIffDataLinesParse(lines[1..], discHeader, songHeader, v);
      if !IsSkipped(lines[0]) {
        assert DataLines(lines) == [lines[0]] + DataLines(lines[1..]);
      }
    }
  }

  /** On success the loop keeps exactly the children it does not skip, in
      order, one SongInfo each. */
  lemma {:induction false} SongInfosKeepDataLines(lines: seq<Line>, discHeader: Option<string>,
                                                  songHeader: Option<string>, v: Variant)
    requires SongInfosFrom(lines, discHeader, songHeader, v).Ok?
    ensures var infos := SongInfosFrom(lines, discHeader, songHeader, v).value;
            var data := DataLines(lines);
      && |infos| == |data|
      && forall i :: 0 <= i < |data| ==> RowInfo(data[i], discHeader, songHeader, v) == Ok(infos[i])
    decreases |lines|
  {
    if lines != [] {
      SongInfosKeepDataLines(lines[1..], discHeader, songHeader, v);
      if !IsSkipped(lines[0]) {
        var data := DataLines(lines);
        var rest := DataLines(lines[1..]);
        assert data == [lines[0]] + rest;
        var infos := SongInfosFrom(lines, discHeader, songHeader, v).value;
        var first := RowInfo(lines[0], discHeader, songHeader, v);
        var tail := SongInfosFrom(lines[1..], discHeader, songHeader, v).value;
        assert infos == [first.value] + tail;
        forall i | 0 < i < |data|
          ensures RowInfo(data[i], discHeader, songHeader, v) == Ok(infos[i])
        {
          assert data[i] == rest[i - 1] && infos[i] == tail[i - 1];
        }
      }
    }
  }

  /** The position of the first row among data that does not parse, or |data| when all do. */
  function FirstRowError(data: seq<Line>, discHeader: Option<string>, songHeader: Option<string>, v: Variant)
    : (k: nat)
    ensures k <= |data|
    ensures forall j :: 0 <= j < k ==> RowInfo(data[j], discHeader, songHeader, v).Ok?
    ensures k < |data| ==> RowInfo(data[k], discHeader, songHeader, v).Err?
  {
    if data == [] || RowInfo(data[0], discHeader, songHeader, v).Err? then 0
    else 1 + FirstRowError(data[1..], discHeader, songHeader, v)
  }

  /** The loop fails with the error, as get_song_info_list re-raises it, of the
      first row among the children it does not skip that does not parse. */
  predicate FailsAtFirstBadRow(lines: seq<Line>, discHeader: Option<string>, songHeader: Option<string>, v: Variant) {
    var data := DataLines(lines);
    var k := FirstRowError(data, discHeader, songHeader, v);
    && k < |data|
    && SongInfosFrom(lines, discHeader, songHeader, v)
       == Err(ListError(RowInfo(data[k], discHeader, songHeader, v).error))
  }

  /** A failing loop fails at the first child it does not skip whose row
      does not parse, with that row's error as get_song_info_list re-raises it. */
  lemma {:induction false} SongInfosFirstError(lines: seq<Line>, discHeader: Option<string>,
                                               songHeader: Option<string>, v: Variant)
    requires SongInfosFrom(lines, discHeader, songHeader, v).Err?
    ensures FailsAtFirstBadRow(lines, discHeader, songHeader, v)
    decreases |lines|
  {
    if IsSkipped(lines[0]) {
      SongInfosFirstError(lines[1..], discHeader, songHeader, v);
      SkippedFirstBadRow(lines, discHeader, songHeader, v);
    } else if RowInfo(lines[0], discHeader, songHeader, v).Err? {
      BadFirstRow(lines, discHeader, songHeader, v);
    } else {
      SongInfosFirstError(lines[1..], discHeader, songHeader, v);
      GoodFirstRow(lines, discHeader, songHeader, v);
    }
  }

  lemma SkippedFirstBadRow(lines: seq<Line>, discHeader: Option<string>, songHeader: Option<string>, v: Variant)
    requires lines != [] && IsSkipped(lines[0])
    requires FailsAtFirstBadRow(lines[1..], discHeader, songHeader, v)
    ensures FailsAtFirstBadRow(lines, discHeader, songHeader, v)
  {
    assert DataLines(lines) == DataLines(lines[1..]);
  }

  lemma BadFirstRow(lines: seq<Line>, discHeader: Option<string>, songHeader: Option<string>, v: Variant)
    requires lines != [] && !IsSkipped(lines[0]) && RowInfo(lines[0], discHeader, songHeader, v).Err?
    ensures FailsAtFirstBadRow(lines, discHeader, songHeader, v)
  {
    assert DataLines(lines)[0] == lines[0];
  }

  lemma GoodFirstRow(lines: seq<Line>, discHeader: Option<string>, songHeader: Option<string>, v: Variant)
    requires lines != [] && !IsSkipped(lines[0]) && RowInfo(lines[0], discHeader, songHeader, v).Ok?
    requires FailsAtFirstBadRow(lines[1..], discHeader, songHeader, v)
    ensures FailsAtFirstBadRow(lines, discHeader, songHeader, v)
  {
    var data := DataLines(lines);
    var rest := DataLines(lines[1..]);
    assert data == [lines[0]] + rest;
    assert data[0] == lines[0] && data[1..] == rest;
    var k := FirstRowError(rest, discHeader, songHeader, v);
    assert FirstRowError(data, discHeader, songHeader, v) == k + 1;
    assert data[k + 1] == rest[k];
  }

  /** get_song_info_list never lets an AttributeError or a KeyError out: a
      missing container and a row without an anchor or a link both end as
      "not found", and every other error of a row propagates unchanged. */
  lemma SongInfoListErrors(songList: Option<seq<Line>>, discHeader: Option<string>,
                           songHeader: Option<string>, v: Variant)
    ensures var r := SongInfoList(songList, discHeader, songHeader, v);
      && (songList.None? ==> r == Err(SongInfoNotFound))
      && (r.Err? ==> !IsAttributeOrKeyError(r.error))
      && (songList.Some? && r.Err? ==> FailsAtFirstBadRow(songList.value, discHeader, songHeader, v))
  {
    var r := SongInfoList(songList, discHeader, songHeader, v);
    if songList.Some? && r.Err? {
      SongInfosFirstError(songList.value, discHeader, songHeader, v);
    }
  }

  lemma PrependNothing<T>(r: Result<seq<T>>)
    ensures Prepend([], r) == r
  {
    if r.Ok? {
      assert [] + r.value == r.value;
    }
  }

  /** get_song_info_list as the loop that appends to song_info_list. */
  method GetSongInfoList(songList: Option<seq<Line>>, discHeader: Option<string>, songHeader: Option<string>, v: Variant)
    returns (r: Result<seq<SongInfo>>)
    ensures r == SongInfoList(songList, discHeader, songHeader, v)
  {
    if songList.None? {
      return Err(SongInfoNotFound);
    }
    var lines := songList.value;
    var infos: seq<SongInfo> := [];
    var i := 0;
    assert lines[0..] == lines;
    PrependNothing(SongInfosFrom(lines, discHeader, songHeader, v));
    while i < |lines|
      invariant 0 <= i <= |lines|
      invariant SongInfosFrom(lines, discHeader, songHeader, v)
                == Prepend(infos, SongInfosFrom(lines[i..], discHeader, songHeader, v))
    {
      var line := lines[i];
      assert lines[i..][1..] == lines[i + 1..];
      if IsSkipped(line) {
        i := i + 1;
        continue;
      }
      var info := RowInfo(line, discHeader, songHeader, v);
      if info.Err? {
        r := Err(ListError(info.error));
        assert SongInfosFrom(lines[i..], discHeader, songHeader, v) == r;
        return;
      }
      assert forall rest: seq<SongInfo> :: infos + ([info.value] + rest) == (infos + [info.value]) + rest;
      infos := infos + [info.value];
      i := i + 1;
    }
    assert lines[i..] == [];
    assert infos + [] == infos;
    r := Ok(infos);
  }

  /** Where the two readers agree: a row the older reader parses is parsed
      the same way by the current one when the name is not sanitised. */
  lemma LegacyAgreesWithCurrent(cells: seq<Option<string>>, anchor: Option<Anchor>,
                                discHeader: Option<string>, songHeader: Option<string>)
    requires GetSongInfo(cells, anchor, discHeader, songHeader, Legacy).Ok?
    ensures GetSongInfo(cells, anchor, discHeader, songHeader, Current(s => s))
         == GetSongInfo(cells, anchor, discHeader, songHeader, Legacy)
  {
  }

  /** Where they differ: a track cell without a string is a missing number
      for the current reader and a TypeError for the older one. */
  lemma MissingTrackString(cells: seq<Option<string>>, anchor: Option<Anchor>, sanitize: string -> string)
    requires 3 < |cells| && cells[3].None?
    ensures GetSongNumbers(cells, None, Some("#"), Current(sanitize)) == Ok(SongNumbers(None, None))
    ensures GetSongInfo(cells, anchor, None, Some("#"), Legacy) == Err(TypeError)
  {
  }

  /** The row the site renders for given numbers: each number cell at the
      offset its header implies, the track number followed by a dot. */
  function RenderCells(disc: nat, track: nat, hasDiscHeader: bool, hasSongHeader: bool): seq<Option<string>> {
    var discCell := Some(Pad2(disc));
    var trackCell := Some(Pad2(track) + ".");
    if hasDiscHeader && hasSongHeader then [Some("\n"), None, Some("\n"), discCell, Some("\n"), trackCell]
    else if hasDiscHeader then [Some("\n"), None, Some("\n"), discCell]
    else if hasSongHeader then [Some("\n"), None, Some("\n"), trackCell]
    else [Some("\n"), None]
  }

  lemma ParseTrackCell(track: nat)
    ensures ParseInt(DropLast(Pad2(track) + ".")) == Some(track as int)
  {
    assert DropLast(Pad2(track) + ".") == Pad2(track);
    ParsePad2(track);
  }

  /** Reading the rendered row gives back the numbers it was rendered from,
      for every combination of headers and both readers. */
  lemma ParsesRenderedRow(disc: nat, track: nat, hasDiscHeader: bool, hasSongHeader: bool, v: Variant)
    ensures
      var discHeader := if hasDiscHeader then Some("CD") else None;
      var songHeader := if hasSongHeader then Some("#") else None;
      GetSongNumbers(RenderCells(disc, track, hasDiscHeader, hasSongHeader), discHeader, songHeader, v)
      == Ok(SongNumbers(if hasDiscHeader then Some(disc as int) else None,
                        if hasSongHeader then Some(track as int) else None))
  {
    ParsePad2(disc);
    ParseTrackCell(track);
  }

  /** The two links a song page offers: the first anchor's target is the
      lossy file, the second's, when there is one, the lossless file. */
  datatype DownloadLinks = DownloadLinks(lossy: string, lossless: Option<string>)

  /** The try block of get_song_links. Each anchor is given as the href of
      its parent, None when the parent or the attribute is missing. */
  function ExtractDownloadLinks(anchors: seq<Option<string>>, songName: string): (r: Result<DownloadLinks>)
    ensures r.Ok? <==> |anchors| > 0 && anchors[0].Some? && (|anchors| > 1 ==> anchors[1].Some?)
    ensures r.Err? ==> r.error == DownloadLinkNotFound(songName)
    ensures r.Ok? ==> r.value.lossy == anchors[0].value
    ensures r.Ok? ==> (r.value.lossless.Some? <==> |anchors| > 1) && (|anchors| > 1 ==> r.value.lossless == anchors[1])
  {
    if |anchors| == 0 || anchors[0].None? then Err(DownloadLinkNotFound(songName))
    else if |anchors| > 1 then
      if anchors[1].None? then Err(DownloadLinkNotFound(songName))
      else Ok(DownloadLinks(anchors[0].value, anchors[1]))
    else Ok(DownloadLinks(anchors[0].value, None))
  }

  /** `song_info['song_number'] or idx`. */
  function TrackNumber(songNumber: Option<int>, idx: int): (n: int)
    ensures songNumber.Some? && songNumber.value != 0 ==> n == songNumber.value
    ensures songNumber.None? || songNumber.value == 0 ==> n == idx
  {
    match songNumber
    case Some(k) => if k != 0 then k else idx
    case None => idx
  }

  /** f'{n:02d}. {name}.{ext}'. */
  function FileName(number: int, name: string, ext: string): string {
    Pad2(number) + ". " + name + "." + ext
  }

  /** The extension written for a lossless codec that the song lacks. */
  const DOWNGRADE_EXTENSION: string := Lower(Lower(LOSSY_AUDIO_CODECS[0]))

  /** The record for one planned codec. */
  function LinkFor(codec: string, links: DownloadLinks, disc: Option<int>, number: int, name: string): (link: SongLink)
    ensures link.discNumber == disc
    ensures link.url.None? <==> codec !in LOSSY_AUDIO_CODECS && codec !in LOSSLESS_AUDIO_CODECS
    ensures codec in LOSSY_AUDIO_CODECS ==> link.url == Some(links.lossy)
    ensures codec in LOSSLESS_AUDIO_CODECS && links.lossless.Some? ==> link.url == links.lossless
    ensures codec in LOSSLESS_AUDIO_CODECS && links.lossless.None? ==>
      link.url == Some(links.lossy) && link.nameWithCodec == FileName(number, name, DOWNGRADE_EXTENSION)
    ensures !(codec in LOSSLESS_AUDIO_CODECS && links.lossless.None?) ==>
      link.nameWithCodec == FileName(number, name, Lower(codec))
  {
    var url := if codec in LOSSY_AUDIO_CODECS then Some(links.lossy) else None;
    var (ext, url) :=
      if codec in LOSSLESS_AUDIO_CODECS then
        if links.lossless.Some? then (codec, links.lossless) else (Lower(LOSSY_AUDIO_CODECS[0]), Some(links.lossy))
      else (codec, url);
    SongLink(disc, FileName(number, name, Lower(ext)), url)
  }

  /** get_song_links: the links are extracted first, so a page without a
      usable first anchor fails even for an empty plan. */
  function SongLinks(idx: int, info: SongInfo, anchors: seq<Option<string>>, codecs: seq<string>)
    : (r: Result<seq<SongLink>>)
    ensures r.Err? <==> ExtractDownloadLinks(anchors, info.name).Err?
    ensures r.Err? ==> r.error == DownloadLinkNotFound(info.name)
    ensures r.Ok? ==> |r.value| == |codecs|
  {
    var links :- ExtractDownloadLinks(anchors, info.name);
    var number := TrackNumber(info.songNumber, idx);
    Ok(seq(|codecs|, i requires 0 <= i < |codecs| => LinkFor(codecs[i], links, info.discNumber, number, info.name)))
  }

  /** get_song_links as the loop that appends one record per planned codec. */
  method GetSongLinks(idx: int, info: SongInfo, anchors: seq<Option<string>>, codecs: seq<string>)
    returns (r: Result<seq<SongLink>>)
    ensures r == SongLinks(idx, info, anchors, codecs)
  {
    var links := ExtractDownloadLinks(anchors, info.name);
    if links.Err? {
      return Err(links.error);
    }
    var number := TrackNumber(info.songNumber, idx);
    var songLinks: seq<SongLink> := [];
    for i := 0 to |codecs|
      invariant |songLinks| == i
      invariant forall j :: 0 <= j < i ==> songLinks[j] == LinkFor(codecs[j], links.value, info.discNumber, number, info.name)
    {
      songLinks := songLinks + [LinkFor(codecs[i], links.value, info.discNumber, number, info.name)];
    }
    r := Ok(songLinks);
    assert songLinks == seq(|codecs|, i requires 0 <= i < |codecs| => LinkFor(codecs[i], links.value, info.discNumber, number, info.name));
  }

  /** Record i of a resolved song is codec i of the plan: same disc, the
      numbered file name, and a URL that is missing only for a codec in
      neither family; a lossless codec the page lacks falls back to the
      lossy URL with the mp3 extension. */
  lemma SongLinksRecords(idx: int, info: SongInfo, anchors: seq<Option<string>>, codecs: seq<string>, i: nat)
    requires SongLinks(idx, info, anchors, codecs).Ok? && i < |codecs|
    ensures var link := SongLinks(idx, info, anchors, codecs).value[i];
            var n := TrackNumber(info.songNumber, idx);
      && link.discNumber == info.discNumber
      && (link.url.None? <==> codecs[i] !in LOSSY_AUDIO_CODECS && codecs[i] !in LOSSLESS_AUDIO_CODECS)
      && (codecs[i] in LOSSLESS_AUDIO_CODECS && |anchors| == 1 ==>
            link.url == anchors[0] && link.nameWithCodec == FileName(n, info.name, "mp3"))
      && (codecs[i] in LOSSLESS_AUDIO_CODECS && |anchors| > 1 ==>
            link.url == anchors[1] && link.nameWithCodec == FileName(n, info.name, Lower(codecs[i])))
      && (codecs[i] in LOSSY_AUDIO_CODECS ==>
            link.url == anchors[0] && link.nameWithCodec == FileName(n, info.name, Lower(codecs[i])))
  {
    assert DOWNGRADE_EXTENSION == "mp3";
  }

  /** The number at the head of a file name reads back as the track number,
      and is followed by ". ". */
  lemma FileNameNumber(number: int, name: string, ext: string)
    ensures var f := FileName(number, name, ext);
            var k := |Pad2(number)|;
      && k >= 2 && k + 2 <= |f|
      && ParseInt(f[..k]) == Some(number)
      && f[k..k + 2] == ". "
  {
    var f := FileName(number, name, ext);
    var k := |Pad2(number)|;
    assert f == Pad2(number) + (". " + name + "." + ext);
    assert f[..k] == Pad2(number) && f[k..k + 2] == ". ";
    Pad2Digits(number);
    ParsePad2(number);
  }

  /** Reading a number cell: a missing cell is an IndexError; a cell without
      a string is a missing number for the current reader and a TypeError for
      the older one; text that int() rejects is a ValueError, and text it
      accepts gives that number. */
  lemma ReadNumberOutcome(cells: seq<Option<string>>, i: nat, dropLast: bool, v: Variant)
    ensures var r := ReadNumber(cells, i, dropLast, v);
      && (i >= |cells| ==> r == Err(IndexError))
      && (i < |cells| && cells[i].None? ==> r == (if v.Current? then Ok(None) else Err(TypeError)))
      && (i < |cells| && cells[i].Some? ==>
            var n := ParseInt(if dropLast then DropLast(cells[i].value) else cells[i].value);
            && (r.Err? <==> n.None?)
            && (r.Err? ==> r.error == ValueError)
            && (r.Ok? ==> r.value == n))
      && (r.Ok? && v.Legacy? ==> r.value.Some?)
  {
  }
  /** get_song_numbers reads only the cells its headers call for, the disc
      cell first: it fails exactly when one of those reads fails, with the
      first failing read's error, and otherwise gives what they read. */
  lemma SongNumbersOutcome(cells: seq<Option<string>>, discHeader: Option<string>, songHeader: Option<string>,
                           v: Variant)
    ensures var r := GetSongNumbers(cells, discHeader, songHeader, v);
            var disc := ReadNumber(cells, 3, false, v);
            var track := ReadNumber(cells, TrackCell(discHeader.Some?), true, v);
      && (r.Ok? <==> (discHeader.Some? ==> disc.Ok?) && (songHeader.Some? ==> track.Ok?))
      && (discHeader.Some? && disc.Err? ==> r == Err(disc.error))
      && ((discHeader.None? || disc.Ok?) && songHeader.Some? && track.Err? ==> r == Err(track.error))
      && (r.Ok? ==> r.value.discNumber == (if discHeader.Some? then disc.value else None))
      && (r.Ok? ==> r.value.songNumber == (if songHeader.Some? then track.value else None))
      && (r.Ok? && discHeader.Some? ==>
            3 < |cells| && r.value.discNumber == (if cells[3].None? then None else ParseInt(cells[3].value)))
      && (r.Ok? && songHeader.Some? ==>
            TrackCell(discHeader.Some?) < |cells|
            && var cell := cells[TrackCell(discHeader.Some?)];
               r.value.songNumber == (if cell.None? then None else ParseInt(DropLast(cell.value))))
      && (r.Err? ==> r.error == IndexError || r.error == ValueError || (v.Legacy? && r.error == TypeError))
  {
    ReadNumberOutcome(cells, 3, false, v);
    ReadNumberOutcome(cells, TrackCell(discHeader.Some?), true, v);
  }
  /** get_song_info fails with the numbers' error first, then with
      AttributeError for a row without an anchor and KeyError for an anchor
      without a link; otherwise it gives the numbers, the name and the page URL. */
  lemma SongInfoOutcome(cells: seq<Option<string>>, anchor: Option<Anchor>, discHeader: Option<string>,
                        songHeader: Option<string>, v: Variant)
    ensures var r := GetSongInfo(cells, anchor, discHeader, songHeader, v);
            var numbers := GetSongNumbers(cells, discHeader, songHeader, v);
      && (r.Ok? <==> numbers.Ok? && anchor.Some? && anchor.value.href.Some?)
      && (numbers.Err? ==> r == Err(numbers.error))
      && (numbers.Ok? && anchor.None? ==> r == Err(AttributeError))
      && (numbers.Ok? && anchor.Some? && anchor.value.href.None? ==> r == Err(KeyError))
      && (r.Ok? ==>
            && r.value.discNumber == numbers.value.discNumber
            && r.value.songNumber == numbers.value.songNumber
            && r.value.name == SongName(v, anchor.value.text)
            && r.value.pageUrl == PAGE_PREFIX + anchor.value.href.value)
  {
  }}
