# video-game-music-downloader, modelled in Dafny

The downloader takes an album URL on downloads.khinsider.com and works in four steps:

1. It reads the album page's song table.
2. It chooses which codecs to fetch.
3. It visits every song's page and collects one download record per planned codec. It saves that list to `link_list.json`, which can stand in for the scraping on a later run.
4. It downloads every record that has a URL into `output_dir`, or into `output_dir/Disc NN` for songs with a disc number.

This project models that decision logic, in both generations of the code: the `src/` package and the older root-level copies.

The modules mirror the repository:

- `Common` (common.dfy) holds the records of `common/aliases.py`, the constants of `src/common/constants.py`, and a `Result` type. The `Result` type stands for a value or the exception the Python code raises instead.
- `Markup` (markup.dfy) gives the HTML as plain data:
  - a table child is either a text node or a row of cells, each cell with an optional string;
  - an anchor has text and an optional `href`;
  - a page has an optional heading, an optional header (the header's strings) and an optional song list.
- `Text` (text.dfy) holds the Python string operations the code relies on:
  - `int()`, `f'{n:02d}'`, `str.lower()`, `s[:-1]`;
  - `s.split('/').pop()`, `s.replace(':', ' -')`;
  - `os.path.join`.
- `Codecs` (codecs.dfy) is the codec plan of `src/parser/utils.py` and `utils.py`.
- `Album` (album.dfy) is header detection (`src/parser/album.py`) and the older album reader, which also derives the album name (`parser/album.py`, `utils.py`).
- `Song` (song.dfy) covers three operations in the current and the older readers (`src/parser/song.py`, `parser/song.py`, `utils.py`):
  - song-number extraction and row filtering;
  - song-info construction;
  - download-record resolution.
- `Page` (page.dfy) covers `src/parser/page.py` and its older copy in `main.py`:
  - the album name;
  - the per-song resolution loop;
  - the link-list file, as an object that is written and read back whole;
  - the choice between loading that file and scraping again.
- `Download` (download.dfy) covers `src/download/utils.py` and `src/download/song.py`, and the older walk of `download/song.py` and `main.py`:
  - the output path and its disc directory;
  - one download;
  - the walk over all records.

The two reader generations share one definition. `Song.Variant` selects between them:

- `Current(sanitize)` sanitises the song name with `sanitize_filename`. It reads a number cell without a string as a missing number.
- `Legacy` keeps the raw anchor text. Its `int()` of a missing string raises `TypeError`.

The older download walk is the same walk without disc banners.

Abstracted as parameters:

- `sanitize_filename` and `sanitize_filepath` are `string -> string` functions.
- Fetching a song page and finding its download anchors is `anchorsOf: string -> seq<Option<string>>`. It gives, for each anchor, the `href` of its parent, or None when the parent or the attribute is missing.
- Requesting a file is `respond: string -> Response`. The response is a status with a body, or a failure to connect.
- The album page is given as an `AlbumPage` value.

Modelled as state:

- The filesystem and console effects of the download walk live in the `Download.Host` class: directories, written files, requested URLs, disc banners.
- The link-list file is `Page.LinkListStore`.

Behaviour that follows the code where its own texts suggest otherwise:

- A download answered with a 4xx or 5xx status, or one that cannot connect, ends the whole download walk. This happens because `make_request` calls `raise_for_status` (common/utils.py:79) before `download_file` looks at the status. The "Download failed" branch of `download_file` is reached only for other statuses that are not 200.
- In `src/parser/song.py` only `TypeError` (a cell without a string) becomes a missing number. Text that is not a number (`ValueError`) and a row that is too short (`IndexError`) propagate, and are not turned into "song information not found".
- `--no-lossless` without `--lossy` plans no codec at all, whatever the album offers. The `--lossy` help text calls lossy the default under `--no-lossless`, but the code never adds it in that case.
- `main.py` imports `make_song_output_path` and `get_html_soup` from `utils.py`, which defines neither. The model uses the definitions of `src/download/utils.py`.
- `src/download/song.py:4` imports `download_file` and `make_song_output_path` from the root-level `download.utils`, which is not part of this model. The model uses the definitions of `src/download/utils.py`, because the calls at `src/download/song.py:35-39` match their signatures. The older `download_file` is taken to behave as `download_song` in `utils.py` does.

## Model

| member | source | states |
|---|---|---|
| Text.TrimStartSuffix | src/parser/song.py:21 | the leading-whitespace strip `int()` applies leaves a suffix of the text |
| Text.TrimEndPrefix | src/parser/song.py:21 | the trailing-whitespace strip leaves a prefix of the text |
| Text.NoDigitNoNumber | src/parser/song.py:21 | `ParseInt`, the model of `int()`: a string without any digit raises ValueError (None) |
| Text.ParseDigits | src/parser/song.py:21 | `ParseInt` (`int()`) of a run of decimal digits, leading zeros allowed, is the number they denote |
| Text.ParseNegative | src/parser/song.py:21 | `ParseInt` (`int()`) of '-' followed by decimal digits is the negated number |
| Text.Pad2Digits | src/parser/song.py:124 | `Pad2`, the model of `{:02d}`, gives at least two characters, all digits exactly when the number is not negative, a leading '-' exactly when it is, and always a digit last |
| Text.ParsePad2 | src/parser/song.py:124 | `int()` reads back every number `{:02d}` writes |
| Text.Pad2Injective | src/download/utils.py:33 | distinct numbers are written differently |
| Text.DecimalValue | src/parser/song.py:124 | the decimal digits written for a number read back as that number |
| Text.Lower | src/parser/song.py:124 | `str.lower()` keeps the length, leaves no upper-case letter and changes only upper-case letters |
| Text.DropLast | src/parser/song.py:27 | `s[:-1]` is the string without its last character, and "" for "" |
| Text.LastSegment | src/parser/page.py:30 | `url.split('/').pop()` is a suffix of the URL without '/', preceded by '/' unless it is the whole URL |
| Text.ReplaceColons | parser/album.py:9 | `replace(':', ' -')` leaves no ':', never shortens and changes nothing in a string without ':' |
| Text.ReplaceColonsAppend | parser/album.py:9 | the replacement works piece by piece: that of a + b is that of a followed by that of b |
| Text.ReplaceColonsChar | parser/album.py:9 | a single ':' becomes " -" and any other single character stays as it is; with the previous row this fixes the result of every string |
| Text.LastSegmentAfterSlash | src/parser/page.py:30 | the segment after the last '/' is the result whatever precedes that '/', and a URL without '/' is its own result |
| Text.PathJoinShape | src/download/utils.py:31 | `PathJoin`, the model of `os.path.join`: an absolute second part is the result; a relative one is the result after an empty first part, follows a first part ending in '/' directly, and follows any other first part after one '/' |
| Codecs.CodecsToDownload | src/parser/utils.py:8-30 | the plan holds one label per included family, lossy first when included, lossless last when included |
| Codecs.GetCodecsToDownload | src/parser/utils.py:4-30 | the three conditional appends build exactly that plan |
| Codecs.PlanShape | src/parser/utils.py:8-30 | at most two labels, each one the album offers, no label twice |
| Codecs.NoLosslessWithoutLossyIsEmpty | src/parser/utils.py:10-28 | `--no-lossless` without `--lossy` plans nothing, for every album |
| Codecs.DefaultPlan | src/parser/utils.py:13-28 | default choices: the lossless label when offered, else the lossy label, else nothing |
| Codecs.LossyAndLossless | src/parser/utils.py:10-17 | `--lossy` with both labels offered plans exactly lossy then lossless |
| Codecs.LossyWithoutLossless | src/parser/utils.py:10-28 | `--lossy` without a lossless label plans the lossy label once |
| Album.FirstIndexIn | src/parser/album.py:11-12 | the index of the first header string that is one of the labels |
| Album.FindString | src/parser/album.py:11-12 | `find(string=labels)`: None exactly when no string is a label; otherwise the first string that is one, as found |
| Album.HeaderInfo | src/parser/album.py:8-14 | the disc flag is set iff "CD" is a header string, the number flag iff "#" is; each codec label is the first header string, in document order, of its own family (as `find` returns it), None iff there is none |
| Album.GetAlbumInfo | src/parser/album.py:5-20 | a page without the header element fails with AttributeError and no partial result; otherwise the header's lookups |
| Album.LegacyAlbumName | parser/album.py:8-11 | the heading with every ':' replaced by ' -' (`ReplaceColons`, pinned down by its two lemmas; unchanged when it has none), or else a suffix of the URL without '/' that is the whole URL or follows a '/', i.e. the part after the last '/' |
| Album.GetAlbumInfoLegacy | parser/album.py:5-30 | fails exactly when the current reader does; otherwise the album name and the same four lookups, unchanged |
| Song.ReadNumberOutcome | src/parser/song.py:20-23 | `ReadNumber`: an IndexError exactly when the cell is past the row's end; a cell without a string is a missing number (current) or a TypeError (older); a cell with a string is a ValueError exactly when `int()` rejects its text, and otherwise that number |
| Song.SongNumbersOutcome | src/parser/song.py:13-40 | `GetSongNumbers` succeeds exactly when the disc cell (3) reads when "CD" is a header and the track cell (5 with both headers, 3 with "#" alone, last character dropped) reads when "#" is; the disc error comes first; no header gives no numbers |
| Song.SongInfoOutcome | src/parser/song.py:43-56 | `GetSongInfo` succeeds exactly when the numbers read and the row has an anchor with an href; number errors first, then AttributeError without an anchor, then KeyError without an href; on success the numbers, the (sanitised) anchor text and PAGE_PREFIX followed by the href |
| Song.DataLines | src/parser/song.py:66 | the children the loop does not skip, in order: neither a bare newline nor a row with attributes |
| Song.DataLinesAppend | src/parser/song.py:65-66 | the kept children of a + b are those of a followed by those of b, so the order is kept |
| Song.DataLinesComplete | src/parser/song.py:65-66 | every child that is not skipped is kept |
| Song.FirstRowError | src/parser/song.py:65-71 | the position of the first kept child whose row does not parse: every earlier one parses, that one does not |
| Song.SongInfosFirstError | src/parser/song.py:65-77 | `SongInfosFrom`, the loop: a failure is the error of the first kept child that does not parse, with AttributeError and KeyError turned into "song information not found" |
| Song.SongInfoListErrors | src/parser/song.py:59-77 | `SongInfoList`: a missing list container is "not found"; no AttributeError or KeyError escapes; any failure is that of the first kept child that does not parse |
| Song.SongInfosOkIffDataLinesParse | src/parser/song.py:64-75 | the list parse succeeds exactly when every child that is not skipped parses |
| Song.SongInfosKeepDataLines | src/parser/song.py:65-71 | on success, one SongInfo per child that is not skipped, in order, each that child's parse |
| Song.GetSongInfoList | src/parser/song.py:59-77 | the loop with its appends returns the list parse; a missing list container or anchor/href becomes "song information not found" |
| Song.LegacyAgreesWithCurrent | parser/song.py:5-27 | a row the older reader parses is parsed the same by the current reader without sanitising |
| Song.MissingTrackString | parser/song.py:17-18 | a track cell without a string: a missing number for the current reader, a TypeError for the older one |
| Song.ParseTrackCell | src/parser/song.py:33 | a track cell "NN." reads back as NN |
| Song.ParsesRenderedRow | src/parser/song.py:19-35 | for every header combination and both readers, the numbers come back from the cells they were written in |
| Song.ExtractDownloadLinks | src/parser/song.py:95-104 | fails (naming the song) exactly when there is no first link, or a second anchor without a link; the lossless link is set exactly when there are two or more anchors |
| Song.TrackNumber | src/parser/song.py:89 | `song_number or idx`: the parsed number unless it is missing or 0 |
| Song.LinkFor | src/parser/song.py:106-127 | the disc is kept; the URL is missing iff the codec is in neither family; a lossless codec the page lacks falls back to the lossy URL with extension mp3 |
| Song.SongLinks | src/parser/song.py:80-129 | fails exactly when the links cannot be extracted; otherwise one record per planned codec |
| Song.GetSongLinks | src/parser/song.py:80-129 | the loop with its appends returns exactly those records |
| Song.SongLinksRecords | src/parser/song.py:106-127 | record i is for codec i: disc, URL and file name as the codec family and the number of anchors dictate |
| Song.FileNameNumber | src/parser/song.py:124 | a file name starts with the zero-padded number, which reads back, followed by ". " |
| Page.AlbumNameFromPage | src/parser/page.py:19-36 | the sanitised heading, or else the sanitised form of a suffix of the URL without '/' that is the whole URL or follows a '/', i.e. the part after the last '/' |
| Page.AlbumNameFromUrl | src/parser/page.py:30-36 | without a heading, a URL ending in '/' and a segment without '/' gives that segment, sanitised, in both generations; so does a URL without '/' |
| Page.AlbumNameVersions | parser/album.py:8-11 | without sanitising, the current and the older album name agree on headings without ':' and on pages without a heading |
| Page.AlbumInfoFromPage | src/parser/page.py:39-47 | a missing header is an AttributeError; with a header it succeeds exactly when the song list reads with the detected header flags, fails with that reading's error otherwise, and on success gives those songs and the detected codec labels |
| Page.LegacyAlbumInfoFromPage | main.py:29-39 | succeeds exactly when the current reading under the older reader does, with the same error otherwise; on success the same songs and labels plus the older album name |
| Page.ResolveFromShape | src/parser/page.py:56-67 | one entry per song, in song order, entry i resolved with position idx + i; fails exactly when some song has no usable link |
| Page.FirstUnresolved | src/parser/page.py:59-67 | the position of the first song without a usable download link: every earlier one has one, that one has none |
| Page.ResolveFromFirstError | src/parser/page.py:59-67 | `ResolveFrom` / `ResolveLinks`, the loop: a failure names the first song without a usable download link |
| Page.EmptyPlanEmptyRecords | src/parser/page.py:59-67 | with an empty codec plan every song gets an empty record list |
| Page.LinkListStore.Dump | src/parser/page.py:69-70 | the file holds exactly the list written |
| Page.LinkListStore.Load | src/parser/page.py:83-87 | a missing file fails; otherwise the saved list, unchanged |
| Page.SaveThenLoad | src/parser/page.py:69-87 | writing then reading gives back the same list |
| Page.GetSongLinkFromPages | src/parser/page.py:50-74 | the enumerate loop returns the resolution from position 1; on success the file holds the returned list, on failure it is untouched |
| Page.Scrape | src/parser/page.py:89-100 | header and row errors propagate unchanged; otherwise it succeeds exactly when every song's page resolves under the codec plan, entry i is song i's records at position i + 1, and a failure names the first song that does not resolve |
| Page.GetInfoFromPage | src/parser/page.py:77-100 | from file: the saved list unchanged and nothing written; otherwise the scrape with the flags as codec choices, saved on success |
| Page.GetInfoFromPageLegacy | main.py:69-94 | as the current version, plus the album name: the URL's last segment when loading, the older album name when scraping |
| Download.DiscDirectoriesDistinct | src/download/utils.py:33 | two discs share a directory exactly when they are the same disc |
| Download.DiscDirectoryEnd | src/download/utils.py:33 | the "Disc NN" directory is never empty and does not end in '/' |
| Download.SongOutputPathShape | src/download/utils.py:27-36 | `SongOutputPath`: the path ends with the file name after a '/'; without a disc it is output_dir joined with the name; with a disc and a relative name it is exactly the "Disc NN" directory, '/', the name |
| Download.EnsureDiscDirectoryEffect | src/download/utils.py:33-34 | `EnsureDiscDirectory` changes only the directories: nothing without a disc; with one, its directory exists afterwards and is the only new one |
| Download.EnsureDiscDirectoryIdempotent | src/download/utils.py:34 | creating the disc directory a second time changes nothing |
| Download.FetchTo | src/download/utils.py:9-24 | one request; a failed connection or a 4xx/5xx status raises with the URL; 200 writes the body at the path; any other status writes nothing |
| Download.Visit | src/download/song.py:27-39 | a banner and a new last-announced disc exactly when the record's disc differs from it; the disc directory; one request, failing exactly when it raises |
| Download.VisitFiles | src/download/song.py:35-39 | a visit writes the body at the record's output path when the answer is 200, and changes no file otherwise |
| Download.FlattenAppend | src/download/song.py:15-16 | the records are visited song by song: those of a + b are those of a followed by those of b |
| Download.Host.MakeSongOutputPath | src/download/utils.py:27-36 | returns that path and adds the disc directory, if any, to the existing ones |
| Download.Host.DownloadFile | src/download/utils.py:9-24 | the host changes exactly as the single request dictates |
| Download.Host.Announce | src/download/song.py:33 | the disc banner is appended to those printed |
| Download.DownloadSongsFromList | src/download/song.py:7-39 | the nested loop has exactly the effects and the outcome of the walk over all records, starting from disc 0 |
| Download.DownloadSongsFromListLegacy | download/song.py:7-27 | the same walk without banners |
| Download.WalkRequests | src/download/song.py:15-39 | `Walk`, the loop: whatever the starting state, the walk requests the URLs of the records that have one, in record order, up to and including the first whose download raises |
| Download.RequestsPrefix | src/download/song.py:15-39 | the requested URLs are a prefix of the records' URLs |
| Download.RequestsAll | src/download/song.py:15-39 | when no download raises, every record's URL is requested |
| Download.WalkRequestsComplete | src/download/song.py:15-39 | a walk that completes has requested the URL of every record that has one, in order |
| Download.WalkFails | common/utils.py:72-81 | the walk fails exactly when some record's request raises, and then with the first such URL |
| Download.WalkBannersGrow | src/download/song.py:27-33 | banners are only appended; the older walk prints none |
| Download.WalkBannersChange | src/download/song.py:27-33 | the first banner differs from the disc announced before, and no two consecutive banners name the same disc |
| Download.WalkBannersDiscs | src/download/song.py:21-33 | every banner names the disc of a record that has a URL |
| Download.DiscsMeaning | src/download/song.py:21-28 | the discs considered are exactly those of records with a URL and a disc |
| Download.WalkDirs | src/download/utils.py:33-34 | only disc directories of records with a URL are created, and all of them when the walk completes |
| Download.WalkFiles | src/download/utils.py:19-21 | files are only added, each at the path of a record answered with 200, and every such record's file exists when the walk completes |
| Download.QuietWalkSameEffects | download/song.py:11-27 | the older walk makes the same requests, directories and files, with the same outcome, as the current one |
| Download.DiscBannersExample | src/download/song.py:11-33 | two songs on disc 1 then one on disc 2 give banners 1 and 2 and three requests in order |

## Left out

- The 6-second timeout of `make_request` (common/utils.py:76): a request that times out is modelled as a failed connection (`ConnectionFailed`).
- Repeated requests: `respond` is a function of the URL, so every request of one URL within a walk gets the same answer. When the mp3 fallback gives two records of a song the same URL, the model cannot express the second request failing after the first succeeded.
- Network I/O, sessions and cloudscraper: `make_request` and `get_html_soup`. The album page is an `AlbumPage` value. A song page is given by `anchorsOf`, and a file request by `respond`. A failed fetch of an album or song page is not modelled; only failed file requests are.
- BeautifulSoup itself: `find`, `find_all`, `.contents`, `.string` and `.attrs` are replaced by sequences and options, as described above.
- `sanitize_filename` and `sanitize_filepath` are parameters whose behaviour is not modelled.
- JSON encoding of `link_list.json`: the file is an object that holds the list written and gives it back verbatim.
- The file name `link_list.json` and the working directory are not modelled. The store is a single file.
- `os.makedirs` is modelled as adding the directory to a set. Failures, parent directories and the output directory that `main` creates are left out.
- Argument parsing (`gen_argparse`) and `main`: the flags enter as the booleans of `CodecChoices` and the load flag.
- Image downloading (`download/image.py`, `download_album_images_from_page`, `download_image`) is not part of this model.
- Console output other than the disc banners is left out. This covers progress messages, skip notices and the fallback notices.
- Text.ParseInt: accepts ASCII digits and, around the number, only the six ASCII whitespace characters space, tab, line feed, carriage return, vertical tab and form feed; like `int()`, it rejects U+001C to U+001F there. Python's `int()` also accepts other Unicode digits, strips Unicode whitespace such as U+0085 and U+00A0, and allows `_` between digits.
- Text.Lower: lowers ASCII letters only. Codec labels are ASCII.
- Text.PathJoin: models `posixpath.join` only, not the Windows rules.
- Download.FetchTo: a redirect or another status that is neither an error nor 200 is treated as one response. The body is taken as given; streaming is not modelled.
