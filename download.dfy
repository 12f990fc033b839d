/** The output layout and the download walk: make_song_output_path and
    download_file (src/download/utils.py), download_songs_from_list
    (src/download/song.py), and the older walk of download/song.py and
    main.py, which prints no disc banners. */
module Download {
  import opened Common
  import opened Text

  /** The "Disc NN" directory of a disc under the output directory. */
  function DiscDirectory(outputDir: string, disc: int): string {
    PathJoin(outputDir, "Disc " + Pad2(disc))
  }

  /** A disc directory is never empty and ends with the last digit of its number, not with '/'. */
  lemma DiscDirectoryEnd(outputDir: string, disc: int)
    ensures var dir := DiscDirectory(outputDir, disc);
      |dir| > 0 && dir[|dir| - 1] != '/'
  {
    var leaf := "Disc " + Pad2(disc);
    Pad2Digits(disc);
    PathJoinShape(outputDir, leaf);
    var dir := DiscDirectory(outputDir, disc);
    assert dir[|dir| - 1] == leaf[|leaf| - 1] == Pad2(disc)[|Pad2(disc)| - 1];
  }

  /** Distinct discs get distinct directories, equal discs the same one. */
  lemma DiscDirectoriesDistinct(outputDir: string, a: int, b: int)
    ensures DiscDirectory(outputDir, a) == DiscDirectory(outputDir, b) <==> a == b
  {
    if DiscDirectory(outputDir, a) == DiscDirectory(outputDir, b) {
      var da, db := "Disc " + Pad2(a), "Disc " + Pad2(b);
      var prefix := if outputDir == [] || outputDir[|outputDir| - 1] == '/' then outputDir else outputDir + "/";
      assert DiscDirectory(outputDir, a) == prefix + da;
      assert DiscDirectory(outputDir, b) == prefix + db;
      assert da == (prefix + da)[|prefix|..];
      assert db == (prefix + db)[|prefix|..];
      assert Pad2(a) == da[5..] && Pad2(b) == db[5..];
      Pad2Injective(a, b);
    }
  }

  /** The path make_song_output_path returns: the file directly under the
      output directory, or under its disc's directory. */
  function SongOutputPath(outputDir: string, disc: Option<int>, name: string): string
  {
    match disc
    case None => PathJoin(outputDir, name)
    case Some(d) => PathJoin(DiscDirectory(outputDir, d), name)
  }

  /** The path ends with the file name after a '/'; without a disc it is the
      name joined to the output directory, with one it lies under the disc's
      directory. */
  lemma SongOutputPathShape(outputDir: string, disc: Option<int>, name: string)
    ensures var path := SongOutputPath(outputDir, disc, name);
      && |name| <= |path| && path[|path| - |name|..] == name
      && (disc.None? ==> path == PathJoin(outputDir, name))
      && (disc.Some? && (name == [] || name[0] != '/') ==>
            |DiscDirectory(outputDir, disc.value)| <= |path|
            && path[..|DiscDirectory(outputDir, disc.value)|] == DiscDirectory(outputDir, disc.value))
      && (disc.Some? && (name == [] || name[0] != '/') ==>
            path == DiscDirectory(outputDir, disc.value) + "/" + name)
      && ((name == [] || name[0] != '/') && (disc.Some? || outputDir != []) ==>
            |name| < |path| && path[|path| - |name| - 1] == '/')
  {
    match disc
    case None =>
      PathJoinShape(outputDir, name);
    case Some(d) =>
      var dir := DiscDirectory(outputDir, d);
      DiscDirectoryEnd(outputDir, d);
      PathJoinShape(dir, name);
  }

  /** What a request for a URL gives: a status and a body, or a failure to connect. */
  datatype Response = Response(status: int, content: seq<bv8>) | ConnectionFailed

  /** raise_for_status raises for every 4xx and 5xx status. */
  predicate IsErrorStatus(status: int) {
    400 <= status < 600
  }

  /** The effects of the walk that a caller can observe. */
  datatype HostState = HostState(
    dirs: set<string>,                 // directories that exist
    files: map<string, seq<bv8>>,      // written files, by path
    requested: seq<string>,            // URLs requested, in order
    banners: seq<int>)                 // "Downloading Disc: NN" banners printed, in order

  /** makedirs(..., exist_ok=True) for the song's disc directory, if it has a disc. */
  function EnsureDiscDirectory(s: HostState, outputDir: string, disc: Option<int>): HostState {
    match disc
    case None => s
    case Some(d) => s.(dirs := s.dirs + {DiscDirectory(outputDir, d)})
  }

  /** Only the directories change: without a disc nothing does; with one,
      its directory exists afterwards and is the only directory that may be new. */
  lemma EnsureDiscDirectoryEffect(s: HostState, outputDir: string, disc: Option<int>)
    ensures var r := EnsureDiscDirectory(s, outputDir, disc);
      && r == s.(dirs := r.dirs) && s.dirs <= r.dirs
      && (disc.None? ==> r == s)
      && (disc.Some? ==> (DiscDirectory(outputDir, disc.value) in r.dirs
           && forall dir :: dir in r.dirs && dir !in s.dirs ==> dir == DiscDirectory(outputDir, disc.value)))
  {
  }

  /** makedirs with exist_ok: creating the same disc directory again changes nothing. */
  lemma EnsureDiscDirectoryIdempotent(s: HostState, outputDir: string, disc: Option<int>)
    ensures var once := EnsureDiscDirectory(s, outputDir, disc);
      EnsureDiscDirectory(once, outputDir, disc) == once
  {
  }

  /** download_file: one request; an error status or a failed connection
      raises; status 200 writes the body to the path; any other status only
      prints a failure. */
  function FetchTo(s: HostState, url: string, path: string, response: Response): (r: (HostState, Outcome))
    ensures r.0.requested == s.requested + [url]
    ensures r.0.dirs == s.dirs && r.0.banners == s.banners
    ensures r.1.Fail? <==> response.ConnectionFailed? || IsErrorStatus(response.status)
    ensures r.1.Fail? ==> r.1.error == HttpError(url)
    ensures response.Response? && response.status == 200 ==> r.0.files == s.files[path := response.content]
    ensures !(response.Response? && response.status == 200) ==> r.0.files == s.files
  {
    var s1 := s.(requested := s.requested + [url]);
    match response
    case ConnectionFailed => (s1, Fail(HttpError(url)))
    case Response(status, content) =>
      if IsErrorStatus(status) then (s1, Fail(HttpError(url)))
      else if status == 200 then (s1.(files := s1.files[path := content]), Pass)
      else (s1, Pass)
  }

  /** A response download_file raises for. */
  predicate Failing(response: Response) {
    response.ConnectionFailed? || IsErrorStatus(response.status)
  }

  /** One record with a URL: the banner when its disc differs from the last
      announced one, the disc directory, then the download. Returns the new
      state, the new last-announced disc and the outcome. */
  function Visit(link: SongLink, s: HostState, logged: int, outputDir: string,
                 respond: string -> Response, announce: bool): (r: (HostState, int, Outcome))
    requires link.url.Some?
    ensures r.0.requested == s.requested + [link.url.value]
    ensures r.2.Fail? <==> Failing(respond(link.url.value))
    ensures r.2.Fail? ==> r.2.error == HttpError(link.url.value)
    ensures link.discNumber.None? ==> r.0.dirs == s.dirs
    ensures link.discNumber.Some? ==> r.0.dirs == s.dirs + {DiscDirectory(outputDir, link.discNumber.value)}
    ensures announce && link.discNumber.Some? && link.discNumber.value != logged
            ==> r.0.banners == s.banners + [link.discNumber.value] && r.1 == link.discNumber.value
    ensures !(announce && link.discNumber.Some? && link.discNumber.value != logged)
            ==> r.0.banners == s.banners && r.1 == logged
  {
    var announced := announce && link.discNumber.Some? && link.discNumber.value != logged;
    var s1 := if announced then s.(banners := s.banners + [link.discNumber.value]) else s;
    var s2 := EnsureDiscDirectory(s1, outputDir, link.discNumber);
    var path := SongOutputPath(outputDir, link.discNumber, link.nameWithCodec);
    var fetched := FetchTo(s2, link.url.value, path, respond(link.url.value));
    (fetched.0, if announced then link.discNumber.value else logged, fetched.1)
  }

  /** The only file a visit writes is the record's output path, and only
      when the answer is 200; then it holds the body of the answer. */
  lemma VisitFiles(link: SongLink, s: HostState, logged: int, outputDir: string,
                   respond: string -> Response, announce: bool)
    requires link.url.Some?
    ensures var r := Visit(link, s, logged, outputDir, respond, announce);
      var response := respond(link.url.value);
      && (response.Response? && response.status == 200
          ==> r.0.files == s.files[SongOutputPath(outputDir, link.discNumber, link.nameWithCodec) := response.content])
      && (!(response.Response? && response.status == 200) ==> r.0.files == s.files)
  {
  }

  /** The walk over the records not yet visited. `logged` is the last disc
      a banner was printed for; announce is false for the older walk. The
      first failing download ends the walk. */
  function Walk(links: seq<SongLink>, s: HostState, logged: int, outputDir: string,
                respond: string -> Response, announce: bool): (HostState, Outcome)
    decreases |links|
  {
    if links == [] then (s, Pass)
    else if links[0].url.None? then Walk(links[1..], s, logged, outputDir, respond, announce)
    else
      var v := Visit(links[0], s, logged, outputDir, respond, announce);
      if v.2.Fail? then (v.0, v.2)
      else Walk(links[1..], v.0, v.1, outputDir, respond, announce)
  }

  /** The records of all songs, in song order. */
  function Flatten(list: SongDownloadList): seq<SongLink>
  {
    if list == [] then [] else list[0] + Flatten(list[1..])
  }

  /** Flattening keeps the songs' order: the records of a + b are those of a
      followed by those of b. */
  lemma {:induction false} FlattenAppend(a: SongDownloadList, b: SongDownloadList)
    ensures Flatten(a + b) == Flatten(a) + Flatten(b)
    decreases |a|
  {
    if a == [] {
      assert a + b == b;
    } else {
      assert (a + b)[0] == a[0] && (a + b)[1..] == a[1..] + b;
      FlattenAppend(a[1..], b);
    }
  }

  /** The URLs of the records that have one, in order. */
  function Urls(links: seq<SongLink>): seq<string> {
    if links == [] then []
    else if links[0].url.None? then Urls(links[1..])
    else [links[0].url.value] + Urls(links[1..])
  }

  /** The machine the downloader runs on. */
  class Host {
    var dirs: set<string>
    var files: map<string, seq<bv8>>
    var requested: seq<string>
    var banners: seq<int>

    function State(): HostState
      reads this
    {
      HostState(dirs, files, requested, banners)
    }

    constructor (initial: HostState)
      ensures State() == initial
    {
      dirs, files, requested, banners := initial.dirs, initial.files, initial.requested, initial.banners;
    }

    /** make_song_output_path, with its makedirs for a disc directory. */
    method MakeSongOutputPath(outputDir: string, disc: Option<int>, name: string) returns (path: string)
      modifies this
      ensures path == SongOutputPath(outputDir, disc, name)
      ensures State() == EnsureDiscDirectory(old(State()), outputDir, disc)
    {
      if disc.None? {
        return PathJoin(outputDir, name);
      }
      var withDisc := PathJoin(outputDir, "Disc " + Pad2(disc.value));
      dirs := dirs + {withDisc};
      path := PathJoin(withDisc, name);
    }

    /** download_file. */
    method DownloadFile(url: string, name: string, path: string, respond: string -> Response)
      returns (outcome: Outcome)
      modifies this
      ensures (State(), outcome) == FetchTo(old(State()), url, path, respond(url))
    {
      requested := requested + [url];
      var response := respond(url);
      if response.ConnectionFailed? || IsErrorStatus(response.status) {
        return Fail(HttpError(url));
      }
      if response.status == 200 {
        files := files[path := response.content];
      }
      outcome := Pass;
    }

    /** Print the banner for a disc. */
    method Announce(disc: int)
      modifies this
      ensures State() == old(State()).(banners := old(State()).banners + [disc])
    {
      banners := banners + [disc];
    }
  }

  /** One step of the walk over a non-empty list. */
  lemma WalkStep(links: seq<SongLink>, s: HostState, logged: int, outputDir: string,
                 respond: string -> Response, announce: bool)
    requires links != [] && links[0].url.Some?
    ensures var v := Visit(links[0], s, logged, outputDir, respond, announce);
      Walk(links, s, logged, outputDir, respond, announce)
      == if v.2.Fail? then (v.0, v.2) else Walk(links[1..], v.0, v.1, outputDir, respond, announce)
  {
  }

  lemma FlattenStep(list: SongDownloadList, i: nat)
    requires i < |list|
    ensures Flatten(list[i..]) == list[i] + Flatten(list[i + 1..])
  {
    assert list[i..][1..] == list[i + 1..];
  }

  /** download_songs_from_list: the nested loop over the songs' records,
      skipping records without a URL and printing a banner when the disc changes. */
  method DownloadSongsFromList(host: Host, songList: SongDownloadList, outputDir: string,
                               respond: string -> Response) returns (outcome: Outcome)
    modifies host
    ensures (host.State(), outcome) == Walk(Flatten(songList), old(host.State()), 0, outputDir, respond, true)
  {
    var currentDiscNumber := 0;
    var loggedDiscNumber := 0;
    ghost var goal := Walk(Flatten(songList), host.State(), 0, outputDir, respond, true);
    assert songList[0..] == songList;
    for i := 0 to |songList|
      invariant goal == Walk(Flatten(songList[i..]), host.State(), loggedDiscNumber, outputDir, respond, true)
    {
      var linkList := songList[i];
      FlattenStep(songList, i);
      assert linkList[0..] == linkList;
      for j := 0 to |linkList|
        invariant goal == Walk(linkList[j..] + Flatten(songList[i + 1..]), host.State(), loggedDiscNumber,
                               outputDir, respond, true)
      {
        var link := linkList[j];
        ghost var rest := linkList[j..] + Flatten(songList[i + 1..]);
        assert rest[0] == link && rest[1..] == linkList[j + 1..] + Flatten(songList[i + 1..]);
        if link.url.None? {
          continue;
        }
        ghost var before := host.State();
        ghost var v := Visit(link, before, loggedDiscNumber, outputDir, respond, true);
        WalkStep(rest, before, loggedDiscNumber, outputDir, respond, true);
        if link.discNumber.Some? {
          currentDiscNumber := link.discNumber.value;
          if loggedDiscNumber != currentDiscNumber {
            loggedDiscNumber := currentDiscNumber;
            host.Announce(currentDiscNumber);
          }
        }
        var path := host.MakeSongOutputPath(outputDir, link.discNumber, link.nameWithCodec);
        outcome := host.DownloadFile(link.url.value, link.nameWithCodec, path, respond);
        assert (host.State(), loggedDiscNumber, outcome) == v;
        if outcome.Fail? {
          return;
        }
      }
      assert linkList[|linkList|..] + Flatten(songList[i + 1..]) == Flatten(songList[i + 1..]);
    }
    assert songList[|songList|..] == [];
    outcome := Pass;
  }

  /** The older download_songs_from_list (download/song.py, main.py): the
      same walk without disc banners. */
  method DownloadSongsFromListLegacy(host: Host, songList: SongDownloadList, outputDir: string,
                                     respond: string -> Response) returns (outcome: Outcome)
    modifies host
    ensures (host.State(), outcome) == Walk(Flatten(songList), old(host.State()), 0, outputDir, respond, false)
  {
    ghost var goal := Walk(Flatten(songList), host.State(), 0, outputDir, respond, false);
    assert songList[0..] == songList;
    for i := 0 to |songList|
      invariant goal == Walk(Flatten(songList[i..]), host.State(), 0, outputDir, respond, false)
    {
      var linkList := songList[i];
      FlattenStep(songList, i);
      assert linkList[0..] == linkList;
      for j := 0 to |linkList|
        invariant goal == Walk(linkList[j..] + Flatten(songList[i + 1..]), host.State(), 0, outputDir, respond, false)
      {
        var link := linkList[j];
        ghost var rest := linkList[j..] + Flatten(songList[i + 1..]);
        assert rest[0] == link && rest[1..] == linkList[j + 1..] + Flatten(songList[i + 1..]);
        if link.url.None? {
          continue;
        }
        ghost var before := host.State();
        ghost var v := Visit(link, before, 0, outputDir, respond, false);
        WalkStep(rest, before, 0, outputDir, respond, false);
        var path := host.MakeSongOutputPath(outputDir, link.discNumber, link.nameWithCodec);
        outcome := host.DownloadFile(link.url.value, link.nameWithCodec, path, respond);
        assert (host.State(), 0, outcome) == v;
        if outcome.Fail? {
          return;
        }
      }
      assert linkList[|linkList|..] + Flatten(songList[i + 1..]) == Flatten(songList[i + 1..]);
    }
    assert songList[|songList|..] == [];
    outcome := Pass;
  }

  /** The discs of the records that have a URL. */
  function Discs(links: seq<SongLink>): set<int> {
    if links == [] then {}
    else if links[0].url.Some? && links[0].discNumber.Some? then {links[0].discNumber.value} + Discs(links[1..])
    else Discs(links[1..])
  }

  /** Discs holds exactly the discs of the records that have a URL. */
  lemma {:induction false} DiscsMeaning(links: seq<SongLink>, d: int)
    ensures d in Discs(links) <==>
      exists i :: 0 <= i < |links| && links[i].url.Some? && links[i].discNumber == Some(d)
  {
    if links != [] {
      DiscsMeaning(links[1..], d);
      if i :| 0 <= i < |links| && links[i].url.Some? && links[i].discNumber == Some(d) {
        if i > 0 {
          assert links[1..][i - 1] == links[i];
        }
      }
      if i :| 0 <= i < |links| - 1 && links[1..][i].url.Some? && links[1..][i].discNumber == Some(d) {
        assert links[i + 1] == links[1..][i];
      }
    }
  }

  /** The disc directories of the records that have a URL. */
  function DiscDirs(links: seq<SongLink>, outputDir: string): set<string> {
    set d | d in Discs(links) :: DiscDirectory(outputDir, d)
  }

  lemma DiscDirsCons(links: seq<SongLink>, outputDir: string)
    requires links != []
    ensures DiscDirs(links, outputDir)
      == (if links[0].url.Some? && links[0].discNumber.Some?
          then {DiscDirectory(outputDir, links[0].discNumber.value)} else {})
         + DiscDirs(links[1..], outputDir)
  {
  }

  /** The record at index k has a URL whose download raises. */
  predicate FailsAt(links: seq<SongLink>, k: int, respond: string -> Response) {
    0 <= k < |links| && links[k].url.Some? && Failing(respond(links[k].url.value))
  }

  /** k is the first record whose download raises. */
  predicate FirstFailure(links: seq<SongLink>, k: int, respond: string -> Response) {
    FailsAt(links, k, respond) && forall j :: 0 <= j < k ==> !FailsAt(links, j, respond)
  }

  /** The URLs the walk requests: those of the records with a URL, in
      order, up to and including the first one whose download raises. */
  function Requests(links: seq<SongLink>, respond: string -> Response): seq<string> {
    if links == [] then []
    else if links[0].url.None? then Requests(links[1..], respond)
    else [links[0].url.value] + (if Failing(respond(links[0].url.value)) then [] else Requests(links[1..], respond))
  }

  /** Requests go out in record order, one per record with a URL, up to the
      first failure, whatever the state the walk starts from. */
  lemma {:induction false} WalkRequests(links: seq<SongLink>, s: HostState, logged: int, outputDir: string,
                                        respond: string -> Response, announce: bool)
    ensures Walk(links, s, logged, outputDir, respond, announce).0.requested == s.requested + Requests(links, respond)
    decreases |links|
  {
    if links == [] {
    } else if links[0].url.None? {
      WalkRequests(links[1..], s, logged, outputDir, respond, announce);
    } else {
      var v := Visit(links[0], s, logged, outputDir, respond, announce);
      WalkStep(links, s, logged, outputDir, respond, announce);
      if v.2.Pass? {
        WalkRequests(links[1..], v.0, v.1, outputDir, respond, announce);
        assert v.0.requested + Requests(links[1..], respond) == s.requested + Requests(links, respond);
      }
    }
  }

  /** The requested URLs are a prefix of the records' URLs. */
  lemma {:induction false} RequestsPrefix(links: seq<SongLink>, respond: string -> Response)
    ensures Requests(links, respond) <= Urls(links)
  {
    if links != [] {
      RequestsPrefix(links[1..], respond);
    }
  }

  /** When no record's download raises, every record's URL is requested. */
  lemma {:induction false} RequestsAll(links: seq<SongLink>, respond: string -> Response)
    requires forall k :: !FailsAt(links, k, respond)
    ensures Requests(links, respond) == Urls(links)
  {
    if links != [] {
      assert !FailsAt(links, 0, respond);
      forall k ensures !FailsAt(links[1..], k, respond) {
        assert !FailsAt(links, k + 1, respond);
      }
      RequestsAll(links[1..], respond);
    }
  }

  /** The walk fails exactly when some record's download raises, and then
      with the URL of the first such record. */
  lemma {:induction false} WalkFails(links: seq<SongLink>, s: HostState, logged: int, outputDir: string,
                                     respond: string -> Response, announce: bool)
    ensures var r := Walk(links, s, logged, outputDir, respond, announce);
      && (r.1.Fail? <==> exists k :: FailsAt(links, k, respond))
      && (r.1.Fail? ==> exists k :: FirstFailure(links, k, respond) && r.1.error == HttpError(links[k].url.value))
    decreases |links|
  {
    if links == [] {
      return;
    }
    if FailsAt(links, 0, respond) {
      assert FirstFailure(links, 0, respond);
      return;
    }
    var next, nextLogged := s, logged;
    if links[0].url.Some? {
      var v := Visit(links[0], s, logged, outputDir, respond, announce);
      next, nextLogged := v.0, v.1;
    }
    assert Walk(links, s, logged, outputDir, respond, announce)
      == Walk(links[1..], next, nextLogged, outputDir, respond, announce);
    WalkFails(links[1..], next, nextLogged, outputDir, respond, announce);
    if k :| FailsAt(links, k, respond) {
      assert FailsAt(links[1..], k - 1, respond);
    }
    if k :| FailsAt(links[1..], k, respond) {
      assert FailsAt(links, k + 1, respond);
    }
    var r := Walk(links[1..], next, nextLogged, outputDir, respond, announce);
    if r.1.Fail? {
      var k :| FirstFailure(links[1..], k, respond) && r.1.error == HttpError(links[1..][k].url.value);
      forall j | 0 <= j < k + 1 ensures !FailsAt(links, j, respond) {
        if j > 0 {
          assert !FailsAt(links[1..], j - 1, respond);
        }
      }
      assert FirstFailure(links, k + 1, respond);
    }
  }

  /** A walk that completes has requested the URL of every record that has one, in order. */
  lemma WalkRequestsComplete(links: seq<SongLink>, s: HostState, logged: int, outputDir: string,
                             respond: string -> Response, announce: bool)
    requires Walk(links, s, logged, outputDir, respond, announce).1.Pass?
    ensures Walk(links, s, logged, outputDir, respond, announce).0.requested == s.requested + Urls(links)
  {
    WalkFails(links, s, logged, outputDir, respond, announce);
    RequestsAll(links, respond);
    WalkRequests(links, s, logged, outputDir, respond, announce);
  }

  /** Banners are only appended, and the older walk prints none. */
  lemma {:induction false} WalkBannersGrow(links: seq<SongLink>, s: HostState, logged: int, outputDir: string,
                                           respond: string -> Response, announce: bool)
    ensures var b := Walk(links, s, logged, outputDir, respond, announce).0.banners;
      && |s.banners| <= |b| && b[..|s.banners|] == s.banners
      && (!announce ==> b == s.banners)
    decreases |links|
  {
    if links == [] {
    } else if links[0].url.None? {
      WalkBannersGrow(links[1..], s, logged, outputDir, respond, announce);
    } else {
      var v := Visit(links[0], s, logged, outputDir, respond, announce);
      WalkStep(links, s, logged, outputDir, respond, announce);
      if v.2.Pass? {
        WalkBannersGrow(links[1..], v.0, v.1, outputDir, respond, announce);
      }
    }
  }

  /** A banner is printed only when the disc changes: the first new banner
      differs from the disc announced before the walk, and no two
      consecutive banners name the same disc. */
  lemma {:induction false} WalkBannersChange(links: seq<SongLink>, s: HostState, logged: int, outputDir: string,
                                             respond: string -> Response, announce: bool)
    ensures var b := Walk(links, s, logged, outputDir, respond, announce).0.banners;
      var n := |s.banners|;
      && (n < |b| ==> b[n] != logged)
      && (forall k :: n <= k < |b| - 1 ==> b[k] != b[k + 1])
    decreases |links|
  {
    if links == [] {
      return;
    }
    if links[0].url.None? {
      WalkBannersChange(links[1..], s, logged, outputDir, respond, announce);
      return;
    }
    var v := Visit(links[0], s, logged, outputDir, respond, announce);
    WalkStep(links, s, logged, outputDir, respond, announce);
    if v.2.Fail? {
      return;
    }
    WalkBannersChange(links[1..], v.0, v.1, outputDir, respond, announce);
    WalkBannersGrow(links[1..], v.0, v.1, outputDir, respond, announce);
    var b := Walk(links[1..], v.0, v.1, outputDir, respond, announce).0.banners;
    var n := |s.banners|;
    if |v.0.banners| == n + 1 {
      assert b[n] == v.0.banners[n] == v.1;
    }
  }

  /** Every entry of b from index n on is one of the discs. */
  predicate NamesDiscs(b: seq<int>, n: nat, discs: set<int>) {
    forall k :: n <= k < |b| ==> b[k] in discs
  }

  /** Every banner names the disc of a record that has a URL. */
  lemma {:induction false} WalkBannersDiscs(links: seq<SongLink>, s: HostState, logged: int, outputDir: string,
                                            respond: string -> Response, announce: bool)
    ensures NamesDiscs(Walk(links, s, logged, outputDir, respond, announce).0.banners, |s.banners|, Discs(links))
    decreases |links|
  {
    if links == [] {
      return;
    }
    if links[0].url.None? {
      WalkBannersDiscs(links[1..], s, logged, outputDir, respond, announce);
      return;
    }
    var v := Visit(links[0], s, logged, outputDir, respond, announce);
    WalkStep(links, s, logged, outputDir, respond, announce);
    if v.2.Pass? {
      WalkBannersDiscs(links[1..], v.0, v.1, outputDir, respond, announce);
      WalkBannersGrow(links[1..], v.0, v.1, outputDir, respond, announce);
    }
  }

  /** A disc directory is created for every record with a URL and a disc
      that the walk reaches, and no other directory is created. */
  lemma {:induction false} WalkDirs(links: seq<SongLink>, s: HostState, logged: int, outputDir: string,
                                    respond: string -> Response, announce: bool)
    ensures var r := Walk(links, s, logged, outputDir, respond, announce);
      && s.dirs <= r.0.dirs && r.0.dirs <= s.dirs + DiscDirs(links, outputDir)
      && (r.1.Pass? ==> r.0.dirs == s.dirs + DiscDirs(links, outputDir))
    decreases |links|
  {
    if links == [] {
      return;
    }
    DiscDirsCons(links, outputDir);
    if links[0].url.None? {
      WalkDirs(links[1..], s, logged, outputDir, respond, announce);
      return;
    }
    var v := Visit(links[0], s, logged, outputDir, respond, announce);
    WalkStep(links, s, logged, outputDir, respond, announce);
    if v.2.Pass? {
      WalkDirs(links[1..], v.0, v.1, outputDir, respond, announce);
    }
  }

  /** Where a record's file goes. */
  function PathOf(link: SongLink, outputDir: string): string {
    SongOutputPath(outputDir, link.discNumber, link.nameWithCodec)
  }

  /** The record at index i has a URL that answers 200. */
  predicate SavedAt(links: seq<SongLink>, i: int, respond: string -> Response) {
    0 <= i < |links| && links[i].url.Some?
    && respond(links[i].url.value).Response? && respond(links[i].url.value).status == 200
  }

  /** Files are only added: every new file is the path of a record that
      answered 200, and when the walk completes every such record's file exists. */
  lemma {:induction false} WalkFiles(links: seq<SongLink>, s: HostState, logged: int, outputDir: string,
                                     respond: string -> Response, announce: bool)
    ensures var r := Walk(links, s, logged, outputDir, respond, announce);
      && s.files.Keys <= r.0.files.Keys
      && (forall p :: p in r.0.files && p !in s.files ==>
            exists i :: SavedAt(links, i, respond) && p == PathOf(links[i], outputDir))
      && (r.1.Pass? ==> forall i :: SavedAt(links, i, respond) ==> PathOf(links[i], outputDir) in r.0.files)
    decreases |links|
  {
    if links == [] {
      return;
    }
    var next, nextLogged := s, logged;
    if links[0].url.Some? {
      var v := Visit(links[0], s, logged, outputDir, respond, announce);
      if v.2.Fail? {
        return;
      }
      next, nextLogged := v.0, v.1;
    }
    WalkFiles(links[1..], next, nextLogged, outputDir, respond, announce);
    var r := Walk(links[1..], next, nextLogged, outputDir, respond, announce);
    forall p | p in r.0.files && p !in s.files
      ensures exists i :: SavedAt(links, i, respond) && p == PathOf(links[i], outputDir)
    {
      if p in next.files {
        assert SavedAt(links, 0, respond) && p == PathOf(links[0], outputDir);
      } else {
        var i :| SavedAt(links[1..], i, respond) && p == PathOf(links[1..][i], outputDir);
        assert SavedAt(links, i + 1, respond);
      }
    }
    if r.1.Pass? {
      forall i | SavedAt(links, i, respond) ensures PathOf(links[i], outputDir) in r.0.files {
        if i > 0 {
          assert SavedAt(links[1..], i - 1, respond);
        }
      }
    }
  }

  /** The older walk has exactly the effects of the current one except for
      the banners: the same requests, directories, files and outcome. */
  lemma {:induction false} QuietWalkSameEffects(links: seq<SongLink>, s: HostState, t: HostState,
                                                logged: int, quietLogged: int, outputDir: string,
                                                respond: string -> Response)
    requires t == s.(banners := t.banners)
    ensures var loud := Walk(links, s, logged, outputDir, respond, true);
      var quiet := Walk(links, t, quietLogged, outputDir, respond, false);
      quiet.1 == loud.1 && quiet.0 == loud.0.(banners := t.banners)
    decreases |links|
  {
    if links == [] {
    } else if links[0].url.None? {
      QuietWalkSameEffects(links[1..], s, t, logged, quietLogged, outputDir, respond);
    } else {
      var v := Visit(links[0], s, logged, outputDir, respond, true);
      var w := Visit(links[0], t, quietLogged, outputDir, respond, false);
      assert w.0 == v.0.(banners := t.banners);
      if v.2.Pass? {
        QuietWalkSameEffects(links[1..], v.0, w.0, v.1, w.1, outputDir, respond);
      }
    }
  }

  /** Two songs on disc 1 and one on disc 2: two banners, one per disc. */
  lemma DiscBannersExample(outputDir: string)
    ensures var links := [SongLink(Some(1), "a.mp3", Some("u1")), SongLink(Some(1), "b.mp3", Some("u2")),
                          SongLink(Some(2), "c.mp3", Some("u3"))];
      var r := Walk(links, HostState({}, map[], [], []), 0, outputDir, u => Response(200, []), true);
      r.1 == Pass && r.0.banners == [1, 2] && r.0.requested == ["u1", "u2", "u3"]
  {
    var links := [SongLink(Some(1), "a.mp3", Some("u1")), SongLink(Some(1), "b.mp3", Some("u2")),
                  SongLink(Some(2), "c.mp3", Some("u3"))];
    var respond: string -> Response := u => Response(200, []);
    var s0 := HostState({}, map[], [], []);
    var v0 := Visit(links[0], s0, 0, outputDir, respond, true);
    WalkStep(links, s0, 0, outputDir, respond, true);
    assert v0.0.banners == [1] && v0.1 == 1 && v0.0.requested == ["u1"] && v0.2 == Pass;
    var v1 := Visit(links[1], v0.0, v0.1, outputDir, respond, true);
    WalkStep(links[1..], v0.0, v0.1, outputDir, respond, true);
    assert v1.0.banners == [1] && v1.1 == 1 && v1.0.requested == ["u1", "u2"] && v1.2 == Pass;
    var v2 := Visit(links[2], v1.0, v1.1, outputDir, respond, true);
    WalkStep(links[2..], v1.0, v1.1, outputDir, respond, true);
    assert v2.0.banners == [1, 2] && v2.0.requested == ["u1", "u2", "u3"] && v2.2 == Pass;
    assert links[1..][1..] == links[2..] && links[2..][1..] == [];
  }
}
