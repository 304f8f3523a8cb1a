/** The script from connection to download loop: connect, collect the songs
    of the configured mode, then for every collected song create its
    directory, request the transcoded stream and write it to its file. */
module Sync {
  import opened Wrappers
  import opened Subsonic
  import opened Config
  import opened Paths
  import opened Collector
  import Sanitizer

  /** One iteration of the download loop: `stream(song["id"], tformat,
      maxBitRate)` for the song, written to a file under `music_dir`. */
  datatype Download = Download(song: Song, format: string, maxBitRate: string, musicDir: string) {

    /** The directory the iteration creates. */
    function TargetDirectory(): string {
      Directory(musicDir, song.artist, song.album)
    }

    /** The file the iteration writes. */
    function TargetPath(): string {
      FilePath(musicDir, song, format)
    }
  }

  function DownloadOf(settings: Settings, song: Song): Download {
    Download(song, settings.format, settings.maxBitRate, settings.musicDir)
  }

  /** The file goes into `music_dir/artist/album` and is named by `FileName`. */
  lemma DownloadPlacement(d: Download)
    requires '/' !in d.format
    ensures d.TargetPath()[..|d.TargetDirectory()|] == d.TargetDirectory()
    ensures Basename(d.TargetPath()) == FileName(d.song.track, d.song.title, d.format)
  {
    FilePathLayout(d.musicDir, d.song, d.format);
  }

  /** The songs a list of downloads streams. */
  function StreamedIds(plan: seq<Download>): set<Id> {
    set i | 0 <= i < |plan| :: plan[i].song.id
  }

  /** The downloads for the keys `order`, one per key, in that order. */
  function Downloads(settings: Settings, songs: map<Id, Song>, order: seq<Id>): (plan: seq<Download>)
    requires forall i :: 0 <= i < |order| ==> order[i] in songs
    ensures |plan| == |order|
    ensures forall i :: 0 <= i < |plan| ==> plan[i] == DownloadOf(settings, songs[order[i]])
  {
    if order == [] then []
    else
      var init := order[..|order| - 1];
      assert forall i :: 0 <= i < |init| ==> init[i] == order[i];
      Downloads(settings, songs, init) + [DownloadOf(settings, songs[order[|order| - 1]])]
  }

  /** `for song in songlist.values()`: one download per collected song, in
      the dict's insertion order; every collected song is downloaded, and
      no song twice. */
  function Plan(settings: Settings, d: SongDict): (plan: seq<Download>)
    requires Valid(d)
    ensures |plan| == |d.order|
    ensures forall i :: 0 <= i < |plan| ==> plan[i] == DownloadOf(settings, d.songs[d.order[i]])
    ensures forall i, j :: 0 <= i < j < |plan| ==> plan[i].song.id != plan[j].song.id
    ensures StreamedIds(plan) == d.songs.Keys
  {
    assert forall i :: 0 <= i < |d.order| ==> d.order[i] in d.order;
    var plan := Downloads(settings, d.songs, d.order);
    PlanFollowsOrder(plan, d);
    plan
  }

  lemma PlanFollowsOrder(plan: seq<Download>, d: SongDict)
    requires Valid(d) && |plan| == |d.order|
    requires forall i :: 0 <= i < |plan| ==> plan[i].song == d.songs[d.order[i]]
    ensures forall i, j :: 0 <= i < j < |plan| ==> plan[i].song.id != plan[j].song.id
    ensures StreamedIds(plan) == d.songs.Keys
  {
    assert forall i :: 0 <= i < |plan| ==> plan[i].song.id == d.order[i];
    forall k | k in d.songs ensures k in StreamedIds(plan) {
      var i :| 0 <= i < |d.order| && d.order[i] == k;
      assert plan[i].song.id == k;
    }
  }

  /** The download loop over the script's dict, as intended: a song without
      a track entry is simply written without a prefix. */
  method DownloadAllIntended(songlist: SongList, settings: Settings) returns (plan: seq<Download>)
    requires Valid(songlist.Dict())
    ensures plan == Plan(settings, songlist.Dict())
  {
    plan := [];
    for i := 0 to |songlist.order|
      invariant plan == Downloads(settings, songlist.songs, songlist.order[..i])
    {
      assert songlist.order[..i + 1][..i] == songlist.order[..i];
      var song := songlist.songs[songlist.order[i]];
      plan := plan + [DownloadOf(settings, song)];
    }
    assert songlist.order[..|songlist.order|] == songlist.order;
  }

  /** Why a run stops early: a configuration lookup failed, the server
      rejected a collection call, or `song["track"]` raised for `song`, after
      the files of `written` were written and `song`'s directory was made. */
  datatype RunError =
    | BadConfig(error: ConfigError)
    | ServerRejected
    | MissingTrack(written: seq<Download>, song: Song)

  /** The download loop as written, over the keys `order`: it stops at the
      first song whose file name cannot be computed. */
  function DownloadsAsWritten(settings: Settings, songs: map<Id, Song>, order: seq<Id>): (r: Result<seq<Download>, RunError>)
    requires forall i :: 0 <= i < |order| ==> order[i] in songs
    ensures r.Success? <==> forall i :: 0 <= i < |order| ==> songs[order[i]].track.Some?
    ensures r.Success? ==> r.value == Downloads(settings, songs, order)
    ensures r.Failure? ==> r.error.MissingTrack? && r.error.song.track.None?
  {
    if order == [] then Success([])
    else
      var init := order[..|order| - 1];
      var song := songs[order[|order| - 1]];
      assert forall i :: 0 <= i < |init| ==> init[i] == order[i];
      match DownloadsAsWritten(settings, songs, init)
      case Failure(e) => Failure(e)
      case Success(plan) =>
        match FileNameAsWritten(song.track, song.title, settings.format)
        case Failure(_) => Failure(MissingTrack(plan, song))
        case Success(_) => Success(plan + [DownloadOf(settings, song)])
  }

  /** Once the loop has stopped on a prefix of the keys, the later keys
      change nothing. */
  lemma {:induction false} StopIsFinal(settings: Settings, songs: map<Id, Song>, order: seq<Id>, i: nat)
    requires forall j :: 0 <= j < |order| ==> order[j] in songs
    requires i <= |order|
    requires DownloadsAsWritten(settings, songs, order[..i]).Failure?
    ensures DownloadsAsWritten(settings, songs, order) == DownloadsAsWritten(settings, songs, order[..i])
    decreases |order|
  {
    if i < |order| {
      var init := order[..|order| - 1];
      assert init[..i] == order[..i];
      StopIsFinal(settings, songs, init, i);
    } else {
      assert order[..i] == order;
    }
  }

  /** The loop stops at the first song without a track entry, having written
      the files of exactly the songs before it. */
  lemma {:induction false} StopsAtFirstMissingTrack(settings: Settings, songs: map<Id, Song>, order: seq<Id>, k: nat)
    requires forall j :: 0 <= j < |order| ==> order[j] in songs
    requires k < |order| && songs[order[k]].track.None?
    requires forall j :: 0 <= j < k ==> songs[order[j]].track.Some?
    ensures DownloadsAsWritten(settings, songs, order)
            == Failure(MissingTrack(Downloads(settings, songs, order[..k]), songs[order[k]]))
  {
    var prefix := order[..k + 1];
    assert prefix[..k] == order[..k];
    assert forall j :: 0 <= j < k ==> prefix[j] == order[j];
    var r := DownloadsAsWritten(settings, songs, prefix[..k]);
    assert r == Success(Downloads(settings, songs, order[..k]));
    assert DownloadsAsWritten(settings, songs, prefix)
           == Failure(MissingTrack(Downloads(settings, songs, order[..k]), songs[order[k]]));
    StopIsFinal(settings, songs, order, k + 1);
  }

  /** One more iteration of the loop after `order[..i]` wrote `plan`. */
  lemma DownloadsAsWrittenStep(settings: Settings, songs: map<Id, Song>, order: seq<Id>, i: nat, plan: seq<Download>)
    requires forall j :: 0 <= j < |order| ==> order[j] in songs
    requires i < |order|
    requires DownloadsAsWritten(settings, songs, order[..i]) == Success(plan)
    ensures DownloadsAsWritten(settings, songs, order[..i + 1])
            == if songs[order[i]].track.None? then Failure(MissingTrack(plan, songs[order[i]]))
               else Success(plan + [DownloadOf(settings, songs[order[i]])])
  {
    assert order[..i + 1][..i] == order[..i];
  }

  /** The download loop over the script's dict, as written: `song["track"]`
      is read for every song, and the first song without one ends the run. */
  method DownloadAll(songlist: SongList, settings: Settings) returns (r: Result<seq<Download>, RunError>)
    requires forall j :: 0 <= j < |songlist.order| ==> songlist.order[j] in songlist.songs
    ensures r == DownloadsAsWritten(settings, songlist.songs, songlist.order)
  {
    var order, songs := songlist.order, songlist.songs;
    assert order[..0] == [];
    var plan := [];
    for i := 0 to |order|
      invariant DownloadsAsWritten(settings, songs, order[..i]) == Success(plan)
    {
      DownloadsAsWrittenStep(settings, songs, order, i, plan);
      var song := songs[order[i]];
      var name := FileNameAsWritten(song.track, song.title, settings.format);
      if name.Failure? {
        r := Failure(MissingTrack(plan, song));
        StopIsFinal(settings, songs, order, i + 1);
        return;
      }
      plan := plan + [DownloadOf(settings, song)];
    }
    assert order[..|order|] == order;
    r := Success(plan);
  }

  /** Every collected song carries a track entry. */
  predicate AllTracked(d: SongDict) {
    forall k :: k in d.songs ==> d.songs[k].track.Some?
  }

  /** The position of the first key in `order` whose song has no track
      entry, or `|order|` when every song has one. */
  function FirstUntracked(songs: map<Id, Song>, order: seq<Id>): (k: nat)
    requires forall i :: 0 <= i < |order| ==> order[i] in songs
    ensures k <= |order|
    ensures forall j :: 0 <= j < k ==> songs[order[j]].track.Some?
    ensures k < |order| ==> songs[order[k]].track.None?
  {
    if order == [] || songs[order[0]].track.None? then 0
    else
      assert forall i :: 0 <= i < |order| - 1 ==> order[1..][i] == order[i + 1];
      1 + FirstUntracked(songs, order[1..])
  }

  /** `for song in songlist.values()` as written, over a valid dict: with
      every track entry present it performs exactly `Plan`; otherwise it
      stops at the first song in insertion order without one, after writing
      exactly the files `Plan` puts before that song. */
  function PlanAsWritten(settings: Settings, d: SongDict): (r: Result<seq<Download>, RunError>)
    requires Valid(d)
    ensures r.Success? <==> AllTracked(d)
    ensures r.Success? ==> r.value == Plan(settings, d)
    ensures r.Failure? ==>
              var k := FirstUntracked(d.songs, d.order);
              && k < |d.order|
              && r == Failure(MissingTrack(Plan(settings, d)[..k], d.songs[d.order[k]]))
  {
    PlanAsWrittenStops(settings, d);
    DownloadsAsWritten(settings, d.songs, d.order)
  }

  lemma PlanAsWrittenStops(settings: Settings, d: SongDict)
    requires Valid(d)
    ensures forall i :: 0 <= i < |d.order| ==> d.order[i] in d.songs
    ensures var k := FirstUntracked(d.songs, d.order);
            && (k == |d.order| <==> AllTracked(d))
            && (k < |d.order| ==> DownloadsAsWritten(settings, d.songs, d.order)
                                  == Failure(MissingTrack(Plan(settings, d)[..k], d.songs[d.order[k]])))
  {
    assert forall i :: 0 <= i < |d.order| ==> d.order[i] in d.order;
    var k := FirstUntracked(d.songs, d.order);
    if k < |d.order| {
      StopsAtFirstMissingTrack(settings, d.songs, d.order, k);
      PlanPrefix(settings, d, k);
    } else {
      forall key | key in d.songs ensures d.songs[key].track.Some? {
        var j :| 0 <= j < |d.order| && d.order[j] == key;
      }
    }
  }

  /** The downloads for the first `k` keys are the first `k` of `Plan`. */
  lemma PlanPrefix(settings: Settings, d: SongDict, k: nat)
    requires Valid(d) && k <= |d.order|
    requires forall i :: 0 <= i < |d.order| ==> d.order[i] in d.songs
    ensures Downloads(settings, d.songs, d.order[..k]) == Plan(settings, d)[..k]
  {
    assert forall i :: 0 <= i < k ==> d.order[..k][i] == d.order[i];
  }

  /** What the script is meant to do, as a value: the run in which a song
      without a track entry is written without a prefix (`FileName`). It
      never stops on a song. */
  function IntendedOutcome(cfg: Section, server: Server): (r: Result<seq<Download>, RunError>)
    ensures Connect(cfg).Failure? ==> r == Failure(BadConfig(Connect(cfg).error))
    ensures r.Success? <==> Connect(cfg).Success? && Collected(server, ModeOf(cfg)).Some?
    ensures r.Failure? ==> !r.error.MissingTrack?
  {
    match Connect(cfg)
    case Failure(e) => Failure(BadConfig(e))
    case Success(_) =>
      match Collected(server, ModeOf(cfg))
      case None => Failure(ServerRejected)
      case Some(d) => Success(Plan(SettingsOf(cfg), d))
  }

  /** What a run of the script as written does, as a value: it succeeds
      exactly when the connection is configured, collection succeeds and
      every collected song has a track entry. It differs from the intended
      run only by stopping on a song without a track entry, after writing a
      prefix of the intended downloads. */
  function Outcome(cfg: Section, server: Server): (r: Result<seq<Download>, RunError>)
    ensures Connect(cfg).Failure? ==> r == Failure(BadConfig(Connect(cfg).error))
    ensures r.Success? <==>
              && Connect(cfg).Success?
              && Collected(server, ModeOf(cfg)).Some?
              && AllTracked(Collected(server, ModeOf(cfg)).value)
  {
    match Connect(cfg)
    case Failure(e) => Failure(BadConfig(e))
    case Success(_) =>
      match Collected(server, ModeOf(cfg))
      case None => Failure(ServerRejected)
      case Some(d) => PlanAsWritten(SettingsOf(cfg), d)
  }

  /** The script as written departs from the intended run only by stopping
      on a song without a track entry, after writing a prefix of the
      intended downloads. */
  lemma OutcomeDepartsOnlyOnMissingTrack(cfg: Section, server: Server)
    ensures var r := Outcome(cfg, server);
            var intended := IntendedOutcome(cfg, server);
            r != intended ==>
              && intended.Success?
              && r.Failure? && r.error.MissingTrack? && r.error.song.track.None?
              && r.error.written == intended.value[..|r.error.written|]
  {
    if Connect(cfg).Success? && Collected(server, ModeOf(cfg)).Some? {
      var d := Collected(server, ModeOf(cfg)).value;
      var plan := Plan(SettingsOf(cfg), d);
      var r := PlanAsWritten(SettingsOf(cfg), d);
      assert IntendedOutcome(cfg, server) == Success(plan);
      assert Outcome(cfg, server) == r;
      assert r.Failure? ==> r.error.written == plan[..|r.error.written|];
    }
  }

  /** The script up to the download loop: check the connection settings,
      then collect the songs of the configured mode into a fresh dict. */
  method Collect(cfg: Section, server: Server) returns (songlist: SongList, failure: Option<RunError>)
    ensures Connect(cfg).Failure? ==> failure == Some(BadConfig(Connect(cfg).error))
    ensures Connect(cfg).Success? ==>
              failure == (if Collected(server, ModeOf(cfg)).Some? then None else Some(ServerRejected))
    ensures failure == None ==> songlist.Dict() == Collected(server, ModeOf(cfg)).value
  {
    songlist := new SongList();
    var conn := Connect(cfg);
    if conn.Failure? {
      return songlist, Some(BadConfig(conn.error));
    }
    var ok: bool;
    match ModeOf(cfg) {
      case Favorites =>
        ok := songlist.CollectFavorites(server);
      case Playlist(name) =>
        ok := songlist.CollectPlaylist(server, name);
    }
    failure := if ok then None else Some(ServerRejected);
  }

  /** The script body as written. */
  method Run(cfg: Section, server: Server) returns (r: Result<seq<Download>, RunError>)
    ensures r == Outcome(cfg, server)
  {
    var songlist, failure := Collect(cfg, server);
    if failure.Some? {
      return Failure(failure.value);
    }
    assert forall j :: 0 <= j < |songlist.order| ==> songlist.order[j] in songlist.order;
    r := DownloadAll(songlist, SettingsOf(cfg));
  }

  /** The script body as intended. */
  method RunIntended(cfg: Section, server: Server) returns (r: Result<seq<Download>, RunError>)
    ensures r == IntendedOutcome(cfg, server)
  {
    var songlist, failure := Collect(cfg, server);
    if failure.Some? {
      return Failure(failure.value);
    }
    var plan := DownloadAllIntended(songlist, SettingsOf(cfg));
    r := Success(plan);
  }

  /** A server whose only item is one starred song yields a dict holding
      just that song. */
  lemma OneStarredSongCollected(s: Song)
    ensures Collected(Server(Starred([], [], [s]), map[], map[], [], map[]), Favorites)
            == Some(SongDict([s.id], map[s.id := s]))
  {
    var server := Server(Starred([], [], [s]), map[], map[], [], map[]);
    assert ArtistsSongs(server, []) == Some([]);
    assert AlbumsSongs(server, []) == Some([]);
    assert [] + [] + [s] == [s];
    assert FavoriteSongs(server) == Some([s]);
    assert [s][..0] == [];
    assert Grab(Empty, [s]) == Put(Empty, s);
    assert s.id !in Empty.songs;
    assert Put(Empty, s) == SongDict([] + [s.id], map[][s.id := s]);
    assert Collected(server, Favorites) == Some(Grab(Empty, [s]));
    assert [] + [s.id] == [s.id];
    assert map[][s.id := s] == map[s.id := s];
  }

  /** A starred song without a track entry stops the script before anything
      is written, where the intended run writes `./A/B/Intro.mp3`. */
  lemma TracklessSongStopsRun()
    ensures var cfg := map["url" := "https://x", "username" := "u", "password" := "p"];
            var s := Song("1", "Intro", "A", "B", None);
            var server := Server(Starred([], [], [s]), map[], map[], [], map[]);
            && Outcome(cfg, server) == Failure(MissingTrack([], s))
            && IntendedOutcome(cfg, server) == Success([Download(s, "mp3", "128", ".")])
            && Download(s, "mp3", "128", ".").TargetPath() == "./A/B/Intro.mp3"
  {
    var cfg := map["url" := "https://x", "username" := "u", "password" := "p"];
    var s := Song("1", "Intro", "A", "B", None);
    var server := Server(Starred([], [], [s]), map[], map[], [], map[]);
    MinimalConfig(cfg);
    OneStarredSongCollected(s);
    var d := SongDict(["1"], map["1" := s]);
    var settings := Settings("mp3", ".", "128");
    assert d.order[..0] == [];
    assert DownloadsAsWritten(settings, d.songs, d.order) == Failure(MissingTrack([], s));
    assert Plan(settings, d) == [Download(s, "mp3", "128", ".")];
    IntroPath(s);
  }

  /** The intended file for the track-less `Intro` by `A` on `B`. */
  lemma IntroPath(s: Song)
    requires s == Song("1", "Intro", "A", "B", None)
    ensures Download(s, "mp3", "128", ".").TargetPath() == "./A/B/Intro.mp3"
  {
    DirectoryLayout(".", "A", "B");
    Sanitizer.SanitizeFixesExactlyLegal("A");
    Sanitizer.SanitizeFixesExactlyLegal("B");
    assert Directory(".", "A", "B") == "./A/B";
    MissingTrackAborts();
    assert "./A/B" + "/" + "Intro.mp3" == "./A/B/Intro.mp3";
  }

  /** Url, username and password alone connect, in favorites mode, with the
      default settings. */
  lemma MinimalConfig(cfg: Section)
    requires cfg == map["url" := "https://x", "username" := "u", "password" := "p"]
    ensures Connect(cfg).Success? && ModeOf(cfg) == Favorites
    ensures SettingsOf(cfg) == Settings("mp3", ".", "128")
  {
  }

  /** Favorites mode end to end: exactly the songs reached through a starred
      artist, album or song are downloaded, each once, with the configured
      format and bitrate. */
  lemma FavoritesDownloadedOnce(cfg: Section, server: Server)
    requires ModeOf(cfg) == Favorites && Outcome(cfg, server).Success?
    ensures var plan := Outcome(cfg, server).value;
            && (forall i, j :: 0 <= i < j < |plan| ==> plan[i].song.id != plan[j].song.id)
            && StreamedIds(plan) == Ids(ArtistsSongs(server, server.starred.artists).value)
                                    + Ids(AlbumsSongs(server, server.starred.albums).value)
                                    + Ids(server.starred.songs)
            && (forall i :: 0 <= i < |plan| ==>
                  plan[i].format == SettingsOf(cfg).format && plan[i].maxBitRate == SettingsOf(cfg).maxBitRate)
  {
    FavoritesAreUnion(server);
    var d := Collected(server, Favorites).value;
    assert Outcome(cfg, server).value == Plan(SettingsOf(cfg), d);
  }

  /** Playlist mode end to end: exactly the entries of the playlists named
      as configured are downloaded, each once; with no such playlist nothing is. */
  lemma PlaylistDownloads(cfg: Section, server: Server)
    requires ModeOf(cfg).Playlist? && Outcome(cfg, server).Success?
    ensures var plan := Outcome(cfg, server).value;
            var name := cfg["playlist"];
            && (forall i, j :: 0 <= i < j < |plan| ==> plan[i].song.id != plan[j].song.id)
            && (forall k :: k in StreamedIds(plan) <==>
                  exists p :: 0 <= p < |server.playlists| && server.playlists[p].name == name
                              && k in Ids(server.playlistEntries[server.playlists[p].id]))
            && ((forall p :: 0 <= p < |server.playlists| ==> server.playlists[p].name != name) ==> plan == [])
  {
    var name := cfg["playlist"];
    var d := Collected(server, Playlist(name)).value;
    assert Outcome(cfg, server).value == Plan(SettingsOf(cfg), d);
    forall k {
      PlaylistSongsIds(server, server.playlists, name, k);
    }
    if forall p :: 0 <= p < |server.playlists| ==> server.playlists[p].name != name {
      NoMatchingPlaylist(server, name);
    }
  }
}
