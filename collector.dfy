/** Song collection: the module-level dict `songlist`, filled in place by
    `grab_song` and `grab_album` from the favorites or from playlists. */
module Collector {
  import opened Wrappers
  import opened Subsonic
  import opened Config

  /** A Python dict from song id to song record: its keys in insertion
      order, and its entries. */
  datatype SongDict = SongDict(order: seq<Id>, songs: map<Id, Song>)

  const Empty := SongDict([], map[])

  /** Every key once, in insertion order, and each record filed under its own id. */
  ghost predicate Valid(d: SongDict) {
    && (forall i, j :: 0 <= i < j < |d.order| ==> d.order[i] != d.order[j])
    && (forall k :: k in d.songs <==> k in d.order)
    && (forall k :: k in d.songs ==> d.songs[k].id == k)
  }

  /** The ids of a list of song records. */
  function Ids(recs: seq<Song>): set<Id> {
    set i | 0 <= i < |recs| :: recs[i].id
  }

  lemma IdsAppend(a: seq<Song>, b: seq<Song>)
    ensures Ids(a + b) == Ids(a) + Ids(b)
  {
    forall k | k in Ids(a) ensures k in Ids(a + b) {
      var i :| 0 <= i < |a| && a[i].id == k;
      assert (a + b)[i].id == k;
    }
    forall k | k in Ids(a + b) ensures k in Ids(a) + Ids(b) {
      var i :| 0 <= i < |a + b| && (a + b)[i].id == k;
      if i >= |a| { assert b[i - |a|].id == k; }
    }
    forall k | k in Ids(b) ensures k in Ids(a + b) {
      var i :| 0 <= i < |b| && b[i].id == k;
      assert (a + b)[|a| + i].id == k;
    }
  }

  /** `songlist[rec["id"]] = rec`: a new key goes to the end of the order,
      an existing key keeps its place and gets the new record. */
  function Put(d: SongDict, rec: Song): (r: SongDict)
    ensures Valid(d) ==> Valid(r)
    ensures r.songs.Keys == d.songs.Keys + {rec.id}
    ensures r.songs[rec.id] == rec
    ensures forall k :: k in d.songs && k != rec.id ==> r.songs[k] == d.songs[k]
    ensures d.order <= r.order && |r.order| <= |d.order| + 1
  {
    SongDict(if rec.id in d.songs then d.order else d.order + [rec.id], d.songs[rec.id := rec])
  }

  /** `grab_song(recs)`: every record put in turn. */
  function Grab(d: SongDict, recs: seq<Song>): (r: SongDict)
    ensures Valid(d) ==> Valid(r)
    ensures r.songs.Keys == d.songs.Keys + Ids(recs)
    ensures forall k :: k in d.songs && k !in Ids(recs) ==> r.songs[k] == d.songs[k]
    ensures d.order <= r.order
  {
    if recs == [] then d
    else
      var init := recs[..|recs| - 1];
      assert recs == init + [recs[|recs| - 1]];
      IdsAppend(init, [recs[|recs| - 1]]);
      Put(Grab(d, init), recs[|recs| - 1])
  }

  /** Last write wins: an id ends up mapped to the last record carrying it. */
  lemma {:induction false} GrabLastWins(d: SongDict, recs: seq<Song>, i: nat)
    requires i < |recs|
    requires forall j :: i < j < |recs| ==> recs[j].id != recs[i].id
    ensures Grab(d, recs).songs[recs[i].id] == recs[i]
  {
    assert recs[i].id in Ids(recs);
    if i < |recs| - 1 {
      var init := recs[..|recs| - 1];
      assert init[i] == recs[i];
      GrabLastWins(d, init, i);
    }
  }

  /** Grabbing two lists one after the other is grabbing their concatenation. */
  lemma {:induction false} GrabAppend(d: SongDict, a: seq<Song>, b: seq<Song>)
    ensures Grab(d, a + b) == Grab(Grab(d, a), b)
  {
    if b == [] {
      assert a + b == a;
    } else {
      var init := b[..|b| - 1];
      assert (a + b)[..|a + b| - 1] == a + init;
      assert (a + b)[|a + b| - 1] == b[|b| - 1];
      GrabAppend(d, a, init);
    }
  }

  /** `grab_album(albums)`: the songs of each album in turn, or `None` when
      the server rejects one of the album ids (the client raises). */
  function AlbumsSongs(server: Server, albums: seq<Id>): (r: Option<seq<Song>>)
    ensures r.Some? <==> forall i :: 0 <= i < |albums| ==> albums[i] in server.albumSongs
  {
    if albums == [] then Some([])
    else
      var init, last := albums[..|albums| - 1], albums[|albums| - 1];
      match AlbumsSongs(server, init)
      case None => None
      case Some(prev) =>
        if last in server.albumSongs then Some(prev + server.albumSongs[last])
        else None
  }

  /** One more album: its songs follow those of the albums before it. */
  lemma AlbumsSongsStep(server: Server, albums: seq<Id>, i: nat)
    requires i < |albums| && AlbumsSongs(server, albums[..i]).Some?
    ensures AlbumsSongs(server, albums[..i + 1])
            == if albums[i] in server.albumSongs
               then Some(AlbumsSongs(server, albums[..i]).value + server.albumSongs[albums[i]])
               else None
  {
    assert albums[..i + 1][..i] == albums[..i];
  }

  /** The ids `grab_album` yields are those of the songs of the albums. */
  lemma {:induction false} AlbumsSongsIds(server: Server, albums: seq<Id>, k: Id)
    requires AlbumsSongs(server, albums).Some?
    ensures k in Ids(AlbumsSongs(server, albums).value) <==>
              exists i :: 0 <= i < |albums| && k in Ids(server.albumSongs[albums[i]])
  {
    if albums != [] {
      var init, last := albums[..|albums| - 1], albums[|albums| - 1];
      AlbumsSongsIds(server, init, k);
      IdsAppend(AlbumsSongs(server, init).value, server.albumSongs[last]);
      if k in Ids(server.albumSongs[last]) {
        assert albums[|albums| - 1] == last;
      }
      if exists i :: 0 <= i < |albums| - 1 && k in Ids(server.albumSongs[albums[i]]) {
        var i :| 0 <= i < |albums| - 1 && k in Ids(server.albumSongs[albums[i]]);
        assert init[i] == albums[i];
      }
      if exists i :: 0 <= i < |albums| && k in Ids(server.albumSongs[albums[i]]) {
        var i :| 0 <= i < |albums| && k in Ids(server.albumSongs[albums[i]]);
        if i < |albums| - 1 {
          assert init[i] == albums[i];
        }
      }
    }
  }

  /** The starred artists, each expanded through `getArtist` to its albums
      and through `grab_album` to their songs. */
  function ArtistsSongs(server: Server, artists: seq<Id>): (r: Option<seq<Song>>)
    ensures r.Some? <==> forall i :: 0 <= i < |artists| ==>
              artists[i] in server.artistAlbums
              && AlbumsSongs(server, server.artistAlbums[artists[i]]).Some?
  {
    if artists == [] then Some([])
    else
      var init, last := artists[..|artists| - 1], artists[|artists| - 1];
      match ArtistsSongs(server, init)
      case None => None
      case Some(prev) =>
        if last in server.artistAlbums then
          match AlbumsSongs(server, server.artistAlbums[last])
          case None => None
          case Some(songs) => Some(prev + songs)
        else None
  }

  /** One more artist: the songs of its albums follow those before it. */
  lemma ArtistsSongsStep(server: Server, artists: seq<Id>, i: nat)
    requires i < |artists| && ArtistsSongs(server, artists[..i]).Some?
    ensures ArtistsSongs(server, artists[..i + 1])
            == if artists[i] in server.artistAlbums && AlbumsSongs(server, server.artistAlbums[artists[i]]).Some?
               then Some(ArtistsSongs(server, artists[..i]).value + AlbumsSongs(server, server.artistAlbums[artists[i]]).value)
               else None
  {
    assert artists[..i + 1][..i] == artists[..i];
  }

  /** The ids the starred-artist loop yields are those of the songs of the
      artists' albums. */
  lemma {:induction false} ArtistsSongsIds(server: Server, artists: seq<Id>, k: Id)
    requires ArtistsSongs(server, artists).Some?
    ensures k in Ids(ArtistsSongs(server, artists).value) <==>
              exists i :: 0 <= i < |artists| && k in Ids(AlbumsSongs(server, server.artistAlbums[artists[i]]).value)
  {
    if artists != [] {
      var init, last := artists[..|artists| - 1], artists[|artists| - 1];
      ArtistsSongsIds(server, init, k);
      IdsAppend(ArtistsSongs(server, init).value, AlbumsSongs(server, server.artistAlbums[last]).value);
      if exists i :: 0 <= i < |artists| - 1 && k in Ids(AlbumsSongs(server, server.artistAlbums[artists[i]]).value) {
        var i :| 0 <= i < |artists| - 1 && k in Ids(AlbumsSongs(server, server.artistAlbums[artists[i]]).value);
        assert init[i] == artists[i];
      }
      if exists i :: 0 <= i < |artists| && k in Ids(AlbumsSongs(server, server.artistAlbums[artists[i]]).value) {
        var i :| 0 <= i < |artists| && k in Ids(AlbumsSongs(server, server.artistAlbums[artists[i]]).value);
        if i < |artists| - 1 {
          assert init[i] == artists[i];
        }
      }
    }
  }

  /** Favorites mode: starred artists, then starred albums, then starred songs. */
  function FavoriteSongs(server: Server): Option<seq<Song>> {
    match ArtistsSongs(server, server.starred.artists)
    case None => None
    case Some(fromArtists) =>
      match AlbumsSongs(server, server.starred.albums)
      case None => None
      case Some(fromAlbums) => Some(fromArtists + fromAlbums + server.starred.songs)
  }

  /** Playlist mode: the entries of every playlist whose name equals `name`,
      in the order `getPlaylists` lists them. */
  function PlaylistSongs(server: Server, playlists: seq<PlaylistInfo>, name: string): (r: Option<seq<Song>>)
    ensures r.Some? <==> forall i :: 0 <= i < |playlists| && playlists[i].name == name ==>
              playlists[i].id in server.playlistEntries
  {
    if playlists == [] then Some([])
    else
      var init, last := playlists[..|playlists| - 1], playlists[|playlists| - 1];
      match PlaylistSongs(server, init, name)
      case None => None
      case Some(prev) =>
        if last.name != name then Some(prev)
        else if last.id in server.playlistEntries then Some(prev + server.playlistEntries[last.id])
        else None
  }

  /** One more playlist: its entries follow those before it when its name matches. */
  lemma PlaylistSongsStep(server: Server, playlists: seq<PlaylistInfo>, name: string, i: nat)
    requires i < |playlists| && PlaylistSongs(server, playlists[..i], name).Some?
    ensures PlaylistSongs(server, playlists[..i + 1], name)
            == if playlists[i].name != name then PlaylistSongs(server, playlists[..i], name)
               else if playlists[i].id in server.playlistEntries
               then Some(PlaylistSongs(server, playlists[..i], name).value + server.playlistEntries[playlists[i].id])
               else None
  {
    assert playlists[..i + 1][..i] == playlists[..i];
  }

  /** The ids collected in playlist mode are those of the entries of every
      playlist whose name matches exactly. */
  lemma {:induction false} PlaylistSongsIds(server: Server, playlists: seq<PlaylistInfo>, name: string, k: Id)
    requires PlaylistSongs(server, playlists, name).Some?
    ensures k in Ids(PlaylistSongs(server, playlists, name).value) <==>
              exists i :: 0 <= i < |playlists| && playlists[i].name == name
                          && k in Ids(server.playlistEntries[playlists[i].id])
  {
    if playlists != [] {
      var init, last := playlists[..|playlists| - 1], playlists[|playlists| - 1];
      PlaylistSongsIds(server, init, name, k);
      if exists i :: 0 <= i < |playlists| - 1 && playlists[i].name == name
                     && k in Ids(server.playlistEntries[playlists[i].id]) {
        var i :| 0 <= i < |playlists| - 1 && playlists[i].name == name
                 && k in Ids(server.playlistEntries[playlists[i].id]);
        assert init[i] == playlists[i];
      }
      if exists i :: 0 <= i < |playlists| && playlists[i].name == name
                     && k in Ids(server.playlistEntries[playlists[i].id]) {
        var i :| 0 <= i < |playlists| && playlists[i].name == name
                 && k in Ids(server.playlistEntries[playlists[i].id]);
        if i < |playlists| - 1 {
          assert init[i] == playlists[i];
        }
      }
      if last.name == name {
        IdsAppend(PlaylistSongs(server, init, name).value, server.playlistEntries[last.id]);
      }
    }
  }

  /** The songs collected in the given mode, in the order they are grabbed. */
  function ModeSongs(server: Server, mode: Mode): Option<seq<Song>> {
    match mode
    case Favorites => FavoriteSongs(server)
    case Playlist(name) => PlaylistSongs(server, server.playlists, name)
  }

  /** The dict the collection phase leaves behind, starting from an empty one. */
  function Collected(server: Server, mode: Mode): (r: Option<SongDict>)
    ensures r.Some? <==> ModeSongs(server, mode).Some?
    ensures r.Some? ==> Valid(r.value) && r.value.songs.Keys == Ids(ModeSongs(server, mode).value)
  {
    match ModeSongs(server, mode)
    case None => None
    case Some(songs) => Some(Grab(Empty, songs))
  }

  /** Favorites: the collected ids are exactly those reached through a
      starred artist, a starred album or a starred song, and each id is
      kept once however many of these paths reach it. */
  lemma FavoritesAreUnion(server: Server)
    requires Collected(server, Favorites).Some?
    ensures var d := Collected(server, Favorites).value;
            && Valid(d)
            && d.songs.Keys == Ids(ArtistsSongs(server, server.starred.artists).value)
                               + Ids(AlbumsSongs(server, server.starred.albums).value)
                               + Ids(server.starred.songs)
  {
    var a := ArtistsSongs(server, server.starred.artists).value;
    var b := AlbumsSongs(server, server.starred.albums).value;
    IdsAppend(a, b);
    IdsAppend(a + b, server.starred.songs);
  }

  /** Favorites: a starred song's own record is the one kept, since starred
      songs are grabbed last. */
  lemma StarredSongWins(server: Server, i: nat)
    requires Collected(server, Favorites).Some?
    requires i < |server.starred.songs|
    requires forall j :: i < j < |server.starred.songs| ==> server.starred.songs[j].id != server.starred.songs[i].id
    ensures var d := Collected(server, Favorites).value;
            server.starred.songs[i].id in d.songs && d.songs[server.starred.songs[i].id] == server.starred.songs[i]
  {
    var pre := ArtistsSongs(server, server.starred.artists).value + AlbumsSongs(server, server.starred.albums).value;
    assert Collected(server, Favorites).value == Grab(Empty, pre + server.starred.songs);
    GrabSuffixWins(Empty, pre, server.starred.songs, i);
  }

  /** Last write wins, for a record in the second part of a list. */
  lemma GrabSuffixWins(d: SongDict, pre: seq<Song>, post: seq<Song>, i: nat)
    requires i < |post|
    requires forall j :: i < j < |post| ==> post[j].id != post[i].id
    ensures var r := Grab(d, pre + post);
            post[i].id in r.songs && r.songs[post[i].id] == post[i]
  {
    var all := pre + post;
    assert all[|pre| + i] == post[i];
    forall j | |pre| + i < j < |all| ensures all[j].id != all[|pre| + i].id {
      assert all[j] == post[j - |pre|];
    }
    assert post[i].id in Ids(all);
    GrabLastWins(d, all, |pre| + i);
  }

  /** Playlist mode with no playlist of that name collects nothing. */
  lemma NoMatchingPlaylist(server: Server, name: string)
    requires forall i :: 0 <= i < |server.playlists| ==> server.playlists[i].name != name
    ensures Collected(server, Playlist(name)) == Some(Empty)
  {
    var songs := PlaylistSongs(server, server.playlists, name).value;
    if songs != [] {
      PlaylistSongsIds(server, server.playlists, name, songs[0].id);
    }
  }

  /** The script's dict `songlist`, filled in place. */
  class SongList {
    var order: seq<Id>
    var songs: map<Id, Song>

    function Dict(): SongDict
      reads this
    {
      SongDict(order, songs)
    }

    constructor ()
      ensures Dict() == Empty
    {
      order := [];
      songs := map[];
    }

    /** `grab_song(recs)`. */
    method GrabSong(recs: seq<Song>)
      modifies this
      ensures Dict() == Grab(old(Dict()), recs)
    {
      for i := 0 to |recs|
        invariant Dict() == Grab(old(Dict()), recs[..i])
      {
        var rec := recs[i];
        assert recs[..i + 1][..i] == recs[..i];
        if rec.id !in songs {
          order := order + [rec.id];
        }
        songs := songs[rec.id := rec];
      }
      assert recs[..|recs|] == recs;
    }

    /** `grab_album(albums)`; `ok` is false when `getAlbum` raised. */
    method GrabAlbum(server: Server, albums: seq<Id>) returns (ok: bool)
      modifies this
      ensures ok <==> AlbumsSongs(server, albums).Some?
      ensures ok ==> Dict() == Grab(old(Dict()), AlbumsSongs(server, albums).value)
    {
      for i := 0 to |albums|
        invariant AlbumsSongs(server, albums[..i]).Some?
        invariant Dict() == Grab(old(Dict()), AlbumsSongs(server, albums[..i]).value)
      {
        AlbumsSongsStep(server, albums, i);
        if albums[i] !in server.albumSongs {
          return false;
        }
        GrabAppend(old(Dict()), AlbumsSongs(server, albums[..i]).value, server.albumSongs[albums[i]]);
        GrabSong(server.albumSongs[albums[i]]);
      }
      assert albums[..|albums|] == albums;
      return true;
    }

    /** The loop over the starred artists: `getArtist`, then `grab_album`
        on the artist's albums; `ok` is false when a server call raised. */
    method GrabArtists(server: Server, artists: seq<Id>) returns (ok: bool)
      modifies this
      ensures ok <==> ArtistsSongs(server, artists).Some?
      ensures ok ==> Dict() == Grab(old(Dict()), ArtistsSongs(server, artists).value)
    {
      for i := 0 to |artists|
        invariant ArtistsSongs(server, artists[..i]).Some?
        invariant Dict() == Grab(old(Dict()), ArtistsSongs(server, artists[..i]).value)
      {
        ArtistsSongsStep(server, artists, i);
        if artists[i] !in server.artistAlbums {
          return false;
        }
        ok := GrabAlbum(server, server.artistAlbums[artists[i]]);
        if !ok {
          return false;
        }
        GrabAppend(old(Dict()), ArtistsSongs(server, artists[..i]).value,
                   AlbumsSongs(server, server.artistAlbums[artists[i]]).value);
      }
      assert artists[..|artists|] == artists;
      return true;
    }

    /** The favorites branch; `ok` is false when a server call raised. */
    method CollectFavorites(server: Server) returns (ok: bool)
      modifies this
      ensures ok <==> FavoriteSongs(server).Some?
      ensures ok ==> Dict() == Grab(old(Dict()), FavoriteSongs(server).value)
    {
      ok := GrabArtists(server, server.starred.artists);
      if !ok {
        return false;
      }
      ghost var fromArtists := ArtistsSongs(server, server.starred.artists).value;
      ok := GrabAlbum(server, server.starred.albums);
      if !ok {
        return false;
      }
      ghost var fromAlbums := AlbumsSongs(server, server.starred.albums).value;
      GrabAppend(old(Dict()), fromArtists, fromAlbums);
      GrabSong(server.starred.songs);
      GrabAppend(old(Dict()), fromArtists + fromAlbums, server.starred.songs);
      return true;
    }

    /** The playlist branch; `ok` is false when `getPlaylist` raised. */
    method CollectPlaylist(server: Server, name: string) returns (ok: bool)
      modifies this
      ensures ok <==> PlaylistSongs(server, server.playlists, name).Some?
      ensures ok ==> Dict() == Grab(old(Dict()), PlaylistSongs(server, server.playlists, name).value)
    {
      var playlists := server.playlists;
      for i := 0 to |playlists|
        invariant PlaylistSongs(server, playlists[..i], name).Some?
        invariant Dict() == Grab(old(Dict()), PlaylistSongs(server, playlists[..i], name).value)
      {
        PlaylistSongsStep(server, playlists, name, i);
        var playlist := playlists[i];
        if playlist.name == name {
          if playlist.id !in server.playlistEntries {
            return false;
          }
          GrabAppend(old(Dict()), PlaylistSongs(server, playlists[..i], name).value,
                     server.playlistEntries[playlist.id]);
          GrabSong(server.playlistEntries[playlist.id]);
        }
      }
      assert playlists[..|playlists|] == playlists;
      return true;
    }
  }
}
