/** The records the script reads from the server's answers. Each network
    call (getStarred2, getArtist, getAlbum, getPlaylists, getPlaylist) is
    replaced by the data it would return. */
module Subsonic {
  import opened Wrappers

  type Id = string

  /** A song record: the fields the download loop reads. `track` is `None`
      when the record has no "track" entry (the server omits it for songs
      without a track number). */
  datatype Song = Song(id: Id, title: string, artist: string, album: string, track: Option<int>)

  /** An entry of `getPlaylists()["playlists"]["playlist"]`. */
  datatype PlaylistInfo = PlaylistInfo(id: Id, name: string)

  /** `getStarred2()["starred2"]`: starred artists and albums by id, starred songs in full. */
  datatype Starred = Starred(artists: seq<Id>, albums: seq<Id>, songs: seq<Song>)

  /** What the server answers. An id missing from one of the maps is a call
      the server rejects, which raises in the client library. */
  datatype Server = Server(
    starred: Starred,
    artistAlbums: map<Id, seq<Id>>,     // getArtist(id)["artist"]["album"], by album id
    albumSongs: map<Id, seq<Song>>,     // getAlbum(id)["album"]["song"]
    playlists: seq<PlaylistInfo>,       // getPlaylists()["playlists"]["playlist"]
    playlistEntries: map<Id, seq<Song>> // getPlaylist(id)["playlist"]["entry"]
  )
}
