# pseudosonic, modelled in Dafny

pseudosonic is a one-file client for a Subsonic music server. It reads the
`[pseudosonic]` section of an INI file and connects to the server. It then
collects songs into a dict keyed by song id. In favorites mode these are the
songs of the starred artists, of the starred albums, and the starred songs. In
playlist mode they are the entries of the playlists with the configured name.
Finally it downloads every collected song as a transcoded stream into
`music_dir/artist/album/[NN - ]title.format`.

This project models that core:

- `sanitize.dfy` (module `Sanitizer`): the filename sanitiser
  `FILE_LEGAL.sub("_", s)`.
- `decimal.dfy` (module `Decimal`): `"{:02}".format(track)` for the track
  prefix, and integer parsing for `getint`.
- `paths.dfy` (module `Paths`): POSIX `os.path.join` and `basename`, the
  album directory, the file name and the file path.
- `config.dfy` (module `Config`): the configuration section as a map, the
  connection arguments with the port default, the collection mode, and the
  `format`, `music_dir` and `bitrate` defaults.
- `subsonic.dfy` (module `Subsonic`): song records and the server's answers.
  Each answer is input data: starred items, artist to albums, album to songs,
  the playlists, and playlist to entries.
- `collector.dfy` (module `Collector`): the dict `songlist` as a class
  `SongList`. It keeps the keys in insertion order, as Python dicts do. Its
  methods `GrabSong`, `GrabAlbum`, `GrabArtists`, `CollectFavorites` and
  `CollectPlaylist` are the script's loops. Each is proved against a pure
  specification (`Grab`, `AlbumsSongs`, `ArtistsSongs`, `PlaylistSongs`).
- `sync.dfy` (module `Sync`): the download loop, written as the list of
  downloads it performs, and the whole script as `Run`. It is proved equal to
  the pure `Outcome`. As written, the loop reads `song["track"]` for every
  song and stops at the first song that has none. `RunIntended` and
  `IntendedOutcome` are the run as the code evidently means it: such a song
  is written without a track prefix (see Findings).

A server call that the server rejects raises in the client library and ends
the script. For the calls that take an id (`getArtist`, `getAlbum` and
`getPlaylist`), the model represents a rejection by an id that is missing
from the server's answer maps, and `Run` then returns `Failure(ServerRejected)`.
A missing configuration option or a port that is not an integer ends the
script with `KeyError` or `ValueError`. The model returns `Failure(BadConfig(..))`
for these. A collected song without a track entry ends the download loop with
`KeyError`. The model returns `Failure(MissingTrack(written, song))`, where
`written` lists the files written before it.

## Model

| member | source | states |
|---|---|---|
| Sanitizer.Sanitize | pseudosonic.py:16 | the result has the input's length and holds only word characters, `_`, `.`, space and `-` |
| Sanitizer.SanitizeAt | pseudosonic.py:16 | at every position a legal character is kept and an illegal one becomes exactly one `_` |
| Sanitizer.SanitizeFixesExactlyLegal | pseudosonic.py:16 | a string is left unchanged if and only if all its characters are legal |
| Sanitizer.SanitizeIdempotent | pseudosonic.py:16 | sanitising twice gives the same result as sanitising once |
| Sanitizer.SanitizeConcat | pseudosonic.py:16 | each character is replaced independently: sanitising a concatenation concatenates the sanitised parts |
| Sanitizer.SanitizedIsOneComponent | pseudosonic.py:107-111 | a sanitised name never contains `/`; `.` and `..` pass through unchanged, so no traversal protection beyond the character set |
| Decimal.Format02 | pseudosonic.py:115 | `{:02}` output is at least two characters wide, ends with all digits of the number (never truncated), and starts with `-` exactly for negative numbers |
| Decimal.Format02RoundTrip | pseudosonic.py:115 | the padded text parses back to the number, leading zero included |
| Decimal.Format02Injective | pseudosonic.py:115 | distinct track numbers get distinct prefixes |
| Decimal.ParseInt | pseudosonic.py:42-44 | a value is an integer exactly when it is an optional sign followed by at least one digit, and the sign determines the result's sign |
| Paths.Join | pseudosonic.py:107-119 | `posixpath.join` of two components; its contract is stated by `Paths.JoinShape` |
| Paths.JoinShape | pseudosonic.py:107-111 | an absolute component replaces the path; a relative one follows the path after at most one inserted `/`, and a separator always precedes it when the path is non-empty |
| Paths.BasenameJoin | pseudosonic.py:113-119 | a name without separators joined onto any path is that path's last component |
| Paths.Directory | pseudosonic.py:107-111 | the song's directory from music_dir, artist and album; its layout is stated by `Paths.DirectoryLayout` and `Paths.EmptyArtistCollapses` |
| Paths.DirectoryLayout | pseudosonic.py:107-111 | with a non-empty music directory not ending in `/` and a non-empty artist, the directory is `music_dir/sanitize(artist)/sanitize(album)` |
| Paths.EmptyArtistCollapses | pseudosonic.py:107-111 | an empty artist adds no directory level: the album lands directly under `music_dir` |
| Paths.TrackPrefix | pseudosonic.py:115 | the prefix is present exactly when the track number is present and non-zero |
| Paths.TrackPrefixDecodes | pseudosonic.py:115 | a prefix ends with ` - ` and the text before it parses back to the track number |
| Paths.TrackPrefixNoSeparator | pseudosonic.py:115 | a track prefix never contains `/` |
| Paths.FileName | pseudosonic.py:113-119 | the file name as intended, with no prefix for a song without a track entry; its shape is stated by `Paths.FileNameParts` and `Paths.FileNameIsOneComponent` |
| Paths.FileNameParts | pseudosonic.py:113-119 | the file name splits into the track prefix, the sanitised title (as long as the title), and `.` followed by the format |
| Paths.FileNameIsOneComponent | pseudosonic.py:113-119 | with a format without `/`, the file name is non-empty and contains no separator |
| Paths.FilePath | pseudosonic.py:113-119 | the file's full path; its layout is stated by `Paths.FilePathLayout` |
| Paths.FilePathLayout | pseudosonic.py:113-119 | with a format without `/`, the file path starts with the song's directory and its last component is the file name |
| Paths.FileNameAsWritten | pseudosonic.py:115 | the name as the script computes it fails exactly when the record has no track entry, and otherwise equals `FileName` |
| Paths.MissingTrackAborts | pseudosonic.py:115 | a record without a track entry makes the script fail where a prefix-less `Intro.mp3` was meant |
| Config.Get | pseudosonic.py:104-121 | `cfg.get(key, fallback)`: the configured value, or the fallback when the option is absent; `Config.ModeOf` and `Config.SettingsOf` state what it yields |
| Config.GetInt | pseudosonic.py:42-44 | `getint` gives the fallback for an absent option, the parsed value for an integer, and a `ValueError` for anything else |
| Config.DefaultPort | pseudosonic.py:42-44 | the default port is 443 exactly when the url starts with `https`, and 80 otherwise |
| Config.Port | pseudosonic.py:41-44 | no url is a `KeyError`; without `port` the port is 443 for an `https` url and 80 otherwise; a configured port is used when it is an integer, and is otherwise a `ValueError` naming `port` and its value |
| Config.Connect | pseudosonic.py:40-48 | the connection succeeds exactly when url, a valid port, username and password are present; otherwise the first failure in argument order is reported: a missing url, then a non-integer port (`ValueError`), then a missing username, then a missing password |
| Config.ModeOf | pseudosonic.py:70 | favorites mode exactly when `playlist` is absent or empty; otherwise the playlist name is the option's value |
| Config.SettingsOf | pseudosonic.py:104-121 | format defaults to `mp3`, music_dir to `.` and bitrate to 128; configured values are used as they are |
| Collector.Put | pseudosonic.py:60 | a dict assignment: the key maps to the record, other keys are unchanged, a new key is appended to the order, and the dict invariant is kept |
| Collector.Grab | pseudosonic.py:57-60 | after `grab_song` the keys are the old keys plus the ids of the records, keys not among those ids keep their values, earlier insertion order is kept, and the invariant holds |
| Collector.GrabLastWins | pseudosonic.py:57-60 | each id maps to the last record in the list that carries it |
| Collector.GrabAppend | pseudosonic.py:57-60 | grabbing two lists in turn equals grabbing their concatenation |
| Collector.AlbumsSongs | pseudosonic.py:63-67 | `grab_album` succeeds exactly when the server knows every album |
| Collector.AlbumsSongsIds | pseudosonic.py:63-67 | the ids `grab_album` inserts are exactly those of the songs of the given albums |
| Collector.ArtistsSongs | pseudosonic.py:79-81 | the starred-artist loop succeeds exactly when every artist and each of their albums is known |
| Collector.ArtistsSongsIds | pseudosonic.py:79-81 | the ids the starred-artist loop inserts are exactly those of the songs of the artists' albums |
| Collector.PlaylistSongs | pseudosonic.py:94-99 | the playlist loop fails exactly when a playlist with the configured name is unknown to `getPlaylist` |
| Collector.PlaylistSongsIds | pseudosonic.py:94-99 | the ids the playlist loop inserts are exactly those of the entries of every playlist whose name matches exactly, not only the first |
| Collector.Collected | pseudosonic.py:70-99 | the collected dict satisfies the invariant and its keys are the ids of the songs collected in the mode |
| Collector.FavoriteSongs | pseudosonic.py:79-87 | the favorites records in grab order: artist songs, album songs, starred songs; `Collector.FavoritesAreUnion` states the keys they give |
| Collector.ModeSongs | pseudosonic.py:70-99 | the records of the configured mode; `Collector.Collected` states the dict they give |
| Collector.FavoritesAreUnion | pseudosonic.py:79-87 | in favorites mode the keys are exactly the union of the ids reached via starred artists, starred albums and starred songs, each kept once |
| Collector.StarredSongWins | pseudosonic.py:86-87 | a starred song's own record is the one kept, since starred songs are grabbed last |
| Collector.NoMatchingPlaylist | pseudosonic.py:94-99 | when no playlist has the configured name, the dict stays empty |
| Collector.SongList.constructor | pseudosonic.py:54 | `songlist` starts empty |
| Collector.SongList.GrabSong | pseudosonic.py:57-60 | the dict after the loop is `Grab` of the dict before it |
| Collector.SongList.GrabAlbum | pseudosonic.py:63-67 | succeeds exactly when every album is known, and then leaves `Grab` of the albums' songs |
| Collector.SongList.GrabArtists | pseudosonic.py:79-81 | succeeds exactly when every starred artist and their albums are known, and then leaves `Grab` of their songs |
| Collector.SongList.CollectFavorites | pseudosonic.py:75-87 | succeeds exactly when all server calls succeed, and then leaves `Grab` of the artist songs, the album songs and the starred songs, in that order |
| Collector.SongList.CollectPlaylist | pseudosonic.py:92-99 | succeeds exactly when every matching playlist is known, and then leaves `Grab` of their entries in listing order |
| Sync.DownloadOf | pseudosonic.py:106-122 | one iteration's download: the song with the configured format, bitrate and music directory; `Sync.DownloadPlacement` states where its file goes |
| Sync.DownloadPlacement | pseudosonic.py:106-119 | with a format without `/`, a download's file lies inside its `music_dir/artist/album` directory and its last component is the song's file name |
| Sync.Downloads | pseudosonic.py:106-122 | one download per key, in key order, each for that key's song with the configured format, bitrate and music directory |
| Sync.Plan | pseudosonic.py:106-125 | one download per key in insertion order; no song is streamed twice, and the streamed ids are exactly the collected ids |
| Sync.DownloadAllIntended | pseudosonic.py:106-125 | the intended download loop performs exactly `Plan` of the dict |
| Sync.DownloadsAsWritten | pseudosonic.py:106-125 | the loop as written completes exactly when every song has a track entry, and then performs `Downloads`; otherwise it stops on a song without one |
| Sync.StopIsFinal | pseudosonic.py:106-125 | once the loop has stopped, the later songs change nothing |
| Sync.StopsAtFirstMissingTrack | pseudosonic.py:106-125 | the loop stops at the first song without a track entry, after writing exactly the songs before it |
| Sync.DownloadAll | pseudosonic.py:106-125 | the download loop as written performs exactly `DownloadsAsWritten` over the dict's keys |
| Sync.PlanAsWritten | pseudosonic.py:106-125 | the loop as written succeeds exactly when every collected song has a track entry, and then performs `Plan`; otherwise it stops at the first such song in insertion order, having written exactly the downloads `Plan` puts before it |
| Sync.IntendedOutcome | pseudosonic.py:40-125 | a configuration failure stops the run with that error; the intended run succeeds exactly when the connection is configured and collection succeeds, and never stops on a song |
| Sync.Outcome | pseudosonic.py:40-125 | a configuration failure stops the run with that error; with `stream`, `getStarred2` and `getPlaylists` taken to succeed, the run as written succeeds exactly when the connection is configured, collection succeeds and every collected song has a track entry |
| Sync.OutcomeDepartsOnlyOnMissingTrack | pseudosonic.py:106-125 | the run as written differs from the intended run only by stopping on a song without a track entry, after writing a prefix of the intended downloads |
| Sync.Collect | pseudosonic.py:40-99 | the connection check and collection phase: a configuration failure, a server rejection, or the dict `Collected` |
| Sync.Run | pseudosonic.py:40-125 | the script body as written yields exactly `Outcome` |
| Sync.RunIntended | pseudosonic.py:40-125 | the script body as intended yields exactly `IntendedOutcome` |
| Sync.TracklessSongStopsRun | pseudosonic.py:115 | with one starred song `Intro` without a track entry, the script stops before writing anything, where the intended run yields one download whose file is `./A/B/Intro.mp3` |
| Sync.FavoritesDownloadedOnce | pseudosonic.py:70-122 | in favorites mode, exactly the songs reached through a starred artist, album or song are downloaded, each once, at the configured format and bitrate |
| Sync.PlaylistDownloads | pseudosonic.py:89-122 | in playlist mode, exactly the entries of every playlist with the configured name are downloaded, each once; with no such playlist nothing is downloaded |

## Left out

- Argument parsing and reading the INI file (pseudosonic.py:18-37): the section is given as a map. configparser's `DEFAULT` section and `%(...)s` interpolation are not modelled.
- `urljoin(server_path, "rest")` (pseudosonic.py:45): a library call implementing reference resolution from section 5.2 of RFC 3986. `Config.Connection` has no server path.
- `conn.ping()` (pseudosonic.py:50): network I/O. A failed ping is not modelled.
- The server calls (pseudosonic.py:75, 80, 66, 92, 96): their answers are the `Subsonic.Server` value. Each answer list is assumed present; a list that is absent from an answer would raise `KeyError`, and this is not modelled.
- Song records are assumed to carry `id`, `title`, `artist` and `album`. A record without one of these raises `KeyError` in the script; this is not modelled. The missing `track` is modelled (see Findings).
- Sync.Outcome: `conn.stream` (pseudosonic.py:120), `getStarred2()` (pseudosonic.py:75) and `getPlaylists()` (pseudosonic.py:92) are assumed to succeed. A rejection of any of them would end the script, after the files already written in the case of `stream`, and `Sync.Outcome` does not model it.
- Sync.Run: the same as `Sync.Outcome`, whose result it returns.
- `mkdir`, `open`/`write` and the streamed bytes (pseudosonic.py:112, 120-125): each loop iteration is recorded as a `Sync.Download` value. The file system is not modelled, including one file overwriting another when two songs get the same path.
- `print` (pseudosonic.py:71, 90, 123): console output.
- Sanitizer.IsWordChar: Python's `\w` matches every Unicode letter and digit, but the model keeps only ASCII letters, digits and `_`. A non-ASCII letter that Python keeps is replaced by `_` in the model. Length preservation, idempotence and the pointwise rule do not depend on this choice.
- Decimal.ParseInt: Python's `int()` also accepts `_` between digits and non-ASCII digits. The model rejects both.
- Config.SettingsOf: the default bitrate is the integer 128 in the script and a configured bitrate is a string. Both reach the request as the same text, so the model uses the string `"128"`.
- Paths.Join: only POSIX `os.path.join` is modelled, not the Windows variant.
- Collector.SongList.GrabAlbum: when a server call raises, the method states nothing about the partially filled dict, because the script ends there.
- Collector.SongList.GrabArtists: the same as `GrabAlbum` for a raising server call.
- Collector.SongList.CollectFavorites: the same as `GrabAlbum` for a raising server call.
- Collector.SongList.CollectPlaylist: the same as `GrabAlbum` for a raising server call.
- Profiles, an album-artist lookup, cover art and an overwrite flag: the script has none of them, so none is modelled. In playlist mode the script collects every playlist whose name matches, not only the first, and the model does the same.

## Findings

| source | as written | input that shows it | evidently intended | confidence | as-written member | corrected member |
|---|---|---|---|---|---|---|
| pseudosonic.py:115 | `song["track"]` raises `KeyError` when the song record has no `track` entry. The server omits that entry for songs without a track number, and the run stops: `Sync.Outcome` and `Sync.TracklessSongStopsRun` show it end to end. | a song record without `track`, titled `Intro`, with format `mp3` | the `if song["track"] else ""` branch gives such a song no prefix: `Intro.mp3`, as in `Sync.IntendedOutcome` | medium, not executed | Paths.FileNameAsWritten | Paths.FileName |
