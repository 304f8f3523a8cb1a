/** Where a song is written: `music_dir/artist/album/[NN - ]title.format`,
    built with POSIX `os.path.join`. */
module Paths {
  import opened Wrappers
  import opened Sanitizer
  import opened Decimal
  import opened Subsonic

  predicate StartsWithSep(s: string) {
    |s| > 0 && s[0] == '/'
  }

  predicate EndsWithSep(s: string) {
    |s| > 0 && s[|s| - 1] == '/'
  }

  /** `posixpath.join(a, b)`: an absolute `b` replaces `a`; otherwise a
      separator is inserted unless `a` is empty or already ends with one. */
  function Join(a: string, b: string): string {
    if StartsWithSep(b) then b
    else if a == [] || EndsWithSep(a) then a + b
    else a + "/" + b
  }

  /** An absolute component replaces the path; a relative one follows it
      after at most one inserted `/`, and a non-empty path always ends in a
      separator before it. */
  lemma JoinShape(a: string, b: string)
    ensures StartsWithSep(b) ==> Join(a, b) == b
    ensures !StartsWithSep(b) ==>
              var r := Join(a, b);
              && |a| + |b| <= |r| <= |a| + |b| + 1
              && r[..|a|] == a && r[|r| - |b|..] == b
              && (a != [] ==> EndsWithSep(r[..|r| - |b|]))
  {
  }

  /** `posixpath.basename(p)`: everything after the last separator. */
  function Basename(p: string): (r: string)
    ensures '/' !in r
  {
    if p == [] || EndsWithSep(p) then [] else Basename(p[..|p| - 1]) + [p[|p| - 1]]
  }

  /** Joining a name without separators makes it the last component. */
  lemma {:induction false} BasenameJoin(a: string, b: string)
    requires '/' !in b && b != []
    ensures Basename(Join(a, b)) == b
  {
    JoinShape(a, b);
    var r := Join(a, b);
    var prefix := r[..|r| - |b|];
    assert r == prefix + b;
    assert prefix == [] || EndsWithSep(prefix);
    BasenameAfterSep(prefix, b);
  }

  lemma {:induction false} BasenameAfterSep(prefix: string, b: string)
    requires '/' !in b
    requires prefix == [] || EndsWithSep(prefix)
    ensures Basename(prefix + b) == b
  {
    var p := prefix + b;
    if b == [] {
      assert p == prefix;
    } else {
      var init := b[..|b| - 1];
      assert p[..|p| - 1] == prefix + init;
      assert p[|p| - 1] == b[|b| - 1];
      assert b[|b| - 1] in b;
      assert !EndsWithSep(p);
      BasenameAfterSep(prefix, init);
      assert Basename(p) == Basename(prefix + init) + [b[|b| - 1]];
      assert init + [b[|b| - 1]] == b;
    }
  }

  /** The directory `os.path.join(music_dir, sanitize(artist), sanitize(album))`. */
  function Directory(musicDir: string, artist: string, album: string): string {
    Join(Join(musicDir, Sanitize(artist)), Sanitize(album))
  }

  /** With a plain music directory and a non-empty artist the directory is
      exactly `music_dir/artist/album`, the default being `./artist/album`. */
  lemma DirectoryLayout(musicDir: string, artist: string, album: string)
    requires musicDir != [] && !EndsWithSep(musicDir) && artist != []
    ensures Directory(musicDir, artist, album)
            == musicDir + "/" + Sanitize(artist) + "/" + Sanitize(album)
  {
    SanitizedIsOneComponent(artist);
    SanitizedIsOneComponent(album);
    var a := Sanitize(artist);
    assert !StartsWithSep(a) by { assert a[0] in a; }
    assert EndsWithSep(musicDir + "/" + a) == (a[|a| - 1] == '/') by {
      assert (musicDir + "/" + a)[|musicDir + "/" + a| - 1] == a[|a| - 1];
    }
    assert a[|a| - 1] in a;
  }

  /** An empty artist adds no directory level: `os.path.join` swallows the
      empty component. */
  lemma EmptyArtistCollapses(musicDir: string, album: string)
    ensures Directory(musicDir, "", album) == Join(musicDir, Sanitize(album))
  {
    assert Sanitize("") == "";
    var a := Sanitize(album);
    if musicDir != [] && !EndsWithSep(musicDir) {
      var m := musicDir + "/";
      assert Join(musicDir, "") == m;
      assert EndsWithSep(m);
      if !StartsWithSep(a) {
        assert Join(m, a) == m + a;
        assert Join(musicDir, a) == musicDir + "/" + a;
      }
    } else {
      assert Join(musicDir, "") == musicDir;
    }
  }

  /** Python truthiness of `song["track"]` once the key is present. */
  predicate Truthy(track: Option<int>) {
    track.Some? && track.value != 0
  }

  /** `"{:02} - ".format(track) if track else ""`; a song without a track
      number gets no prefix. */
  function TrackPrefix(track: Option<int>): (r: string)
    ensures r != [] <==> Truthy(track)
  {
    if Truthy(track) then Format02(track.value) + " - " else ""
  }

  /** A prefix ends with ` - `, and the text before it reads back as the
      track number. */
  lemma TrackPrefixDecodes(track: Option<int>)
    requires Truthy(track)
    ensures var r := TrackPrefix(track);
            && |r| >= 5 && r[|r| - 3..] == " - "
            && ParseInt(r[..|r| - 3]) == Some(track.value)
  {
    var f := Format02(track.value);
    Format02RoundTrip(track.value);
    assert (f + " - ")[..|f|] == f;
  }

  /** A track prefix holds no separator. */
  lemma TrackPrefixNoSeparator(track: Option<int>)
    ensures '/' !in TrackPrefix(track)
  {
    if Truthy(track) {
      var n := track.value;
      var f := Format02(n);
      if n < 0 {
        assert f == "-" + Digits(-n);
        assert forall i :: 0 <= i < |f| ==> f[i] == '-' || IsDigit(f[i]);
      } else {
        assert AllDigits(f);
      }
      assert TrackPrefix(track) == f + " - ";
    }
  }

  lemma ConcatSlices(p: string, t: string, e: string)
    ensures var r := p + t + e;
            && r[..|p|] == p && r[|p|..|r| - |e|] == t && r[|r| - |e|..] == e
  {
    var r := p + t + e;
    assert r == p + (t + e);
    assert r[|p|..] == t + e;
  }

  /** The file name `[NN - ]title.format`, title sanitised, format as configured. */
  function FileName(track: Option<int>, title: string, format: string): string {
    TrackPrefix(track) + Sanitize(title) + ("." + format)
  }

  /** The file name splits into the track prefix, the sanitised title (as
      long as the title) and the extension. */
  lemma FileNameParts(track: Option<int>, title: string, format: string)
    ensures var r := FileName(track, title, format);
            var k := |TrackPrefix(track)|;
            && |r| == k + |title| + 1 + |format|
            && r[..k] == TrackPrefix(track)
            && r[k..|r| - |format| - 1] == Sanitize(title)
            && r[|r| - |format| - 1..] == "." + format
  {
    ConcatSlices(TrackPrefix(track), Sanitize(title), "." + format);
  }

  /** A file name is never empty and never holds a separator other than
      those in the configured format. */
  lemma FileNameIsOneComponent(track: Option<int>, title: string, format: string)
    requires '/' !in format
    ensures FileName(track, title, format) != []
    ensures '/' !in FileName(track, title, format)
  {
    SanitizedIsOneComponent(title);
    TrackPrefixNoSeparator(track);
    assert FileName(track, title, format) == TrackPrefix(track) + Sanitize(title) + ("." + format);
  }

  /** The file path `os.path.join(directory, filename)`. */
  function FilePath(musicDir: string, song: Song, format: string): string {
    Join(Directory(musicDir, song.artist, song.album), FileName(song.track, song.title, format))
  }

  /** The file lands inside the song's directory and is named by `FileName`. */
  lemma FilePathLayout(musicDir: string, song: Song, format: string)
    ensures '/' !in format ==>
            var dir := Directory(musicDir, song.artist, song.album);
            var name := FileName(song.track, song.title, format);
            Basename(FilePath(musicDir, song, format)) == name
            && FilePath(musicDir, song, format)[..|dir|] == dir
  {
    if '/' !in format {
      var name := FileName(song.track, song.title, format);
      FileNameIsOneComponent(song.track, song.title, format);
      assert !StartsWithSep(name) by { assert name[0] in name; }
      JoinShape(Directory(musicDir, song.artist, song.album), name);
      BasenameJoin(Directory(musicDir, song.artist, song.album), name);
    }
  }

  // The file name as the script computes it: `song["track"]` raises
  // KeyError for a song record without a "track" entry.

  datatype MissingKey = MissingKey(key: string)

  function FileNameAsWritten(track: Option<int>, title: string, format: string): (r: Result<string, MissingKey>)
    ensures r.Failure? <==> track.None?
    ensures r.Success? ==> r.value == FileName(track, title, format)
  {
    if track.None? then Failure(MissingKey("track"))
    else Success((if track.value != 0 then Format02(track.value) + " - " else "") + Sanitize(title) + ("." + format))
  }

  /** A song without a track number aborts the download loop, although the
      `if song["track"] else ""` branch is written to give it no prefix. */
  lemma MissingTrackAborts()
    ensures FileNameAsWritten(None, "Intro", "mp3") == Failure(MissingKey("track"))
    ensures FileName(None, "Intro", "mp3") == "Intro.mp3"
  {
    SanitizeFixesExactlyLegal("Intro");
  }
}
