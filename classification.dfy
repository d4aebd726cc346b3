/**
 * Pull classification: a pull is a subtitle upload when it changes exactly one
 * file whose path starts with `subtitles/` and splits on `/` into exactly three
 * parts, i.e. `subtitles/<folder>/<name>`.
 */
module Classification {
  import opened Strings

  const SubtitlesRoot: string := "subtitles/"

  /** The path test of `isSubtitlePull`. */
  predicate IsSubtitlePath(path: string) {
    StartsWith(path, SubtitlesRoot) && |Split(path, '/')| == 3
  }

  /** `isSubtitlePull` on the pull's changed-file list. */
  predicate IsSubtitleChange(files: seq<string>) {
    |files| == 1 && IsSubtitlePath(files[0])
  }

  /** Every `subtitles/<folder>/<name>` with slash-free parts is a subtitle path. */
  lemma SubtitlePathIntro(folder: string, name: string)
    requires '/' !in folder && '/' !in name
    ensures IsSubtitlePath(SubtitlesRoot + folder + "/" + name)
  {
    var p := SubtitlesRoot + folder + "/" + name;
    assert p == "subtitles" + "/" + folder + "/" + name;
    assert p[..|SubtitlesRoot|] == SubtitlesRoot;
    CountAppend("subtitles" + "/" + folder + "/", name, '/');
    CountAppend("subtitles" + "/" + folder, "/", '/');
    CountAppend("subtitles" + "/", folder, '/');
    CountAppend("subtitles", "/", '/');
    CountAbsent("subtitles", '/');
    CountAbsent(folder, '/');
    CountAbsent(name, '/');
  }

  /** Conversely, a subtitle path is `subtitles/<folder>/<name>` with slash-free folder and name. */
  lemma SubtitlePathElim(path: string)
    requires IsSubtitlePath(path)
    ensures var parts := Split(path, '/');
      path == SubtitlesRoot + parts[1] + "/" + parts[2] && '/' !in parts[1] && '/' !in parts[2]
  {
    var parts := Split(path, '/');
    JoinSplit(path, '/');
    var tail := parts[1..];
    assert tail[1..] == [parts[2]];
    assert Join(tail, '/') == parts[1] + ['/'] + parts[2];
    assert path == parts[0] + ['/'] + Join(tail, '/');
    assert path == parts[0] + "/" + (parts[1] + "/" + parts[2]);
    var k := |parts[0]|;
    assert path[k] == '/';
    assert path[..k] == parts[0];
    assert path[9] == '/' by { assert path[..10] == SubtitlesRoot; }
    assert '/' !in path[..9] by { assert path[..9] == "subtitles"; }
    FindAt(path, '/', k);
    FindAt(path, '/', 9);
    assert parts[0] == "subtitles";
  }

  /** One file under a channel folder is an upload; example: `subtitles/foo/bar.srt`. */
  lemma SubtitleChangeAccepts(folder: string, name: string)
    requires '/' !in folder && '/' !in name
    ensures IsSubtitleChange([SubtitlesRoot + folder + "/" + name])
    ensures IsSubtitleChange(["subtitles/foo/bar.srt"])
  {
    SubtitlePathIntro(folder, name);
    SubtitlePathIntro("foo", "bar.srt");
    assert "subtitles/foo/bar.srt" == SubtitlesRoot + "foo" + "/" + "bar.srt";
  }

  /** A file directly inside `subtitles/` (no channel folder) is not a subtitle path. */
  lemma SubtitlePathNeedsFolder(name: string)
    requires '/' !in name
    ensures !IsSubtitlePath(SubtitlesRoot + name)
  {
    var p := SubtitlesRoot + name;
    assert p == "subtitles" + "/" + name;
    CountAppend("subtitles" + "/", name, '/');
    CountAppend("subtitles", "/", '/');
    CountAbsent("subtitles", '/');
    CountAbsent(name, '/');
  }

  /** A path outside `subtitles/`, a file directly in `subtitles/`, no file or two files are not uploads. */
  lemma SubtitleChangeRejects()
    ensures !IsSubtitleChange(["foo/bar.srt"])
    ensures !IsSubtitleChange(["subtitles/bar.srt"])
    ensures !IsSubtitleChange([])
    ensures !IsSubtitleChange(["subtitles/foo/bar.srt", "subtitles/foo/baz.srt"])
  {
    assert "foo/bar.srt"[0] == 'f';
    SubtitlePathNeedsFolder("bar.srt");
    assert "subtitles/bar.srt" == SubtitlesRoot + "bar.srt";
  }
}
