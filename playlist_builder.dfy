/**
 * Scanning a directory for `.webm` files and writing them to a playlist
 * (randomvideoplayer/playlist_builder.py). The directory tree is given as a
 * value; the order of `entries` is the order in which the host lists a
 * directory, which the model takes as given and nothing relies on.
 */
module PlaylistBuilder {
  import opened Wrappers
  import opened Paths
  import opened Text

  /** One directory entry. `Special` is anything that is neither a regular file
      nor a directory (a FIFO, a socket, a device). */
  datatype Entry =
    | File(name: string)
    | Dir(name: string, children: seq<Entry>)
    | Special(name: string)

  /** `name.lower().endswith('.webm')`. */
  predicate IsWebmName(name: string) {
    EndsWith(Lower(name), ".webm")
  }

  /** The match ignores case: names that differ only in the case of ASCII letters
      are matched alike. */
  lemma WebmNameIgnoresCase(name1: string, name2: string)
    requires Lower(name1) == Lower(name2)
    ensures IsWebmName(name1) == IsWebmName(name2)
  {
  }

  /** A name matches exactly when its last five characters spell ".webm" in
      any mixture of cases, so "CLIP.WebM" matches. */
  lemma {:induction false} WebmNameByLastFive(name: string)
    ensures IsWebmName(name) <==>
              |name| >= 5 && forall k :: 0 <= k < 5 ==> LowerChar(name[|name| - 5 + k]) == ".webm"[k]
  {
    var l := Lower(name);
    LowerShape(name);
    if |name| >= 5 {
      var tail := l[|l| - 5..];
      assert (forall k :: 0 <= k < 5 ==> LowerChar(name[|name| - 5 + k]) == ".webm"[k]) ==> tail == ".webm" by {
        if forall k :: 0 <= k < 5 ==> LowerChar(name[|name| - 5 + k]) == ".webm"[k] {
          assert forall k :: 0 <= k < 5 ==> tail[k] == ".webm"[k];
        }
      }
    }
  }

  // ---------------------------------------------------------------------------
  // Non-recursive scan: `os.scandir(directory)`, regular files only.

  /** Files directly in `directory` whose names match, in listing order. */
  function DirectWebm(directory: Path, entries: seq<Entry>): seq<Path> {
    if entries == [] then []
    else
      (if entries[0].File? && IsWebmName(entries[0].name) then [Join(directory, entries[0].name)] else [])
      + DirectWebm(directory, entries[1..])
  }

  /** The non-recursive scan yields exactly `directory / name` for the regular
      files of `directory` whose names match. */
  lemma {:induction false} DirectWebmMembers(directory: Path, entries: seq<Entry>, p: Path)
    ensures p in DirectWebm(directory, entries) <==>
              exists i :: 0 <= i < |entries| && entries[i].File? && IsWebmName(entries[i].name)
                                             && p == Join(directory, entries[i].name)
  {
    if entries != [] {
      var rest := entries[1..];
      DirectWebmMembers(directory, rest, p);
      var head := if entries[0].File? && IsWebmName(entries[0].name) then [Join(directory, entries[0].name)] else [];
      assert DirectWebm(directory, entries) == head + DirectWebm(directory, rest);
      if p in DirectWebm(directory, rest) {
        var i :| 0 <= i < |rest| && rest[i].File? && IsWebmName(rest[i].name) && p == Join(directory, rest[i].name);
        assert entries[i + 1] == rest[i];
      }
      if exists i :: 0 <= i < |entries| && entries[i].File? && IsWebmName(entries[i].name) && p == Join(directory, entries[i].name) {
        var i :| 0 <= i < |entries| && entries[i].File? && IsWebmName(entries[i].name) && p == Join(directory, entries[i].name);
        if i > 0 {
          assert rest[i - 1] == entries[i];
        }
      }
    }
  }


  // ---------------------------------------------------------------------------
  // Recursive scan: `os.walk(directory)`, top-down. Every entry that is not a
  // directory lands in the walk's `files` list, so special files match too.

  /** The matching non-directory entries of one directory, as `root / name`. */
  function MatchingHere(root: Path, entries: seq<Entry>): seq<Path> {
    if entries == [] then []
    else
      (if !entries[0].Dir? && IsWebmName(entries[0].name) then [Join(root, entries[0].name)] else [])
      + MatchingHere(root, entries[1..])
  }

  /** What the walk yields below `root`: this directory's matches, then those of
      each subdirectory in turn. */
  function WalkWebm(root: Path, entries: seq<Entry>): seq<Path>
    decreases entries, 1
  {
    MatchingHere(root, entries) + WalkSubdirs(root, entries)
  }

  function WalkSubdirs(root: Path, entries: seq<Entry>): seq<Path>
    decreases entries, 0
  {
    if entries == [] then []
    else
      (if entries[0].Dir? then WalkWebm(Join(root, entries[0].name), entries[0].children) else [])
      + WalkSubdirs(root, entries[1..])
  }

  /** `rel` names a non-directory entry somewhere below `entries`: a chain of
      subdirectory names ending in the entry's own name. */
  ghost predicate Located(entries: seq<Entry>, rel: seq<string>)
    decreases rel
  {
    if |rel| == 0 then false
    else if |rel| == 1 then exists i :: 0 <= i < |entries| && !entries[i].Dir? && entries[i].name == rel[0]
    else exists i :: 0 <= i < |entries| && entries[i].Dir? && entries[i].name == rel[0]
                                        && Located(entries[i].children, rel[1..])
  }

  /** `p` lies below `root`, names an entry of the tree, and that name matches. */
  ghost predicate WebmBelow(root: Path, entries: seq<Entry>, p: Path) {
    |root| < |p| && p[..|root|] == root && Located(entries, p[|root|..]) && IsWebmName(p[|p| - 1])
  }

  lemma {:induction false} MatchingHereMembers(root: Path, entries: seq<Entry>, p: Path)
    ensures p in MatchingHere(root, entries) <==>
              exists i :: 0 <= i < |entries| && !entries[i].Dir? && IsWebmName(entries[i].name)
                                             && p == Join(root, entries[i].name)
  {
    if entries != [] {
      var rest := entries[1..];
      MatchingHereMembers(root, rest, p);
      var head := if !entries[0].Dir? && IsWebmName(entries[0].name) then [Join(root, entries[0].name)] else [];
      assert MatchingHere(root, entries) == head + MatchingHere(root, rest);
      if p in MatchingHere(root, rest) {
        var i :| 0 <= i < |rest| && !rest[i].Dir? && IsWebmName(rest[i].name) && p == Join(root, rest[i].name);
        assert entries[i + 1] == rest[i];
      }
      if exists i :: 0 <= i < |entries| && !entries[i].Dir? && IsWebmName(entries[i].name) && p == Join(root, entries[i].name) {
        var i :| 0 <= i < |entries| && !entries[i].Dir? && IsWebmName(entries[i].name) && p == Join(root, entries[i].name);
        if i > 0 {
          assert rest[i - 1] == entries[i];
        }
      }
    }
  }

  /** Soundness and completeness of the recursive scan: it yields a path exactly
      when the path names a matching non-directory entry at some depth. */
  lemma {:induction false} WalkWebmMembers(root: Path, entries: seq<Entry>, p: Path)
    ensures p in WalkWebm(root, entries) <==> WebmBelow(root, entries, p)
    decreases entries, 1
  {
    MatchingHereMembers(root, entries, p);
    WalkSubdirsMembers(root, entries, p);
    var rel := if |root| <= |p| then p[|root|..] else [];
    if |root| < |p| && p[..|root|] == root && |rel| == 1 {
      assert p == Join(root, rel[0]);
    }
    if exists i :: 0 <= i < |entries| && !entries[i].Dir? && IsWebmName(entries[i].name)
                                      && p == Join(root, entries[i].name) {
      var i :| 0 <= i < |entries| && !entries[i].Dir? && IsWebmName(entries[i].name)
                                  && p == Join(root, entries[i].name);
      assert rel == [entries[i].name];
    }
  }

  /** The subdirectory part of the walk yields the matches two or more levels
      down, and nothing else. */
  lemma {:induction false} WalkSubdirsMembers(root: Path, entries: seq<Entry>, p: Path)
    ensures p in WalkSubdirs(root, entries) <==> WebmBelow(root, entries, p) && |p| > |root| + 1
    decreases entries, 0
  {
    if entries == [] {
      return;
    }
    var e := entries[0];
    WalkSubdirsMembers(root, entries[1..], p);
    var here := if e.Dir? then WalkWebm(Join(root, e.name), e.children) else [];
    assert WalkSubdirs(root, entries) == here + WalkSubdirs(root, entries[1..]);
    if e.Dir? {
      WalkWebmMembers(Join(root, e.name), e.children, p);
    }
    if |p| > |root| + 1 {
      BelowFirstOrRest(root, entries, p);
    }
  }

  /** A match two or more levels down lies below the first entry, which is then
      a directory, or below one of the others. */
  lemma BelowFirstOrRest(root: Path, entries: seq<Entry>, p: Path)
    requires entries != [] && |p| > |root| + 1
    ensures WebmBelow(root, entries, p) <==>
              || WebmBelow(root, entries[1..], p)
              || (entries[0].Dir? && WebmBelow(Join(root, entries[0].name), entries[0].children, p))
  {
    var e := entries[0];
    var rest := entries[1..];
    var rel := p[|root|..];
    var sub := Join(root, e.name);
    assert |sub| == |root| + 1;
    if p[..|root|] == root {
      assert p[..|sub|] == root + [rel[0]] by {
        assert p[..|sub|] == p[..|root|] + [p[|root|]];
      }
      assert p[|sub|..] == rel[1..];
    } else {
      assert p[..|sub|] != sub by {
        assert p[..|sub|][..|root|] == p[..|root|];
      }
    }
    if WebmBelow(root, rest, p) {
      var i :| 0 <= i < |rest| && rest[i].Dir? && rest[i].name == rel[0] && Located(rest[i].children, rel[1..]);
      assert entries[i + 1] == rest[i];
    }
    if WebmBelow(root, entries, p) {
      var i :| 0 <= i < |entries| && entries[i].Dir? && entries[i].name == rel[0]
                                  && Located(entries[i].children, rel[1..]);
      if i > 0 {
        assert rest[i - 1] == entries[i];
      }
    }
  }

  /** The paths `iter_webm_files(directory, recursive)` yields. */
  function WebmFiles(directory: Path, entries: seq<Entry>, recursive: bool): seq<Path> {
    if recursive then WalkWebm(directory, entries) else DirectWebm(directory, entries)
  }

  /** The `files` half of one `os.walk` step: the matching non-directory
      entries of one listing, as `root / name`, in listing order. */
  method MatchingFiles(root: Path, entries: seq<Entry>) returns (found: seq<Path>)
    ensures found == MatchingHere(root, entries)
  {
    found := [];
    for i := 0 to |entries|
      invariant found + MatchingHere(root, entries[i..]) == MatchingHere(root, entries)
    {
      var entry := entries[i];
      assert entries[i..][1..] == entries[i + 1..];
      if !entry.Dir? && IsWebmName(entry.name) {
        found := found + [Join(root, entry.name)];
      }
    }
    assert entries[|entries|..] == [];
  }

  /** `os.walk` below `root`, top-down: the matches of this directory, then the
      walk of each subdirectory in listing order. */
  method Walk(root: Path, entries: seq<Entry>) returns (found: seq<Path>)
    ensures found == WalkWebm(root, entries)
    decreases entries
  {
    found := MatchingFiles(root, entries);
    for j := 0 to |entries|
      invariant found + WalkSubdirs(root, entries[j..]) == WalkWebm(root, entries)
    {
      var entry := entries[j];
      assert entries[j..][1..] == entries[j + 1..];
      ghost var later := WalkSubdirs(root, entries[j + 1..]);
      if entry.Dir? {
        var below := Walk(Join(root, entry.name), entry.children);
        assert WalkSubdirs(root, entries[j..]) == below + later;
        assert found + (below + later) == (found + below) + later;
        found := found + below;
      } else {
        assert WalkSubdirs(root, entries[j..]) == later;
      }
    }
    assert entries[|entries|..] == [];
  }

  /** `iter_webm_files(directory, recursive)`, given the tree below `directory`. */
  method IterWebmFiles(directory: Path, entries: seq<Entry>, recursive: bool) returns (files: seq<Path>)
    ensures files == WebmFiles(directory, entries, recursive)
  {
    if recursive {
      files := Walk(directory, entries);
    } else {
      files := [];
      for i := 0 to |entries|
        invariant files + DirectWebm(directory, entries[i..]) == DirectWebm(directory, entries)
      {
        var entry := entries[i];
        assert entries[i..][1..] == entries[i + 1..];
        if entry.File? && IsWebmName(entry.name) {
          files := files + [Join(directory, entry.name)];
        }
      }
      assert entries[|entries|..] == [];
    }
  }

  // ---------------------------------------------------------------------------
  // The playlist file.

  /** One playlist line: the resolved POSIX form of the path and a newline.
      `normalise` stands for `Path.resolve().as_posix()`. */
  function PlaylistLine(p: Path, normalise: Path -> string): string {
    normalise(p) + "\n"
  }

  /** The whole text of a playlist holding `files`, one line per file, in order. */
  function PlaylistText(files: seq<Path>, normalise: Path -> string): string {
    if files == [] then "" else PlaylistLine(files[0], normalise) + PlaylistText(files[1..], normalise)
  }

  /** The normalised form of every file, in order. */
  function Normalised(files: seq<Path>, normalise: Path -> string): seq<string> {
    seq(|files|, i requires 0 <= i < |files| => normalise(files[i]))
  }

  predicate NoNewlines(lines: seq<string>) {
    forall i :: 0 <= i < |lines| ==> '\n' !in lines[i]
  }

  /** The length of the first line of `s`, without its newline. */
  function LineEnd(s: string): (k: nat)
    ensures k <= |s| && '\n' !in s[..k]
    ensures k < |s| ==> s[k] == '\n'
  {
    if s == [] || s[0] == '\n' then 0
    else
      var k := 1 + LineEnd(s[1..]);
      assert s[..k] == [s[0]] + s[1..][..k - 1];
      k
  }

  lemma {:induction false} FirstLineEnd(first: string, rest: string)
    requires '\n' !in first
    ensures LineEnd(first + "\n" + rest) == |first|
  {
    if first != [] {
      assert (first + "\n" + rest)[1..] == first[1..] + "\n" + rest;
      FirstLineEnd(first[1..], rest);
    }
  }

  /** Reading a text back line by line, each line without its newline. */
  function ReadLines(s: string): seq<string>
    decreases |s|
  {
    if s == [] then []
    else
      var k := LineEnd(s);
      [s[..k]] + (if k < |s| then ReadLines(s[k + 1..]) else [])
  }

  /** Reading the playlist back gives the normalised files, one per line, in
      order, provided no normalised path itself contains a newline. */
  lemma {:induction false} PlaylistReadBack(files: seq<Path>, normalise: Path -> string)
    requires NoNewlines(Normalised(files, normalise))
    ensures ReadLines(PlaylistText(files, normalise)) == Normalised(files, normalise)
  {
    if files != [] {
      var first := normalise(files[0]);
      var text := PlaylistText(files, normalise);
      var rest := PlaylistText(files[1..], normalise);
      assert Normalised(files, normalise)[0] == first;
      assert text == first + "\n" + rest;
      FirstLineEnd(first, rest);
      assert text[..|first|] == first;
      assert text[|first| + 1..] == rest;
      assert Normalised(files[1..], normalise) == Normalised(files, normalise)[1..];
      PlaylistReadBack(files[1..], normalise);
    }
  }

  /** The playlist holds exactly one newline per file, provided no normalised
      path contains one. */
  lemma {:induction false} PlaylistNewlines(files: seq<Path>, normalise: Path -> string)
    requires NoNewlines(Normalised(files, normalise))
    ensures multiset(PlaylistText(files, normalise))['\n'] == |files|
  {
    if files != [] {
      var first := normalise(files[0]);
      assert Normalised(files, normalise)[0] == first;
      assert multiset(first)['\n'] == 0;
      assert Normalised(files[1..], normalise) == Normalised(files, normalise)[1..];
      PlaylistNewlines(files[1..], normalise);
      assert PlaylistText(files, normalise) == first + "\n" + PlaylistText(files[1..], normalise);
    }
  }

  /** What writing a playlist produced: the entry count and the new file text,
      or the error raised while creating or opening the file. */
  datatype WriteOutcome =
    | Written(count: nat, text: string)
    | WriteFailed(message: string)

  /** What `write_playlist_file` sends to its logger. */
  datatype WriteNote =
    | BuildingAt(playlistPath: Path)
    | WrittenTo(playlistPath: Path, count: nat)

  /** The line the logger records for a note. */
  function NoteText(note: WriteNote): string {
    match note
    case BuildingAt(p) => "Building playlist at " + PathText(p)
    case WrittenTo(p, count) => Concat(["Playlist written to ", PathText(p), " with ", NatToString(count), " entries"])
  }

  /** `write_playlist_file(files, playlistPath, logger)`. `openError` is the
      error, if any, that creating the parent directory or opening the file
      raises; `hasLogger` says whether a logger was passed, and `logged` is
      what was sent to it, in order. The file is opened with 'w', so the new
      text does not depend on what the file held before. */
  method WritePlaylistFile(files: seq<Path>, playlistPath: Path, normalise: Path -> string,
                           openError: Option<string>, hasLogger: bool)
    returns (outcome: WriteOutcome, logged: seq<WriteNote>)
    ensures openError.Some? ==> outcome == WriteFailed(openError.value)
    ensures openError.None? ==> outcome == Written(|files|, PlaylistText(files, normalise))
    ensures !hasLogger ==> logged == []
    ensures hasLogger && outcome.WriteFailed? ==> logged == [BuildingAt(playlistPath)]
    ensures hasLogger && outcome.Written? ==>
              logged == [BuildingAt(playlistPath), WrittenTo(playlistPath, outcome.count)]
  {
    logged := [];
    if hasLogger {
      logged := logged + [BuildingAt(playlistPath)];
    }
    if openError.Some? {
      return WriteFailed(openError.value), logged;
    }
    var count := 0;
    var text := "";
    for i := 0 to |files|
      invariant count == i
      invariant text + PlaylistText(files[i..], normalise) == PlaylistText(files, normalise)
    {
      assert files[i..][1..] == files[i + 1..];
      text := text + normalise(files[i]) + "\n";
      count := count + 1;
    }
    assert files[|files|..] == [];
    if hasLogger {
      logged := logged + [WrittenTo(playlistPath, count)];
    }
    outcome := Written(count, text);
  }
}
