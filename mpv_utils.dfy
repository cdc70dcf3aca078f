/**
 * Locating the mpv executable and building its command line
 * (randomvideoplayer/mpv_utils.py). The host's file system is reached only
 * through three oracles: `expandUser` (`Path(s).expanduser()`), `isFile`
 * (`Path.is_file()`) and `which` (`shutil.which`).
 */
module MpvUtils {
  import opened Wrappers
  import opened Paths
  import opened Text

  /** The two `FileNotFoundError`s `find_mpv_executable` can raise. */
  datatype NotFound =
    | NotFoundAt(attempted: Path)   // the explicit path is not a file
    | NotOnPath                     // no candidate name is on PATH

  function NotFoundMessage(e: NotFound): string {
    match e
    case NotFoundAt(p) => Concat(["mpv executable not found at \"", PathText(p), "\""])
    case NotOnPath => "mpv executable not found. Put mpv in PATH or set an explicit path."
  }

  /** The executable names looked up on PATH, in order. */
  const Candidates: seq<string> := ["mpv", "mpv.exe"]

  /** What `which` answers for the first name it finds, if it finds any. */
  function FirstOnPath(names: seq<string>, which: string -> Option<string>): Option<string> {
    if names == [] then None
    else if which(names[0]).Some? then which(names[0])
    else FirstOnPath(names[1..], which)
  }

  /** The search finds nothing exactly when no name is on PATH, and what it
      finds is the answer for a name all of whose predecessors are missing. */
  lemma {:induction false} FirstOnPathMeaning(names: seq<string>, which: string -> Option<string>)
    ensures var r := FirstOnPath(names, which);
      && (r.None? <==> forall i :: 0 <= i < |names| ==> which(names[i]).None?)
      && (r.Some? ==> exists i :: 0 <= i < |names| && which(names[i]) == r &&
                                  forall j :: 0 <= j < i ==> which(names[j]).None?)
    decreases |names|
  {
    if names != [] && which(names[0]).None? {
      FirstOnPathMeaning(names[1..], which);
      assert forall j :: 1 <= j < |names| ==> names[j] == names[1..][j - 1];
      var r := FirstOnPath(names, which);
      if r.Some? {
        var i :| 0 <= i < |names[1..]| && which(names[1..][i]) == r &&
                 forall j :: 0 <= j < i ==> which(names[1..][j]).None?;
        assert which(names[i + 1]) == r;
      }
    }
  }

  /** Python truthiness of the optional explicit path: `None` and `''` are false. */
  predicate HasExplicitPath(explicitPath: Option<string>) {
    explicitPath.Some? && explicitPath.value != ""
  }

  /** The result of `find_mpv_executable(explicitPath)`: an explicit path wins
      (and PATH is then never consulted); otherwise the first candidate that
      `which` finds; otherwise `NotOnPath`. */
  function MpvResolution(explicitPath: Option<string>, expandUser: string -> Path,
                         isFile: Path -> bool, which: string -> Option<string>): Result<string, NotFound>
  {
    if HasExplicitPath(explicitPath) then
      var p := expandUser(explicitPath.value);
      if isFile(p) then Success(PathText(p)) else Failure(NotFoundAt(p))
    else
      match FirstOnPath(Candidates, which)
      case Some(found) => Success(found)
      case None => Failure(NotOnPath)
  }

  /** Without an explicit path, the lookup fails exactly when no candidate is
      on PATH, and then says so; when it succeeds, the answer is PATH's for the
      first candidate found. */
  lemma MpvResolutionSearch(explicitPath: Option<string>, expandUser: string -> Path,
                            isFile: Path -> bool, which: string -> Option<string>)
    requires !HasExplicitPath(explicitPath)
    ensures var r := MpvResolution(explicitPath, expandUser, isFile, which);
      && (r.Failure? <==> forall i :: 0 <= i < |Candidates| ==> which(Candidates[i]).None?)
      && (r.Failure? ==> r.error == NotOnPath)
      && (r.Success? ==> exists i :: 0 <= i < |Candidates| && which(Candidates[i]) == Some(r.value) &&
                                     forall j :: 0 <= j < i ==> which(Candidates[j]).None?)
  {
    FirstOnPathMeaning(Candidates, which);
  }

  /** FirstOnPath skips a prefix of names that `which` does not find. */
  lemma {:induction false} FirstOnPathSkips(names: seq<string>, which: string -> Option<string>, k: nat)
    requires k <= |names|
    requires forall j :: 0 <= j < k ==> which(names[j]).None?
    ensures FirstOnPath(names, which) == FirstOnPath(names[k..], which)
  {
    if k > 0 {
      assert names[1..][k - 1..] == names[k..];
      FirstOnPathSkips(names[1..], which, k - 1);
    }
  }

  /** `find_mpv_executable`: the explicit path if given, else a search of the
      candidate names that stops at the first hit. */
  method FindMpvExecutable(explicitPath: Option<string>, expandUser: string -> Path,
                           isFile: Path -> bool, which: string -> Option<string>)
    returns (r: Result<string, NotFound>)
    ensures r == MpvResolution(explicitPath, expandUser, isFile, which)
  {
    if explicitPath.Some? && explicitPath.value != "" {
      var p := expandUser(explicitPath.value);
      if isFile(p) {
        return Success(PathText(p));
      }
      return Failure(NotFoundAt(p));
    }
    var candidates := Candidates;
    for i := 0 to |candidates|
      invariant forall j :: 0 <= j < i ==> which(candidates[j]).None?
    {
      var found := which(candidates[i]);
      if found.Some? {
        FirstOnPathSkips(candidates, which, i);
        return Success(found.value);
      }
    }
    FirstOnPathSkips(candidates, which, |candidates|);
    return Failure(NotOnPath);
  }

  /** With an explicit path, the answer does not depend on PATH at all. */
  lemma ExplicitPathIgnoresPath(explicitPath: string, expandUser: string -> Path, isFile: Path -> bool,
                                which1: string -> Option<string>, which2: string -> Option<string>)
    requires explicitPath != ""
    ensures MpvResolution(Some(explicitPath), expandUser, isFile, which1)
         == MpvResolution(Some(explicitPath), expandUser, isFile, which2)
  {
  }

  /** An empty explicit path behaves as no explicit path. */
  lemma EmptyExplicitPathSearchesPath(expandUser: string -> Path, isFile: Path -> bool,
                                      which: string -> Option<string>)
    ensures MpvResolution(Some(""), expandUser, isFile, which) == MpvResolution(None, expandUser, isFile, which)
  {
  }

  const CacheFlags: seq<string> :=
    ["--prefetch-playlist=yes", "--cache=yes", "--cache-secs=10", "--demuxer-readahead-secs=10"]

  function PlaylistFlag(playlistPath: Path, normalise: Path -> string): string {
    "--playlist=" + normalise(playlistPath)
  }

  function Flag(on: bool, flag: string): seq<string> {
    if on then [flag] else []
  }

  /** The argument vector `build_mpv_command` returns. `normalise` stands for
      `Path.resolve().as_posix()`. */
  function MpvCommand(mpvExecutable: string, playlistPath: Path, normalise: Path -> string,
                      fullscreen: bool, loopPlaylist: bool, shuffle: bool): (cmd: seq<string>)
  {
    [mpvExecutable, PlaylistFlag(playlistPath, normalise)]
      + Flag(shuffle, "--shuffle") + Flag(loopPlaylist, "--loop-playlist=inf")
      + CacheFlags
      + Flag(fullscreen, "--fs")
  }

  function Count(b: bool): nat { if b then 1 else 0 }

  /** The layout of the command: executable, playlist, the shuffle and loop
      flags exactly when asked for, the four cache flags together and in order,
      and `--fs`, when asked for, last. */
  lemma {:induction false} MpvCommandLayout(mpvExecutable: string, playlistPath: Path, normalise: Path -> string,
                                            fullscreen: bool, loopPlaylist: bool, shuffle: bool)
    ensures var cmd := MpvCommand(mpvExecutable, playlistPath, normalise, fullscreen, loopPlaylist, shuffle);
            var k := 2 + Count(shuffle) + Count(loopPlaylist);
            && |cmd| == 6 + Count(shuffle) + Count(loopPlaylist) + Count(fullscreen)
            && cmd[0] == mpvExecutable
            && cmd[1] == "--playlist=" + normalise(playlistPath)
            && ("--shuffle" in cmd[1..] <==> shuffle)
            && ("--loop-playlist=inf" in cmd[1..] <==> loopPlaylist)
            && ("--fs" in cmd[1..] <==> fullscreen)
            && (shuffle ==> cmd[2] == "--shuffle")
            && (loopPlaylist ==> cmd[k - 1] == "--loop-playlist=inf")
            && cmd[k..k + 4] == CacheFlags
            && (fullscreen ==> cmd[|cmd| - 1] == "--fs")
            && (!fullscreen ==> cmd[|cmd| - 1] == "--demuxer-readahead-secs=10")
  {
    var cmd := MpvCommand(mpvExecutable, playlistPath, normalise, fullscreen, loopPlaylist, shuffle);
    var pl := PlaylistFlag(playlistPath, normalise);
    assert pl[..11] == "--playlist=";
    assert pl != "--shuffle" && pl != "--fs" by { assert |pl| >= 11; }
    assert pl != "--loop-playlist=inf" by { assert pl[2] == 'p'; }
    var k := 2 + Count(shuffle) + Count(loopPlaylist);
    assert cmd[1..] == [pl] + Flag(shuffle, "--shuffle") + Flag(loopPlaylist, "--loop-playlist=inf")
                        + CacheFlags + Flag(fullscreen, "--fs");
  }

  /** `build_mpv_command`: grows the argument list one `append` at a time. */
  method BuildMpvCommand(mpvExecutable: string, playlistPath: Path, normalise: Path -> string,
                         fullscreen: bool, loopPlaylist: bool, shuffle: bool)
    returns (cmd: seq<string>)
    ensures cmd == MpvCommand(mpvExecutable, playlistPath, normalise, fullscreen, loopPlaylist, shuffle)
  {
    cmd := [mpvExecutable];
    cmd := cmd + ["--playlist=" + normalise(playlistPath)];
    if shuffle {
      cmd := cmd + ["--shuffle"];
    }
    if loopPlaylist {
      cmd := cmd + ["--loop-playlist=inf"];
    }
    ghost var flagged := cmd;
    assert flagged == [mpvExecutable, PlaylistFlag(playlistPath, normalise)]
                      + Flag(shuffle, "--shuffle") + Flag(loopPlaylist, "--loop-playlist=inf");
    cmd := cmd + ["--prefetch-playlist=yes"];
    cmd := cmd + ["--cache=yes"];
    cmd := cmd + ["--cache-secs=10"];
    cmd := cmd + ["--demuxer-readahead-secs=10"];
    assert cmd == flagged + CacheFlags;
    ghost var cached := cmd;
    if fullscreen {
      cmd := cmd + ["--fs"];
    }
    assert cmd == cached + Flag(fullscreen, "--fs");
  }

  /** The two extreme cases written out in full. */
  lemma MpvCommandAllFlags(exe: string, playlistPath: Path, normalise: Path -> string)
    ensures MpvCommand(exe, playlistPath, normalise, true, true, true)
         == [exe, "--playlist=" + normalise(playlistPath), "--shuffle", "--loop-playlist=inf",
             "--prefetch-playlist=yes", "--cache=yes", "--cache-secs=10", "--demuxer-readahead-secs=10", "--fs"]
    ensures MpvCommand(exe, playlistPath, normalise, false, false, false)
         == [exe, "--playlist=" + normalise(playlistPath),
             "--prefetch-playlist=yes", "--cache=yes", "--cache-secs=10", "--demuxer-readahead-secs=10"]
  {
  }
}
