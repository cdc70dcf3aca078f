/**
 * The playback controller of the desktop front end (randomvideoplayer/gui.py):
 * the one-live-process state machine around `mpv_process` and the reader that
 * classifies mpv's output lines into the application log and the playback log.
 * Widgets, dialogs, the subprocess and the reader thread are not modelled; the
 * host is a record of oracles and a spawned process is given by its output
 * lines and exit code.
 */
module Gui {
  import opened Wrappers
  import opened Paths
  import opened Text
  import MpvUtils
  import opened PlaylistBuilder

  /** The settings record the form is read into and that is persisted. */
  datatype AppConfig = AppConfig(
    directory: string,
    recursive: bool,
    fullscreen: bool,
    loopPlaylist: bool,
    shuffle: bool,
    playlistPath: string,
    mpvPath: string,
    loggingEnabled: bool,
    loggingPath: string,
    playbackLogEnabled: bool,
    playbackLogPath: string)

  /** A spawned player: its merged stdout/stderr lines and the code `wait()` returns. */
  datatype Process = Process(pid: nat, output: seq<string>, exitCode: int)

  /** What the controller asks of its host. `expandUser` is
      `Path(s).expanduser()`, `listing` gives the tree below a directory,
      `normalise` is `resolve().as_posix()`, `openError` is the error (if any)
      that preparing a playlist file raises, and `spawn` starts mpv or says why
      it could not. */
  datatype Host = Host(
    expandUser: string -> Path,
    isDir: Path -> bool,
    isFile: Path -> bool,
    which: string -> Option<string>,
    listing: Path -> seq<Entry>,
    normalise: Path -> string,
    openError: Path -> Option<string>,
    spawn: seq<string> -> Result<Process, string>)

  /** How a start request ended; every outcome but `Started` is the dialog the
      user is shown. */
  datatype StartOutcome =
    | AlreadyRunning
    | NotADirectory
    | ExecutableNotFound
    | PlaylistFailed
    | NoWebmFiles
    | SpawnFailed
    | Started

  /** A log sink: messages reach it only while it is open. */
  function Appended<T>(log: seq<T>, open: bool, messages: seq<T>): seq<T> {
    if open then log + messages else log
  }

  /** Two batches written to a sink land as one batch would. */
  lemma AppendedTwice<T>(log: seq<T>, open: bool, first: seq<T>, second: seq<T>)
    ensures Appended(Appended(log, open, first), open, second) == Appended(log, open, first + second)
  {
    if open {
      assert (log + first) + second == log + (first + second);
    }
  }

  /** The status line's texts. */
  datatype Status = Idle | BuildingPlaylist | LaunchingWith(count: nat) | Running | Exited

  function StatusText(s: Status): string {
    match s
    case Idle => "Idle"
    case BuildingPlaylist => "Building playlist..."
    case LaunchingWith(count) => Concat(["Starting mpv with ", NatToString(count), " files..."])
    case Running => "mpv running"
    case Exited => "mpv exited"
  }

  /** A record of the application log; `EntryText` is the line written for it. */
  datatype LogEntry =
    | StartRequested(directory: Path, form: AppConfig)
    | LookupFailed(error: MpvUtils.NotFound)
    | StatusShown(shown: Status)
    | PlaylistNote(note: WriteNote)
    | WriteError(message: string)
    | Launching(mpvExecutable: string, playlistPath: Path, count: nat)
    | SpawnError(message: string)
    | MpvLine(line: string)
    | MpvExited(code: int)
    | StopRequested

  function EntryText(e: LogEntry): string {
    match e
    case StartRequested(directory, form) =>
      Concat(["Start playback with dir=", PathText(directory),
              ", recursive=", BoolText(form.recursive), ", fullscreen=", BoolText(form.fullscreen),
              ", loop=", BoolText(form.loopPlaylist), ", shuffle=", BoolText(form.shuffle)])
    case LookupFailed(error) => MpvUtils.NotFoundMessage(error)
    case StatusShown(shown) => StatusText(shown)
    case PlaylistNote(note) => NoteText(note)
    case WriteError(message) => "Failed to write playlist: " + message
    case Launching(mpvExecutable, playlistPath, count) =>
      Concat(["Starting mpv: exe=", mpvExecutable, ", playlist=", PathText(playlistPath),
              ", count=", NatToString(count)])
    case SpawnError(message) => "Failed to start mpv: " + message
    case MpvLine(line) => "mpv: " + line
    case MpvExited(code) => Concat(["mpv exited with code ", IntToString(code)])
    case StopRequested => "Stop playback requested by user"
  }

  // ---------------------------------------------------------------------------
  // Classifying the player's output.

  const PlayingPrefix: string := "Playing: "

  /** The error heuristic: "error" or "failed" anywhere, ignoring case. */
  predicate ReportsError(line: string) {
    Contains(Lower(line), "error") || Contains(Lower(line), "failed")
  }

  /** What one output line adds to the application log and to the playback log. */
  datatype LineEvents = LineEvents(appEntry: Option<LogEntry>, nowPlaying: Option<string>)

  /** One iteration of the reader loop: strip, skip blank lines, then two
      independent checks. */
  function ClassifyLine(raw: string): LineEvents {
    var line := Strip(raw);
    if line == "" then LineEvents(None, None)
    else
      LineEvents(
        if ReportsError(line) then Some(MpvLine(line)) else None,
        if StartsWith(line, PlayingPrefix) then Some(Strip(line[|PlayingPrefix|..])) else None)
  }

  function AsSeq<T>(o: Option<T>): seq<T> {
    if o.Some? then [o.value] else []
  }

  /** A blank line produces no event at all. */
  lemma BlankLineIgnored(raw: string)
    requires AllSpace(raw)
    ensures ClassifyLine(raw) == LineEvents(None, None)
  {
    StripShape(raw);
  }

  /** A line produces an application-log entry exactly when, once stripped, it is
      not blank and "error" or "failed" occurs in it in any case; the entry is
      the stripped line, which the log writes after "mpv: ". */
  lemma {:induction false} ErrorLineLogged(raw: string)
    ensures var line := Strip(raw);
            ClassifyLine(raw).appEntry.Some? <==>
              !AllSpace(raw) &&
              ((exists i :: OccursAt(Lower(line), "error", i)) || (exists i :: OccursAt(Lower(line), "failed", i)))
    ensures ClassifyLine(raw).appEntry.Some? ==> ClassifyLine(raw).appEntry.value == MpvLine(Strip(raw))
  {
    var line := Strip(raw);
    StripShape(raw);
    ContainsIffOccurs(Lower(line), "error");
    ContainsIffOccurs(Lower(line), "failed");
    assert Contains(Lower(line), "error") <==> exists i :: OccursAt(Lower(line), "error", i);
    assert ClassifyLine(raw).appEntry.Some? <==> !AllSpace(raw) && ReportsError(line);
  }

  /** A line produces a playback-log entry exactly when, once stripped, it starts
      with "Playing: " (case matters); the entry is the rest of the line,
      stripped again. */
  lemma PlayingLineLogged(raw: string)
    ensures var line := Strip(raw);
            && (ClassifyLine(raw).nowPlaying.Some? <==> StartsWith(line, "Playing: "))
            && (StartsWith(line, "Playing: ") ==> ClassifyLine(raw).nowPlaying.value == Strip(line[9..]))
  {
  }

  /** A line in which "error" occurs in lower case reports an error. */
  lemma ErrorWordReported(line: string, i: int)
    requires OccursAt(line, "error", i)
    ensures ReportsError(line)
  {
    LowerKeepsOccurrence(line, "error", i);
    ContainsIffOccurs(Lower(line), "error");
  }

  /** The two checks are independent: an announcement of a file whose name
      contains "error" feeds both logs. */
  lemma {:induction false} OneLineFeedsBothLogs(path: string, i: int)
    requires path != [] && !IsSpace(path[0]) && !IsSpace(path[|path| - 1])
    requires OccursAt(path, "error", i)
    ensures ClassifyLine(PlayingPrefix + path) ==
              LineEvents(Some(MpvLine(PlayingPrefix + path)), Some(path))
  {
    var line := PlayingPrefix + path;
    StripUntouched(line);
    assert line[9 + i..9 + i + 5] == path[i..i + 5];
    ErrorWordReported(line, 9 + i);
    assert line[..9] == PlayingPrefix;
    assert line[9..] == path;
    StripUntouched(path);
  }

  /** The application-log entries the reader makes for the given lines, in order. */
  function AppEntries(lines: seq<string>): seq<LogEntry> {
    if lines == [] then []
    else AppEntries(lines[..|lines| - 1]) + AsSeq(ClassifyLine(lines[|lines| - 1]).appEntry)
  }

  /** The playback-log entries (the paths mpv announces), in order. */
  function NowPlayingEntries(lines: seq<string>): seq<string> {
    if lines == [] then []
    else NowPlayingEntries(lines[..|lines| - 1]) + AsSeq(ClassifyLine(lines[|lines| - 1]).nowPlaying)
  }

  /** Each line adds at most one entry to each log, and every application-log
      entry the reader makes is an mpv line. */
  lemma {:induction false} EntriesBounded(lines: seq<string>)
    ensures |AppEntries(lines)| <= |lines| && |NowPlayingEntries(lines)| <= |lines|
    ensures forall k :: 0 <= k < |AppEntries(lines)| ==> AppEntries(lines)[k].MpvLine?
    decreases |lines|
  {
    if lines != [] {
      var front := lines[..|lines| - 1];
      EntriesBounded(front);
      var e := ClassifyLine(lines[|lines| - 1]).appEntry;
      if e.Some? {
        ErrorLineLogged(lines[|lines| - 1]);
      }
    }
  }

  /** The entries of one more line follow those of the lines before it. */
  lemma ReaderStep(lines: seq<string>, i: nat)
    requires i < |lines|
    ensures AppEntries(lines[..i + 1]) == AppEntries(lines[..i]) + AsSeq(ClassifyLine(lines[i]).appEntry)
    ensures NowPlayingEntries(lines[..i + 1]) == NowPlayingEntries(lines[..i]) + AsSeq(ClassifyLine(lines[i]).nowPlaying)
  {
    assert lines[..i + 1][..i] == lines[..i];
  }

  /** No line the reader logs for mpv's output reads as the exit line. */
  lemma ExitLineIsNoOutputLine(line: string, code: int)
    ensures EntryText(MpvLine(line)) != EntryText(MpvExited(code))
  {
    assert EntryText(MpvLine(line))[4] == ' ';
    assert EntryText(MpvExited(code))[4] == 'e';
  }

  /** Everything the reader adds to the application log for one run: the
      per-line entries, then exactly one exit line, last. */
  lemma {:induction false} RunLogEndsWithExit(lines: seq<string>, code: int)
    ensures var log := AppEntries(lines) + [MpvExited(code)];
            && log[|log| - 1] == MpvExited(code)
            && (forall k :: 0 <= k < |log| - 1 ==> EntryText(log[k]) != EntryText(MpvExited(code)))
            && |log| <= |lines| + 1
  {
    var entries := AppEntries(lines);
    EntriesBounded(lines);
    forall k | 0 <= k < |entries| ensures EntryText(entries[k]) != EntryText(MpvExited(code)) {
      ExitLineIsNoOutputLine(entries[k].line, code);
    }
  }

  /** Lines that are blank contribute nothing to either log. */
  lemma {:induction false} BlankLinesAddNothing(lines: seq<string>, raw: string)
    requires AllSpace(raw)
    ensures AppEntries(lines + [raw]) == AppEntries(lines)
    ensures NowPlayingEntries(lines + [raw]) == NowPlayingEntries(lines)
  {
    BlankLineIgnored(raw);
    assert (lines + [raw])[..|lines|] == lines;
  }

  // ---------------------------------------------------------------------------
  // The start sequence, step by step, as functions of the form and the host.

  /** `self.config.mpv_path.strip() or None`. */
  function ExplicitMpvPath(form: AppConfig): Option<string> {
    var s := Strip(form.mpvPath);
    if s == "" then None else Some(s)
  }

  function PlaybackDirectory(form: AppConfig, host: Host): Path {
    host.expandUser(form.directory)
  }

  function PlaylistFilePath(form: AppConfig, host: Host): Path {
    host.expandUser(form.playlistPath)
  }

  function Resolution(form: AppConfig, host: Host): Result<string, MpvUtils.NotFound> {
    MpvUtils.MpvResolution(ExplicitMpvPath(form), host.expandUser, host.isFile, host.which)
  }

  function ScannedFiles(form: AppConfig, host: Host): seq<Path> {
    var directory := PlaybackDirectory(form, host);
    WebmFiles(directory, host.listing(directory), form.recursive)
  }

  function Command(form: AppConfig, host: Host, mpvExecutable: string): seq<string> {
    MpvUtils.MpvCommand(mpvExecutable, PlaylistFilePath(form, host), host.normalise,
                        form.fullscreen, form.loopPlaylist, form.shuffle)
  }

  /** What writing the playlist of the scanned files gives. */
  function PlaylistWrite(form: AppConfig, host: Host): WriteOutcome {
    match host.openError(PlaylistFilePath(form, host))
    case Some(err) => WriteFailed(err)
    case None =>
      var files := ScannedFiles(form, host);
      Written(|files|, PlaylistText(files, host.normalise))
  }

  /** The playlist writer's notes as application-log entries. */
  function NoteEntries(notes: seq<WriteNote>): seq<LogEntry> {
    seq(|notes|, i requires 0 <= i < |notes| => PlaylistNote(notes[i]))
  }

  /** The application-log entries of building and writing the playlist. */
  function BuildTranscript(form: AppConfig, host: Host): seq<LogEntry> {
    var playlistPath := PlaylistFilePath(form, host);
    [StatusShown(BuildingPlaylist), PlaylistNote(BuildingAt(playlistPath))]
      + match PlaylistWrite(form, host)
        case WriteFailed(err) => [WriteError(err)]
        case Written(count, _) => [PlaylistNote(WrittenTo(playlistPath, count))]
  }

  /** What a start request that got past the directory check does: how it
      ends, the application-log messages it writes (in order), the status
      line it leaves (`None`: untouched), the playlist file it writes (path
      and text) and the player it leaves live. */
  datatype StartEffect = StartEffect(
    outcome: StartOutcome,
    transcript: seq<LogEntry>,
    status: Option<Status>,
    written: Option<(Path, string)>,
    player: Option<Process>)

  /** Announcing the launch of the player with `count` files, then spawning it. */
  function SpawnEffect(form: AppConfig, host: Host, mpvExecutable: string, count: nat): StartEffect {
    var announced := [Launching(mpvExecutable, PlaylistFilePath(form, host), count), StatusShown(LaunchingWith(count))];
    match host.spawn(Command(form, host, mpvExecutable))
    case Failure(err) =>
      StartEffect(SpawnFailed, announced + [SpawnError(err)], Some(LaunchingWith(count)), None, None)
    case Success(p) =>
      StartEffect(Started, announced + [StatusShown(Running)], Some(Running), None, Some(p))
  }

  /** Everything from building the playlist on, once the executable is known. */
  function LaunchEffect(form: AppConfig, host: Host, mpvExecutable: string): StartEffect {
    var built := BuildTranscript(form, host);
    match PlaylistWrite(form, host)
    case WriteFailed(_) => StartEffect(PlaylistFailed, built, Some(BuildingPlaylist), None, None)
    case Written(count, text) =>
      var file := Some((PlaylistFilePath(form, host), text));
      if count == 0 then StartEffect(NoWebmFiles, built, Some(BuildingPlaylist), file, None)
      else
        var spawned := SpawnEffect(form, host, mpvExecutable, count);
        spawned.(transcript := built + spawned.transcript, written := file)
  }

  /** A start request past the directory check: the request is logged, then
      the executable is looked up, then the launch proceeds. */
  function BeginEffect(form: AppConfig, host: Host): StartEffect {
    var opening := [StartRequested(PlaybackDirectory(form, host), form)];
    match Resolution(form, host)
    case Failure(e) => StartEffect(ExecutableNotFound, opening + [LookupFailed(e)], None, None, None)
    case Success(exe) =>
      var launched := LaunchEffect(form, host, exe);
      launched.(transcript := opening + launched.transcript)
  }

  /** A start succeeds only when every step succeeds: the executable is found,
      the playlist file can be written and holds at least one file, and the
      player spawns. */
  lemma StartedOnlyIfEveryStepSucceeds(form: AppConfig, host: Host)
    ensures BeginEffect(form, host).outcome == Started <==>
              && Resolution(form, host).Success?
              && host.openError(PlaylistFilePath(form, host)).None?
              && |ScannedFiles(form, host)| > 0
              && host.spawn(Command(form, host, Resolution(form, host).value)).Success?
  {
  }

  /** The failures, step by step: each names the first step that failed. */
  lemma FirstFailingStepDecides(form: AppConfig, host: Host)
    ensures var e := BeginEffect(form, host);
      && (e.outcome == ExecutableNotFound <==> Resolution(form, host).Failure?)
      && (e.outcome == PlaylistFailed <==>
            Resolution(form, host).Success? && host.openError(PlaylistFilePath(form, host)).Some?)
      && (e.outcome == NoWebmFiles <==>
            Resolution(form, host).Success? && host.openError(PlaylistFilePath(form, host)).None?
            && |ScannedFiles(form, host)| == 0)
      && e.outcome != AlreadyRunning && e.outcome != NotADirectory
  {
  }

  /** Only a start that got all the way through leaves a live player, and that
      player is what spawning the built command gave. */
  lemma OnlyStartedLeavesPlayer(form: AppConfig, host: Host)
    ensures var e := BeginEffect(form, host);
      && (e.player.Some? <==> e.outcome == Started)
      && (e.outcome == Started ==>
            e.player == Some(host.spawn(Command(form, host, Resolution(form, host).value)).value))
  {
  }

  /** The playlist file is rewritten exactly when the executable was found and
      the file could be opened, and then it holds the scanned files. */
  lemma PlaylistWrittenOnceOpened(form: AppConfig, host: Host)
    ensures var e := BeginEffect(form, host);
      && (e.written.Some? <==> e.outcome in {NoWebmFiles, SpawnFailed, Started})
      && (e.written.Some? ==>
            e.written.value == (PlaylistFilePath(form, host), PlaylistText(ScannedFiles(form, host), host.normalise)))
  {
  }

  /** The status line a start leaves: untouched when no executable is found,
      "Building playlist..." when the playlist step stops it, the launch
      message when spawning fails, and "mpv running" once started. */
  lemma StatusAfterStart(form: AppConfig, host: Host)
    ensures var e := BeginEffect(form, host);
      && (e.outcome == ExecutableNotFound <==> e.status.None?)
      && (e.outcome in {PlaylistFailed, NoWebmFiles} ==> e.status == Some(BuildingPlaylist))
      && (e.outcome == SpawnFailed ==> e.status == Some(LaunchingWith(|ScannedFiles(form, host)|)))
      && (e.outcome == Started ==> e.status == Some(Running))
  {
  }

  /** The start's log opens with the request and, once started, ends with the
      running status. */
  lemma TranscriptBrackets(form: AppConfig, host: Host)
    ensures var t := BeginEffect(form, host).transcript;
      && |t| >= 2
      && t[0] == StartRequested(PlaybackDirectory(form, host), form)
      && (BeginEffect(form, host).outcome == Started ==> t[|t| - 1] == StatusShown(Running))
  {
  }

  // ---------------------------------------------------------------------------
  // The controller.

  class WebmPlayerApp {
    var config: AppConfig                 // the settings in use
    var savedConfig: Option<AppConfig>    // what was last persisted
    var mpvProcess: Option<Process>       // the live player, if any
    var readerRunning: bool               // the output reader is draining mpvProcess
    var exitScheduled: bool               // the reader has finished and queued on_mpv_exit
    var appLogOpen: bool
    var appLog: seq<LogEntry>
    var playbackLogOpen: bool
    var playbackLog: seq<string>
    var status: Status
    var playlists: map<Path, string>      // the text of every playlist file written
    var terminateRequests: seq<nat>       // pids asked to terminate, in order
    var closed: bool                      // `root.destroy()` has ended the main loop; no handler runs after it
    ghost var launches: nat               // players started so far
    ghost var exits: nat                  // player exits handled so far

    /** A live player is always either being read or waiting for its exit to
        be handled, neither is pending without one, and every player started
        has had its exit handled except the live one. */
    ghost predicate Valid()
      reads this
    {
      && (readerRunning ==> mpvProcess.Some? && !exitScheduled)
      && (exitScheduled ==> mpvProcess.Some?)
      && (mpvProcess.Some? ==> readerRunning || exitScheduled)
      && launches == exits + (if mpvProcess.Some? then 1 else 0)
    }

    /** `__init__`: settings loaded, no player, no loggers, status "Idle". */
    constructor (loaded: AppConfig)
      ensures Valid()
      ensures config == loaded && savedConfig.None? && mpvProcess.None?
      ensures !readerRunning && !exitScheduled && !closed
      ensures !appLogOpen && appLog == [] && !playbackLogOpen && playbackLog == []
      ensures status == Idle && playlists == map[] && terminateRequests == []
      ensures launches == 0 && exits == 0
    {
      config := loaded;
      savedConfig := None;
      mpvProcess := None;
      readerRunning, exitScheduled := false, false;
      appLogOpen, appLog := false, [];
      playbackLogOpen, playbackLog := false, [];
      status := Idle;
      playlists := map[];
      terminateRequests := [];
      closed := false;
      launches, exits := 0, 0;
    }

    method LogApp(entry: LogEntry)
      modifies this`appLog
      ensures appLog == Appended(old(appLog), appLogOpen, [entry])
    {
      if appLogOpen {
        appLog := appLog + [entry];
      }
    }

    method LogPlayback(message: string)
      modifies this`playbackLog
      ensures playbackLog == Appended(old(playbackLog), playbackLogOpen, [message])
    {
      if playbackLogOpen {
        playbackLog := playbackLog + [message];
      }
    }

    /** `set_status`: shows the text and records it in the application log. */
    method SetStatus(shown: Status)
      modifies this`status, this`appLog
      ensures status == shown
      ensures appLog == Appended(old(appLog), appLogOpen, [StatusShown(shown)])
    {
      status := shown;
      LogApp(StatusShown(shown));
    }

    /** The state after a start step with effect `e`, given the log, status,
        playlist files and launch count before it. */
    ghost predicate Applied(e: StartEffect, log0: seq<LogEntry>, status0: Status,
                            playlists0: map<Path, string>, launches0: nat)
      reads this
    {
      && appLog == Appended(log0, appLogOpen, e.transcript)
      && status == (if e.status.Some? then e.status.value else status0)
      && playlists == (if e.written.Some? then playlists0[e.written.value.0 := e.written.value.1] else playlists0)
      && mpvProcess == e.player && readerRunning == e.player.Some?
      && launches == launches0 + (if e.player.Some? then 1 else 0)
    }

    /** `start_playback`, with `form` the values read from the widgets. */
    method StartPlayback(form: AppConfig, host: Host) returns (outcome: StartOutcome)
      requires Valid() && !closed
      modifies this
      ensures Valid() && exits == old(exits) && closed == old(closed) && exitScheduled == old(exitScheduled)
      ensures terminateRequests == old(terminateRequests) && playbackLog == old(playbackLog)
      // A live player rejects the request, and nothing changes.
      ensures old(mpvProcess).Some? ==> outcome == AlreadyRunning && unchanged(this)
      // Otherwise the settings are taken and saved, and the old loggers closed.
      ensures old(mpvProcess).None? ==> config == form && savedConfig == Some(form)
      // A bad directory stops the request before new loggers are opened.
      ensures old(mpvProcess).None? && !host.isDir(PlaybackDirectory(form, host)) ==>
                && outcome == NotADirectory && !appLogOpen && !playbackLogOpen
                && Applied(StartEffect(NotADirectory, [], None, None, None),
                           old(appLog), old(status), old(playlists), old(launches))
      // Otherwise the loggers the form asks for are opened and the steps run.
      ensures old(mpvProcess).None? && host.isDir(PlaybackDirectory(form, host)) ==>
                && appLogOpen == form.loggingEnabled && playbackLogOpen == form.playbackLogEnabled
                && outcome == BeginEffect(form, host).outcome
                && Applied(BeginEffect(form, host), old(appLog), old(status), old(playlists), old(launches))
    {
      if mpvProcess.Some? {
        return AlreadyRunning;
      }
      appLogOpen := false;
      playbackLogOpen := false;
      config := form;
      savedConfig := Some(form);

      var directory := host.expandUser(config.directory);
      if !host.isDir(directory) {
        return NotADirectory;
      }
      outcome := Begin(form, host);
    }

    /** `start_playback` past the directory check: opens the loggers, announces
        the request, looks up the executable and goes on to the playlist. */
    method Begin(form: AppConfig, host: Host) returns (outcome: StartOutcome)
      requires Valid() && mpvProcess.None? && config == form
      modifies this`appLogOpen, this`playbackLogOpen, this`appLog, this`status, this`playlists,
               this`mpvProcess, this`readerRunning, this`launches
      ensures Valid() && appLogOpen == form.loggingEnabled && playbackLogOpen == form.playbackLogEnabled
      ensures outcome == BeginEffect(form, host).outcome
      ensures Applied(BeginEffect(form, host), old(appLog), old(status), old(playlists), old(launches))
    {
      var directory := host.expandUser(config.directory);
      appLogOpen := config.loggingEnabled;
      playbackLogOpen := config.playbackLogEnabled;
      LogApp(StartRequested(directory, config));

      var resolved := MpvUtils.FindMpvExecutable(ExplicitMpvPath(config), host.expandUser, host.isFile, host.which);
      if resolved.Failure? {
        LogApp(LookupFailed(resolved.error));
        AppendedTwice(old(appLog), appLogOpen, [StartRequested(directory, config)], [LookupFailed(resolved.error)]);
        return ExecutableNotFound;
      }
      outcome := Launch(form, host, resolved.value);
      AppendedTwice(old(appLog), appLogOpen, [StartRequested(directory, config)],
                    LaunchEffect(form, host, resolved.value).transcript);
    }

    /** The rest of `start_playback` once the executable is known: builds and
        writes the playlist, then launches the player if it holds any file. */
    method Launch(form: AppConfig, host: Host, mpvExecutable: string) returns (outcome: StartOutcome)
      requires Valid() && mpvProcess.None?
      modifies this`status, this`appLog, this`playlists, this`mpvProcess, this`readerRunning, this`launches
      ensures Valid() && outcome == LaunchEffect(form, host, mpvExecutable).outcome
      ensures Applied(LaunchEffect(form, host, mpvExecutable), old(appLog), old(status), old(playlists), old(launches))
    {
      var written := BuildPlaylist(form, host);
      if written.WriteFailed? {
        return PlaylistFailed;
      }
      if written.count == 0 {
        return NoWebmFiles;
      }
      outcome := Spawn(form, host, mpvExecutable, written.count);
      AppendedTwice(old(appLog), appLogOpen, BuildTranscript(form, host),
                    SpawnEffect(form, host, mpvExecutable, written.count).transcript);
    }

    /** The playlist step of `start_playback`: shows the building status, scans
        the directory and writes the playlist file, logging what happened. */
    method BuildPlaylist(form: AppConfig, host: Host) returns (written: WriteOutcome)
      modifies this`status, this`appLog, this`playlists
      ensures written == PlaylistWrite(form, host) && status == BuildingPlaylist
      ensures appLog == Appended(old(appLog), appLogOpen, BuildTranscript(form, host))
      ensures playlists == if written.Written? then old(playlists)[PlaylistFilePath(form, host) := written.text]
                           else old(playlists)
    {
      var directory := host.expandUser(form.directory);
      var playlistPath := host.expandUser(form.playlistPath);
      SetStatus(BuildingPlaylist);
      var files := IterWebmFiles(directory, host.listing(directory), form.recursive);
      var logged;
      written, logged := WritePlaylistFile(files, playlistPath, host.normalise, host.openError(playlistPath), true);
      var notes := NoteEntries(logged);
      assert notes == if written.WriteFailed? then [PlaylistNote(BuildingAt(playlistPath))]
                      else [PlaylistNote(BuildingAt(playlistPath)), PlaylistNote(WrittenTo(playlistPath, written.count))];
      AppendedTwice(old(appLog), appLogOpen, [StatusShown(BuildingPlaylist)], notes);
      appLog := Appended(appLog, appLogOpen, notes);
      if written.WriteFailed? {
        LogApp(WriteError(written.message));
        AppendedTwice(old(appLog), appLogOpen, [StatusShown(BuildingPlaylist)] + notes, [WriteError(written.message)]);
      } else {
        playlists := playlists[playlistPath := written.text];
      }
    }

    /** The last step of `start_playback`: builds the command, announces it and
        spawns the player, which then has its output read. */
    method Spawn(form: AppConfig, host: Host, mpvExecutable: string, count: nat) returns (outcome: StartOutcome)
      requires Valid() && mpvProcess.None?
      modifies this`status, this`appLog, this`mpvProcess, this`readerRunning, this`launches
      ensures Valid() && outcome == SpawnEffect(form, host, mpvExecutable, count).outcome
      ensures Applied(SpawnEffect(form, host, mpvExecutable, count), old(appLog), old(status), playlists, old(launches))
    {
      var playlistPath := host.expandUser(form.playlistPath);
      var cmd := MpvUtils.BuildMpvCommand(mpvExecutable, playlistPath, host.normalise,
                                          form.fullscreen, form.loopPlaylist, form.shuffle);
      Announce(mpvExecutable, playlistPath, count);
      ghost var announced := [Launching(mpvExecutable, playlistPath, count), StatusShown(LaunchingWith(count))];
      var spawned := host.spawn(cmd);
      if spawned.Failure? {
        LogApp(SpawnError(spawned.error));
        AppendedTwice(old(appLog), appLogOpen, announced, [SpawnError(spawned.error)]);
        mpvProcess := None;
        return SpawnFailed;
      }
      mpvProcess := Some(spawned.value);
      launches := launches + 1;
      readerRunning := true;
      SetStatus(Running);
      AppendedTwice(old(appLog), appLogOpen, announced, [StatusShown(Running)]);
      return Started;
    }

    /** Logs the launch about to happen and shows it in the status line. */
    method Announce(mpvExecutable: string, playlistPath: Path, count: nat)
      modifies this`status, this`appLog
      ensures status == LaunchingWith(count)
      ensures appLog == Appended(old(appLog), appLogOpen,
                                 [Launching(mpvExecutable, playlistPath, count), StatusShown(LaunchingWith(count))])
    {
      LogApp(Launching(mpvExecutable, playlistPath, count));
      SetStatus(LaunchingWith(count));
      AppendedTwice(old(appLog), appLogOpen, [Launching(mpvExecutable, playlistPath, count)],
                    [StatusShown(LaunchingWith(count))]);
    }

    /** The body of the reader loop for one raw line. */
    method HandleLine(raw: string)
      modifies this`appLog, this`playbackLog
      ensures appLog == Appended(old(appLog), appLogOpen, AsSeq(ClassifyLine(raw).appEntry))
      ensures playbackLog == Appended(old(playbackLog), playbackLogOpen, AsSeq(ClassifyLine(raw).nowPlaying))
    {
      var line := Strip(raw);
      if line == "" {
        return;
      }
      if Contains(Lower(line), "error") || Contains(Lower(line), "failed") {
        LogApp(MpvLine(line));
      }
      if StartsWith(line, PlayingPrefix) {
        var pathText := Strip(line[|PlayingPrefix|..]);
        LogPlayback(pathText);
      }
    }

    /** The reader loop: every line of `lines` is handled, in order. */
    method DrainOutput(lines: seq<string>)
      modifies this`appLog, this`playbackLog
      ensures appLog == Appended(old(appLog), appLogOpen, AppEntries(lines))
      ensures playbackLog == Appended(old(playbackLog), playbackLogOpen, NowPlayingEntries(lines))
    {
      for i := 0 to |lines|
        invariant appLog == Appended(old(appLog), appLogOpen, AppEntries(lines[..i]))
        invariant playbackLog == Appended(old(playbackLog), playbackLogOpen, NowPlayingEntries(lines[..i]))
      {
        ReaderStep(lines, i);
        ghost var events := ClassifyLine(lines[i]);
        AppendedTwice(old(appLog), appLogOpen, AppEntries(lines[..i]), AsSeq(events.appEntry));
        AppendedTwice(old(playbackLog), playbackLogOpen, NowPlayingEntries(lines[..i]), AsSeq(events.nowPlaying));
        HandleLine(lines[i]);
      }
      assert lines[..|lines|] == lines;
    }

    /** `read_mpv_output`: drains the live player's output, logging what the
        lines report, then logs the exit code and queues `on_mpv_exit`. */
    method ReadMpvOutput()
      requires Valid() && readerRunning
      modifies this`appLog, this`playbackLog, this`readerRunning, this`exitScheduled
      ensures Valid() && !readerRunning && exitScheduled
      ensures appLog == Appended(old(appLog), appLogOpen,
                                 AppEntries(mpvProcess.value.output) + [MpvExited(mpvProcess.value.exitCode)])
      ensures playbackLog == Appended(old(playbackLog), playbackLogOpen, NowPlayingEntries(mpvProcess.value.output))
    {
      var proc := mpvProcess.value;
      DrainOutput(proc.output);
      LogApp(MpvExited(proc.exitCode));
      readerRunning := false;
      exitScheduled := true;
    }

    /** `on_mpv_exit`, run once the reader has queued it: the player is gone. */
    method OnMpvExit()
      requires Valid() && exitScheduled && !closed
      modifies this`mpvProcess, this`exitScheduled, this`status, this`appLog, this`exits
      ensures Valid() && mpvProcess.None? && !exitScheduled
      ensures exits == old(exits) + 1
      ensures status == Exited && appLog == Appended(old(appLog), appLogOpen, [StatusShown(Exited)])
    {
      mpvProcess := None;
      exitScheduled := false;
      exits := exits + 1;
      SetStatus(Exited);
    }

    /** `stop_playback`: with a live player, logs the request and asks the player
        to terminate; the player stays live until its exit is handled. */
    method StopPlayback()
      requires Valid() && !closed
      modifies this`appLog, this`terminateRequests
      ensures Valid() && mpvProcess == old(mpvProcess)
      ensures mpvProcess.None? ==> appLog == old(appLog) && terminateRequests == old(terminateRequests)
      ensures mpvProcess.Some? ==>
                && appLog == Appended(old(appLog), appLogOpen, [StopRequested])
                && terminateRequests == old(terminateRequests) + [mpvProcess.value.pid]
    {
      if mpvProcess.None? {
        return;
      }
      LogApp(StopRequested);
      // A failure to signal the player is swallowed.
      terminateRequests := terminateRequests + [mpvProcess.value.pid];
    }

    /** `on_close`: asks a live player to terminate, closes both loggers and
        destroys the window. */
    method OnClose()
      requires Valid() && !closed
      modifies this`terminateRequests, this`appLogOpen, this`playbackLogOpen, this`closed
      ensures Valid() && closed && !appLogOpen && !playbackLogOpen
      ensures terminateRequests ==
                old(terminateRequests) + (if mpvProcess.Some? then [mpvProcess.value.pid] else [])
    {
      if mpvProcess.Some? {
        terminateRequests := terminateRequests + [mpvProcess.value.pid];
      }
      appLogOpen := false;
      playbackLogOpen := false;
      closed := true;
    }
  }
}
