# RandomVideoPlayer, modelled in Dafny

RandomVideoPlayer is a small desktop front end for the mpv player. It takes a
directory, collects the `.webm` files in it (optionally at every depth), writes
them to an m3u-style playlist file, launches mpv on that playlist, and reads
mpv's merged output to log errors and the files mpv announces as playing. This
project models the sequential core of that program and proves what it does:

- `mpv_utils.dfy` (module `MpvUtils`) covers `find_mpv_executable` and
  `build_mpv_command`. The file-system and PATH lookups are oracles:
  `expanduser`, `is_file` and `shutil.which`.
- `playlist_builder.dfy` (module `PlaylistBuilder`) covers `iter_webm_files`
  over a directory tree given as a value, and `write_playlist_file`. The
  write returns the count, the new file text and the logger's messages.
- `gui.dfy` (module `Gui`) covers the `WebmPlayerApp` controller as a class:
  - the settings, the live player `mpv_process`, the two log sinks, the
    status line, the playlist files written and the termination requests;
  - `start_playback`, `read_mpv_output`, `on_mpv_exit`, `stop_playback` and
    `on_close` as methods on that state.
- `text.dfy` (module `Text`) covers the Python string operations the core
  relies on: `strip`, `lower`, `startswith`, `endswith`, `in` and `str()` of
  integers.
- `paths.dfy` (module `Paths`) covers `pathlib` paths as sequences of parts.
- `wrappers.dfy` (module `Wrappers`) covers `Option` and `Result`.

How the model is set up:

- A spawned player is a value: its output lines and its exit code.
- The host is a record of oracle functions: `expanduser`, `is_dir`,
  `is_file`, `which`, the directory listing, `resolve().as_posix()`, the
  error that opening the playlist raises (if any), and the spawn.
- Each application-log record is a `LogEntry` value. `EntryText` gives the
  line the logger writes for it, timestamp excluded.
- The status line is a `Status` value. `StatusText` gives the text shown.

What a start request does is described by pure functions:

- `SpawnEffect`, `LaunchEffect` and `BeginEffect` each return a
  `StartEffect`: how the request ends, the log records written in order, the
  status left behind, the playlist file written, and the player left live.
- The methods prove that the object's new state is that effect, through the
  `Applied` predicate.
- Lemmas state the per-outcome facts about the effects.

The controller's invariant, `Valid`, says:

- a live player is always being read, or waiting for its exit to be handled,
  and with no live player neither the reader nor the exit handler is pending;
- the players started equal the exits handled, plus one while a player is
  live.

`OnClose` sets `closed`: `root.destroy()` ends the main loop, so
`StartPlayback`, `StopPlayback`, `OnMpvExit` and `OnClose` itself require
`!closed`.

## Model

| member | source | states |
|---|---|---|
| Text.TrimStartShape | randomvideoplayer/gui.py:419 | `lstrip` leaves the longest suffix that does not start with whitespace; everything dropped is whitespace |
| Text.TrimEndShape | randomvideoplayer/gui.py:419 | `rstrip` leaves the longest prefix that does not end with whitespace; everything dropped is whitespace |
| Text.StripShape | randomvideoplayer/gui.py:419-421 | `strip()` leaves a piece of the line with no whitespace at either end; it is empty exactly when the line is blank |
| Text.StripUntouched | randomvideoplayer/gui.py:428 | a string with no whitespace at either end is its own `strip()` |
| Text.LowerShape | randomvideoplayer/playlist_builder.py:15 | `lower()` keeps the length, folds each character on its own, and leaves no upper-case ASCII letter |
| Text.LowerKeepsOccurrence | randomvideoplayer/gui.py:423 | a lower-case word that occurs in a line still occurs, at the same place, in the lower-cased line |
| Text.ContainsIffOccurs | randomvideoplayer/gui.py:423 | `t in s` holds exactly when `t` occurs in `s` at some position |
| Text.NatToString | randomvideoplayer/playlist_builder.py:38 | `str(count)` is a non-empty string of decimal digits, with no leading zero unless the count is 0 |
| Text.NatToStringRoundTrip | randomvideoplayer/playlist_builder.py:38 | the decimal text of a count reads back as the count |
| Text.IntToStringRoundTrip | randomvideoplayer/gui.py:434 | `str(code)` of an exit code is an optional '-' followed by decimal digits, and reading that text back gives the code, negative codes included |
| MpvUtils.FirstOnPathMeaning | randomvideoplayer/mpv_utils.py:15-19 | the candidate search finds nothing exactly when no candidate is on PATH; what it finds is PATH's answer for a candidate all of whose predecessors are missing |
| MpvUtils.MpvResolutionSearch | randomvideoplayer/mpv_utils.py:15-23 | without an explicit path the lookup fails, with the "not found, put mpv in PATH" error, exactly when neither `mpv` nor `mpv.exe` is on PATH; otherwise it returns the first hit in that order |
| MpvUtils.FirstOnPathSkips | randomvideoplayer/mpv_utils.py:16-19 | candidates that `which` does not find can be skipped without changing the result of the search |
| MpvUtils.FindMpvExecutable | randomvideoplayer/mpv_utils.py:8-23 | the loop with its early returns computes the resolution: an explicit non-empty path that names a file, else the not-found-at error for it, else the first PATH hit, else the not-on-PATH error |
| MpvUtils.ExplicitPathIgnoresPath | randomvideoplayer/mpv_utils.py:9-13 | with a non-empty explicit path the result does not depend on PATH |
| MpvUtils.EmptyExplicitPathSearchesPath | randomvideoplayer/mpv_utils.py:9-15 | an empty explicit path behaves as no explicit path: `''` is false |
| MpvUtils.BuildMpvCommand | randomvideoplayer/mpv_utils.py:26-50 | the list grown one `append` at a time equals `MpvCommand` of the executable, the normalised playlist path and the three flags |
| MpvUtils.MpvCommandLayout | randomvideoplayer/mpv_utils.py:33-50 | the command has length 6 plus the true flags, and the executable comes first, then `--playlist=` with the normalised path. Each of `--shuffle`, `--loop-playlist=inf` and `--fs` appears exactly when its flag is set. Shuffle and loop come before the four cache flags, which are contiguous and in order, and `--fs` comes last |
| MpvUtils.MpvCommandAllFlags | randomvideoplayer/mpv_utils.py:33-50 | the full argument vectors with every flag set and with none set |
| PlaylistBuilder.WebmNameIgnoresCase | randomvideoplayer/playlist_builder.py:15 | names that differ only in ASCII letter case match alike |
| PlaylistBuilder.WebmNameByLastFive | randomvideoplayer/playlist_builder.py:15-20 | a name matches exactly when its last five characters spell `.webm` in any mixture of cases |
| PlaylistBuilder.DirectWebmMembers | randomvideoplayer/playlist_builder.py:18-21 | the non-recursive scan yields a path exactly when it is `directory / name` for a regular file directly in the directory whose name matches |
| PlaylistBuilder.MatchingHereMembers | randomvideoplayer/playlist_builder.py:14-16 | one walk step yields exactly `root / name` for the matching non-directory entries of that directory |
| PlaylistBuilder.WalkWebmMembers | randomvideoplayer/playlist_builder.py:11-16 | the recursive scan yields a path exactly when it lies below the directory, names a non-directory entry at some depth through a chain of subdirectories, and that name matches |
| PlaylistBuilder.WalkSubdirsMembers | randomvideoplayer/playlist_builder.py:12-16 | the walk of the subdirectories yields exactly the matches two or more levels down |
| PlaylistBuilder.BelowFirstOrRest | randomvideoplayer/playlist_builder.py:12-16 | a match two or more levels down lies either below the first entry, which is then a directory, or below the others |
| PlaylistBuilder.MatchingFiles | randomvideoplayer/playlist_builder.py:14-16 | the loop over one listing's files collects exactly the step's matches, in listing order |
| PlaylistBuilder.Walk | randomvideoplayer/playlist_builder.py:11-16 | the top-down walk collects this directory's matches, then each subdirectory's, which is the `WalkWebm` specification |
| PlaylistBuilder.IterWebmFiles | randomvideoplayer/playlist_builder.py:10-21 | `iter_webm_files` yields the walk's matches when recursive and the direct regular-file matches otherwise |
| PlaylistBuilder.WritePlaylistFile | randomvideoplayer/playlist_builder.py:24-39 | an open error propagates and the logger then holds only "Building playlist at …". Otherwise the count is the number of files and the new text is one `normalise(path) + "\n"` line per file, in order, whatever the file held before. The logger receives "Building playlist at …" first and "Playlist written to … with count entries" last |
| PlaylistBuilder.PlaylistReadBack | randomvideoplayer/playlist_builder.py:33-35 | reading the written text back line by line gives the normalised files in order, when no normalised path holds a newline |
| PlaylistBuilder.PlaylistNewlines | randomvideoplayer/playlist_builder.py:32-36 | the text holds exactly as many newlines as the count returned, when no normalised path holds a newline |
| Gui.BlankLineIgnored | randomvideoplayer/gui.py:419-421 | a blank line produces no log event |
| Gui.ErrorLineLogged | randomvideoplayer/gui.py:419-425 | a line yields an application-log record exactly when it is not blank and, lower-cased, contains "error" or "failed"; the record is the stripped line, written after "mpv: " |
| Gui.PlayingLineLogged | randomvideoplayer/gui.py:427-430 | a line yields a playback-log record exactly when, stripped, it starts with the case-sensitive "Playing: ", and the record is the rest stripped again |
| Gui.ErrorWordReported | randomvideoplayer/gui.py:423 | a line in which "error" occurs in lower case is reported as an error line |
| Gui.OneLineFeedsBothLogs | randomvideoplayer/gui.py:423-430 | the two checks are independent: an announcement of a file whose name contains "error" feeds both logs |
| Gui.EntriesBounded | randomvideoplayer/gui.py:418-430 | each output line adds at most one record to each log, and every application-log record the reader makes is an mpv line |
| Gui.ReaderStep | randomvideoplayer/gui.py:418-430 | the records for one more line follow those of the lines before it |
| Gui.ExitLineIsNoOutputLine | randomvideoplayer/gui.py:423-434 | no "mpv: …" line can read as the "mpv exited with code …" line |
| Gui.RunLogEndsWithExit | randomvideoplayer/gui.py:418-434 | what one run adds to the application log ends with exactly one exit record, after all per-line records, and is at most one record longer than the output |
| Gui.BlankLinesAddNothing | randomvideoplayer/gui.py:419-421 | appending a blank line to the output changes neither log |
| Gui.StartedOnlyIfEveryStepSucceeds | randomvideoplayer/gui.py:340-410 | past the directory check, a start ends with a live player exactly when the executable is found, the playlist file opens, at least one file is found and the spawn succeeds |
| Gui.FirstFailingStepDecides | randomvideoplayer/gui.py:340-369 | a start ends with "executable not found", "playlist failed" or "no files" exactly when that step is the first one to fail |
| Gui.OnlyStartedLeavesPlayer | randomvideoplayer/gui.py:385-400 | only a start that got all the way through leaves a player, and that player is what spawning the built command gave |
| Gui.PlaylistWrittenOnceOpened | randomvideoplayer/gui.py:353-369 | the playlist file is rewritten exactly when the executable was found and the file opened, and it then holds the scanned files |
| Gui.StatusAfterStart | randomvideoplayer/gui.py:340-410 | the status line a start leaves: untouched when no executable is found, "Building playlist..." when the playlist step stops it, the launch message when spawning fails, "mpv running" once started |
| Gui.TranscriptBrackets | randomvideoplayer/gui.py:333-410 | a start's log opens with the request's settings and, once started, ends with "mpv running" |
| Gui.WebmPlayerApp.constructor | randomvideoplayer/gui.py:18-32 | a new window has the loaded settings, no player, no loggers and status "Idle" |
| Gui.WebmPlayerApp.LogApp | randomvideoplayer/file_logger.py:19-25 | a record reaches the application log only while that logger is open |
| Gui.WebmPlayerApp.LogPlayback | randomvideoplayer/file_logger.py:19-25 | a record reaches the playback log only while that logger is open |
| Gui.WebmPlayerApp.SetStatus | randomvideoplayer/gui.py:295-298 | the status line shows the text, and the application log records it |
| Gui.WebmPlayerApp.StartPlayback | randomvideoplayer/gui.py:300-410 | with a live player nothing changes. Otherwise the old loggers are closed and the settings taken and saved. A directory that is not one stops the request with no logger open and nothing else changed. Past that check, the loggers the settings ask for are open and the state is the `BeginEffect` of the settings and the host. `Valid` is kept |
| Gui.WebmPlayerApp.Begin | randomvideoplayer/gui.py:318-348 | opens the loggers, logs the request and looks up the executable; a failed lookup is logged and nothing else changes; otherwise the state is the `BeginEffect` |
| Gui.WebmPlayerApp.Launch | randomvideoplayer/gui.py:350-410 | once the executable is known, the state is the `LaunchEffect`: playlist failure, no files, spawn failure or a running player |
| Gui.WebmPlayerApp.BuildPlaylist | randomvideoplayer/gui.py:350-365 | shows "Building playlist...", writes the scanned files to the playlist file and logs the writer's messages, then the failure if any |
| Gui.WebmPlayerApp.Spawn | randomvideoplayer/gui.py:371-410 | builds the command, logs and shows the launch, and either logs the spawn error with no player live, or makes the spawned player live with its reader running and status "mpv running" |
| Gui.WebmPlayerApp.Announce | randomvideoplayer/gui.py:379-384 | logs "Starting mpv: …" and shows "Starting mpv with count files..." |
| Gui.WebmPlayerApp.HandleLine | randomvideoplayer/gui.py:419-430 | one line adds to each log exactly what its classification says |
| Gui.WebmPlayerApp.DrainOutput | randomvideoplayer/gui.py:418-430 | the reader loop adds to each log the records of all lines, in order |
| Gui.WebmPlayerApp.ReadMpvOutput | randomvideoplayer/gui.py:412-435 | drains the live player's output, then logs its exit code once and queues the exit handler; the player stays live until that handler runs |
| Gui.WebmPlayerApp.OnMpvExit | randomvideoplayer/gui.py:437-441 | the queued exit handler clears the live player, counts the exit and shows and logs "mpv exited" |
| Gui.WebmPlayerApp.StopPlayback | randomvideoplayer/gui.py:443-451 | without a player, nothing changes; with one, the request is logged and termination is requested, and the player stays live |
| Gui.WebmPlayerApp.OnClose | randomvideoplayer/gui.py:453-463 | a live player is asked to terminate, both loggers are closed and the window is gone |

## Left out

- Widgets, dialogs and button states are not modelled. `StartPlayback`
  returns a `StartOutcome` naming the dialog shown instead. The form's
  values are the `form` argument.
- `app_config.py` is not part of this model. Saving the settings is the
  `savedConfig` field; loading them is the constructor's argument.
- `file_logger.py` is modelled only as a sink that is open or closed:
  - timestamps, the lock and the file itself are left out;
  - a logger that cannot open its file (which raises out of
    `start_playback`) is left out;
  - each log is one sequence of everything written while a logger was open,
    whichever path the settings named at the time.
- Threads are left out. The reader runs as the separate step
  `ReadMpvOutput` once the start has returned, and `root.after` as the step
  `OnMpvExit`. Interleavings of the reader's log lines with the window's
  are not modelled.
- `subprocess.Popen` is the host's `spawn` oracle. A spawned player's
  output is a finite list of lines given in advance, and its `stdout` is
  never `None` (it is a pipe). `terminate()` is recorded as a request, and
  its failures are swallowed.
- PlaylistBuilder.WritePlaylistFile: only the error raised while creating
  the parent directory or opening the file is modelled. An error raised
  part-way through the scan leaves a partly written file in the program;
  the model does not capture that file.
- The directory walk is left out in these respects:
  - the listing order is taken as given, and nothing is claimed about it;
  - unreadable subdirectories, which `os.walk` silently skips, are not
    modelled;
  - symbolic links are not modelled;
  - a scan of a directory that cannot be listed is not modelled.
- `str.strip`, `str.lower` and `str.isspace` are modelled on ASCII only.
  Unicode whitespace and case folding are left out.
- Paths render with '/' as on POSIX; Windows separators are left out. That a
  normalised path contains no newline is a precondition of the read-back
  lemmas.
- PlaylistBuilder.WritePlaylistFile, PlaylistBuilder.PlaylistReadBack and
  PlaylistBuilder.PlaylistNewlines: the file text is that of a POSIX host.
  The file is opened in text mode, so on Windows each '\n' is written as
  "\r\n"; that newline translation is not modelled.
- Gui.WebmPlayerApp.StartPlayback: `save_config` (gui.py:311) is taken to
  succeed. In the source a failing save raises out of `start_playback` after
  the old loggers have been closed and the form has been read into `config`;
  `savedConfig := Some(form)` does not capture that failure.
- MpvUtils.ExplicitPathIgnoresPath, MpvUtils.EmptyExplicitPathSearchesPath,
  MpvUtils.MpvCommandAllFlags, PlaylistBuilder.WebmNameIgnoresCase,
  Gui.PlayingLineLogged and the start-effect lemmas in `gui.dfy` follow from
  the definitions without a written proof. They are stated because the
  source promises them.
- `stop_playback` only calls `terminate()` (gui.py:443-451). `mpv_process`
  stays set until the reader has seen the output end and `on_mpv_exit` has
  run (gui.py:437-438), so stopping does not by itself return the app to
  idle.
- `read_mpv_output` (gui.py:412-435) has no handler for read errors; the
  pipe is decoded with `errors='ignore'` (gui.py:386-393).
