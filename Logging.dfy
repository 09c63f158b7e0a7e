/**
 * LogSaver: captures every engine log line into a buffer, remembers whether
 * any line met the trigger level, writes the buffer to a per-run file on quit
 * and mails log files. The file system is an object holding directories and
 * files; the mail transport, the clock and Path.Combine are parameters.
 */
module Logging {
  import opened Wrappers

  datatype LogType = Error | Assert | Warning | Log | Exception

  datatype LogTriggerLevel = Everything | WarningOrAbove | ErrorOrAbove

  /** One line appended to the buffer: a timestamped entry, or the stack trace that follows a severe one. */
  datatype LogLine = Entry(time: string, logType: LogType, message: string) | StackTrace(trace: string)

  /** Error, Exception and Assert: the types whose stack trace is kept. */
  predicate IsSevere(t: LogType) {
    t == Error || t == Exception || t == Assert
  }

  /** Whether a line of type t sets the send flag under the given level. */
  predicate IsTrigger(level: LogTriggerLevel, t: LogType) {
    match level
    case Everything => true
    case WarningOrAbove => t != Log
    case ErrorOrAbove => IsSevere(t)
  }

  /** The levels are nested: what triggers a stricter level triggers every looser one. */
  lemma TriggerLevelsNested(t: LogType)
    ensures IsTrigger(ErrorOrAbove, t) ==> IsTrigger(WarningOrAbove, t)
    ensures IsTrigger(WarningOrAbove, t) ==> IsTrigger(Everything, t)
    ensures IsTrigger(ErrorOrAbove, t) <==> IsSevere(t)
    ensures !IsTrigger(WarningOrAbove, t) <==> t == Log
    ensures IsTrigger(WarningOrAbove, t) && !IsTrigger(ErrorOrAbove, t) <==> t == Warning
  {
  }

  /** The lines one log call appends: the entry, then its stack trace when the type is severe. */
  function LinesFor(time: string, t: LogType, message: string, stackTrace: string): (lines: seq<LogLine>)
    ensures 1 <= |lines| <= 2
    ensures lines[0] == Entry(time, t, message)
    ensures |lines| == 2 <==> IsSevere(t)
    ensures |lines| == 2 ==> lines[1] == StackTrace(stackTrace)
  {
    [Entry(time, t, message)] + if IsSevere(t) then [StackTrace(stackTrace)] else []
  }

  /** File.Exists on a file map: false for the empty path. */
  predicate Present(files: map<string, seq<LogLine>>, path: string) {
    path != "" && path in files
  }

  /** The file map SaveLogToFile leaves: the buffer written to the log path when both exist and the write succeeds. */
  function SavedLog(files: map<string, seq<LogLine>>, buffer: seq<LogLine>, path: Option<string>, writeOk: bool): map<string, seq<LogLine>>
  {
    if |buffer| > 0 && path.Some? && path.value != "" && writeOk then files[path.value := buffer] else files
  }

  /** The paths a list names. */
  function Elements(s: seq<string>): set<string> {
    set p | p in s
  }

  class FileSystem {
    var directories: set<string>
    var files: map<string, seq<LogLine>>

    constructor (directories: set<string>, files: map<string, seq<LogLine>>)
      ensures this.directories == directories && this.files == files
    {
      this.directories := directories;
      this.files := files;
    }

    /** File.Exists: false for the empty path. */
    predicate Exists(path: string)
      reads this
    {
      Present(files, path)
    }
  }

  /**
   * The files the pending pass mails, in order: it skips the current log,
   * tries each other listed file while the previous tries succeeded, and a try
   * succeeds when the file is still present and the mail goes out; a mailed
   * file is deleted.
   */
  function PendingPass(listing: seq<string>, current: Option<string>, files: map<string, seq<LogLine>>, sendOk: string -> bool): seq<string>
  {
    if listing == [] then []
    else if Some(listing[0]) == current then PendingPass(listing[1..], current, files, sendOk)
    else if Present(files, listing[0]) && sendOk(listing[0]) then
      [listing[0]] + PendingPass(listing[1..], current, files - {listing[0]}, sendOk)
    else []
  }

  /** The listed files other than the current log, in listing order. */
  function Others(listing: seq<string>, current: Option<string>): (r: seq<string>)
    ensures forall p :: p in r <==> p in listing && Some(p) != current
  {
    if listing == [] then []
    else if Some(listing[0]) == current then Others(listing[1..], current)
    else [listing[0]] + Others(listing[1..], current)
  }

  /** The file map the pending pass leaves behind. */
  function FilesAfterPass(listing: seq<string>, current: Option<string>, files: map<string, seq<LogLine>>, sendOk: string -> bool): map<string, seq<LogLine>>
  {
    if listing == [] then files
    else if Some(listing[0]) == current then FilesAfterPass(listing[1..], current, files, sendOk)
    else if Present(files, listing[0]) && sendOk(listing[0]) then
      FilesAfterPass(listing[1..], current, files - {listing[0]}, sendOk)
    else files
  }

  /** One step of the pass, at position i of the listing. */
  lemma FilesAfterPassAt(listing: seq<string>, i: nat, current: Option<string>, files: map<string, seq<LogLine>>, sendOk: string -> bool)
    requires i < |listing|
    ensures FilesAfterPass(listing[i..], current, files, sendOk)
            == if Some(listing[i]) == current then FilesAfterPass(listing[i + 1..], current, files, sendOk)
               else if Present(files, listing[i]) && sendOk(listing[i]) then
                 FilesAfterPass(listing[i + 1..], current, files - {listing[i]}, sendOk)
               else files
  {
    assert listing[i..][1..] == listing[i + 1..];
  }

  /** The pass deletes exactly the files it mails. */
  lemma {:induction false} PassDeletesSent(listing: seq<string>, current: Option<string>, files: map<string, seq<LogLine>>, sendOk: string -> bool)
    ensures FilesAfterPass(listing, current, files, sendOk) == files - Elements(PendingPass(listing, current, files, sendOk))
  {
    if listing != [] {
      var f := listing[0];
      if Some(f) == current {
        PassDeletesSent(listing[1..], current, files, sendOk);
      } else if Present(files, f) && sendOk(f) {
        PassDeletesSent(listing[1..], current, files - {f}, sendOk);
        var rest := PendingPass(listing[1..], current, files - {f}, sendOk);
        assert Elements([f] + rest) == {f} + Elements(rest);
        assert (files - {f}) - Elements(rest) == files - ({f} + Elements(rest));
      } else {
        assert Elements([]) == {};
        assert files - {} == files;
      }
    } else {
      assert Elements([]) == {};
      assert files - {} == files;
    }
  }

  /** The pass never mails the log of the running session. */
  lemma {:induction false} PendingSkipsCurrent(listing: seq<string>, current: Option<string>, files: map<string, seq<LogLine>>, sendOk: string -> bool)
    ensures current.Some? ==> current.value !in PendingPass(listing, current, files, sendOk)
  {
    if listing != [] {
      if Some(listing[0]) == current {
        PendingSkipsCurrent(listing[1..], current, files, sendOk);
      } else if Present(files, listing[0]) && sendOk(listing[0]) {
        PendingSkipsCurrent(listing[1..], current, files - {listing[0]}, sendOk);
      }
    }
  }

  /** Every mailed file was present when tried, and its mail went out. */
  lemma {:induction false} PendingSentSucceeded(listing: seq<string>, current: Option<string>, files: map<string, seq<LogLine>>, sendOk: string -> bool)
    ensures forall p :: p in PendingPass(listing, current, files, sendOk) ==> Present(files, p) && sendOk(p)
  {
    if listing != [] {
      if Some(listing[0]) == current {
        PendingSentSucceeded(listing[1..], current, files, sendOk);
      } else if Present(files, listing[0]) && sendOk(listing[0]) {
        PendingSentSucceeded(listing[1..], current, files - {listing[0]}, sendOk);
      }
    }
  }

  /**
   * The files are tried in listing order and the pass stops at the first
   * failure: what was mailed is a prefix of the other files, and when it is
   * not all of them, the next one was missing (or already mailed) or its mail
   * failed.
   */
  lemma {:induction false} PendingStopsAtFirstFailure(listing: seq<string>, current: Option<string>, files: map<string, seq<LogLine>>, sendOk: string -> bool)
    ensures var sent := PendingPass(listing, current, files, sendOk);
            var others := Others(listing, current);
            && |sent| <= |others|
            && sent == others[..|sent|]
            && (|sent| < |others| ==>
                  var next := others[|sent|];
                  !(Present(files, next) && next !in sent && sendOk(next)))
  {
    if listing != [] {
      if Some(listing[0]) == current {
        PendingStopsAtFirstFailure(listing[1..], current, files, sendOk);
      } else if Present(files, listing[0]) && sendOk(listing[0]) {
        var f := listing[0];
        PendingStopsAtFirstFailure(listing[1..], current, files - {f}, sendOk);
        var rest := PendingPass(listing[1..], current, files - {f}, sendOk);
        var restOthers := Others(listing[1..], current);
        assert Others(listing, current) == [f] + restOthers;
        assert PendingPass(listing, current, files, sendOk) == [f] + rest;
        assert ([f] + restOthers)[..|rest| + 1] == [f] + restOthers[..|rest|];
        if |rest| < |restOthers| {
          assert ([f] + restOthers)[|rest| + 1] == restOthers[|rest|];
        }
      } else {
        assert Others(listing, current)[0] == listing[0];
      }
    }
  }

  class LogSaver {
    const useCustomPath: bool
    const customPath: string
    const enableEmail: bool
    const triggerLevel: LogTriggerLevel

    var logBuffer: seq<LogLine>
    /** None once creating the log folder failed: saving is then off. */
    var currentLogPath: Option<string>
    var logFolder: string
    var shouldSendEmail: bool
    /** Whether HandleLog is attached to the engine's log event. */
    var subscribed: bool

    /**
     * Awake of the one instance. The folder is the custom path when that is
     * asked for and not empty, and "Logs" beside the data folder otherwise.
     * A missing folder is created; when that fails the log path is None. The
     * file name carries the start time and is a parameter, as is the outcome
     * of CreateDirectory.
     */
    constructor Awake(
      useCustomPath: bool, customPath: string, enableEmail: bool, triggerLevel: LogTriggerLevel,
      fs: FileSystem, dataParent: string, fileName: string, createOk: bool,
      combine: (string, string) -> string)
      modifies fs
      ensures this.useCustomPath == useCustomPath && this.customPath == customPath
      ensures this.enableEmail == enableEmail && this.triggerLevel == triggerLevel
      ensures useCustomPath && customPath != "" ==> logFolder == customPath
      ensures !(useCustomPath && customPath != "") ==> logFolder == combine(dataParent, "Logs")
      ensures logFolder in old(fs.directories) ==>
                fs.directories == old(fs.directories) && currentLogPath == Some(combine(logFolder, fileName))
      ensures logFolder !in old(fs.directories) && createOk ==>
                fs.directories == old(fs.directories) + {logFolder} && currentLogPath == Some(combine(logFolder, fileName))
      ensures logFolder !in old(fs.directories) && !createOk ==>
                fs.directories == old(fs.directories) && currentLogPath == None
      ensures fs.files == old(fs.files)
      ensures logBuffer == [] && !shouldSendEmail && subscribed
    {
      this.useCustomPath := useCustomPath;
      this.customPath := customPath;
      this.enableEmail := enableEmail;
      this.triggerLevel := triggerLevel;
      var folder := if useCustomPath && customPath != "" then customPath else combine(dataParent, "Logs");
      logFolder := folder;
      logBuffer := [];
      shouldSendEmail := false;
      if folder !in fs.directories && !createOk {
        currentLogPath := None;
      } else {
        currentLogPath := Some(combine(folder, fileName));
      }
      subscribed := true;
      new;
      if folder !in fs.directories {
        if createOk {
          fs.directories := fs.directories + {folder};
        }
      }
    }

    /** OnDestroy: detaches HandleLog. */
    method OnDestroy()
      modifies this`subscribed
      ensures !subscribed
    {
      subscribed := false;
    }

    /**
     * One log line from the engine: the send flag is set when the type meets
     * the trigger level and is never cleared, and the entry (with its stack
     * trace for a severe type) is appended whatever the level.
     */
    method HandleLog(logString: string, stackTrace: string, t: LogType, time: string)
      modifies this`shouldSendEmail, this`logBuffer
      ensures shouldSendEmail == (old(shouldSendEmail) || IsTrigger(triggerLevel, t))
      ensures old(shouldSendEmail) ==> shouldSendEmail
      ensures logBuffer == old(logBuffer) + LinesFor(time, t, logString, stackTrace)
    {
      if IsTrigger(triggerLevel, t) {
        shouldSendEmail := true;
      }
      logBuffer := logBuffer + LinesFor(time, t, logString, stackTrace);
    }

    /** The engine's log event: reaches HandleLog only while it is attached. */
    method LogMessageReceived(logString: string, stackTrace: string, t: LogType, time: string)
      modifies this`shouldSendEmail, this`logBuffer
      ensures subscribed ==> shouldSendEmail == (old(shouldSendEmail) || IsTrigger(triggerLevel, t))
      ensures subscribed ==> logBuffer == old(logBuffer) + LinesFor(time, t, logString, stackTrace)
      ensures !subscribed ==> shouldSendEmail == old(shouldSendEmail) && logBuffer == old(logBuffer)
    {
      if subscribed {
        HandleLog(logString, stackTrace, t, time);
      }
    }

    /** Writes the buffer to the log path when there is something to write and a path; writeOk is File.WriteAllText's outcome. */
    method SaveLogToFile(fs: FileSystem, writeOk: bool)
      modifies fs`files
      ensures |logBuffer| > 0 && currentLogPath.Some? && currentLogPath.value != "" && writeOk ==>
                fs.files == old(fs.files)[currentLogPath.value := logBuffer]
      ensures !(|logBuffer| > 0 && currentLogPath.Some? && currentLogPath.value != "" && writeOk) ==>
                fs.files == old(fs.files)
    {
      if |logBuffer| > 0 && currentLogPath.Some? && currentLogPath.value != "" {
        if writeOk {
          fs.files := fs.files[currentLogPath.value := logBuffer];
        }
      }
    }

    /**
     * Mails one file. A missing file (or no path) gives false; a mail that
     * fails gives false and keeps the file; a mail that goes out deletes the
     * file and gives true.
     */
    method TrySendSingleLog(fs: FileSystem, path: Option<string>, sendOk: string -> bool) returns (ok: bool)
      modifies fs`files
      ensures ok <==> path.Some? && old(fs.Exists(path.value)) && sendOk(path.value)
      ensures ok ==> fs.files == old(fs.files) - {path.value}
      ensures !ok ==> fs.files == old(fs.files)
    {
      if path.None? || !fs.Exists(path.value) {
        return false;
      }
      if !sendOk(path.value) {
        return false;
      }
      fs.files := fs.files - {path.value};
      return true;
    }

    /**
     * The quit handler: only when the flag is set is the buffer saved and,
     * outside the editor with mail enabled, the current log mailed; the
     * buffer is emptied on every quit.
     */
    method OnApplicationQuit(fs: FileSystem, isEditor: bool, writeOk: bool, sendOk: string -> bool)
      modifies this`logBuffer, fs`files
      ensures logBuffer == []
      ensures !shouldSendEmail ==> fs.files == old(fs.files)
      ensures shouldSendEmail && (isEditor || !enableEmail) ==>
                fs.files == SavedLog(old(fs.files), old(logBuffer), currentLogPath, writeOk)
      ensures shouldSendEmail && !isEditor && enableEmail ==>
                var saved := SavedLog(old(fs.files), old(logBuffer), currentLogPath, writeOk);
                fs.files == if currentLogPath.Some? && Present(saved, currentLogPath.value) && sendOk(currentLogPath.value)
                            then saved - {currentLogPath.value} else saved
    {
      if shouldSendEmail {
        SaveLogToFile(fs, writeOk);
        if !isEditor && enableEmail {
          var _ := TrySendSingleLog(fs, currentLogPath, sendOk);
        }
      }
      logBuffer := [];
    }

    /**
     * The pending pass over the listing of *.txt files in the log folder
     * (a parameter, in the order Directory.GetFiles gives): nothing when the
     * folder is missing; otherwise the files PendingPass names are mailed and
     * deleted, and no other file changes.
     */
    method TrySendPendingLogs(fs: FileSystem, listing: seq<string>, sendOk: string -> bool)
      modifies fs`files
      ensures logFolder !in fs.directories ==> fs.files == old(fs.files)
      ensures logFolder in fs.directories ==>
                fs.files == old(fs.files) - Elements(PendingPass(listing, currentLogPath, old(fs.files), sendOk))
    {
      if logFolder !in fs.directories {
        return;
      }
      PassDeletesSent(listing, currentLogPath, fs.files, sendOk);
      if |listing| == 0 {
        return;
      }
      ghost var files0 := fs.files;
      var i := 0;
      while i < |listing|
        invariant 0 <= i <= |listing|
        invariant FilesAfterPass(listing[i..], currentLogPath, fs.files, sendOk) == FilesAfterPass(listing, currentLogPath, files0, sendOk)
      {
        var filePath := listing[i];
        FilesAfterPassAt(listing, i, currentLogPath, fs.files, sendOk);
        if Some(filePath) == currentLogPath {
          i := i + 1;
          continue;
        }
        var success := TrySendSingleLog(fs, Some(filePath), sendOk);
        if !success {
          break;
        }
        i := i + 1;
      }
      assert i == |listing| ==> listing[i..] == [];
    }

    /** Start: outside the editor with mail enabled, the pending pass runs (to completion, in this model). */
    method Start(fs: FileSystem, isEditor: bool, listing: seq<string>, sendOk: string -> bool)
      modifies fs`files
      ensures isEditor || !enableEmail || logFolder !in fs.directories ==> fs.files == old(fs.files)
      ensures !isEditor && enableEmail && logFolder in fs.directories ==>
                fs.files == old(fs.files) - Elements(PendingPass(listing, currentLogPath, old(fs.files), sendOk))
    {
      if !isEditor && enableEmail {
        TrySendPendingLogs(fs, listing, sendOk);
      }
    }
  }
}
