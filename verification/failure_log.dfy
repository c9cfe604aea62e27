/**
 * writeFailureLog: the orchestrator's record of a failed worker, stored in
 * a file system held as a map from path to content, one file per plan and
 * task, replaced on every later failure of the same task.
 */
module FailureLog {
  import opened Wrappers
  import opened LogPaths
  import opened LogText

  /** The file contents after a failure log is written: one path set to the rendered log, every other path as it was. */
  function WithFailureLog(files: map<string, string>, tmpDir: string, planId: string,
                          result: WorkerResult, timestamp: string): (after: map<string, string>)
    ensures LogPath(tmpDir, planId, result.taskId) in after
    ensures after[LogPath(tmpDir, planId, result.taskId)] == RenderLog(result, timestamp)
    ensures after.Keys == files.Keys + {LogPath(tmpDir, planId, result.taskId)}
    ensures forall p :: p in files && p != LogPath(tmpDir, planId, result.taskId) ==> after[p] == files[p]
  {
    files[LogPath(tmpDir, planId, result.taskId) := RenderLog(result, timestamp)]
  }

  /**
   * The directories mkdirSync(dir, { recursive: true }) leaves in place for a
   * plan's logs: the log root and the plan's directory, each a prefix of the
   * plan directory's path.
   */
  function LogDirs(tmpDir: string, planId: string): (ds: set<string>)
    ensures LogRootDir(tmpDir) in ds && LogDir(tmpDir, planId) in ds
    ensures forall d :: d in ds ==> d <= LogDir(tmpDir, planId)
  {
    {LogRootDir(tmpDir), LogDir(tmpDir, planId)}
  }

  /** Why writing a failure log throws: the Node error it stands for is named beside each case. */
  datatype WriteError =
    | NotADirectory(path: string)   // mkdirSync: a file sits where a log directory should be (EEXIST or ENOTDIR)
    | IsADirectory(path: string)    // writeFileSync: a directory sits at the log path (EISDIR)
    | NoSuchDirectory(path: string) // writeFileSync: the log file's directory was never created (ENOENT)

  /** What a call of writeFailureLog ends with: the path it wrote, or the error it threw. */
  datatype WriteOutcome = Written(logPath: string) | Failed(error: WriteError)

  /**
   * The error writing a failure log throws on a file system with these files
   * and directories, if any, in the order the source meets them: the log
   * directories first, then the log file. The directory the log file goes
   * in is the plan's log directory unless the task's short id contains '/'.
   */
  function FailureLogError(files: map<string, string>, dirs: set<string>,
                           tmpDir: string, planId: string, taskId: string): (e: Option<WriteError>)
    ensures e.None? ==> LogDirs(tmpDir, planId) !! files.Keys
    ensures e.None? ==> LogPath(tmpDir, planId, taskId) !in dirs + LogDirs(tmpDir, planId)
    ensures e.None? ==> Dirname(LogPath(tmpDir, planId, taskId)) in dirs + LogDirs(tmpDir, planId)
  {
    var root := LogRootDir(tmpDir);
    var dir := LogDir(tmpDir, planId);
    var logPath := LogPath(tmpDir, planId, taskId);
    var after := dirs + {root, dir};
    if root in files then Some(NotADirectory(root))
    else if dir in files then Some(NotADirectory(dir))
    else if logPath in after then Some(IsADirectory(logPath))
    else if Dirname(logPath) !in after then Some(NoSuchDirectory(Dirname(logPath)))
    else None
  }

  /** The part of the file system the failure log touches: files by path, and directories. */
  class FileSystem {
    var files: map<string, string>
    var dirs: set<string>

    /** No path is both a file and a directory. */
    predicate Valid()
      reads this
    {
      files.Keys !! dirs
    }

    constructor (files: map<string, string>, dirs: set<string>)
      requires files.Keys !! dirs
      ensures Valid()
      ensures this.files == files && this.dirs == dirs
    {
      this.files := files;
      this.dirs := dirs;
    }

    /** readFileSync: the content stored at a path, if there is a file there. */
    function Read(path: string): (r: Option<string>)
      reads this
      ensures r.Some? <==> path in files
      ensures r.Some? ==> r.value == files[path]
    {
      if path in files then Some(files[path]) else None
    }

    /**
     * Creates the plan's log directory, writes the failed result's log to
     * `<tmp>/rad-orchestrator/<short plan id>/<short task id>.log`,
     * replacing any earlier log there, and returns that path; or fails with
     * the error the source throws, leaving the files as they were (and the
     * directories too when mkdirSync is what failed). The temporary
     * directory and the timestamp are supplied by the caller.
     */
    method WriteFailureLog(tmpDir: string, planId: string, result: WorkerResult, timestamp: string)
      returns (outcome: WriteOutcome)
      requires Valid()
      modifies this
      ensures Valid()
      ensures var e := FailureLogError(old(files), old(dirs), tmpDir, planId, result.taskId);
        match e
        case Some(err) =>
          && outcome == Failed(err)
          && files == old(files)
          && dirs == if err.NotADirectory? then old(dirs) else old(dirs) + LogDirs(tmpDir, planId)
        case None =>
          && outcome == Written(LogPath(tmpDir, planId, result.taskId))
          && files == WithFailureLog(old(files), tmpDir, planId, result, timestamp)
          && dirs == old(dirs) + LogDirs(tmpDir, planId)
          && Read(outcome.logPath) == Some(RenderLog(result, timestamp))
    {
      var root := PathJoin([tmpDir, LogRoot]);
      var dir := LogDir(tmpDir, planId);
      if root in files {
        return Failed(NotADirectory(root));
      }
      if dir in files {
        return Failed(NotADirectory(dir));
      }
      dirs := dirs + {root, dir};
      var logPath := PathJoin([dir, LogFileName(result.taskId)]);
      if logPath in dirs {
        return Failed(IsADirectory(logPath));
      }
      var parent := Dirname(logPath);
      if parent !in dirs {
        return Failed(NoSuchDirectory(parent));
      }
      var lines := LogLines(result, timestamp);
      files := files[logPath := JoinLines(lines)];
      outcome := Written(logPath);
    }
  }

  /**
   * On a file system where no file sits in the way of the log directories
   * and no directory at the log path, a task whose short id holds no '/'
   * gets its log written.
   */
  lemma WriteSucceeds(files: map<string, string>, dirs: set<string>,
                      tmpDir: string, planId: string, taskId: string)
    requires '/' !in ShortId(taskId)
    requires LogDirs(tmpDir, planId) !! files.Keys
    requires LogPath(tmpDir, planId, taskId) !in dirs
    ensures FailureLogError(files, dirs, tmpDir, planId, taskId) == None
  {
    LogPathInLogDir(tmpDir, planId, taskId);
    var path := LogPath(tmpDir, planId, taskId);
    assert |path| > |LogDir(tmpDir, planId)| >= |LogRootDir(tmpDir)|;
  }

  /**
   * A write that succeeded leaves a file system on which a second failure
   * of the same task (by short id) succeeds too: the retry of the tests
   * does not throw.
   */
  lemma RetrySucceeds(files: map<string, string>, dirs: set<string>, tmpDir: string, planId: string,
                      first: WorkerResult, firstAt: string, second: WorkerResult)
    requires ShortId(first.taskId) == ShortId(second.taskId)
    requires FailureLogError(files, dirs, tmpDir, planId, first.taskId) == None
    ensures FailureLogError(WithFailureLog(files, tmpDir, planId, first, firstAt),
                            dirs + LogDirs(tmpDir, planId), tmpDir, planId, second.taskId) == None
  {
  }

  /**
   * A retry that fails again for the same plan and task short id writes to
   * the same path, and leaves only the second log: the two writes together
   * are the second write alone.
   */
  lemma RetryOverwrites(files: map<string, string>, tmpDir: string, planId: string,
                        first: WorkerResult, firstAt: string, second: WorkerResult, secondAt: string)
    requires ShortId(first.taskId) == ShortId(second.taskId)
    ensures LogPath(tmpDir, planId, first.taskId) == LogPath(tmpDir, planId, second.taskId)
    ensures WithFailureLog(WithFailureLog(files, tmpDir, planId, first, firstAt), tmpDir, planId, second, secondAt)
         == WithFailureLog(files, tmpDir, planId, second, secondAt)
  {
    var once := WithFailureLog(files, tmpDir, planId, second, secondAt);
    var twice := WithFailureLog(WithFailureLog(files, tmpDir, planId, first, firstAt), tmpDir, planId, second, secondAt);
    assert twice.Keys == once.Keys;
  }

  /**
   * After a retry, the log reads back as the second failure's record, with
   * the second run's exit code, cost and stderr and nothing of the first.
   */
  lemma RetryLogReadsSecond(files: map<string, string>, tmpDir: string, planId: string,
                            first: WorkerResult, firstAt: string, second: WorkerResult, secondAt: string)
    requires ShortId(first.taskId) == ShortId(second.taskId)
    requires '\n' !in second.taskId && '\n' !in second.taskSubject
    requires '\n' !in second.worktreePath && '\n' !in secondAt
    ensures var after := WithFailureLog(WithFailureLog(files, tmpDir, planId, first, firstAt),
                                        tmpDir, planId, second, secondAt);
      ParseLog(after[LogPath(tmpDir, planId, first.taskId)]) ==
        Some(LogRecord(second.taskId, second.taskSubject, second.exitCode, second.turns,
                       LoggedCost(second.cost), second.worktreePath, secondAt, StderrBody(second.stderr)))
  {
    RetryOverwrites(files, tmpDir, planId, first, firstAt, second, secondAt);
    ParseRenderedLog(second, secondAt);
  }

  /**
   * A failure log of another plan or another task (by short id) leaves an
   * existing log untouched, provided no short id contains a '/' and no
   * plan's short id is "." or "..".
   */
  lemma OtherLogUntouched(files: map<string, string>, tmpDir: string,
                          planId: string, result: WorkerResult, timestamp: string,
                          otherPlanId: string, other: WorkerResult, otherAt: string)
    requires tmpDir != ""
    requires '/' !in ShortId(planId) && '/' !in ShortId(result.taskId)
    requires '/' !in ShortId(otherPlanId) && '/' !in ShortId(other.taskId)
    requires ShortId(planId) !in {".", ".."} && ShortId(otherPlanId) !in {".", ".."}
    requires ShortId(planId) != ShortId(otherPlanId) || ShortId(result.taskId) != ShortId(other.taskId)
    ensures var after := WithFailureLog(WithFailureLog(files, tmpDir, planId, result, timestamp),
                                        tmpDir, otherPlanId, other, otherAt);
      after[LogPath(tmpDir, planId, result.taskId)] == RenderLog(result, timestamp)
  {
    LogPathKeyedByShortIds(tmpDir, planId, result.taskId, otherPlanId, other.taskId);
  }

  /**
   * Two different task ids sharing their first seven characters collide: the
   * later failure replaces the earlier task's log, which is then lost.
   */
  lemma CollidingTasksShareLog(files: map<string, string>, tmpDir: string, planId: string,
                               first: WorkerResult, firstAt: string, second: WorkerResult, secondAt: string)
    requires |first.taskId| >= ShortIdLength && |second.taskId| >= ShortIdLength
    requires first.taskId[..ShortIdLength] == second.taskId[..ShortIdLength]
    ensures var after := WithFailureLog(WithFailureLog(files, tmpDir, planId, first, firstAt),
                                        tmpDir, planId, second, secondAt);
      after[LogPath(tmpDir, planId, first.taskId)] == RenderLog(second, secondAt)
  {
    SharedPrefixSharesLogPath(tmpDir, planId, first.taskId, second.taskId);
  }
}
