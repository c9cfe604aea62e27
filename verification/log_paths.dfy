/**
 * Where a failure log lives: identifiers shortened to their 7-character
 * short form, and the path `<tmp>/rad-orchestrator/<short plan id>/<short task id>.log`
 * built with Node's path.join.
 */
module LogPaths {
  import opened Strings

  /** Length of the short form of a plan or task identifier. */
  const ShortIdLength: nat := 7

  /** Directory under the temporary directory that holds every plan's failure logs. */
  const LogRoot := "rad-orchestrator"

  /** Extension of a failure log file. */
  const LogExtension := ".log"

  /** `id.slice(0, 7)`: the first seven characters, or all of a shorter id. */
  function ShortId(id: string): (r: string)
    ensures |r| == if |id| < ShortIdLength then |id| else ShortIdLength
    ensures r <= id
  {
    if |id| <= ShortIdLength then id else id[..ShortIdLength]
  }

  /** Two ids have the same short form exactly when they agree on their first seven characters (or are equal, if shorter). */
  lemma ShortIdSameIff(id1: string, id2: string)
    requires |id1| >= ShortIdLength && |id2| >= ShortIdLength
    ensures ShortId(id1) == ShortId(id2) <==> id1[..ShortIdLength] == id2[..ShortIdLength]
  {
  }

  /**
   * path.join without its normalisation step: the non-empty segments, in
   * order, separated by '/' (Node skips zero-length arguments).
   */
  function PathJoin(parts: seq<string>): (p: string)
    ensures p == "" <==> forall i :: 0 <= i < |parts| ==> parts[i] == ""
  {
    if parts == [] then ""
    else
      var rest := PathJoin(parts[1..]);
      if parts[0] == "" then rest
      else if rest == "" then parts[0]
      else parts[0] + "/" + rest
  }

  /** Joining two non-empty segments puts one '/' between them. */
  lemma JoinTwo(a: string, b: string)
    requires a != "" && b != ""
    ensures PathJoin([a, b]) == a + "/" + b
  {
    assert [a, b][1..] == [b];
    assert [b][1..] == [];
  }

  /** The directory that holds every plan's failure logs: path.join(tmp, "rad-orchestrator"). */
  function LogRootDir(tmpDir: string): (d: string)
    ensures d == (if tmpDir == "" then "" else tmpDir + "/") + LogRoot
  {
    assert [LogRoot][1..] == [];
    assert PathJoin([LogRoot]) == LogRoot;
    assert [tmpDir, LogRoot][1..] == [LogRoot];
    PathJoin([tmpDir, LogRoot])
  }

  /**
   * The directory of one plan's failure logs: path.join(tmp,
   * "rad-orchestrator", shortId(planId)), which is the log root followed by
   * the plan's short id, or the log root itself when that short id is empty.
   */
  function LogDir(tmpDir: string, planId: string): (d: string)
    ensures d == LogRootDir(tmpDir) + (if ShortId(planId) == "" then "" else "/" + ShortId(planId))
  {
    var s := ShortId(planId);
    assert [s][1..] == [];
    assert [LogRoot, s][1..] == [s];
    assert PathJoin([LogRoot, s]) == LogRoot + (if s == "" then "" else "/" + s);
    assert [tmpDir, LogRoot, s][1..] == [LogRoot, s];
    PathJoin([tmpDir, LogRoot, s])
  }

  /**
   * The file name of one task's failure log, `${shortId(taskId)}.log`: it
   * ends in ".log", and it is a single path segment exactly when the short
   * id holds no '/'.
   */
  function LogFileName(taskId: string): (name: string)
    ensures |name| >= |LogExtension| && name[|name| - |LogExtension|..] == LogExtension
    ensures '/' in name <==> '/' in ShortId(taskId)
  {
    var name := ShortId(taskId) + LogExtension;
    assert name[..|ShortId(taskId)|] == ShortId(taskId);
    assert name[|ShortId(taskId)|..] == LogExtension;
    assert '/' !in LogExtension;
    name
  }

  /** The failure log of one task of one plan: path.join(dir, `${shortId(taskId)}.log`), one '/' between the two. */
  function LogPath(tmpDir: string, planId: string, taskId: string): (p: string)
    ensures p == LogDir(tmpDir, planId) + "/" + LogFileName(taskId)
  {
    JoinTwo(LogDir(tmpDir, planId), LogFileName(taskId));
    PathJoin([LogDir(tmpDir, planId), LogFileName(taskId)])
  }

  /** The text that follows the temporary directory in a log path. */
  function LogSuffix(planShort: string, taskShort: string): string {
    (if planShort == "" then "" else planShort + "/") + taskShort + LogExtension
  }

  /**
   * The layout of a log path: the temporary directory, "rad-orchestrator",
   * the plan's short id (skipped by path.join when empty), then the task's
   * short id with ".log".
   */
  lemma LogPathLayout(tmpDir: string, planId: string, taskId: string)
    requires tmpDir != ""
    ensures LogPath(tmpDir, planId, taskId) ==
      tmpDir + "/" + LogRoot + "/" + LogSuffix(ShortId(planId), ShortId(taskId))
  {
    var s, t := ShortId(planId), ShortId(taskId);
    assert LogPath(tmpDir, planId, taskId) ==
      tmpDir + "/" + LogRoot + (if s == "" then "" else "/" + s) + "/" + (t + LogExtension);
  }

  /**
   * The directory writeFileSync needs to exist for a path that does not end
   * in '/': everything before the last '/', "." when there is no '/'. (A
   * path whose only '/' is its first character gets "/"; no log path takes
   * that form.)
   */
  function Dirname(path: string): (d: string)
    ensures '/' !in path ==> d == "."
  {
    match LastIndexOf(path, '/')
    case None => "."
    case Some(i) => if i == 0 then "/" else path[..i]
  }

  /** The directory of a path made of a non-empty directory, '/', and a name without '/' is that directory. */
  lemma DirnameOfChild(dir: string, name: string)
    requires dir != "" && '/' !in name
    ensures Dirname(dir + "/" + name) == dir
  {
    LastOccurrence(dir, '/', name);
    assert dir + "/" + name == dir + ['/'] + name;
    assert (dir + "/" + name)[..|dir|] == dir;
  }

  /** When the task's short id holds no '/', the log file sits directly in the plan's log directory. */
  lemma LogPathInLogDir(tmpDir: string, planId: string, taskId: string)
    requires '/' !in ShortId(taskId)
    ensures Dirname(LogPath(tmpDir, planId, taskId)) == LogDir(tmpDir, planId)
  {
    DirnameOfChild(LogDir(tmpDir, planId), LogFileName(taskId));
  }

  /** A suffix with a plan directory holds a '/', one without does not. */
  lemma SuffixSeparator(planShort: string, taskShort: string)
    requires '/' !in taskShort
    ensures '/' !in LogSuffix(planShort, taskShort) <==> planShort == ""
  {
    var s := LogSuffix(planShort, taskShort);
    if planShort != "" {
      assert s[|planShort|] == '/';
    } else {
      assert s == taskShort + LogExtension;
      assert forall i :: 0 <= i < |s| ==> s[i] != '/' by {
        forall i | 0 <= i < |s|
          ensures s[i] != '/'
        {
          if i < |taskShort| {
            assert s[i] == taskShort[i];
          } else {
            assert s[i] == LogExtension[i - |taskShort|];
          }
        }
      }
    }
  }

  /** The log suffix determines the two short ids it was built from. */
  lemma LogSuffixInjective(p1: string, t1: string, p2: string, t2: string)
    requires '/' !in p1 && '/' !in t1 && '/' !in p2 && '/' !in t2
    requires LogSuffix(p1, t1) == LogSuffix(p2, t2)
    ensures p1 == p2 && t1 == t2
  {
    SuffixSeparator(p1, t1);
    SuffixSeparator(p2, t2);
    assert (p1 == "") == (p2 == "");
    if p1 != "" {
      assert LogSuffix(p1, t1) == p1 + ['/'] + (t1 + LogExtension);
      assert LogSuffix(p2, t2) == p2 + ['/'] + (t2 + LogExtension);
      SplitAtFirst(p1, t1 + LogExtension, p2, t2 + LogExtension, '/');
    } else {
      assert LogSuffix(p1, t1) == t1 + LogExtension;
      assert LogSuffix(p2, t2) == t2 + LogExtension;
    }
    assert t1 + LogExtension == t2 + LogExtension;
    assert t1 == (t1 + LogExtension)[..|t1|];
    assert t2 == (t2 + LogExtension)[..|t2|];
  }

  /**
   * Within one temporary directory, two failure logs share a path exactly
   * when their plans and their tasks share short ids, as long as no short id
   * contains a '/' and no plan's short id is "." or ".." (the cases in which
   * path.join would normalise the path).
   */
  lemma LogPathKeyedByShortIds(tmpDir: string, planId1: string, taskId1: string, planId2: string, taskId2: string)
    requires tmpDir != ""
    requires '/' !in ShortId(planId1) && '/' !in ShortId(taskId1)
    requires '/' !in ShortId(planId2) && '/' !in ShortId(taskId2)
    requires ShortId(planId1) !in {".", ".."} && ShortId(planId2) !in {".", ".."}
    ensures LogPath(tmpDir, planId1, taskId1) == LogPath(tmpDir, planId2, taskId2) <==>
      ShortId(planId1) == ShortId(planId2) && ShortId(taskId1) == ShortId(taskId2)
  {
    LogPathLayout(tmpDir, planId1, taskId1);
    LogPathLayout(tmpDir, planId2, taskId2);
    var prefix := tmpDir + "/" + LogRoot + "/";
    var s1 := LogSuffix(ShortId(planId1), ShortId(taskId1));
    var s2 := LogSuffix(ShortId(planId2), ShortId(taskId2));
    if LogPath(tmpDir, planId1, taskId1) == LogPath(tmpDir, planId2, taskId2) {
      assert prefix + s1 == prefix + s2;
      assert s1 == (prefix + s1)[|prefix|..];
      assert s2 == (prefix + s2)[|prefix|..];
      LogSuffixInjective(ShortId(planId1), ShortId(taskId1), ShortId(planId2), ShortId(taskId2));
    }
  }

  /**
   * Two distinct task ids that agree on their first seven characters get the
   * same log path within a plan: the short form is not a unique key.
   */
  lemma SharedPrefixSharesLogPath(tmpDir: string, planId: string, taskId1: string, taskId2: string)
    requires |taskId1| >= ShortIdLength && |taskId2| >= ShortIdLength
    requires taskId1[..ShortIdLength] == taskId2[..ShortIdLength]
    ensures LogPath(tmpDir, planId, taskId1) == LogPath(tmpDir, planId, taskId2)
  {
    ShortIdSameIff(taskId1, taskId2);
  }

  /**
   * The path the first scenario of the failure-log tests expects, for any
   * plan id starting "aaa1111" and task id starting "bbb1111" (the tests use
   * 43-character ids).
   */
  lemma ExampleLogPath(tmpDir: string, planId: string, taskId: string)
    requires tmpDir != ""
    requires |planId| >= ShortIdLength && planId[..ShortIdLength] == "aaa1111"
    requires |taskId| >= ShortIdLength && taskId[..ShortIdLength] == "bbb1111"
    ensures LogPath(tmpDir, planId, taskId) == tmpDir + "/" + LogRoot + "/" + ("aaa1111" + "/") + "bbb1111" + LogExtension
  {
    assert ShortId(planId) == "aaa1111";
    assert ShortId(taskId) == "bbb1111";
    LogPathLayout(tmpDir, planId, taskId);
  }
}
