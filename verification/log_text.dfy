/**
 * What a failure log says: a failed worker's result serialised as ten
 * entries joined with "\n" (the last, the captured stderr, may itself span
 * several lines), and a reader that recovers the record from that text.
 */
module LogText {
  import opened Wrappers
  import opened Strings
  import opened NumberText

  /** The result record of a worker run, as the orchestrator hands it to the failure log. */
  datatype WorkerResult = WorkerResult(
    taskId: string,
    taskSubject: string,
    success: bool,
    exitCode: int,
    stderr: string,
    worktreePath: string,
    turns: nat,
    cost: real)

  /** Header line that separates the summary from the captured stderr. */
  const StderrHeader := "--- stderr ---"

  /** Body written when the worker printed nothing on stderr. */
  const EmptyStderr := "(empty)"

  /** Text of the Cost line: a dollar amount to four places when positive, "n/a" otherwise. */
  function CostText(cost: real): (t: string)
    ensures t == "n/a" <==> cost <= 0.0
    ensures cost > 0.0 ==> |t| >= 7 && t[0] == '$' && t[1..] == Fixed4(cost)
  {
    if cost > 0.0 then "$" + Fixed4(cost) else "n/a"
  }

  /** `stderr || "(empty)"`: the captured text, or the placeholder when there was none. */
  function StderrBody(stderr: string): (body: string)
    ensures stderr != "" ==> body == stderr
    ensures stderr == "" ==> body == EmptyStderr
    ensures body != ""
  {
    if stderr == "" then EmptyStderr else stderr
  }

  /** A labelled line "<name>: <value>". */
  function Line(name: string, value: string): string {
    name + ": " + value
  }

  /**
   * The nine lines of a failure log that come before the stderr body, in
   * order; the timestamp is supplied by the caller.
   */
  function SummaryLines(r: WorkerResult, timestamp: string): (lines: seq<string>)
    ensures |lines| == 9
  {
    [ Line("Task", r.taskId),
      Line("Subject", r.taskSubject),
      Line("Exit code", IntToText(r.exitCode)),
      Line("Turns", NatToText(r.turns)),
      Line("Cost", CostText(r.cost)),
      Line("Worktree", r.worktreePath),
      Line("Timestamp", timestamp),
      "",
      StderrHeader ]
  }

  /** The ten entries of a failure log: the summary lines, then the stderr body, which may hold line breaks of its own. */
  function LogLines(r: WorkerResult, timestamp: string): (lines: seq<string>)
    ensures |lines| == 10 && lines[9] == StderrBody(r.stderr)
  {
    SummaryLines(r, timestamp) + [StderrBody(r.stderr)]
  }

  /** `lines.join("\n")`: built left to right, a line break before every line but the first. */
  function JoinLines(lines: seq<string>): (s: string)
    ensures lines == [] ==> s == ""
    ensures lines != [] ==> lines[0] <= s
    ensures |lines| > 1 ==> lines[0] + "\n" <= s
  {
    if lines == [] then ""
    else if |lines| == 1 then lines[0]
    else JoinLines(lines[..|lines| - 1]) + "\n" + lines[|lines| - 1]
  }

  /** The whole text written to the log file. */
  function RenderLog(r: WorkerResult, timestamp: string): (text: string)
    ensures Line("Task", r.taskId) + "\n" <= text
  {
    var lines := LogLines(r, timestamp);
    assert lines[0] == Line("Task", r.taskId);
    JoinLines(lines)
  }

  /** Joining peels off from the front as well: the first line, a break, then the rest joined. */
  lemma {:induction false} JoinLinesCons(line: string, rest: seq<string>)
    requires rest != []
    ensures JoinLines([line] + rest) == line + "\n" + JoinLines(rest)
  {
    var s := [line] + rest;
    var last := rest[|rest| - 1];
    if |rest| == 1 {
      assert s[..|s| - 1] == [line];
    } else {
      var front := rest[..|rest| - 1];
      assert s[..|s| - 1] == [line] + front;
      JoinLinesCons(line, front);
      calc {
        JoinLines(s);
        JoinLines([line] + front) + "\n" + last;
        (line + "\n" + JoinLines(front)) + "\n" + last;
        line + "\n" + (JoinLines(front) + "\n" + last);
        line + "\n" + JoinLines(rest);
      }
    }
  }

  /**
   * The text of a failure log: the seven labelled summary lines, a blank
   * line, the stderr header and the stderr body, each separated by one line
   * break and with none after the last.
   */
  lemma RenderedLogText(r: WorkerResult, timestamp: string)
    ensures RenderLog(r, timestamp) ==
      Line("Task", r.taskId) + "\n" +
      Line("Subject", r.taskSubject) + "\n" +
      Line("Exit code", IntToText(r.exitCode)) + "\n" +
      Line("Turns", NatToText(r.turns)) + "\n" +
      Line("Cost", CostText(r.cost)) + "\n" +
      Line("Worktree", r.worktreePath) + "\n" +
      Line("Timestamp", timestamp) + "\n" +
      "\n" +
      StderrHeader + "\n" +
      StderrBody(r.stderr)
  {
    var l := LogLines(r, timestamp);
    JoinTen(l[0], l[1], l[2], l[3], l[4], l[5], l[6], l[7], l[8], l[9]);
    assert l == [l[0], l[1], l[2], l[3], l[4], l[5], l[6], l[7], l[8], l[9]];
  }

  lemma JoinTen(a0: string, a1: string, a2: string, a3: string, a4: string,
                a5: string, a6: string, a7: string, a8: string, a9: string)
    ensures JoinLines([a0, a1, a2, a3, a4, a5, a6, a7, a8, a9]) ==
      a0 + "\n" + a1 + "\n" + a2 + "\n" + a3 + "\n" + a4 + "\n" +
      a5 + "\n" + a6 + "\n" + a7 + "\n" + a8 + "\n" + a9
  {
    var l := [a0, a1, a2, a3, a4, a5, a6, a7, a8, a9];
    assert l[..2][..1] == [a0];
    assert JoinLines(l[..2]) == a0 + "\n" + a1;
    assert l[..3][..2] == l[..2];
    assert JoinLines(l[..3]) == a0 + "\n" + a1 + "\n" + a2;
    assert l[..4][..3] == l[..3];
    assert JoinLines(l[..4]) == a0 + "\n" + a1 + "\n" + a2 + "\n" + a3;
    assert l[..5][..4] == l[..4];
    assert JoinLines(l[..5]) == a0 + "\n" + a1 + "\n" + a2 + "\n" + a3 + "\n" + a4;
    assert l[..6][..5] == l[..5];
    assert JoinLines(l[..6]) == a0 + "\n" + a1 + "\n" + a2 + "\n" + a3 + "\n" + a4 + "\n" + a5;
    assert l[..7][..6] == l[..6];
    assert JoinLines(l[..7]) == a0 + "\n" + a1 + "\n" + a2 + "\n" + a3 + "\n" + a4 + "\n" + a5 + "\n" + a6;
    assert l[..8][..7] == l[..7];
    assert JoinLines(l[..8]) == a0 + "\n" + a1 + "\n" + a2 + "\n" + a3 + "\n" + a4 + "\n" + a5 + "\n" + a6
      + "\n" + a7;
    assert l[..9][..8] == l[..8];
    assert JoinLines(l[..9]) == a0 + "\n" + a1 + "\n" + a2 + "\n" + a3 + "\n" + a4 + "\n" + a5 + "\n" + a6
      + "\n" + a7 + "\n" + a8;
    assert l[..|l| - 1] == l[..9];
  }

  /** The first n lines of s and whatever follows the n-th line break. */
  function SplitLines(s: string, n: nat): (r: Option<(seq<string>, string)>)
    ensures r.Some? ==> |r.value.0| == n
    ensures r.Some? ==> forall i :: 0 <= i < n ==> '\n' !in r.value.0[i]
  {
    if n == 0 then Some(([], s))
    else
      match IndexOf(s, '\n')
      case None => None
      case Some(i) =>
        match SplitLines(s[i + 1..], n - 1)
        case None => None
        case Some(p) => Some(([s[..i]] + p.0, p.1))
  }

  /** Lines without line breaks, joined and then split again, come back unchanged. */
  lemma {:induction false} SplitJoinedLines(lines: seq<string>, last: string)
    requires forall i :: 0 <= i < |lines| ==> '\n' !in lines[i]
    ensures SplitLines(JoinLines(lines + [last]), |lines|) == Some((lines, last))
  {
    if lines != [] {
      var tail := lines[1..] + [last];
      assert lines + [last] == [lines[0]] + tail;
      var s := JoinLines(lines + [last]);
      JoinLinesCons(lines[0], tail);
      assert s == lines[0] + ['\n'] + JoinLines(tail);
      FirstOccurrence(lines[0], '\n', JoinLines(tail));
      assert s[..|lines[0]|] == lines[0];
      assert s[|lines[0]| + 1..] == JoinLines(tail);
      SplitJoinedLines(lines[1..], last);
      assert [lines[0]] + lines[1..] == lines;
    }
  }

  /** What a failure log records, read back from its text. */
  datatype LogRecord = LogRecord(
    taskId: string,
    subject: string,
    exitCode: int,
    turns: nat,
    cost: Option<nat>,  // in ten-thousandths of a dollar; None for "n/a"
    worktreePath: string,
    timestamp: string,
    stderrBody: string)

  /** The value of a line "<name>: <value>". */
  function Field(line: string, name: string): (r: Option<string>)
    ensures r.Some? <==> exists v :: line == Line(name, v)
    ensures r.Some? ==> line == Line(name, r.value)
  {
    var prefix := name + ": ";
    if prefix <= line then
      assert line == Line(name, line[|prefix|..]);
      Some(line[|prefix|..])
    else
      None
  }

  /** The field of a labelled line is the value it was written with. */
  lemma FieldOfLine(name: string, value: string)
    ensures Field(Line(name, value), name) == Some(value)
  {
    assert Line(name, value)[|name + ": "|..] == value;
  }

  /** The amount on a Cost line: None for "n/a", the scaled dollar amount otherwise. */
  function ParseCost(text: string): Option<Option<nat>> {
    if text == "n/a" then Some(None)
    else if |text| > 0 && text[0] == '$' then
      match ParseFixed4(text[1..])
      case Some(n) => Some(Some(n))
      case None => None
    else None
  }

  function IntField(line: string, name: string): Option<int> {
    match Field(line, name)
    case Some(v) => ParseInt(v)
    case None => None
  }

  function NatField(line: string, name: string): Option<nat> {
    match Field(line, name)
    case Some(v) => ParseNat(v)
    case None => None
  }

  function CostField(line: string): Option<Option<nat>> {
    match Field(line, "Cost")
    case Some(v) => ParseCost(v)
    case None => None
  }

  /**
   * Reads a failure log: nine single lines with their labels, a blank line
   * and the stderr header among them, then the stderr body, which may span
   * several lines.
   */
  function ParseLog(content: string): (r: Option<LogRecord>)
    ensures r.Some? ==> '\n' !in r.value.taskId && '\n' !in r.value.subject
    ensures r.Some? ==> '\n' !in r.value.worktreePath && '\n' !in r.value.timestamp
  {
    match SplitLines(content, 9)
    case None => None
    case Some(split) => ParseSummary(split.0, split.1)
  }

  /** The record named by the nine summary lines, with the stderr body that follows them. */
  function ParseSummary(lines: seq<string>, body: string): Option<LogRecord>
    requires |lines| == 9
  {
    var task := Field(lines[0], "Task");
    var subject := Field(lines[1], "Subject");
    var exitCode := IntField(lines[2], "Exit code");
    var turns := NatField(lines[3], "Turns");
    var cost := CostField(lines[4]);
    var worktree := Field(lines[5], "Worktree");
    var timestamp := Field(lines[6], "Timestamp");
    if task.Some? && subject.Some? && exitCode.Some? && turns.Some? && cost.Some?
       && worktree.Some? && timestamp.Some? && lines[7] == "" && lines[8] == StderrHeader
    then
      Some(LogRecord(task.value, subject.value, exitCode.value, turns.value, cost.value,
                     worktree.value, timestamp.value, body))
    else
      None
  }

  /** The scaled amount a cost is logged as: none unless strictly positive. */
  function LoggedCost(cost: real): Option<nat> {
    if cost > 0.0 then Some(RoundScaled(cost)) else None
  }

  lemma DigitsSingleLine(s: string)
    requires AllDigits(s)
    ensures '\n' !in s && '$' !in s
  {
  }

  /** A four-place decimal printed by toFixed holds no line break. */
  lemma Fixed4SingleLine(x: real)
    requires x >= 0.0
    ensures '\n' !in Fixed4(x)
  {
    var f := Fixed4(x);
    assert !IsDigit('\n');
  }

  /** The Cost line holds no line break, and reads back as the rounded amount, or as none for "n/a". */
  lemma CostTextReadsBack(cost: real)
    ensures ParseCost(CostText(cost)) == Some(LoggedCost(cost))
    ensures '\n' !in CostText(cost)
  {
    if cost > 0.0 {
      var t := CostText(cost);
      assert t[1..] == Fixed4(cost);
      Fixed4RoundTrip(cost);
      Fixed4SingleLine(cost);
    }
  }

  /**
   * Reading back a rendered log recovers every field of the result: the
   * identifiers and paths verbatim, the numbers exactly, the cost rounded to
   * ten-thousandths (absent when not positive), and the stderr body (the
   * placeholder when stderr was empty). This holds whenever the single-line
   * fields contain no line break; stderr may contain any.
   */
  lemma ParseRenderedLog(r: WorkerResult, timestamp: string)
    requires '\n' !in r.taskId && '\n' !in r.taskSubject
    requires '\n' !in r.worktreePath && '\n' !in timestamp
    ensures ParseLog(RenderLog(r, timestamp)) ==
      Some(LogRecord(r.taskId, r.taskSubject, r.exitCode, r.turns, LoggedCost(r.cost),
                     r.worktreePath, timestamp, StderrBody(r.stderr)))
  {
    var head := SummaryLines(r, timestamp);
    var body := StderrBody(r.stderr);
    assert SplitLines(RenderLog(r, timestamp), 9) == Some((head, body)) by {
      SummarySingleLines(r, timestamp);
      SplitJoinedLines(head, body);
    }
    SummaryFields(r, timestamp);
  }

  /** None of the summary lines breaks, when the fields it copies do not. */
  lemma SummarySingleLines(r: WorkerResult, timestamp: string)
    requires '\n' !in r.taskId && '\n' !in r.taskSubject
    requires '\n' !in r.worktreePath && '\n' !in timestamp
    ensures forall i :: 0 <= i < 9 ==> '\n' !in SummaryLines(r, timestamp)[i]
  {
    IntTextSingleLine(r.exitCode);
    DigitsSingleLine(NatToText(r.turns));
    CostTextReadsBack(r.cost);
    LabelledSummarySingle(r.taskId, r.taskSubject, IntToText(r.exitCode), NatToText(r.turns),
                          CostText(r.cost), r.worktreePath, timestamp);
  }

  lemma LabelledSummarySingle(task: string, subject: string, exitText: string, turnsText: string,
                              costText: string, worktree: string, timestamp: string)
    requires '\n' !in task && '\n' !in subject && '\n' !in exitText && '\n' !in turnsText
    requires '\n' !in costText && '\n' !in worktree && '\n' !in timestamp
    ensures var lines := [ Line("Task", task), Line("Subject", subject), Line("Exit code", exitText),
                           Line("Turns", turnsText), Line("Cost", costText), Line("Worktree", worktree),
                           Line("Timestamp", timestamp), "", StderrHeader ];
      forall i :: 0 <= i < 9 ==> '\n' !in lines[i]
  {
  }

  lemma IntTextSingleLine(i: int)
    ensures '\n' !in IntToText(i)
  {
    DigitsSingleLine(NatToText(if i < 0 then -i else i));
  }

  /** Nine labelled lines with readable values parse as the record holding those values. */
  lemma ParseLabelledSummary(task: string, subject: string, exitText: string, turnsText: string,
                             costText: string, worktree: string, timestamp: string, body: string)
    requires ParseInt(exitText).Some? && ParseNat(turnsText).Some? && ParseCost(costText).Some?
    ensures ParseSummary(
      [ Line("Task", task), Line("Subject", subject), Line("Exit code", exitText),
        Line("Turns", turnsText), Line("Cost", costText), Line("Worktree", worktree),
        Line("Timestamp", timestamp), "", StderrHeader ], body) ==
      Some(LogRecord(task, subject, ParseInt(exitText).value, ParseNat(turnsText).value,
                     ParseCost(costText).value, worktree, timestamp, body))
  {
    FieldOfLine("Task", task);
    FieldOfLine("Subject", subject);
    FieldOfLine("Exit code", exitText);
    FieldOfLine("Turns", turnsText);
    FieldOfLine("Cost", costText);
    FieldOfLine("Worktree", worktree);
    FieldOfLine("Timestamp", timestamp);
  }

  /** Each summary line of a log reads back as the field it was written from. */
  lemma SummaryFields(r: WorkerResult, timestamp: string)
    ensures ParseSummary(SummaryLines(r, timestamp), StderrBody(r.stderr)) ==
      Some(LogRecord(r.taskId, r.taskSubject, r.exitCode, r.turns, LoggedCost(r.cost),
                     r.worktreePath, timestamp, StderrBody(r.stderr)))
  {
    IntTextRoundTrip(r.exitCode);
    NatTextRoundTrip(r.turns);
    CostTextReadsBack(r.cost);
    ParseLabelledSummary(r.taskId, r.taskSubject, IntToText(r.exitCode), NatToText(r.turns),
                         CostText(r.cost), r.worktreePath, timestamp, StderrBody(r.stderr));
  }

  /** An empty stderr and a stderr reading "(empty)" leave the same log: the placeholder is not a unique marker. */
  lemma EmptyPlaceholderAmbiguous()
    ensures StderrBody("") == StderrBody(EmptyStderr)
  {
  }

  /** The Cost lines the failure-log tests expect for a zero cost and for $0.0512. */
  lemma ExampleCosts()
    ensures CostText(0.0) == "n/a"
    ensures CostText(0.0512) == "$0.0512"
  {
    assert RoundScaled(0.0512) == 512;
    assert NatToText(512) == "512" by {
      assert NatToText(51) == "51";
    }
    assert PadToFive("512") == "00512";
  }

  /** toFixed(4) pads a cent with trailing zeros: $0.0100. */
  lemma ExampleCostCent()
    ensures CostText(0.01) == "$0.0100"
  {
    assert RoundScaled(0.01) == 100;
    assert NatToText(100) == "100" by {
      assert NatToText(10) == "10";
    }
    assert PadToFive("100") == "00100";
  }
}
