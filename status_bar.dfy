/** The log view of the status bar
    (packages/electron-app/src/ui/components/status-bar/index.tsx):
    grouping of logs under their parent and the one-line summary of the last
    log message. Times are integers here. */
module StatusBar {
  import opened Wrappers
  import opened Seqs

  /** One logger entry. `parent` is the id of the entry it belongs under;
      ids are strings, so an empty parent id counts as no parent. */
  datatype Log = Log(id: string, parent: Option<string>, time: int, message: string, logType: string)

  /** A log together with the time elapsed since the previous log. */
  datatype TimedLog = TimedLog(log: Log, diff: int)

  /** A top-level log and the logs directly under it. */
  datatype LogGroup = LogGroup(entry: TimedLog, children: seq<TimedLog>)

  /** `!log.parent`: the parent is missing or the empty string. */
  predicate HasNoParent(l: Log) {
    l.parent.None? || l.parent.value == ""
  }

  predicate IsRoot(t: TimedLog) {
    HasNoParent(t.log)
  }

  /** The time since the previous log of the ungrouped list; 0 for the first. */
  function DiffAt(logs: seq<Log>, i: nat): int
    requires i < |logs|
  {
    if i == 0 then 0 else logs[i].time - logs[i - 1].time
  }

  /** Each log with the time since the log before it. */
  function WithDiffs(logs: seq<Log>): (r: seq<TimedLog>)
    ensures |r| == |logs|
    ensures forall i :: 0 <= i < |r| ==> r[i] == TimedLog(logs[i], DiffAt(logs, i))
  {
    seq(|logs|, i requires 0 <= i < |logs| => TimedLog(logs[i], DiffAt(logs, i)))
  }

  function SumDiffs(ts: seq<TimedLog>): int {
    if ts == [] then 0 else SumDiffs(ts[..|ts| - 1]) + ts[|ts| - 1].diff
  }

  /** The sum of the first `i + 1` diffs of a list carrying the diffs of
      `logs` is the time from the first log to log `i`. */
  lemma {:induction false} Telescope(logs: seq<Log>, ts: seq<TimedLog>, i: nat)
    requires |ts| == |logs| && i < |logs|
    requires forall j :: 0 <= j < |ts| ==> ts[j].diff == DiffAt(logs, j)
    ensures logs[0].time + SumDiffs(ts[..i + 1]) == logs[i].time
  {
    if i > 0 {
      assert ts[..i + 1][..i] == ts[..i];
      Telescope(logs, ts, i - 1);
    }
  }

  /** The diffs telescope: the first log's time plus the diffs up to log `i`
      is log `i`'s time, so each diff is measured against the previous log
      of the ungrouped list. */
  lemma DiffsTelescope(logs: seq<Log>, i: nat)
    requires i < |logs|
    ensures logs[0].time + SumDiffs(WithDiffs(logs)[..i + 1]) == logs[i].time
  {
    Telescope(logs, WithDiffs(logs), i);
  }

  /** The logs directly under the log with id `id`, in their original order. */
  function ChildrenOf(ts: seq<TimedLog>, id: string): (r: seq<TimedLog>)
    ensures |r| <= |ts|
    ensures forall i :: 0 <= i < |r| ==> r[i] in ts && r[i].log.parent == Some(id)
    ensures forall i :: 0 <= i < |ts| && ts[i].log.parent == Some(id) ==> ts[i] in r
  {
    Filter(ts, (t: TimedLog) => t.log.parent == Some(id))
  }

  /** The children keep their original order: collecting them from a
      concatenation is collecting them from each part. */
  lemma ChildrenOfAppend(a: seq<TimedLog>, b: seq<TimedLog>, id: string)
    ensures ChildrenOf(a + b, id) == ChildrenOf(a, id) + ChildrenOf(b, id)
  {
    FilterAppend(a, b, (t: TimedLog) => t.log.parent == Some(id));
  }

  /** `formatLogs`: one group per log without a parent, in the original
      order, each holding the logs whose parent is that log's id. */
  function FormatLogs(logs: seq<Log>): (r: seq<LogGroup>)
    ensures |r| == |Filter(WithDiffs(logs), IsRoot)|
    ensures forall i :: 0 <= i < |r| ==> r[i].entry == Filter(WithDiffs(logs), IsRoot)[i]
    ensures forall i :: 0 <= i < |r| ==> r[i].entry in WithDiffs(logs) && HasNoParent(r[i].entry.log)
    ensures forall i :: 0 <= i < |r| ==> r[i].children == ChildrenOf(WithDiffs(logs), r[i].entry.log.id)
  {
    var ts := WithDiffs(logs);
    var roots := Filter(ts, IsRoot);
    seq(|roots|, i requires 0 <= i < |roots| => LogGroup(roots[i], ChildrenOf(ts, roots[i].log.id)))
  }

  /** Every log without a parent heads a group. */
  lemma FormatLogsCoversRoots(logs: seq<Log>, k: nat)
    requires k < |logs| && HasNoParent(logs[k])
    ensures exists j :: 0 <= j < |FormatLogs(logs)| && FormatLogs(logs)[j].entry == TimedLog(logs[k], DiffAt(logs, k))
  {
    var ts := WithDiffs(logs);
    var roots := Filter(ts, IsRoot);
    assert IsRoot(ts[k]);
    assert ts[k] in roots;
    var j :| 0 <= j < |roots| && roots[j] == ts[k];
    assert FormatLogs(logs)[j].entry == roots[j];
  }

  /** Every log whose parent is a group's id is among that group's children,
      with its diff. */
  lemma FormatLogsCoversChildren(logs: seq<Log>, i: nat, k: nat)
    requires i < |FormatLogs(logs)| && k < |logs|
    requires logs[k].parent == Some(FormatLogs(logs)[i].entry.log.id)
    ensures TimedLog(logs[k], DiffAt(logs, k)) in FormatLogs(logs)[i].children
  {
    assert WithDiffs(logs)[k] == TimedLog(logs[k], DiffAt(logs, k));
  }

  /** Grouping is one level deep: a log whose parent is itself a child is
      neither a top-level entry nor listed under its grandparent. */
  lemma OneLevelGrouping(logs: seq<Log>, x: Log, y: Log, i: nat)
    requires y.id != "" && x.parent == Some(y.id)
    requires !HasNoParent(y) && y.parent.value != y.id
    requires i < |FormatLogs(logs)|
    ensures FormatLogs(logs)[i].entry.log != x
    ensures FormatLogs(logs)[i].entry.log.id == y.parent.value ==>
              forall c :: c in FormatLogs(logs)[i].children ==> c.log != x
  {
    var g := FormatLogs(logs)[i];
    if g.entry.log.id == y.parent.value {
      forall c | c in g.children
        ensures c.log != x
      {
        var n :| 0 <= n < |g.children| && g.children[n] == c;
      }
    }
  }

  /** The last log's message, or the empty string without logs. */
  function LastLogMessage(logs: seq<Log>): (m: string)
    ensures logs == [] ==> m == ""
    ensures logs != [] ==> m == logs[|logs| - 1].message
  {
    if logs == [] then "" else logs[|logs| - 1].message
  }

  /** The status bar's one-line text: a message over 100 characters is cut to
      its first 100 followed by "...". */
  function StatusLine(message: string): (r: string)
    ensures |r| <= 103 && |r| <= |message| + 3
    ensures |message| <= 100 ==> r == message
    ensures |message| > 100 ==> |r| == 103 && r[..100] == message[..100] && r[100..] == "..."
  {
    if |message| > 100 then message[..100] + "..." else message
  }

  /** The text is shown unchanged exactly when it fits in 100 characters or
      already is 100 characters followed by "...". */
  lemma StatusLineUnchanged(message: string)
    ensures StatusLine(message) == message <==> |message| <= 100 || (|message| == 103 && message[100..] == "...")
  {
    if |message| == 103 && message[100..] == "..." {
      assert message == message[..100] + message[100..];
    }
  }

  /** Cutting twice cuts once. */
  lemma StatusLineIdempotent(message: string)
    ensures StatusLine(StatusLine(message)) == StatusLine(message)
  {
    if |message| > 100 {
      StatusLineUnchanged(StatusLine(message));
    }
  }
}
