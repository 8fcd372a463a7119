/** The combined log view: every project's log lines, each prefixed with the
    project's name in brackets, concatenated in project order. */
module LogsScreen {
  import opened Projects

  /** `[${project.name}] ${log}` */
  function Tag(name: string, line: string): string
  {
    "[" + name + "] " + line
  }

  /** `project.logs ? project.logs.map(log => Tag(project.name, log)) : []` */
  function TaggedLines(p: Project): seq<string>
  {
    var l := LogsOrEmpty(p);
    seq(|l|, i requires 0 <= i < |l| => Tag(p.name, l[i]))
  }

  /** The number of log lines the projects hold between them. */
  function TotalLogLines(ps: seq<Project>): nat
  {
    if ps == [] then 0 else |LogsOrEmpty(ps[0])| + TotalLogLines(ps[1..])
  }

  /** `projects.flatMap(TaggedLines)` */
  function AllLogs(ps: seq<Project>): (r: seq<string>)
    ensures |r| == TotalLogLines(ps)
  {
    if ps == [] then [] else TaggedLines(ps[0]) + AllLogs(ps[1..])
  }

  /** Combining two lists of projects is combining each and concatenating. */
  lemma {:induction false} AllLogsAppend(ps: seq<Project>, qs: seq<Project>)
    ensures AllLogs(ps + qs) == AllLogs(ps) + AllLogs(qs)
  {
    if ps == [] {
      assert ps + qs == qs;
    } else {
      assert (ps + qs)[1..] == ps[1..] + qs;
      AllLogsAppend(ps[1..], qs);
    }
  }

  /** Line `i` of project `k` sits, tagged with the project's name, right after the
      lines of the projects before it: project order and each project's own line
      order are both kept. */
  lemma {:induction false} AllLogsAt(ps: seq<Project>, k: nat, i: nat)
    requires k < |ps| && i < |LogsOrEmpty(ps[k])|
    ensures TotalLogLines(ps[..k]) + i < |AllLogs(ps)|
    ensures AllLogs(ps)[TotalLogLines(ps[..k]) + i] == Tag(ps[k].name, LogsOrEmpty(ps[k])[i])
  {
    if k == 0 {
      assert ps[..0] == [];
    } else {
      AllLogsAt(ps[1..], k - 1, i);
      assert ps[..k][1..] == ps[1..][..k - 1];
    }
  }

  /** Every combined line is some project's log line tagged with that project's name. */
  lemma {:induction false} EveryLineTagged(ps: seq<Project>, n: nat)
    requires n < |AllLogs(ps)|
    ensures exists k, i :: 0 <= k < |ps| && 0 <= i < |LogsOrEmpty(ps[k])| &&
                           AllLogs(ps)[n] == Tag(ps[k].name, LogsOrEmpty(ps[k])[i])
  {
    var head := TaggedLines(ps[0]);
    if n < |head| {
      assert AllLogs(ps)[n] == Tag(ps[0].name, LogsOrEmpty(ps[0])[n]);
    } else {
      EveryLineTagged(ps[1..], n - |head|);
      var k, i :| 0 <= k < |ps[1..]| && 0 <= i < |LogsOrEmpty(ps[1..][k])| &&
                  AllLogs(ps[1..])[n - |head|] == Tag(ps[1..][k].name, LogsOrEmpty(ps[1..][k])[i]);
      assert ps[1..][k] == ps[k + 1];
      assert AllLogs(ps)[n] == Tag(ps[k + 1].name, LogsOrEmpty(ps[k + 1])[i]);
    }
  }

  /** A project whose logs are missing or empty adds nothing to the combined view,
      wherever it stands in the list. */
  lemma MissingLogsContributeNothing(ps: seq<Project>, p: Project, qs: seq<Project>)
    requires LogsOrEmpty(p) == []
    ensures AllLogs(ps + [p] + qs) == AllLogs(ps + qs)
  {
    AllLogsAppend(ps + [p], qs);
    AllLogsAppend(ps, [p]);
    AllLogsAppend(ps, qs);
    assert [p][1..] == [];
    assert AllLogs([p]) == [];
    assert AllLogs(ps + [p]) == AllLogs(ps);
  }
}
