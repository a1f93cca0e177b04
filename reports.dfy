/** The hours report: every time log of every project, enriched with its
    project and the role of its author, filtered by project, user and
    date range, ordered newest first and added up. */
module Reports {
  import opened Types
  import Seqs
  import Text

  /** A time log together with the project it belongs to and its author's role. */
  datatype EnrichedLog = EnrichedLog(log: TimeLog, projectName: string, projectId: string, userRole: string)

  /** The dropdown value that selects every project or every user. */
  const AllOption: string := "all"
  const UnknownRole: string := "Desconhecido"

  /** The four report filters; an empty date means no bound on that side. */
  datatype Criteria = Criteria(project: string, user: string, startDate: string, endDate: string)

  const Cleared: Criteria := Criteria(AllOption, AllOption, "", "")

  /** `users.find(u => u.id === userId)`: the index of the first user with that id. */
  function FindUser(users: seq<User>, userId: string): (r: Option<nat>)
    ensures r.Some? ==> r.value < |users| && users[r.value].id == userId
    ensures r.Some? ==> forall i :: 0 <= i < r.value ==> users[i].id != userId
    ensures r.None? <==> forall i :: 0 <= i < |users| ==> users[i].id != userId
  {
    if users == [] then None
    else if users[0].id == userId then Some(0)
    else match FindUser(users[1..], userId)
      case None => None
      case Some(k) => Some(k + 1)
  }

  /** The role label of the log's author, or 'Desconhecido' when no user has that id. */
  function UserRole(users: seq<User>, userId: string): (r: string)
    ensures (forall i :: 0 <= i < |users| ==> users[i].id != userId) ==> r == UnknownRole
    ensures forall i :: 0 <= i < |users| && users[i].id == userId && (forall j :: 0 <= j < i ==> users[j].id != userId)
              ==> r == RoleName(users[i].role)
  {
    match FindUser(users, userId)
    case None => UnknownRole
    case Some(k) => RoleName(users[k].role)
  }

  function Enrich(p: Project, log: TimeLog, users: seq<User>): EnrichedLog {
    EnrichedLog(log, p.name, p.id, UserRole(users, log.userId))
  }

  /** One project's logs, enriched, in the project's order. */
  function ProjectLogs(p: Project, users: seq<User>): (r: seq<EnrichedLog>)
    ensures |r| == |p.timeLogs|
    ensures forall k :: 0 <= k < |r| ==> r[k] == Enrich(p, p.timeLogs[k], users)
  {
    seq(|p.timeLogs|, k requires 0 <= k < |p.timeLogs| => Enrich(p, p.timeLogs[k], users))
  }

  /** `allLogs`: the `flatMap` over the projects. */
  function AllLogs(ps: seq<Project>, users: seq<User>): seq<EnrichedLog> {
    if ps == [] then [] else ProjectLogs(ps[0], users) + AllLogs(ps[1..], users)
  }

  /** The number of time logs over all projects. */
  function LogCount(ps: seq<Project>): nat {
    if ps == [] then 0 else |ps[0].timeLogs| + LogCount(ps[1..])
  }

  /** The hours of all projects' time logs. */
  function ProjectsLogHours(ps: seq<Project>): real {
    if ps == [] then 0.0 else SumHours(ps[0].timeLogs) + ProjectsLogHours(ps[1..])
  }

  function TotalHoursUsed(ps: seq<Project>): real {
    if ps == [] then 0.0 else ps[0].hoursUsed + TotalHoursUsed(ps[1..])
  }

  /** Flattening neither drops nor invents logs, and every entry carries the project it came from. */
  lemma {:induction false} AllLogsSpec(ps: seq<Project>, users: seq<User>)
    ensures |AllLogs(ps, users)| == LogCount(ps)
    ensures forall e :: e in AllLogs(ps, users) ==>
      exists j :: 0 <= j < |ps| && e.projectId == ps[j].id && e.projectName == ps[j].name
                  && e.log in ps[j].timeLogs && e == Enrich(ps[j], e.log, users)
    ensures forall j, k :: 0 <= j < |ps| && 0 <= k < |ps[j].timeLogs| ==>
      Enrich(ps[j], ps[j].timeLogs[k], users) in AllLogs(ps, users)
  {
    if ps != [] {
      AllLogsSpec(ps[1..], users);
      var head, rest := ProjectLogs(ps[0], users), AllLogs(ps[1..], users);
      forall e | e in AllLogs(ps, users)
        ensures exists j :: 0 <= j < |ps| && e.projectId == ps[j].id && e.projectName == ps[j].name
                            && e.log in ps[j].timeLogs && e == Enrich(ps[j], e.log, users)
      {
        if e in head {
          var k :| 0 <= k < |head| && head[k] == e;
          assert e.log == ps[0].timeLogs[k];
        } else {
          assert e in rest;
          var j :| 0 <= j < |ps[1..]| && e.projectId == ps[1..][j].id && e.projectName == ps[1..][j].name
                   && e.log in ps[1..][j].timeLogs && e == Enrich(ps[1..][j], e.log, users);
          assert ps[j + 1] == ps[1..][j];
        }
      }
      forall j, k | 0 <= j < |ps| && 0 <= k < |ps[j].timeLogs|
        ensures Enrich(ps[j], ps[j].timeLogs[k], users) in AllLogs(ps, users)
      {
        if j == 0 {
          assert head[k] == Enrich(ps[0], ps[0].timeLogs[k], users);
        } else {
          assert ps[j] == ps[1..][j - 1];
        }
      }
    }
  }

  /** The filter: each criterion holds or is switched off ('all' or an empty date). */
  predicate Matches(c: Criteria, e: EnrichedLog) {
    && (c.project == AllOption || e.projectId == c.project)
    && (c.user == AllOption || e.log.userId == c.user)
    && (c.startDate == "" || Text.LexLe(c.startDate, e.log.date))
    && (c.endDate == "" || Text.LexLe(e.log.date, c.endDate))
  }

  /** Dates in non-increasing order: each entry is no newer than the one before it. */
  predicate NewestFirst(s: seq<EnrichedLog>) {
    forall i :: 0 < i < |s| ==> Text.LexLe(s[i].log.date, s[i - 1].log.date)
  }

  /** Put `e` before the first entry that is not newer than it, so that it stays ahead of equal dates. */
  function InsertByDate(e: EnrichedLog, s: seq<EnrichedLog>): (r: seq<EnrichedLog>)
    ensures |r| == |s| + 1
    ensures r[0] == e || (s != [] && r[0] == s[0])
    ensures multiset(r) == multiset(s) + multiset{e}
    ensures NewestFirst(s) ==> NewestFirst(r)
  {
    if s == [] || Text.LexLe(s[0].log.date, e.log.date) then [e] + s
    else
      Text.LexLeTotal(s[0].log.date, e.log.date);
      var rest := InsertByDate(e, s[1..]);
      assert s == [s[0]] + s[1..];
      [s[0]] + rest
  }

  /** The stable sort of the report by date, newest first. */
  function SortNewestFirst(s: seq<EnrichedLog>): (r: seq<EnrichedLog>)
    ensures NewestFirst(r)
    ensures multiset(r) == multiset(s)
    ensures |r| == |s|
  {
    if s == [] then []
    else
      assert s == [s[0]] + s[1..];
      InsertByDate(s[0], SortNewestFirst(s[1..]))
  }

  /** `filteredLogs`: the matching logs, newest first. */
  function FilteredLogs(all: seq<EnrichedLog>, c: Criteria): seq<EnrichedLog> {
    SortNewestFirst(Seqs.Filter(all, (e: EnrichedLog) => Matches(c, e)))
  }

  /** The report shows only logs meeting every criterion, all of them, none invented, newest first. */
  lemma FilteredLogsSpec(all: seq<EnrichedLog>, c: Criteria)
    ensures NewestFirst(FilteredLogs(all, c))
    ensures multiset(FilteredLogs(all, c)) <= multiset(all)
    ensures forall e :: e in FilteredLogs(all, c) ==> Matches(c, e)
    ensures forall e :: e in all && Matches(c, e) ==> e in FilteredLogs(all, c)
  {
    var kept := Seqs.Filter(all, (e: EnrichedLog) => Matches(c, e));
    Seqs.FilterSubMultiset(all, (e: EnrichedLog) => Matches(c, e));
    assert multiset(FilteredLogs(all, c)) == multiset(kept);
    forall e | e in FilteredLogs(all, c)
      ensures Matches(c, e)
    {
      assert e in multiset(kept);
      var i :| 0 <= i < |kept| && kept[i] == e;
    }
    forall e | e in all && Matches(c, e)
      ensures e in FilteredLogs(all, c)
    {
      var i :| 0 <= i < |all| && all[i] == e;
      assert e in kept;
      assert e in multiset(FilteredLogs(all, c));
    }
  }

  /** `reduce((acc, log) => acc + log.hours, 0)`. */
  function TotalHours(s: seq<EnrichedLog>): real {
    if s == [] then 0.0 else s[0].log.hours + TotalHours(s[1..])
  }

  lemma {:induction false} TotalHoursAppend(a: seq<EnrichedLog>, b: seq<EnrichedLog>)
    ensures TotalHours(a + b) == TotalHours(a) + TotalHours(b)
  {
    if a == [] {
      assert a + b == b;
    } else {
      assert (a + b)[0] == a[0];
      assert (a + b)[1..] == a[1..] + b;
      TotalHoursAppend(a[1..], b);
    }
  }

  lemma {:induction false} TotalHoursInsert(e: EnrichedLog, s: seq<EnrichedLog>)
    ensures TotalHours(InsertByDate(e, s)) == e.log.hours + TotalHours(s)
  {
    if s != [] && !Text.LexLe(s[0].log.date, e.log.date) {
      TotalHoursInsert(e, s[1..]);
      assert InsertByDate(e, s)[1..] == InsertByDate(e, s[1..]);
    }
  }

  /** Sorting does not change the total. */
  lemma {:induction false} TotalHoursSorted(s: seq<EnrichedLog>)
    ensures TotalHours(SortNewestFirst(s)) == TotalHours(s)
  {
    if s != [] {
      TotalHoursSorted(s[1..]);
      TotalHoursInsert(s[0], SortNewestFirst(s[1..]));
    }
  }

  lemma {:induction false} ProjectLogsHours(p: Project, users: seq<User>)
    ensures TotalHours(ProjectLogs(p, users)) == SumHours(p.timeLogs)
    decreases |p.timeLogs|
  {
    if p.timeLogs != [] {
      var q := p.(timeLogs := p.timeLogs[1..]);
      ProjectLogsHours(q, users);
      assert ProjectLogs(p, users)[1..] == ProjectLogs(q, users);
    }
  }

  lemma {:induction false} AllLogsHours(ps: seq<Project>, users: seq<User>)
    ensures TotalHours(AllLogs(ps, users)) == ProjectsLogHours(ps)
  {
    if ps != [] {
      AllLogsHours(ps[1..], users);
      ProjectLogsHours(ps[0], users);
      TotalHoursAppend(ProjectLogs(ps[0], users), AllLogs(ps[1..], users));
    }
  }

  lemma {:induction false} ConsistentHoursUsed(ps: seq<Project>)
    requires AllHoursConsistent(ps)
    ensures ProjectsLogHours(ps) == TotalHoursUsed(ps)
  {
    if ps != [] {
      assert HoursConsistent(ps[0]);
      ConsistentHoursUsed(ps[1..]);
    }
  }

  /** With the filters cleared the report total is every hour ever logged, which is the sum of the
      projects' `hoursUsed` when their bookkeeping is consistent. */
  lemma ClearedTotal(ps: seq<Project>, users: seq<User>)
    ensures TotalHours(FilteredLogs(AllLogs(ps, users), Cleared)) == ProjectsLogHours(ps)
    ensures AllHoursConsistent(ps) ==> TotalHours(FilteredLogs(AllLogs(ps, users), Cleared)) == TotalHoursUsed(ps)
  {
    var all := AllLogs(ps, users);
    Seqs.FilterKeepsAll(all, (e: EnrichedLog) => Matches(Cleared, e));
    TotalHoursSorted(all);
    AllLogsHours(ps, users);
    if AllHoursConsistent(ps) {
      ConsistentHoursUsed(ps);
    }
  }

  /** The report page's filter fields. */
  class ReportFilters {
    var selectedProject: string
    var selectedUser: string
    var startDate: string
    var endDate: string

    function Current(): Criteria
      reads this
    {
      Criteria(selectedProject, selectedUser, startDate, endDate)
    }

    constructor ()
      ensures Current() == Cleared
    {
      selectedProject := AllOption;
      selectedUser := AllOption;
      startDate := "";
      endDate := "";
    }

    /** `clearFilters`. */
    method Clear()
      modifies this
      ensures Current() == Cleared
    {
      selectedProject := AllOption;
      selectedUser := AllOption;
      startDate := "";
      endDate := "";
    }
  }
}
