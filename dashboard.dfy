/** The dashboard: which projects a user sees, the search and status
    filters, the three KPI counts, the hours chart, the colour of a
    project's hours bar and the Kanban columns. All of it is derived from
    the project list on every render. */
module Dashboard {
  import opened Types
  import Seqs
  import Text

  /** The status dropdown: 'Todos' or one status. */
  datatype StatusFilter = Todos | Only(status: ProjectStatus)

  datatype Stats = Stats(active: nat, critical: nat, total: nat)

  datatype ChartEntry = ChartEntry(name: string, used: real, budget: real)

  datatype HoursColor = Rose | Amber | Emerald

  const ChartLimit: nat := 10
  const ChartNameLength: nat := 10

  /** An administrator sees every project; anyone else only those listing them as editor. */
  predicate VisibleTo(user: User, p: Project) {
    user.role == Admin || user.id in p.editorIds
  }

  /** Lower-cased name or client contains the lower-cased search term. */
  predicate MatchesSearch(p: Project, term: string) {
    var lower := Text.Lower(term);
    Text.Contains(Text.Lower(p.name), lower) || Text.Contains(Text.Lower(p.client), lower)
  }

  predicate MatchesStatus(p: Project, filter: StatusFilter) {
    filter.Todos? || p.status == filter.status
  }

  /** The three conditions together, as one predicate. */
  predicate Shown(user: User, term: string, filter: StatusFilter, p: Project) {
    VisibleTo(user, p) && (term == "" || MatchesSearch(p, term)) && MatchesStatus(p, filter)
  }

  /** `filteredProjects`: role scope, then search (skipped for an empty term), then status. */
  function FilteredProjects(user: User, projects: seq<Project>, term: string, filter: StatusFilter): seq<Project> {
    var scoped := if user.role == Admin then projects else Seqs.Filter(projects, (p: Project) => user.id in p.editorIds);
    var searched := if term == "" then scoped else Seqs.Filter(scoped, (p: Project) => MatchesSearch(p, term));
    if filter.Todos? then searched else Seqs.Filter(searched, (p: Project) => p.status == filter.status)
  }

  /** The filter chain selects, in order, exactly the projects meeting all three conditions. */
  lemma FilteredProjectsSpec(user: User, projects: seq<Project>, term: string, filter: StatusFilter)
    ensures FilteredProjects(user, projects, term, filter) == Seqs.Filter(projects, (p: Project) => Shown(user, term, filter, p))
    ensures Seqs.IsSubseq(FilteredProjects(user, projects, term, filter), projects)
  {
    var shown := (p: Project) => Shown(user, term, filter, p);
    var scope := (p: Project) => VisibleTo(user, p);
    var scopeSearch := (p: Project) => VisibleTo(user, p) && (term == "" || MatchesSearch(p, term));
    var scoped := if user.role == Admin then projects else Seqs.Filter(projects, (p: Project) => user.id in p.editorIds);
    if user.role == Admin {
      Seqs.FilterKeepsAll(projects, scope);
    } else {
      assert Seqs.Filter(projects, (p: Project) => user.id in p.editorIds) == Seqs.Filter(projects, scope) by {
        Seqs.FilterFilter(projects, (p: Project) => true, (p: Project) => user.id in p.editorIds, scope);
        Seqs.FilterKeepsAll(projects, (p: Project) => true);
      }
    }
    assert scoped == Seqs.Filter(projects, scope);
    var searched := if term == "" then scoped else Seqs.Filter(scoped, (p: Project) => MatchesSearch(p, term));
    if term == "" {
      Seqs.FilterFilter(projects, scope, (p: Project) => true, scopeSearch);
      Seqs.FilterKeepsAll(scoped, (p: Project) => true);
    } else {
      Seqs.FilterFilter(projects, scope, (p: Project) => MatchesSearch(p, term), scopeSearch);
    }
    assert searched == Seqs.Filter(projects, scopeSearch);
    if filter.Todos? {
      Seqs.FilterFilter(projects, scopeSearch, (p: Project) => true, shown);
      Seqs.FilterKeepsAll(searched, (p: Project) => true);
    } else {
      Seqs.FilterFilter(projects, scopeSearch, (p: Project) => p.status == filter.status, shown);
    }
    Seqs.FilterIsSubseq(projects, shown);
  }

  /** An empty search term keeps every project the role and status filters keep. */
  lemma EmptySearchKeepsAll(p: Project)
    ensures MatchesSearch(p, "")
  {
    assert Text.StartsWith(Text.Lower(p.name), "");
  }

  /** The critical alert as written: more than 90% of the budget used and not finished.
      A zero budget divides to +Infinity when hours were used and to NaN (never greater) when none were. */
  predicate IsCritical(p: Project) {
    var ratioAbove := if p.hoursBudgeted == 0.0 then p.hoursUsed > 0.0 else p.hoursUsed / p.hoursBudgeted > 0.9;
    ratioAbove && p.status != Finalizado
  }

  function CountWhere(ps: seq<Project>, f: Project -> bool): (n: nat)
    ensures n <= |ps|
  {
    |Seqs.Filter(ps, f)|
  }

  /** `stats` over the filtered projects: each count is the length of the corresponding filter. */
  function ComputeStats(filtered: seq<Project>): (s: Stats)
    ensures s.total == |filtered|
    ensures s.active == |Seqs.Filter(filtered, (p: Project) => p.status == EmAndamento)|
    ensures s.critical == |Seqs.Filter(filtered, (p: Project) => IsCritical(p))|
    ensures s.active + |Seqs.Filter(filtered, (p: Project) => p.status != EmAndamento)| == s.total
    ensures s.critical + |Seqs.Filter(filtered, (p: Project) => !IsCritical(p))| == s.total
  {
    Seqs.FilterSplit(filtered, (p: Project) => p.status == EmAndamento, (p: Project) => p.status != EmAndamento);
    Seqs.FilterSplit(filtered, (p: Project) => IsCritical(p), (p: Project) => !IsCritical(p));
    Stats(|Seqs.Filter(filtered, (p: Project) => p.status == EmAndamento)|,
          |Seqs.Filter(filtered, (p: Project) => IsCritical(p))|,
          |filtered|)
  }

  /** With a positive budget the test is "used exceeds 90% of budget", whatever the status other than finished. */
  lemma CriticalWithBudget(p: Project)
    requires p.hoursBudgeted > 0.0
    ensures IsCritical(p) <==> p.hoursUsed * 10.0 > p.hoursBudgeted * 9.0 && p.status != Finalizado
  {
    var b, u := p.hoursBudgeted, p.hoursUsed;
    assert u == (u / b) * b;
    ScaleByPositive(u / b, 0.9, b);
  }

  /** Multiplying both sides by a positive number keeps a strict or non-strict comparison. */
  lemma ScaleByPositive(x: real, y: real, b: real)
    requires b > 0.0
    ensures x > y <==> x * b > y * b
    ensures x >= y <==> x * b >= y * b
  {
    assert x * b - y * b == (x - y) * b;
    if x > y {
      assert (x - y) * b > 0.0;
    } else {
      assert (y - x) * b >= 0.0;
    }
  }

  /** The fixture project at 9.5 of 10 hours is critical; paused and cancelled projects can be too; finished ones never. */
  lemma CriticalExamples(p: Project)
    requires p.hoursBudgeted == 10.0 && p.hoursUsed == 9.5
    ensures p.status == EmAndamento ==> IsCritical(p)
    ensures p.status == Pausado ==> IsCritical(p)
    ensures p.status == Cancelado ==> IsCritical(p)
    ensures p.status == Finalizado ==> !IsCritical(p)
  {
    CriticalWithBudget(p);
  }

  /** A chart label: names over ten characters are cut to ten and marked with '...'. */
  function ChartName(name: string): (r: string)
    ensures |name| <= ChartNameLength ==> r == name
    ensures |name| > ChartNameLength ==> r == name[..ChartNameLength] + "..." && |r| == ChartNameLength + 3
  {
    if |name| > ChartNameLength then name[..ChartNameLength] + "..." else name
  }

  /** `chartData`: the first ten filtered projects, unsorted. */
  function ChartData(filtered: seq<Project>): (r: seq<ChartEntry>)
    ensures |r| == if |filtered| < ChartLimit then |filtered| else ChartLimit
    ensures forall i :: 0 <= i < |r| ==>
      r[i] == ChartEntry(ChartName(filtered[i].name), filtered[i].hoursUsed, filtered[i].hoursBudgeted)
  {
    var all := seq(|filtered|, i requires 0 <= i < |filtered| =>
                 ChartEntry(ChartName(filtered[i].name), filtered[i].hoursUsed, filtered[i].hoursBudgeted));
    if |all| < ChartLimit then all else all[..ChartLimit]
  }

  /** `getHoursColor`: the percentage of budget used, with JavaScript's division by zero written out. */
  function GetHoursColor(used: real, budget: real): HoursColor {
    if budget == 0.0 then (if used > 0.0 then Rose else Emerald)
    else
      var percentage := (used / budget) * 100.0;
      if percentage >= 100.0 then Rose else if percentage >= 80.0 then Amber else Emerald
  }

  /** With a positive budget: rose from the full budget on, amber from 80% of it, emerald below. */
  lemma HoursColorBands(used: real, budget: real)
    requires budget > 0.0
    ensures GetHoursColor(used, budget) == Rose <==> used >= budget
    ensures GetHoursColor(used, budget) == Amber <==> 0.8 * budget <= used < budget
    ensures GetHoursColor(used, budget) == Emerald <==> used < 0.8 * budget
  {
    PercentageThreshold(used, budget, 1.0);
    PercentageThreshold(used, budget, 0.8);
  }

  /** The percentage reaches `100 * t` exactly when the hours reach `t` times the budget. */
  lemma PercentageThreshold(used: real, budget: real, t: real)
    requires budget > 0.0
    ensures (used / budget) * 100.0 >= t * 100.0 <==> used >= t * budget
  {
    var q := used / budget;
    assert used == q * budget;
    ScaleByPositive(q, t, budget);
    ScaleByPositive(q, t, 100.0);
  }

  /** The three Kanban columns. */
  function KanbanColumns(filtered: seq<Project>): (seq<Project>, seq<Project>, seq<Project>) {
    (Seqs.Filter(filtered, (p: Project) => p.status == EmAndamento),
     Seqs.Filter(filtered, (p: Project) => p.status == Pausado),
     Seqs.Filter(filtered, (p: Project) => p.status == Finalizado))
  }

  /** Every filtered project sits in the column of its status, except cancelled ones, which sit in none. */
  lemma {:induction false} KanbanPartition(filtered: seq<Project>)
    ensures var (a, b, c) := KanbanColumns(filtered);
      |a| + |b| + |c| + CountWhere(filtered, (p: Project) => p.status == Cancelado) == |filtered|
    ensures var (a, b, c) := KanbanColumns(filtered);
      forall p :: p in filtered ==>
        (p in a <==> p.status == EmAndamento) && (p in b <==> p.status == Pausado) && (p in c <==> p.status == Finalizado)
  {
    if filtered != [] {
      KanbanPartition(filtered[1..]);
      assert forall p :: p in filtered <==> p == filtered[0] || p in filtered[1..];
    }
  }
}
