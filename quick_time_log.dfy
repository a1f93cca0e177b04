/** The quick time-log dialog: which projects can be picked, how the
    fields are reset when the dialog opens, and the submit that records a
    time log on the chosen project. */
module QuickTimeLog {
  import opened Types
  import Seqs
  import ProjectDetails

  /** Active projects; a non-administrator only gets those they edit. */
  function AvailableProjects(user: User, projects: seq<Project>): (r: seq<Project>)
    ensures Seqs.IsSubseq(r, projects)
    ensures forall i :: 0 <= i < |r| ==> r[i].status == EmAndamento && (user.role == Admin || user.id in r[i].editorIds)
    ensures forall i :: 0 <= i < |projects| ==>
      (projects[i].status == EmAndamento && (user.role == Admin || user.id in projects[i].editorIds) ==> projects[i] in r)
  {
    var f := (p: Project) => p.status == EmAndamento && (user.role == Admin || user.id in p.editorIds);
    var r := if user.role == Admin then Seqs.Filter(projects, (p: Project) => p.status == EmAndamento)
             else Seqs.Filter(projects, (p: Project) => p.status == EmAndamento && user.id in p.editorIds);
    assert r == Seqs.Filter(projects, f) by {
      if user.role == Admin {
        Seqs.FilterFilter(projects, f, (p: Project) => true, (p: Project) => p.status == EmAndamento);
        Seqs.FilterKeepsAll(Seqs.Filter(projects, f), (p: Project) => true);
      } else {
        Seqs.FilterFilter(projects, f, (p: Project) => true, (p: Project) => p.status == EmAndamento && user.id in p.editorIds);
        Seqs.FilterKeepsAll(Seqs.Filter(projects, f), (p: Project) => true);
      }
    }
    Seqs.FilterIsSubseq(projects, f);
    r
  }

  /** The selection made when the dialog opens: the preselected id if one is given (a non-empty
      string), else the only available project, else nothing. */
  function OpeningSelection(preselected: Option<string>, available: seq<Project>): (r: string)
    ensures preselected.Some? && preselected.value != "" ==> r == preselected.value
    ensures (preselected.None? || preselected.value == "") && |available| == 1 ==> r == available[0].id
    ensures (preselected.None? || preselected.value == "") && |available| != 1 ==> r == ""
  {
    if preselected.Some? && preselected.value != "" then preselected.value
    else if |available| == 1 then available[0].id
    else ""
  }

  /** `!selectedProjectId || !hours || !description`: an empty hours field and zero both stop the submit;
      a negative number does not. */
  predicate SubmitAllowed(selectedId: string, hours: Option<real>, description: string) {
    selectedId != "" && hours.Some? && hours.value != 0.0 && description != ""
  }

  /** The first project with the given id. */
  function FindProject(projects: seq<Project>, id: string): (r: Option<nat>)
    ensures r.Some? ==> r.value < |projects| && projects[r.value].id == id
    ensures r.Some? ==> forall i :: 0 <= i < r.value ==> projects[i].id != id
    ensures r.None? <==> forall i :: 0 <= i < |projects| ==> projects[i].id != id
  {
    if projects == [] then None
    else if projects[0].id == id then Some(0)
    else match FindProject(projects[1..], id)
      case None => None
      case Some(k) => Some(k + 1)
  }

  /** What `handleSubmit` hands to `onSave`: the updated project and the log it recorded. */
  function QuickLog(projects: seq<Project>, user: User, selectedId: string, hours: Option<real>, date: string,
                    description: string, logId: string): (r: Option<(Project, TimeLog)>)
    ensures r.Some? <==> SubmitAllowed(selectedId, hours, description) && FindProject(projects, selectedId).Some?
    ensures r.Some? ==>
      var (saved, log) := r.value;
      var old_ := projects[FindProject(projects, selectedId).value];
      && log == TimeLog(logId, user.id, user.name, hours.value, date, description)
      && saved.id == selectedId
      && saved.hoursUsed == old_.hoursUsed + hours.value
      && |saved.timeLogs| == |old_.timeLogs| + 1 && saved.timeLogs[0] == log && saved.timeLogs[1..] == old_.timeLogs
      && saved.(hoursUsed := old_.hoursUsed, timeLogs := old_.timeLogs) == old_
      && (HoursConsistent(old_) ==> HoursConsistent(saved))
  {
    if !SubmitAllowed(selectedId, hours, description) then None
    else match FindProject(projects, selectedId)
      case None => None
      case Some(k) =>
        var log := TimeLog(logId, user.id, user.name, hours.value, date, description);
        Some((ProjectDetails.WithTimeLog(projects[k], log), log))
  }

  /** The dialog's fields. `hours` is `None` while the number field is empty. */
  class QuickLogForm {
    var selectedProjectId: string
    var hours: Option<real>
    var date: string
    var description: string
    var isSubmitting: bool

    constructor (today: string)
      ensures selectedProjectId == "" && hours == None && date == today && description == "" && !isSubmitting
    {
      selectedProjectId := "";
      hours := None;
      date := today;
      description := "";
      isSubmitting := false;
    }

    /** The effect run when the dialog opens. */
    method Open(preselected: Option<string>, user: User, projects: seq<Project>, today: string)
      modifies this
      ensures selectedProjectId == OpeningSelection(preselected, AvailableProjects(user, projects))
      ensures hours == None && description == "" && date == today && !isSubmitting
    {
      selectedProjectId := OpeningSelection(preselected, AvailableProjects(user, projects));
      hours := None;
      description := "";
      date := today;
      isSubmitting := false;
    }

    /** `handleSubmit`: marks the dialog busy once the guard passes, even when no project has the id. */
    method Submit(projects: seq<Project>, user: User, logId: string) returns (saved: Option<(Project, TimeLog)>)
      modifies this`isSubmitting
      ensures saved == QuickLog(projects, user, selectedProjectId, hours, date, description, logId)
      ensures isSubmitting == (SubmitAllowed(selectedProjectId, hours, description) || old(isSubmitting))
    {
      if !SubmitAllowed(selectedProjectId, hours, description) {
        return None;
      }
      isSubmitting := true;
      saved := QuickLog(projects, user, selectedProjectId, hours, date, description, logId);
    }
  }

  /** The dialog records exactly what the project page records for the same amount of hours. */
  lemma SameAsProjectPage(p: Project, user: User, hours: real, date: string, description: string, logId: string)
    requires hours > 0.0 && p.id != "" && description != ""
    ensures var r := QuickLog([p], user, p.id, Some(hours), date, description, logId);
      r.Some? && Some(r.value.0) == ProjectDetails.AddTime(p, user, hours, description, logId, date)
  {
  }
}
