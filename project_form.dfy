/** The create/edit form: the project fields, the builder list of
    deliverables and, for courses, the list of module names; and the
    assembly of the saved project on submit. */
module ProjectForm {
  import opened Types
  import Seqs
  import Text

  const UntitledTitle: string := "Sem título"
  const MainVideoTitle: string := "Vídeo Principal"
  const InitialDraftId: string := "d-init"

  /** `Módulo ${n}`. */
  function ModuleName(n: nat): string {
    "Módulo " + Text.NatToString(n)
  }

  /** The form's starting values for a new project. */
  function BlankForm(today: string): Project {
    Project("", "", "", "Institucional", Simples, EmAndamento, Media, "", today, "",
            VersionDeadlines("", None, ""), 0.0, 0.0, [], [], [], [])
  }

  /** A fresh builder row: no title, in progress, no versions. */
  function NewDraft(id: string, title: string, group: Option<string>): Deliverable {
    Deliverable(id, title, group, EmAndamento, [], None)
  }

  /** `s ? s.split('T')[0] : ''`. */
  function DateInput(s: string): (r: string)
    ensures 'T' !in r && r <= s
    ensures 'T' !in s ==> r == s
  {
    if s != "" then Text.DatePart(s) else ""
  }

  /** The edit-mode copy of a project: dates cut to their day part, an absent v2 deadline shown as ''. */
  function EditableCopy(p: Project): (r: Project)
    ensures r.(startDate := p.startDate, deadline := p.deadline, versionDeadlines := p.versionDeadlines) == p
    ensures 'T' !in r.startDate && 'T' !in r.deadline
    ensures r.versionDeadlines.v2.Some?
  {
    var vd := p.versionDeadlines;
    p.(startDate := DateInput(p.startDate), deadline := DateInput(p.deadline),
       versionDeadlines := VersionDeadlines(DateInput(vd.v1),
                                            Some(if vd.v2.Some? then DateInput(vd.v2.value) else ""),
                                            DateInput(vd.final)))
  }

  /** `d.group` values that are set and non-empty, in list order. */
  function NonEmptyGroups(ds: seq<Deliverable>): (r: seq<string>)
    ensures forall g :: g in r <==> exists i :: 0 <= i < |ds| && ds[i].group == Some(g) && g != ""
  {
    if ds == [] then []
    else
      var rest := NonEmptyGroups(ds[1..]);
      assert forall i :: 0 < i < |ds| ==> ds[i] == ds[1..][i - 1];
      if ds[0].group.Some? && ds[0].group.value != "" then [ds[0].group.value] + rest else rest
  }

  predicate NoDuplicates(xs: seq<string>) {
    forall i, j :: 0 <= i < j < |xs| ==> xs[i] != xs[j]
  }

  /** `Array.from(new Set(xs))`: each value once, at the place it first occurs. */
  function Dedup(xs: seq<string>): (r: seq<string>)
    ensures NoDuplicates(r)
    ensures forall x :: x in r <==> x in xs
  {
    if xs == [] then []
    else
      var init := xs[..|xs| - 1];
      var r := Dedup(init);
      assert xs == init + [xs[|xs| - 1]];
      if xs[|xs| - 1] in r then r else r + [xs[|xs| - 1]]
  }

  /** First-occurrence order: deduplicating a prefix gives a prefix of the deduplicated whole. */
  lemma {:induction false} DedupPrefix(xs: seq<string>, k: nat)
    requires k <= |xs|
    ensures Dedup(xs[..k]) <= Dedup(xs)
    decreases |xs|
  {
    if k < |xs| {
      var init := xs[..|xs| - 1];
      assert init[..k] == xs[..k];
      DedupPrefix(init, k);
    } else {
      assert xs[..k] == xs;
    }
  }

  /** The module names recovered when a course is opened for editing. */
  function DistinctGroups(ds: seq<Deliverable>): seq<string> {
    Dedup(NonEmptyGroups(ds))
  }

  /** The builder list after a structure switch. */
  function StructureDrafts(drafts: seq<Deliverable>, s: ProjectStructure, name: string, freshId: string): seq<Deliverable> {
    match s
    case Simples => [NewDraft(freshId, if name != "" then name else MainVideoTitle, None)]
    case Campanha => if |drafts| == 1 && drafts[0].group.None? then [] else drafts
    case Curso => if |drafts| == 1 && (drafts[0].group.None? || drafts[0].group.value == "") then [] else drafts
  }

  /** `updateDeliverableTitle`: every row with that id gets the title. */
  function Retitle(drafts: seq<Deliverable>, id: string, title: string): (r: seq<Deliverable>)
    ensures |r| == |drafts|
    ensures forall i :: 0 <= i < |drafts| ==>
      r[i] == if drafts[i].id == id then drafts[i].(title := title) else drafts[i]
  {
    seq(|drafts|, i requires 0 <= i < |drafts| => if drafts[i].id == id then drafts[i].(title := title) else drafts[i])
  }

  /** The rows of a renamed module follow it; ungrouped rows and other modules stay. */
  function Regroup(drafts: seq<Deliverable>, oldName: string, newName: string): (r: seq<Deliverable>)
    ensures |r| == |drafts|
    ensures forall i :: 0 <= i < |drafts| ==>
      r[i] == if drafts[i].group == Some(oldName) then drafts[i].(group := Some(newName)) else drafts[i]
  {
    seq(|drafts|, i requires 0 <= i < |drafts| =>
      if drafts[i].group == Some(oldName) then drafts[i].(group := Some(newName)) else drafts[i])
  }

  /** Renaming a module and renaming it back restores the rows, provided no row used the new name already. */
  lemma RegroupBack(drafts: seq<Deliverable>, oldName: string, newName: string)
    requires forall i :: 0 <= i < |drafts| ==> drafts[i].group != Some(newName)
    ensures Regroup(Regroup(drafts, oldName, newName), newName, oldName) == drafts
  {
    var once := Regroup(drafts, oldName, newName);
    assert forall i :: 0 <= i < |drafts| ==> Regroup(once, newName, oldName)[i] == drafts[i];
  }

  /** `editorIds` with the user removed (every occurrence) if present, appended otherwise. */
  function Toggle(ids: seq<string>, userId: string): (r: seq<string>)
    ensures userId in r <==> userId !in ids
    ensures forall x :: x != userId ==> (x in r <==> x in ids)
    ensures userId !in ids ==> r == ids + [userId]
    ensures userId in ids ==> Seqs.IsSubseq(r, ids)
  {
    if userId in ids then
      Seqs.FilterIsSubseq(ids, (x: string) => x != userId);
      Seqs.Filter(ids, (x: string) => x != userId)
    else ids + [userId]
  }

  /** Toggling an editor twice restores the list when the editor was not assigned. */
  lemma ToggleTwice(ids: seq<string>, userId: string)
    requires userId !in ids
    ensures Toggle(Toggle(ids, userId), userId) == ids
  {
    Seqs.FilterAppend(ids, userId, (x: string) => x != userId);
    Seqs.FilterKeepsAll(ids, (x: string) => x != userId);
  }

  /** `d.title || 'Sem título'` (status and versions are always present on builder rows). */
  function Normalize(d: Deliverable): Deliverable {
    d.(title := if d.title == "" then UntitledTitle else d.title)
  }

  /** `handleSubmit`: a non-simple project needs at least one deliverable; otherwise the project is assembled. */
  function Submission(editing: Option<Project>, form: Project, drafts: seq<Deliverable>, freshId: string): (r: Option<Project>)
    ensures r.None? <==> form.structure != Simples && |drafts| == 0
    ensures r.Some? ==>
      var ds := r.value.deliverables;
      && |ds| == |drafts|
      && (forall i :: 0 <= i < |ds| ==> ds[i].title != "" && ds[i].(title := drafts[i].title) == drafts[i])
      && (forall i :: 0 <= i < |ds| && drafts[i].title != "" ==> ds[i] == drafts[i])
    ensures r.Some? ==> r.value.id == if editing.Some? && editing.value.id != "" then editing.value.id else freshId
    ensures r.Some? ==>
      && r.value.hoursUsed == form.hoursUsed && r.value.comments == form.comments && r.value.timeLogs == form.timeLogs
      && r.value.editorIds == form.editorIds && r.value.name == form.name && r.value.structure == form.structure
      && r.value.status == form.status && r.value.hoursBudgeted == form.hoursBudgeted
    ensures r.Some? ==>
      r.value.versionDeadlines.v2 == if form.versionDeadlines.v2.Some? && form.versionDeadlines.v2.value != ""
                                     then form.versionDeadlines.v2 else None
  {
    if form.structure != Simples && |drafts| == 0 then None
    else
      var vd := form.versionDeadlines;
      Some(form.(id := if editing.Some? && editing.value.id != "" then editing.value.id else freshId,
                 versionDeadlines := vd.(v2 := if vd.v2.Some? && vd.v2.value != "" then vd.v2 else None),
                 deliverables := seq(|drafts|, i requires 0 <= i < |drafts| => Normalize(drafts[i]))))
  }

  /** Submission is idempotent: handing it its own result, under the same edit target, gives that result back. */
  lemma ResubmitIsStable(editing: Option<Project>, form: Project, drafts: seq<Deliverable>, freshId: string)
    requires Submission(editing, form, drafts, freshId).Some?
    ensures var saved := Submission(editing, form, drafts, freshId).value;
      Submission(editing, saved, saved.deliverables, freshId) == Some(saved)
  {
    var saved := Submission(editing, form, drafts, freshId).value;
    var again := Submission(editing, saved, saved.deliverables, freshId).value;
    assert again.deliverables == saved.deliverables;
  }

  /** Opening a saved project for editing and submitting without a change gives back the saved project,
      when its dates are already in day form, its V2 deadline is absent or set, its deliverables are
      titled, and it passes the deliverables check. */
  lemma UneditedSaveKeepsProject(saved: Project, freshId: string)
    requires saved.id != ""
    requires 'T' !in saved.startDate && 'T' !in saved.deadline
    requires 'T' !in saved.versionDeadlines.v1 && 'T' !in saved.versionDeadlines.final
    requires saved.versionDeadlines.v2.Some? ==> saved.versionDeadlines.v2.value != "" && 'T' !in saved.versionDeadlines.v2.value
    requires forall i :: 0 <= i < |saved.deliverables| ==> saved.deliverables[i].title != ""
    requires saved.structure == Simples || |saved.deliverables| > 0
    ensures Submission(Some(saved), EditableCopy(saved), saved.deliverables, freshId) == Some(saved)
  {
    var copy := EditableCopy(saved);
    var r := Submission(Some(saved), copy, saved.deliverables, freshId).value;
    assert copy.startDate == saved.startDate && copy.deadline == saved.deadline;
    assert r.deliverables == saved.deliverables;
    assert r.versionDeadlines == saved.versionDeadlines;
  }

  class ProjectFormState {
    /** The project being edited, or None for a new one. */
    const editing: Option<Project>
    var form: Project
    var modules: seq<string>
    var drafts: seq<Deliverable>

    constructor (project: Option<Project>, today: string)
      ensures editing == project && form == BlankForm(today) && modules == [ModuleName(1)] && drafts == []
    {
      editing := project;
      form := BlankForm(today);
      modules := [ModuleName(1)];
      drafts := [];
    }

    /** The mount effect: copy the edited project in (recovering a course's modules), or seed one main video. */
    method LoadProject()
      modifies this
      ensures editing.Some? ==> form == EditableCopy(editing.value) && drafts == editing.value.deliverables
      ensures editing.Some? && editing.value.structure == Curso && |DistinctGroups(editing.value.deliverables)| > 0
              ==> modules == DistinctGroups(editing.value.deliverables)
      ensures !(editing.Some? && editing.value.structure == Curso && |DistinctGroups(editing.value.deliverables)| > 0)
              ==> modules == old(modules)
      ensures editing.None? ==> form == old(form) && drafts == [NewDraft(InitialDraftId, MainVideoTitle, None)]
    {
      if editing.Some? {
        var p := editing.value;
        form := EditableCopy(p);
        drafts := p.deliverables;
        if p.structure == Curso {
          var groups := DistinctGroups(p.deliverables);
          if |groups| > 0 {
            modules := groups;
          }
        }
      } else {
        drafts := [NewDraft(InitialDraftId, MainVideoTitle, None)];
      }
    }

    /** The name input: only the name changes. */
    method SetName(name: string)
      modifies this`form
      ensures form == old(form).(name := name)
    {
      form := form.(name := name);
    }

    /** The client input: only the client changes. */
    method SetClient(client: string)
      modifies this`form
      ensures form == old(form).(client := client)
    {
      form := form.(client := client);
    }

    /** The project-type select: only the type changes. */
    method SetProjectType(projectType: string)
      modifies this`form
      ensures form == old(form).(projectType := projectType)
    {
      form := form.(projectType := projectType);
    }

    /** The priority select: only the priority changes. */
    method SetPriority(priority: Priority)
      modifies this`form
      ensures form == old(form).(priority := priority)
    {
      form := form.(priority := priority);
    }

    /** The description text area: only the description changes. */
    method SetDescription(description: string)
      modifies this`form
      ensures form == old(form).(description := description)
    {
      form := form.(description := description);
    }

    /** The budget input, already converted to a number: only the budget changes. */
    method SetHoursBudgeted(hoursBudgeted: real)
      modifies this`form
      ensures form == old(form).(hoursBudgeted := hoursBudgeted)
    {
      form := form.(hoursBudgeted := hoursBudgeted);
    }

    /** The start-date input: only the start date changes. */
    method SetStartDate(startDate: string)
      modifies this`form
      ensures form == old(form).(startDate := startDate)
    {
      form := form.(startDate := startDate);
    }

    /** The V1 deadline input: only the V1 version deadline changes; the project deadline is left alone. */
    method SetV1Deadline(v1Deadline: string)
      modifies this`form
      ensures form == old(form).(versionDeadlines := old(form).versionDeadlines.(v1 := v1Deadline))
    {
      form := form.(versionDeadlines := form.versionDeadlines.(v1 := v1Deadline));
    }

    /** The final-deadline input, the only one that writes two fields: the project deadline and the
        final version deadline both become the typed date, so afterwards they agree. */
    method SetFinalDeadline(finalDeadline: string)
      modifies this`form
      ensures form == old(form).(deadline := finalDeadline,
                                 versionDeadlines := old(form).versionDeadlines.(final := finalDeadline))
      ensures form.deadline == form.versionDeadlines.final
    {
      form := form.(deadline := finalDeadline, versionDeadlines := form.versionDeadlines.(final := finalDeadline));
    }

    /** `handleStructureChange`. */
    method ChangeStructure(s: ProjectStructure, freshId: string)
      modifies this`form, this`drafts
      ensures form == old(form).(structure := s)
      ensures s == Simples ==>
        drafts == [NewDraft(freshId, if old(form).name != "" then old(form).name else MainVideoTitle, None)]
      ensures s == Campanha ==>
        drafts == if |old(drafts)| == 1 && old(drafts)[0].group.None? then [] else old(drafts)
      ensures s == Curso ==>
        drafts == if |old(drafts)| == 1 && (old(drafts)[0].group.None? || old(drafts)[0].group.value == "")
                  then [] else old(drafts)
    {
      drafts := StructureDrafts(drafts, s, form.name, freshId);
      form := form.(structure := s);
    }

    /** `addDeliverable`: one untitled row in the given group, at the end. */
    method AddDeliverable(group: Option<string>, freshId: string)
      modifies this`drafts
      ensures drafts == old(drafts) + [NewDraft(freshId, "", group)]
    {
      drafts := drafts + [NewDraft(freshId, "", group)];
    }

    method UpdateDeliverableTitle(id: string, title: string)
      modifies this`drafts
      ensures drafts == Retitle(old(drafts), id, title)
    {
      drafts := Retitle(drafts, id, title);
    }

    /** `removeDeliverable`: exactly the rows with that id go. */
    method RemoveDeliverable(id: string)
      modifies this`drafts
      ensures drafts == Seqs.Filter(old(drafts), (d: Deliverable) => d.id != id)
      ensures forall i :: 0 <= i < |drafts| ==> drafts[i].id != id
      ensures forall i :: 0 <= i < |old(drafts)| && old(drafts)[i].id != id ==> old(drafts)[i] in drafts
    {
      drafts := Seqs.Filter(drafts, (d: Deliverable) => d.id != id);
    }

    /** `addModule`: the next default name is numbered after the current count. */
    method AddModule()
      modifies this`modules
      ensures modules == old(modules) + [ModuleName(|old(modules)| + 1)]
    {
      modules := modules + [ModuleName(|modules| + 1)];
    }

    /** `updateModuleName`: entry `index` is renamed and the rows of the old name follow it. */
    method UpdateModuleName(index: nat, name: string)
      requires index < |modules|
      modifies this`modules, this`drafts
      ensures |modules| == |old(modules)| && modules[index] == name
      ensures forall i :: 0 <= i < |modules| && i != index ==> modules[i] == old(modules)[i]
      ensures drafts == Regroup(old(drafts), old(modules)[index], name)
    {
      var oldName := modules[index];
      modules := modules[index := name];
      drafts := Regroup(drafts, oldName, name);
    }

    /** `removeModule`: entry `index` goes, and with it every row grouped under its name. */
    method RemoveModule(index: nat)
      requires index < |modules|
      modifies this`modules, this`drafts
      ensures modules == old(modules)[..index] + old(modules)[index + 1..]
      ensures var removed := old(modules)[index];
        drafts == Seqs.Filter(old(drafts), (d: Deliverable) => d.group != Some(removed))
    {
      var moduleName := modules[index];
      modules := modules[..index] + modules[index + 1..];
      drafts := Seqs.Filter(drafts, (d: Deliverable) => d.group != Some(moduleName));
    }

    /** `toggleEditor`. */
    method ToggleEditor(userId: string)
      modifies this`form
      ensures form == old(form).(editorIds := Toggle(old(form).editorIds, userId))
    {
      form := form.(editorIds := Toggle(form.editorIds, userId));
    }

    /** `handleSubmit`: the project handed to the root, or None when the builder is empty for a non-simple project. */
    method Submit(freshId: string) returns (saved: Option<Project>)
      ensures saved == Submission(editing, form, drafts, freshId)
    {
      saved := Submission(editing, form, drafts, freshId);
    }
  }

  /** A new project is saved with no hours, comments or time logs, whatever the builder does before submit. */
  lemma NewProjectStartsEmpty(today: string, freshId: string, s: ProjectStructure, drafts: seq<Deliverable>, editorIds: seq<string>)
    requires s == Simples || |drafts| > 0
    ensures var r := Submission(None, BlankForm(today).(structure := s, editorIds := editorIds), drafts, freshId);
      r.Some? && r.value.id == freshId && r.value.hoursUsed == 0.0 && r.value.comments == [] && r.value.timeLogs == []
      && HoursConsistent(r.value)
  {
  }
}
