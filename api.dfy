/** The record/row conversions of the storage layer: a project row with
    snake_case columns (any of which may come back null) to a `Project`
    and back, and the profile rows, which never carry a password. */
module Api {
  import opened Types

  /** A `projects` row. The columns the reader defaults are optional. */
  datatype ProjectRow = ProjectRow(
    id: string,
    name: string,
    client: string,
    kind: string,
    structure: ProjectStructure,
    status: ProjectStatus,
    priority: Priority,
    description: string,
    start_date: Option<string>,
    deadline: Option<string>,
    version_deadlines: Option<VersionDeadlines>,
    hours_budgeted: Option<real>,
    hours_used: Option<real>,
    editor_ids: Option<seq<string>>,
    deliverables: Option<seq<Deliverable>>,
    comments: Option<seq<Comment>>,
    time_logs: Option<seq<TimeLog>>)

  /** A `profiles` row: the user's fields without the password. */
  datatype ProfileRow = ProfileRow(id: string, name: string, email: string, role: Role, avatar: string)

  /** A partial user update, as handed to the profile update. */
  datatype UserPatch = UserPatch(
    name: Option<string>,
    email: Option<string>,
    password: Option<string>,
    role: Option<Role>,
    avatar: Option<string>)

  /** The same update without its password, as written to `profiles`. */
  datatype ProfilePatch = ProfilePatch(name: Option<string>, email: Option<string>, role: Option<Role>, avatar: Option<string>)

  const EmptyDeadlines: VersionDeadlines := VersionDeadlines("", None, "")

  /** `value || fallback` on a string column: null and '' both fall back. */
  function StringOr(v: Option<string>, fallback: string): (r: string)
    ensures v.Some? && v.value != "" ==> r == v.value
    ensures v.None? || v.value == "" ==> r == fallback
  {
    if v.Some? && v.value != "" then v.value else fallback
  }

  /** `value || 0` on a number column: null and 0 both give 0. */
  function HoursOr(v: Option<real>): (r: real)
    ensures r == if v.Some? then v.value else 0.0
  {
    if v.Some? && v.value != 0.0 then v.value else 0.0
  }

  /** `value || []` on a list column: an empty list is kept as it is. */
  function ListOr<T>(v: Option<seq<T>>): (r: seq<T>)
    ensures v.Some? ==> r == v.value
    ensures v.None? ==> r == []
  {
    if v.Some? then v.value else []
  }

  /** The mapping applied to each row read by `getProjects`; `now` is the current timestamp. */
  function FromRow(row: ProjectRow, now: string): (p: Project)
    ensures p.id == row.id && p.name == row.name && p.client == row.client && p.projectType == row.kind
    ensures p.structure == row.structure && p.status == row.status && p.priority == row.priority
    ensures p.description == row.description
    ensures p.startDate == (if row.start_date.Some? && row.start_date.value != "" then row.start_date.value else now)
    ensures p.deadline == (if row.deadline.Some? && row.deadline.value != "" then row.deadline.value else now)
    ensures p.versionDeadlines == (if row.version_deadlines.Some? then row.version_deadlines.value else EmptyDeadlines)
    ensures p.hoursBudgeted == (if row.hours_budgeted.Some? then row.hours_budgeted.value else 0.0)
    ensures p.hoursUsed == (if row.hours_used.Some? then row.hours_used.value else 0.0)
    ensures row.editor_ids.None? ==> p.editorIds == []
    ensures row.deliverables.None? ==> p.deliverables == []
    ensures row.comments.None? ==> p.comments == []
    ensures row.time_logs.None? ==> p.timeLogs == []
    ensures row.editor_ids.Some? ==> p.editorIds == row.editor_ids.value
    ensures row.deliverables.Some? ==> p.deliverables == row.deliverables.value
    ensures row.comments.Some? ==> p.comments == row.comments.value
    ensures row.time_logs.Some? ==> p.timeLogs == row.time_logs.value
  {
    Project(
      row.id, row.name, row.client, row.kind, row.structure, row.status, row.priority, row.description,
      StringOr(row.start_date, now),
      StringOr(row.deadline, now),
      if row.version_deadlines.Some? then row.version_deadlines.value else EmptyDeadlines,
      HoursOr(row.hours_budgeted),
      HoursOr(row.hours_used),
      ListOr(row.editor_ids),
      ListOr(row.deliverables),
      ListOr(row.comments),
      ListOr(row.time_logs))
  }

  /** The row `saveProject` upserts: each field goes to its one column, nothing is null. */
  function ToRow(p: Project): (row: ProjectRow)
    ensures row.id == p.id && row.name == p.name && row.client == p.client && row.kind == p.projectType
    ensures row.start_date == Some(p.startDate) && row.deadline == Some(p.deadline)
    ensures row.version_deadlines == Some(p.versionDeadlines)
    ensures row.hours_budgeted == Some(p.hoursBudgeted) && row.hours_used == Some(p.hoursUsed)
    ensures row.editor_ids == Some(p.editorIds) && row.deliverables == Some(p.deliverables)
    ensures row.comments == Some(p.comments) && row.time_logs == Some(p.timeLogs)
  {
    ProjectRow(
      p.id, p.name, p.client, p.projectType, p.structure, p.status, p.priority, p.description,
      Some(p.startDate), Some(p.deadline), Some(p.versionDeadlines),
      Some(p.hoursBudgeted), Some(p.hoursUsed),
      Some(p.editorIds), Some(p.deliverables), Some(p.comments), Some(p.timeLogs))
  }

  /** Saving and reading back gives the same project, except that an empty start date or deadline
      comes back as the time of reading. */
  lemma RoundTrip(p: Project, now: string)
    ensures var q := FromRow(ToRow(p), now);
      && q.startDate == (if p.startDate == "" then now else p.startDate)
      && q.deadline == (if p.deadline == "" then now else p.deadline)
      && q.(startDate := p.startDate, deadline := p.deadline) == p
    ensures p.startDate != "" && p.deadline != "" ==> FromRow(ToRow(p), now) == p
  {
  }

  /** A project that was read once survives any number of further save/read cycles unchanged. */
  lemma ReadIsStable(row: ProjectRow, now: string, later: string)
    requires now != ""
    ensures FromRow(ToRow(FromRow(row, now)), later) == FromRow(row, now)
  {
    RoundTrip(FromRow(row, now), later);
  }

  /** `createUserProfile`: the profile row is the user without the password. */
  function ToProfileRow(u: User): (r: ProfileRow)
    ensures r.id == u.id && r.name == u.name && r.email == u.email && r.role == u.role && r.avatar == u.avatar
  {
    ProfileRow(u.id, u.name, u.email, u.role, u.avatar)
  }

  /** `updateUserProfile`: the update as written, without the password. */
  function StripPassword(patch: UserPatch): (r: ProfilePatch)
    ensures r.name == patch.name && r.email == patch.email && r.role == patch.role && r.avatar == patch.avatar
  {
    ProfilePatch(patch.name, patch.email, patch.role, patch.avatar)
  }

  /** No written profile row or update depends on the password: two users or updates that differ
      only in it are written identically. */
  lemma PasswordNeverWritten(u: User, patch: UserPatch, other: Option<string>)
    ensures ToProfileRow(u.(password := other)) == ToProfileRow(u)
    ensures StripPassword(patch.(password := other)) == StripPassword(patch)
  {
  }
}
