/** The vocabulary of the production tracker: users, projects and what a
    project owns (deliverables with their version history, comments and
    time logs). Optional TypeScript fields become `Option`; hours are exact
    reals; dates and timestamps are opaque strings. */
module Types {

  datatype Option<+T> = None | Some(value: T)

  datatype Role = Admin | Editor | Assistant

  /** 'Em andamento' | 'Pausado' | 'Finalizado' | 'Cancelado' */
  datatype ProjectStatus = EmAndamento | Pausado | Finalizado | Cancelado

  /** 'Baixa' | 'Média' | 'Alta' | 'Urgente' */
  datatype Priority = Baixa | Media | Alta | Urgente

  datatype VersionType = V1 | V2 | V3 | Final

  /** 'Simples' (one video) | 'Campanha' (flat list) | 'Curso' (modules) */
  datatype ProjectStructure = Simples | Campanha | Curso

  datatype User = User(
    id: string,
    name: string,
    email: string,
    password: Option<string>,
    role: Role,
    avatar: string)

  datatype Comment = Comment(id: string, userId: string, userName: string, text: string, createdAt: string)

  datatype VersionLog = VersionLog(id: string, versionType: VersionType, link: string, submittedAt: string, notes: string)

  datatype Deliverable = Deliverable(
    id: string,
    title: string,
    group: Option<string>,
    status: ProjectStatus,
    versions: seq<VersionLog>,
    description: Option<string>)

  datatype TimeLog = TimeLog(id: string, userId: string, userName: string, hours: real, date: string, description: string)

  datatype VersionDeadlines = VersionDeadlines(v1: string, v2: Option<string>, final: string)

  datatype Project = Project(
    id: string,
    name: string,
    client: string,
    projectType: string,
    structure: ProjectStructure,
    status: ProjectStatus,
    priority: Priority,
    description: string,
    startDate: string,
    deadline: string,
    versionDeadlines: VersionDeadlines,
    hoursBudgeted: real,
    hoursUsed: real,
    editorIds: seq<string>,
    deliverables: seq<Deliverable>,
    comments: seq<Comment>,
    timeLogs: seq<TimeLog>)

  /** The hours of a list of time logs, added up. */
  function SumHours(logs: seq<TimeLog>): real {
    if logs == [] then 0.0 else logs[0].hours + SumHours(logs[1..])
  }

  lemma {:induction false} SumHoursAppend(a: seq<TimeLog>, b: seq<TimeLog>)
    ensures SumHours(a + b) == SumHours(a) + SumHours(b)
  {
    if a == [] {
      assert a + b == b;
    } else {
      assert (a + b)[0] == a[0];
      assert (a + b)[1..] == a[1..] + b;
      SumHoursAppend(a[1..], b);
    }
  }

  /** The bookkeeping the application means to keep: `hoursUsed` is the sum of the project's time logs. */
  predicate HoursConsistent(p: Project) {
    p.hoursUsed == SumHours(p.timeLogs)
  }

  predicate AllHoursConsistent(ps: seq<Project>) {
    forall i :: 0 <= i < |ps| ==> HoursConsistent(ps[i])
  }

  /** The label a role is shown and reported with. */
  function RoleName(r: Role): string {
    match r
    case Admin => "admin"
    case Editor => "editor"
    case Assistant => "assistant"
  }
}
