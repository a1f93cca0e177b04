/** The application root: the in-memory lists of users and projects, the
    signed-in user, the current screen, the selected project and the login
    error, and the handlers that replace them. */
module App {
  import opened Types
  import Seqs
  import Text

  /** The screens the root can show. */
  datatype View = LoginView | RegisterView | DashboardView | ProjectDetailsView | ProjectFormView | TeamView | SettingsView

  const LoginFailedMessage: string := "Email ou senha inválidos."
  const DefaultPassword: string := "123"

  /** The generated avatar address; `replace(' ', '+')` only replaces the first space. */
  function AvatarUrl(name: string): string {
    "https://ui-avatars.com/api/?name=" + Text.ReplaceFirst(name, ' ', '+') + "&background=random&color=fff"
  }

  function NewUser(id: string, name: string, email: string, password: string, role: Role): User {
    User(id, name, email, Some(password), role, AvatarUrl(name))
  }

  /** A user matches a login attempt when both email and stored password are exactly the ones typed. */
  predicate Credentials(u: User, email: string, pass: string) {
    u.email == email && u.password == Some(pass)
  }

  /** `users.find(...)` in the login handler, as the index of the first matching user. */
  function FindCredentials(users: seq<User>, email: string, pass: string): (r: Option<nat>)
    ensures r.Some? <==> exists i :: 0 <= i < |users| && Credentials(users[i], email, pass)
    ensures r.Some? ==> r.value < |users| && Credentials(users[r.value], email, pass)
    ensures r.Some? ==> forall j :: 0 <= j < r.value ==> !Credentials(users[j], email, pass)
  {
    if users == [] then None
    else if Credentials(users[0], email, pass) then Some(0)
    else
      var rest := FindCredentials(users[1..], email, pass);
      assert forall i :: 0 < i < |users| ==> users[i] == users[1..][i - 1];
      match rest
      case None => None
      case Some(k) => Some(k + 1)
  }

  /** `users.some(u => u.email === email)`. */
  predicate EmailTaken(users: seq<User>, email: string) {
    exists i :: 0 <= i < |users| && users[i].email == email
  }

  /** No two accounts share an email: what the duplicate checks of registration and member creation keep. */
  predicate UniqueEmails(users: seq<User>) {
    forall i, j :: 0 <= i < j < |users| ==> users[i].email != users[j].email
  }

  predicate UniqueIds(users: seq<User>) {
    forall i, j :: 0 <= i < j < |users| ==> users[i].id != users[j].id
  }

  /** With unique emails, signing in with an account's email and password always selects that account. */
  lemma LoginFindsAccount(users: seq<User>, k: nat)
    requires UniqueEmails(users) && k < |users| && users[k].password.Some?
    ensures FindCredentials(users, users[k].email, users[k].password.value) == Some(k)
  {
    var r := FindCredentials(users, users[k].email, users[k].password.value);
    assert Credentials(users[k], users[k].email, users[k].password.value);
  }

  /** Removing accounts keeps emails and ids unique. */
  lemma {:induction false} FilterKeepsUnique(users: seq<User>, f: User -> bool)
    ensures UniqueEmails(users) ==> UniqueEmails(Seqs.Filter(users, f))
    ensures UniqueIds(users) ==> UniqueIds(Seqs.Filter(users, f))
  {
    if users != [] {
      FilterKeepsUnique(users[1..], f);
      var rest := Seqs.Filter(users[1..], f);
      assert forall i :: 0 <= i < |rest| ==> rest[i] in users[1..];
      if f(users[0]) {
        var r := Seqs.Filter(users, f);
        assert r == [users[0]] + rest;
        assert forall i :: 0 < i < |r| ==> r[i] == rest[i - 1];
      }
    }
  }

  /** `users.map(u => u.id === id ? updated : u)`. */
  function ReplaceUsersById(users: seq<User>, id: string, updated: User): (r: seq<User>)
    ensures |r| == |users|
    ensures forall i :: 0 <= i < |users| && users[i].id != id ==> r[i] == users[i]
    ensures forall i :: 0 <= i < |users| && users[i].id == id ==> r[i] == updated
  {
    seq(|users|, i requires 0 <= i < |users| => if users[i].id == id then updated else users[i])
  }

  /** `users.filter(u => u.id !== id)`: exactly the users with another id, in their order. */
  function RemoveUsersById(users: seq<User>, id: string): (r: seq<User>)
    ensures forall i :: 0 <= i < |r| ==> r[i].id != id && r[i] in users
    ensures forall i :: 0 <= i < |users| && users[i].id != id ==> users[i] in r
    ensures Seqs.IsSubseq(r, users)
  {
    Seqs.FilterIsSubseq(users, (u: User) => u.id != id);
    Seqs.Filter(users, (u: User) => u.id != id)
  }

  /** `projects.map(p => p.id === updated.id ? updated : p)`. */
  function ReplaceProjectsById(projects: seq<Project>, updated: Project): (r: seq<Project>)
    ensures |r| == |projects|
    ensures forall i :: 0 <= i < |projects| ==> r[i].id == projects[i].id
    ensures forall i :: 0 <= i < |projects| && projects[i].id != updated.id ==> r[i] == projects[i]
    ensures forall i :: 0 <= i < |projects| && projects[i].id == updated.id ==> r[i] == updated
    ensures AllHoursConsistent(projects) && HoursConsistent(updated) ==> AllHoursConsistent(r)
  {
    seq(|projects|, i requires 0 <= i < |projects| => if projects[i].id == updated.id then updated else projects[i])
  }

  /** `projects.filter(p => p.id !== id)`. */
  function RemoveProjectsById(projects: seq<Project>, id: string): (r: seq<Project>)
    ensures forall i :: 0 <= i < |r| ==> r[i].id != id && r[i] in projects
    ensures forall i :: 0 <= i < |projects| && projects[i].id != id ==> projects[i] in r
    ensures Seqs.IsSubseq(r, projects)
    ensures AllHoursConsistent(projects) ==> AllHoursConsistent(r)
  {
    Seqs.FilterIsSubseq(projects, (p: Project) => p.id != id);
    Seqs.Filter(projects, (p: Project) => p.id != id)
  }

  /** `projects.find(p => p.id === id)` is defined. */
  predicate HasProjectId(projects: seq<Project>, id: string) {
    exists i :: 0 <= i < |projects| && projects[i].id == id
  }

  /** A change of name (and, when one is typed, of password) applied to the signed-in user's record. */
  function ProfileEdit(u: User, name: string, password: Option<string>): (r: User)
    ensures r.id == u.id && r.email == u.email && r.role == u.role && r.name == name
    ensures r.password == (if password.Some? && password.value != "" then password else u.password)
    ensures r.avatar == AvatarUrl(name)
  {
    u.(name := name, avatar := AvatarUrl(name),
       password := if password.Some? && password.value != "" then password else u.password)
  }

  /** Editing the stored record of the signed-in user changes no id, and no email either. */
  lemma ProfileEditKeepsUnique(users: seq<User>, cur: User, name: string, password: Option<string>)
    ensures var r := ReplaceUsersById(users, cur.id, ProfileEdit(cur, name, password));
      UniqueIds(users) ==> UniqueIds(r)
    ensures var r := ReplaceUsersById(users, cur.id, ProfileEdit(cur, name, password));
      UniqueIds(users) && UniqueEmails(users) && cur in users ==> UniqueEmails(r)
  {
    var r := ReplaceUsersById(users, cur.id, ProfileEdit(cur, name, password));
    assert forall i :: 0 <= i < |users| ==> r[i].id == users[i].id;
    if UniqueIds(users) && UniqueEmails(users) && cur in users {
      var k :| 0 <= k < |users| && users[k] == cur;
      assert forall i :: 0 <= i < |users| && i != k ==> users[i].id != cur.id;
      assert forall i :: 0 <= i < |users| ==> r[i].email == users[i].email;
    }
  }

  class AppState {
    var users: seq<User>
    var projects: seq<Project>
    var currentUser: Option<User>
    var authError: string
    var view: View
    var selectedProject: Option<Project>

    /** The lists and the signed-in user as read back from browser storage (or the built-in fixtures) at start-up. */
    constructor (savedUsers: seq<User>, savedProjects: seq<Project>, savedUser: Option<User>)
      ensures users == savedUsers && projects == savedProjects && currentUser == savedUser
      ensures authError == "" && selectedProject == None
      ensures view == (if savedUser.Some? then DashboardView else LoginView)
    {
      users, projects, currentUser := savedUsers, savedProjects, savedUser;
      authError := "";
      view := if savedUser.Some? then DashboardView else LoginView;
      selectedProject := None;
    }

    /** Sign in with the first user whose email and password both match; otherwise set the error. */
    method HandleLogin(email: string, pass: string)
      modifies this
      ensures users == old(users) && projects == old(projects) && selectedProject == old(selectedProject)
      ensures var found := FindCredentials(users, email, pass);
        if found.Some? then
          currentUser == Some(users[found.value]) && authError == "" && view == DashboardView
        else
          currentUser == old(currentUser) && authError == LoginFailedMessage && view == old(view)
    {
      var found := FindCredentials(users, email, pass);
      if found.Some? {
        currentUser := Some(users[found.value]);
        authError := "";
        view := DashboardView;
      } else {
        authError := LoginFailedMessage;
      }
    }

    /** Create an account unless the email is taken; the new user is appended and signed in. */
    method HandleRegister(name: string, email: string, pass: string, role: Role, newId: string)
      modifies this
      ensures projects == old(projects) && selectedProject == old(selectedProject) && authError == old(authError)
      ensures old(EmailTaken(users, email)) ==>
        users == old(users) && currentUser == old(currentUser) && view == old(view)
      ensures !old(EmailTaken(users, email)) ==>
        var u := NewUser(newId, name, email, pass, role);
        users == old(users) + [u] && currentUser == Some(u) && view == DashboardView
      ensures old(UniqueEmails(users)) ==> UniqueEmails(users)
    {
      if EmailTaken(users, email) {
        return;
      }
      var u := NewUser(newId, name, email, pass, role);
      users := users + [u];
      currentUser := Some(u);
      view := DashboardView;
    }

    method HandleLogout()
      modifies this
      ensures users == old(users) && projects == old(projects)
      ensures currentUser == None && selectedProject == None && view == LoginView && authError == ""
    {
      currentUser := None;
      selectedProject := None;
      view := LoginView;
      authError := "";
    }

    /** An administrator adds a member with the default password; the signed-in user does not change. */
    method HandleAddUser(name: string, email: string, role: Role, newId: string)
      modifies this
      ensures projects == old(projects) && currentUser == old(currentUser) && view == old(view)
      ensures selectedProject == old(selectedProject) && authError == old(authError)
      ensures users == if old(EmailTaken(users, email)) then old(users)
                       else old(users) + [NewUser(newId, name, email, DefaultPassword, role)]
      ensures old(UniqueEmails(users)) ==> UniqueEmails(users)
    {
      if EmailTaken(users, email) {
        return;
      }
      users := users + [NewUser(newId, name, email, DefaultPassword, role)];
    }

    /** Remove a member once the confirmation dialog is accepted; projects keep their editor ids. */
    method HandleDeleteUser(userId: string, confirmed: bool)
      modifies this
      ensures projects == old(projects) && currentUser == old(currentUser) && view == old(view)
      ensures selectedProject == old(selectedProject) && authError == old(authError)
      ensures users == if confirmed then RemoveUsersById(old(users), userId) else old(users)
      ensures old(UniqueEmails(users)) ==> UniqueEmails(users)
      ensures old(UniqueIds(users)) ==> UniqueIds(users)
    {
      if confirmed {
        FilterKeepsUnique(users, (u: User) => u.id != userId);
        users := RemoveUsersById(users, userId);
      }
    }

    /** Rename the signed-in user and, when a non-empty one is given, change the password. */
    method HandleUpdateProfile(name: string, password: Option<string>)
      modifies this
      ensures projects == old(projects) && view == old(view)
      ensures selectedProject == old(selectedProject) && authError == old(authError)
      ensures old(currentUser).None? ==> users == old(users) && currentUser == None
      ensures old(currentUser).Some? ==>
        var updated := ProfileEdit(old(currentUser).value, name, password);
        currentUser == Some(updated) && users == ReplaceUsersById(old(users), updated.id, updated)
      ensures old(UniqueIds(users)) ==> UniqueIds(users)
      ensures old(UniqueIds(users) && UniqueEmails(users) && (currentUser.Some? ==> currentUser.value in users))
              ==> UniqueEmails(users)
    {
      if currentUser.None? {
        return;
      }
      ProfileEditKeepsUnique(users, currentUser.value, name, password);
      var updated := ProfileEdit(currentUser.value, name, password);
      users := ReplaceUsersById(users, currentUser.value.id, updated);
      currentUser := Some(updated);
    }

    method HandleSelectProject(p: Project)
      modifies this
      ensures users == old(users) && projects == old(projects) && currentUser == old(currentUser) && authError == old(authError)
      ensures selectedProject == Some(p) && view == ProjectDetailsView
    {
      selectedProject := Some(p);
      view := ProjectDetailsView;
    }

    method HandleBackToDashboard()
      modifies this
      ensures users == old(users) && projects == old(projects) && currentUser == old(currentUser) && authError == old(authError)
      ensures selectedProject == None && view == DashboardView
    {
      selectedProject := None;
      view := DashboardView;
    }

    /** Open the form with no project selected, which the form reads as "new project". */
    method HandleNewProjectClick()
      modifies this
      ensures users == old(users) && projects == old(projects) && currentUser == old(currentUser) && authError == old(authError)
      ensures selectedProject == None && view == ProjectFormView
    {
      selectedProject := None;
      view := ProjectFormView;
    }

    method HandleEditProjectClick(p: Project)
      modifies this
      ensures users == old(users) && projects == old(projects) && currentUser == old(currentUser) && authError == old(authError)
      ensures selectedProject == Some(p) && view == ProjectFormView
    {
      selectedProject := Some(p);
      view := ProjectFormView;
    }

    /** The menu and link handlers that only switch screen (register, login, team, settings). */
    method Navigate(target: View)
      requires target == LoginView || target == RegisterView || target == TeamView || target == SettingsView
      modifies this
      ensures users == old(users) && projects == old(projects) && currentUser == old(currentUser)
      ensures selectedProject == old(selectedProject) && authError == old(authError)
      ensures view == target
    {
      view := target;
    }

    /** Replace the stored project with the same id and refresh the selection if it is that project. */
    method HandleUpdateProject(updated: Project)
      modifies this
      ensures users == old(users) && currentUser == old(currentUser) && view == old(view) && authError == old(authError)
      ensures projects == ReplaceProjectsById(old(projects), updated)
      ensures selectedProject == if old(selectedProject).Some? && old(selectedProject).value.id == updated.id
                                 then Some(updated) else old(selectedProject)
      ensures old(AllHoursConsistent(projects)) && HoursConsistent(updated) ==> AllHoursConsistent(projects)
    {
      projects := ReplaceProjectsById(projects, updated);
      if selectedProject.Some? && selectedProject.value.id == updated.id {
        selectedProject := Some(updated);
      }
    }

    /** Delete a project once confirmed and go back to the dashboard. */
    method HandleDeleteProject(projectId: string, confirmed: bool)
      modifies this
      ensures users == old(users) && currentUser == old(currentUser) && authError == old(authError)
      ensures !confirmed ==> projects == old(projects) && selectedProject == old(selectedProject) && view == old(view)
      ensures confirmed ==>
        projects == RemoveProjectsById(old(projects), projectId) && selectedProject == None && view == DashboardView
      ensures old(AllHoursConsistent(projects)) ==> AllHoursConsistent(projects)
    {
      if confirmed {
        projects := RemoveProjectsById(projects, projectId);
        HandleBackToDashboard();
      }
    }

    /** Save the form: an existing id updates in place and shows the project; a new one is put first. */
    method HandleSaveForm(data: Project)
      modifies this
      ensures users == old(users) && currentUser == old(currentUser) && authError == old(authError)
      ensures old(HasProjectId(projects, data.id)) ==>
        projects == ReplaceProjectsById(old(projects), data) && view == ProjectDetailsView
        && selectedProject == if old(selectedProject).Some? && old(selectedProject).value.id == data.id
                              then Some(data) else old(selectedProject)
      ensures !old(HasProjectId(projects, data.id)) ==>
        projects == [data] + old(projects) && view == DashboardView && selectedProject == old(selectedProject)
      ensures |projects| == if old(HasProjectId(projects, data.id)) then old(|projects|) else old(|projects|) + 1
      ensures old(AllHoursConsistent(projects)) && HoursConsistent(data) ==> AllHoursConsistent(projects)
    {
      if HasProjectId(projects, data.id) {
        HandleUpdateProject(data);
        view := ProjectDetailsView;
      } else {
        projects := [data] + projects;
        view := DashboardView;
      }
    }
  }
}
