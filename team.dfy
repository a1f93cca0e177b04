/** The team page: searching members, the add-member form and who may
    add or remove members. */
module Team {
  import opened Types
  import Seqs
  import Text
  import App

  /** Lower-cased name or email contains the lower-cased term. */
  predicate MatchesSearch(u: User, term: string) {
    var lower := Text.Lower(term);
    Text.Contains(Text.Lower(u.name), lower) || Text.Contains(Text.Lower(u.email), lower)
  }

  /** `filteredUsers`: the matching members in the team's order. */
  function FilteredUsers(users: seq<User>, term: string): (r: seq<User>)
    ensures Seqs.IsSubseq(r, users)
    ensures forall i :: 0 <= i < |r| ==> MatchesSearch(r[i], term)
    ensures forall i :: 0 <= i < |users| && MatchesSearch(users[i], term) ==> users[i] in r
  {
    Seqs.FilterIsSubseq(users, (u: User) => MatchesSearch(u, term));
    Seqs.Filter(users, (u: User) => MatchesSearch(u, term))
  }

  /** The filter is applied even to an empty term, and then keeps everyone. */
  lemma EmptySearchKeepsEveryone(users: seq<User>)
    ensures FilteredUsers(users, "") == users
  {
    forall i | 0 <= i < |users|
      ensures MatchesSearch(users[i], "")
    {
      assert Text.StartsWith(Text.Lower(users[i].name), "");
    }
    Seqs.FilterKeepsAll(users, (u: User) => MatchesSearch(u, ""));
  }

  /** The remove button: only an administrator, and never on their own card. */
  predicate CanDelete(viewer: User, member: User) {
    viewer.role == Admin && member.id != viewer.id
  }

  /** The add button: only an administrator, and only while the form is closed. */
  predicate ShowAddButton(viewer: User, isAdding: bool) {
    viewer.role == Admin && !isAdding
  }

  /** The member cards that carry a remove button: none for a non-administrator; for an
      administrator every listed member except their own card, in the list's order. */
  lemma RemoveButtons(users: seq<User>, term: string, viewer: User)
    ensures Seqs.Filter(FilteredUsers(users, term), (m: User) => CanDelete(viewer, m)) ==
      if viewer.role == Admin then Seqs.Filter(FilteredUsers(users, term), (m: User) => m.id != viewer.id) else []
  {
    var shown := FilteredUsers(users, term);
    var canDelete := (m: User) => CanDelete(viewer, m);
    if viewer.role == Admin {
      Seqs.FilterKeepsAll(shown, (m: User) => true);
      Seqs.FilterFilter(shown, (m: User) => true, canDelete, (m: User) => m.id != viewer.id);
    } else {
      Seqs.FilterDropsAll(shown, canDelete);
    }
  }

  /** Removing a member offered for removal never removes the viewer's own entry. */
  lemma DeleteKeepsViewer(users: seq<User>, viewer: User, member: User)
    requires CanDelete(viewer, member) && viewer in users
    ensures viewer in App.RemoveUsersById(users, member.id)
  {
    var i :| 0 <= i < |users| && users[i] == viewer;
    assert users[i].id != member.id;
  }

  /** The add-member form. */
  class TeamForm {
    var isAdding: bool
    var newName: string
    var newEmail: string
    var newRole: Role

    constructor ()
      ensures !isAdding && newName == "" && newEmail == "" && newRole == Editor
    {
      isAdding := false;
      newName := "";
      newEmail := "";
      newRole := Editor;
    }

    /** The add button opens the form. */
    method OpenForm()
      modifies this`isAdding
      ensures isAdding
    {
      isAdding := true;
    }

    /** `handleSubmit`: with both name and email filled in, hand them to the add-user handler and
        reset the form; otherwise nothing happens. */
    method Submit() returns (request: Option<(string, string, Role)>)
      modifies this
      ensures request.Some? <==> old(newName) != "" && old(newEmail) != ""
      ensures request.Some? ==> request.value == (old(newName), old(newEmail), old(newRole))
      ensures request.Some? ==> newName == "" && newEmail == "" && newRole == Editor && !isAdding
      ensures request.None? ==> newName == old(newName) && newEmail == old(newEmail)
                                && newRole == old(newRole) && isAdding == old(isAdding)
    {
      if newName != "" && newEmail != "" {
        request := Some((newName, newEmail, newRole));
        newName := "";
        newEmail := "";
        newRole := Editor;
        isAdding := false;
      } else {
        request := None;
      }
    }
  }
}
