/** Staff administration: the list of users holding a role, and adding,
    changing and removing roles. The `user_roles` table is a map from user
    to role, so a user holds at most one role by construction; database
    answers are inputs. */
module StaffManagement {
  import opened Wrappers
  import Seqs
  import Text

  type UserId = string

  datatype Role = Admin | Staff

  /** A `user_roles` row as the list query returns it. */
  datatype RoleRow = RoleRow(userId: UserId, role: Role, createdAt: string)

  datatype Profile = Profile(id: UserId, email: Option<string>, fullName: Option<string>)

  datatype StaffMember = StaffMember(id: UserId, email: string, fullName: Option<string>, role: Role, createdAt: string)

  const UnknownEmail: string := "Unknown"

  /** `profiles.find(p => p.id === userId)`: the first profile with that id. */
  function FindProfile(profiles: seq<Profile>, userId: UserId): (r: Option<Profile>)
    ensures r.Some? ==> r.value in profiles && r.value.id == userId
    ensures r.None? <==> forall i :: 0 <= i < |profiles| ==> profiles[i].id != userId
  {
    if profiles == [] then None
    else if profiles[0].id == userId then Some(profiles[0])
    else FindProfile(profiles[1..], userId)
  }

  /** The profile a role row is merged with: none when the profile query
      failed. */
  function ProfileOf(row: RoleRow, profiles: Option<seq<Profile>>): Option<Profile>
  {
    if profiles.Some? then FindProfile(profiles.value, row.userId) else None
  }

  /** One staff entry for a role row: the email of the user's profile, or
      "Unknown" when there is no profile or its email is empty; the full name
      when non-empty. */
  function MemberOf(row: RoleRow, profiles: Option<seq<Profile>>): (m: StaffMember)
    ensures m.id == row.userId && m.role == row.role && m.createdAt == row.createdAt
    ensures m.email != ""
    ensures m.email == UnknownEmail <==>
              profiles.None? || FindProfile(profiles.value, row.userId).None? ||
              !Text.Truthy(FindProfile(profiles.value, row.userId).value.email) ||
              FindProfile(profiles.value, row.userId).value.email == Some(UnknownEmail)
    ensures m.fullName.Some? ==> m.fullName.value != ""
    ensures var p := ProfileOf(row, profiles);
            p.Some? && Text.Truthy(p.value.email) ==> m.email == p.value.email.value
    ensures var p := ProfileOf(row, profiles);
            m.fullName.None? <==> p.None? || !Text.Truthy(p.value.fullName)
    ensures var p := ProfileOf(row, profiles);
            m.fullName.Some? ==> m.fullName == p.value.fullName
  {
    var profile := ProfileOf(row, profiles);
    StaffMember(
      row.userId,
      if profile.Some? && Text.Truthy(profile.value.email) then profile.value.email.value else UnknownEmail,
      if profile.Some? && Text.Truthy(profile.value.fullName) then profile.value.fullName else None,
      row.role,
      row.createdAt)
  }

  /** The merge: one entry per role row, in the same order. A failed
      profile query (`None`) leaves every email unknown. */
  function Merge(rows: seq<RoleRow>, profiles: Option<seq<Profile>>): (r: seq<StaffMember>)
    ensures |r| == |rows|
    ensures forall i :: 0 <= i < |rows| ==> r[i] == MemberOf(rows[i], profiles)
  {
    Seqs.Map((row: RoleRow) => MemberOf(row, profiles), rows)
  }

  /** `rows` lists the role table: each user once, with their role. */
  predicate Lists(rows: seq<RoleRow>, roles: map<UserId, Role>)
  {
    && (forall i :: 0 <= i < |rows| ==> rows[i].userId in roles && roles[rows[i].userId] == rows[i].role)
    && (forall u :: u in roles ==> exists i :: 0 <= i < |rows| && rows[i].userId == u)
    && (forall i, j :: 0 <= i < j < |rows| ==> rows[i].userId != rows[j].userId)
  }

  /** When the rows list the role table, the staff list shows each role
      holder exactly once, with the role the table gives them. */
  lemma MergeMatchesTable(rows: seq<RoleRow>, roles: map<UserId, Role>, profiles: Option<seq<Profile>>)
    requires Lists(rows, roles)
    ensures var staff := Merge(rows, profiles);
            && (forall u :: u in roles <==> exists i :: 0 <= i < |staff| && staff[i].id == u)
            && (forall i :: 0 <= i < |staff| ==> staff[i].role == roles[staff[i].id])
            && (forall i, j :: 0 <= i < j < |staff| ==> staff[i].id != staff[j].id)
  {
    var staff := Merge(rows, profiles);
    forall u | u in roles
      ensures exists i :: 0 <= i < |staff| && staff[i].id == u
    {
      var i :| 0 <= i < |rows| && rows[i].userId == u;
      assert staff[i].id == u;
    }
  }

  const BlankEmail: string := "Please enter an email"
  const UserNotFound: string := "User not found. They must sign up first at /auth"
  const RoleUpdated: string := "Role updated successfully"
  const StaffAdded: string := "Staff member added successfully"
  const AddFailed: string := "Failed to add staff member"

  /** The toast for a caught error: its message, or the default. */
  function FailureNotice(message: string): (r: string)
    ensures r != ""
    ensures message != "" ==> r == message
  {
    if message != "" then message else AddFailed
  }

  /** Some profile carries `email`. */
  predicate Listed(profiles: seq<Profile>, email: string)
  {
    exists i :: 0 <= i < |profiles| && profiles[i].email == Some(email)
  }

  /** Two different profiles carry `email`. */
  predicate Duplicated(profiles: seq<Profile>, email: string)
  {
    exists i, j :: 0 <= i < j < |profiles| && profiles[i].email == Some(email) && profiles[j].email == Some(email)
  }

  /** The error the client library reports when `maybeSingle` meets more
      than one row. */
  const MultipleRows := "JSON object requested, multiple (or no) rows returned"

  /** What `.eq('email', email).maybeSingle()` answers on the profile table:
      nothing when no profile has that email, the id of the one profile
      that has it, and an error when several have it. */
  function LookupByEmail(profiles: seq<Profile>, email: string): (r: Result<Option<UserId>, string>)
    ensures r == Ok(None) <==> !Listed(profiles, email)
    ensures r.Err? <==> Duplicated(profiles, email)
    ensures r.Err? ==> r.error == MultipleRows
    ensures r.Ok? && r.value.Some? ==>
              exists i :: 0 <= i < |profiles| && profiles[i].email == Some(email) && profiles[i].id == r.value.value
  {
    if profiles == [] then Ok(None)
    else
      var tail := profiles[1..];
      var rest := LookupByEmail(tail, email);
      ListedCons(profiles, email);
      DuplicatedCons(profiles, email);
      assert rest.Ok? && rest.value.Some? ==>
             exists i :: 0 <= i < |profiles| && profiles[i].email == Some(email) && profiles[i].id == rest.value.value by {
        if rest.Ok? && rest.value.Some? {
          var i :| 0 <= i < |tail| && tail[i].email == Some(email) && tail[i].id == rest.value.value;
          assert profiles[i + 1] == tail[i];
        }
      }
      if profiles[0].email == Some(email) then
        if rest == Ok(None) then Ok(Some(profiles[0].id)) else Err(MultipleRows)
      else rest
  }

  /** The email is listed in a table when its first profile or the rest
      carries it. */
  lemma ListedCons(profiles: seq<Profile>, email: string)
    requires profiles != []
    ensures Listed(profiles, email) <==> profiles[0].email == Some(email) || Listed(profiles[1..], email)
  {
    var tail := profiles[1..];
    if Listed(profiles, email) {
      var i :| 0 <= i < |profiles| && profiles[i].email == Some(email);
      if i > 0 {
        assert tail[i - 1] == profiles[i];
      }
    }
    if Listed(tail, email) {
      var i :| 0 <= i < |tail| && tail[i].email == Some(email);
      assert profiles[i + 1] == tail[i];
    }
  }

  /** The email is duplicated in a table when the first profile and one of
      the rest carry it, or the rest already duplicates it. */
  lemma DuplicatedCons(profiles: seq<Profile>, email: string)
    requires profiles != []
    ensures Duplicated(profiles, email) <==>
            (profiles[0].email == Some(email) && Listed(profiles[1..], email)) || Duplicated(profiles[1..], email)
  {
    var tail := profiles[1..];
    if Duplicated(profiles, email) {
      var i, j :| 0 <= i < j < |profiles| && profiles[i].email == Some(email) && profiles[j].email == Some(email);
      assert tail[j - 1] == profiles[j];
      if i > 0 {
        assert tail[i - 1] == profiles[i];
      }
    }
    if profiles[0].email == Some(email) && Listed(tail, email) {
      var k :| 0 <= k < |tail| && tail[k].email == Some(email);
      assert profiles[k + 1] == tail[k];
    }
    if Duplicated(tail, email) {
      var i, j :| 0 <= i < j < |tail| && tail[i].email == Some(email) && tail[j].email == Some(email);
      assert profiles[i + 1] == tail[i] && profiles[j + 1] == tail[j];
    }
  }

  /** When only one profile carries the email, the lookup answers with that
      profile's id. */
  lemma LookupFindsUnique(profiles: seq<Profile>, email: string, i: int)
    requires 0 <= i < |profiles| && profiles[i].email == Some(email)
    requires !Duplicated(profiles, email)
    ensures LookupByEmail(profiles, email) == Ok(Some(profiles[i].id))
  {
    var r := LookupByEmail(profiles, email);
    var j :| 0 <= j < |profiles| && profiles[j].email == Some(email) && profiles[j].id == r.value.value;
    SingleHolder(profiles, email, i, j);
  }

  /** Without duplicates, two profiles that carry the email are the same. */
  lemma SingleHolder(profiles: seq<Profile>, email: string, i: int, j: int)
    requires 0 <= i < |profiles| && profiles[i].email == Some(email)
    requires 0 <= j < |profiles| && profiles[j].email == Some(email)
    requires !Duplicated(profiles, email)
    ensures i == j
  {
  }

  class StaffPanel {
    var staff: seq<StaffMember>
    var loading: bool
    var dialogOpen: bool
    var newEmail: string
    var newRole: Role
    var creating: bool

    constructor ()
      ensures staff == [] && loading && !dialogOpen && newEmail == "" && newRole == Staff && !creating
    {
      staff := [];
      loading := true;
      dialogOpen := false;
      newEmail := "";
      newRole := Staff;
      creating := false;
    }

    /** `fetchStaff`: a failed role query keeps the list and reports it; no
        role rows gives an empty list (profiles are not queried); otherwise
        the merge of the rows with the profile answer. */
    method FetchStaff(rows: Result<seq<RoleRow>, string>, profiles: Option<seq<Profile>>)
      returns (notice: Option<string>)
      modifies this
      ensures !loading
      ensures dialogOpen == old(dialogOpen) && newEmail == old(newEmail) && newRole == old(newRole) && creating == old(creating)
      ensures rows.Err? ==> staff == old(staff) && notice == Some("Failed to load staff")
      ensures rows.Ok? ==> notice.None? && staff == Merge(rows.value, profiles)
      ensures rows.Ok? && rows.value == [] ==> staff == []
    {
      loading := true;
      if rows.Err? {
        notice := Some("Failed to load staff");
        loading := false;
        return;
      }
      notice := None;
      if |rows.value| == 0 {
        staff := [];
        loading := false;
        return;
      }
      staff := Merge(rows.value, profiles);
      loading := false;
    }

    method OpenDialog()
      modifies this
      ensures dialogOpen
      ensures staff == old(staff) && loading == old(loading) && newEmail == old(newEmail)
      ensures newRole == old(newRole) && creating == old(creating)
    {
      dialogOpen := true;
    }

    method SetNewEmail(email: string, role: Role)
      modifies this
      ensures newEmail == email && newRole == role
      ensures staff == old(staff) && loading == old(loading) && dialogOpen == old(dialogOpen) && creating == old(creating)
    {
      newEmail := email;
      newRole := role;
    }

    /** `handleAddStaff`. `lookup` is the profile query's answer for the
        trimmed email (an error message, no profile, or the user's id);
        `writeFailure` is the message of a failed update or insert. A blank
        email is rejected before any query; an unknown user changes nothing;
        otherwise the user's role row is updated when present and inserted
        when absent, so the user ends with exactly the chosen role. */
    method AddStaff(roles: map<UserId, Role>, lookup: Result<Option<UserId>, string>, writeFailure: Option<string>)
      returns (roles': map<UserId, Role>, notice: string)
      modifies this
      ensures staff == old(staff) && loading == old(loading)
      ensures Text.Trim(old(newEmail)) == "" ==> notice == BlankEmail && roles' == roles
      ensures Text.Trim(old(newEmail)) == "" ==> creating == old(creating)
      ensures Text.Trim(old(newEmail)) != "" ==> !creating
      ensures Text.Trim(old(newEmail)) != "" && lookup.Err? ==>
                roles' == roles && notice == FailureNotice(lookup.error)
      ensures Text.Trim(old(newEmail)) != "" && lookup == Ok(None) ==>
                roles' == roles && notice == UserNotFound
      ensures Text.Trim(old(newEmail)) != "" && lookup.Ok? && lookup.value.Some? && writeFailure.Some? ==>
                roles' == roles && notice == FailureNotice(writeFailure.value)
      ensures Text.Trim(old(newEmail)) != "" && lookup.Ok? && lookup.value.Some? && writeFailure.None? ==>
                && roles' == roles[lookup.value.value := old(newRole)]
                && notice == (if lookup.value.value in roles then RoleUpdated else StaffAdded)
                && !dialogOpen && newEmail == "" && newRole == Staff
      ensures !(Text.Trim(old(newEmail)) != "" && lookup.Ok? && lookup.value.Some? && writeFailure.None?) ==>
                dialogOpen == old(dialogOpen) && newEmail == old(newEmail) && newRole == old(newRole)
    {
      if Text.Trim(newEmail) == "" {
        roles' := roles;
        notice := BlankEmail;
        return;
      }
      roles', notice := Enroll(roles, lookup, writeFailure);
    }

    /** The part of `handleAddStaff` after the email check: the creating
        flag is raised for the queries and lowered at the end; an error or
        an unknown user changes no role; otherwise the user gets the chosen
        role and the dialog resets. */
    method Enroll(roles: map<UserId, Role>, lookup: Result<Option<UserId>, string>, writeFailure: Option<string>)
      returns (roles': map<UserId, Role>, notice: string)
      modifies this
      ensures staff == old(staff) && loading == old(loading) && !creating
      ensures lookup.Err? ==> roles' == roles && notice == FailureNotice(lookup.error)
      ensures lookup == Ok(None) ==> roles' == roles && notice == UserNotFound
      ensures lookup.Ok? && lookup.value.Some? && writeFailure.Some? ==>
                roles' == roles && notice == FailureNotice(writeFailure.value)
      ensures lookup.Ok? && lookup.value.Some? && writeFailure.None? ==>
                && roles' == roles[lookup.value.value := old(newRole)]
                && notice == (if lookup.value.value in roles then RoleUpdated else StaffAdded)
                && !dialogOpen && newEmail == "" && newRole == Staff
      ensures !(lookup.Ok? && lookup.value.Some? && writeFailure.None?) ==>
                dialogOpen == old(dialogOpen) && newEmail == old(newEmail) && newRole == old(newRole)
    {
      roles' := roles;
      creating := true;
      if lookup.Err? {
        notice := FailureNotice(lookup.error);
        creating := false;
        return;
      }
      if lookup.value.None? {
        notice := UserNotFound;
        creating := false;
        return;
      }
      var userId := lookup.value.value;
      if writeFailure.Some? {
        notice := FailureNotice(writeFailure.value);
        creating := false;
        return;
      }
      if userId in roles {
        roles' := roles[userId := newRole];
        notice := RoleUpdated;
      } else {
        roles' := roles[userId := newRole];
        notice := StaffAdded;
      }
      dialogOpen := false;
      newEmail := "";
      newRole := Staff;
      creating := false;
    }

    /** `handleRemoveRole`: nothing without confirmation; a failure is
        reported; otherwise exactly that user's row is deleted. */
    method RemoveRole(roles: map<UserId, Role>, userId: UserId, confirmed: bool, fails: bool)
      returns (roles': map<UserId, Role>, notice: Option<string>)
      ensures !confirmed ==> roles' == roles && notice.None?
      ensures confirmed && fails ==> roles' == roles && notice == Some("Failed to remove staff member")
      ensures confirmed && !fails ==> notice == Some("Staff access removed")
      ensures confirmed && !fails ==> userId !in roles' && forall u :: u != userId ==> (u in roles' <==> u in roles)
      ensures forall u :: u in roles' ==> u in roles && roles'[u] == roles[u]
    {
      if !confirmed {
        return roles, None;
      }
      if fails {
        return roles, Some("Failed to remove staff member");
      }
      roles' := map u | u in roles && u != userId :: roles[u];
      notice := Some("Staff access removed");
    }

    /** `updateRole`: sets the role of a user that has a row; a user without
        one gets none (an update inserts nothing); other users are
        untouched. */
    method UpdateRole(roles: map<UserId, Role>, userId: UserId, role: Role, fails: bool)
      returns (roles': map<UserId, Role>, notice: string)
      ensures fails ==> roles' == roles && notice == "Failed to update role"
      ensures !fails ==> notice == "Role updated"
      ensures roles'.Keys == roles.Keys
      ensures !fails && userId in roles ==> roles'[userId] == role
      ensures forall u :: u in roles && u != userId ==> roles'[u] == roles[u]
    {
      if fails {
        return roles, "Failed to update role";
      }
      roles' := if userId in roles then roles[userId := role] else roles;
      notice := "Role updated";
    }
  }
}
