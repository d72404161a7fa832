// A list row showing one user: an avatar, the name, an optional role and
// e-mail line and a strip of named action buttons; four variants of it (a
// compact one, a team member, a contact, a selectable one) and the list
// that holds such rows and reports clicks on them by the user's name.
//
// The variants reuse the plain row by holding one (`const item`). Whether
// the avatar's picture file loads is a parameter (`imageLoads`).

module UserListItem {
  import opened Common
  import opened UserAvatar

  /** The avatar size of a list row, and of the compact row. */
  const RowAvatarSize := 40
  const CompactAvatarSize := 24

  class UserItem {
    var name: string
    var role: string
    var email: string
    var avatarPath: string
    var status: Option<string>
    var clickable: bool
    /** The action buttons with the names their clicks report, in order. */
    var actions: seq<Named<ActionButton>>
    /** Whether the action strip is on screen. */
    var actionsShown: bool
    var nameLabel: string
    var roleLabel: Option<string>
    var emailLabel: Option<string>
    const avatar: Avatar

    /** The avatar shows this row's user, and the strip is shown exactly while it holds a button. */
    predicate Valid()
      reads this, avatar
    {
      avatar.name == name && avatar.imagePath == avatarPath && avatar.status == status
      && nameLabel == name
      && (actionsShown <==> actions != [])
    }

    /** A row with no actions, not clickable, a 40-pixel avatar and labels only for a non-empty role and e-mail. */
    constructor (name: string, role: string, email: string, avatarPath: string, status: Option<string>, imageLoads: bool)
      ensures Valid() && fresh(avatar)
      ensures this.name == name && this.role == role && this.email == email
      ensures this.avatarPath == avatarPath && this.status == status
      ensures !clickable && actions == [] && !actionsShown
      ensures roleLabel == LabelFor(role) && emailLabel == LabelFor(email)
      ensures avatar.size == RowAvatarSize && !avatar.clickable
      ensures avatar.dots == if Truthy(status) then [StatusDot(status.value, RowAvatarSize)] else []
    {
      this.name, this.role, this.email := name, role, email;
      this.avatarPath, this.status := avatarPath, status;
      clickable, actions, actionsShown := false, [], false;
      nameLabel := name;
      roleLabel, emailLabel := LabelFor(role), LabelFor(email);
      avatar := new Avatar(name, avatarPath, RowAvatarSize, status, imageLoads);
    }

    /** `add_action`: the button goes last under its given or default name, and the strip is shown. */
    method AddAction(text: string, actionName: Option<string>, variant: string)
      requires Valid()
      modifies this`actions, this`actionsShown
      ensures Valid()
      ensures actions == old(actions) + [Named(ActionName(text, actionName), ActionButton(text, variant))]
      ensures actionsShown
    {
      actions := actions + [Named(ActionName(text, actionName), ActionButton(text, variant))];
      actionsShown := true;
    }

    /** `remove_action`: the first button of that name leaves, and the strip hides once it is empty. */
    method RemoveAction(actionName: string)
      requires Valid()
      modifies this`actions, this`actionsShown
      ensures Valid()
      ensures actions == RemoveNamed(old(actions), actionName)
      ensures Names(actions) == RemoveFirst(Names(old(actions)), actionName)
      ensures actionsShown <==> actions != []
    {
      var i := FindName(actions, actionName);
      if i != -1 {
        actions := actions[..i] + actions[i + 1..];
      }
      if actions == [] {
        actionsShown := false;
      }
    }

    /** Clicking an action button reports the name it was added under. */
    method ClickAction(i: nat) returns (emitted: string)
      requires i < |actions|
      ensures emitted == Names(actions)[i]
      ensures emitted in Names(actions)
    {
      emitted := actions[i].name;
    }

    method SetClickable(c: bool)
      modifies this`clickable
      ensures clickable == c
    {
      clickable := c;
    }

    /** `clicked` is emitted for a left press on a clickable row. */
    method MousePress(left: bool) returns (clicked: bool)
      ensures clicked <==> clickable && left
    {
      clicked := clickable && left;
    }

    /** `set_name`: the name, its label and the avatar follow. */
    method SetName(n: string, imageLoads: bool)
      requires Valid()
      modifies this`name, this`nameLabel, avatar`name, avatar`face, avatar`dots
      ensures Valid()
      ensures name == n && nameLabel == n
      ensures avatar.face == FaceFor(n, avatarPath, imageLoads)
    {
      name, nameLabel := n, n;
      avatar.SetName(n, imageLoads);
    }

    /** `set_role`: the role changes, and its label only if the row was built with one. */
    method SetRole(r: string)
      modifies this`role, this`roleLabel
      ensures role == r && roleLabel == Relabel(old(roleLabel), r)
    {
      role := r;
      roleLabel := Relabel(roleLabel, r);
    }

    /** `set_email`: likewise for the e-mail line. */
    method SetEmail(e: string)
      modifies this`email, this`emailLabel
      ensures email == e && emailLabel == Relabel(old(emailLabel), e)
    {
      email := e;
      emailLabel := Relabel(emailLabel, e);
    }

    /** `set_status`: the row and its avatar take the status. */
    method SetStatus(s: string, imageLoads: bool)
      requires Valid()
      modifies this`status, avatar`status, avatar`face, avatar`dots
      ensures Valid()
      ensures status == Some(s)
      ensures s != "" ==> avatar.dots == old(avatar.dots) + [StatusDot(s, avatar.size)]
    {
      status := Some(s);
      avatar.SetStatus(s, imageLoads);
    }

    /** `set_avatar`: the row and its avatar take the picture path. */
    method SetAvatar(path: string, imageLoads: bool)
      requires Valid()
      modifies this`avatarPath, avatar`imagePath, avatar`face, avatar`dots
      ensures Valid()
      ensures avatarPath == path && avatar.face == FaceFor(name, path, imageLoads)
    {
      avatarPath := path;
      avatar.SetImage(path, imageLoads);
    }
  }

  /**
   * The compact row: no e-mail and no status, and a 24-pixel avatar. The
   * name label is taken out of the row to go into a compact layout, but
   * that layout's `QHBoxLayout(self)` is refused, because the row still
   * has its first layout, so the name is not on screen.
   */
  class CompactItem {
    const item: UserItem
    /** Whether the name label is in a layout Qt installed on the row, and so on screen. */
    const nameShown: bool

    /** `CompactUserListItem(name, role, avatar_path)` as written: the name label ends up off screen. */
    constructor (name: string, role: string, avatarPath: string, imageLoads: bool)
      ensures fresh(item) && fresh(item.avatar) && item.Valid()
      ensures item.name == name && item.role == role && item.email == "" && item.emailLabel == None
      ensures item.status == None && item.avatar.size == CompactAvatarSize && item.avatar.dots == []
      ensures item.actions == [] && !item.actionsShown && !item.clickable
      ensures !nameShown
    {
      item := new UserItem(name, role, "", avatarPath, None, imageLoads);
      nameShown := false;
      new;
      item.avatar.SetSize(CompactAvatarSize, imageLoads);
    }

    /** The compact row as intended: the compact layout replaces the first one and shows the name. */
    constructor Intended(name: string, role: string, avatarPath: string, imageLoads: bool)
      ensures fresh(item) && fresh(item.avatar) && item.Valid()
      ensures item.name == name && item.role == role && item.email == "" && item.emailLabel == None
      ensures item.status == None && item.avatar.size == CompactAvatarSize && item.avatar.dots == []
      ensures item.actions == [] && !item.actionsShown && !item.clickable
      ensures nameShown
    {
      item := new UserItem(name, role, "", avatarPath, None, imageLoads);
      nameShown := true;
      new;
      item.avatar.SetSize(CompactAvatarSize, imageLoads);
    }

    /** The name the row shows, if any. */
    function ShownName(): (r: Option<string>)
      reads this, item
      ensures r.Some? <==> nameShown
      ensures r.Some? ==> r.value == item.name
    {
      if nameShown then Some(item.name) else None
    }
  }

  /** As written, a compact row for "Ada" shows no name. */
  method CompactNameHidden() returns (shown: Option<string>)
    ensures shown == None
  {
    var c := new CompactItem("Ada", "Engineer", "", false);
    shown := c.ShownName();
  }

  /** As intended, the compact row for "Ada" shows her name. */
  method CompactNameShownIntended() returns (shown: Option<string>)
    ensures shown == Some("Ada")
  {
    var c := new CompactItem.Intended("Ada", "Engineer", "", false);
    shown := c.ShownName();
  }

  /** The caption of a team member's team line. */
  function TeamLabel(team: string): (l: Option<string>)
    ensures l.Some? <==> team != ""
    ensures l.Some? ==> l.value == "Team: " + team
  {
    if team != "" then Some("Team: " + team) else None
  }

  /** A row with a team line under the role. */
  class TeamMember {
    const item: UserItem
    var team: string
    var teamLabel: Option<string>

    constructor (name: string, role: string, team: string, avatarPath: string, status: Option<string>, imageLoads: bool)
      ensures fresh(item) && item.Valid()
      ensures item.name == name && item.role == role && item.email == "" && item.status == status
      ensures this.team == team && teamLabel == TeamLabel(team)
    {
      item := new UserItem(name, role, "", avatarPath, status, imageLoads);
      this.team := team;
      teamLabel := TeamLabel(team);
    }

    /** `set_team` as written: the team changes but the line on screen keeps the old caption. */
    method SetTeam(t: string)
      modifies this`team
      ensures team == t && teamLabel == old(teamLabel)
    {
      team := t;
    }

    /** `set_team` as its comment intends: a line shown since construction takes the new caption. */
    method SetTeamIntended(t: string)
      modifies this`team, this`teamLabel
      ensures team == t
      ensures teamLabel.Some? <==> old(teamLabel).Some? && t != ""
      ensures teamLabel.Some? ==> teamLabel.value == "Team: " + team
    {
      team := t;
      if teamLabel.Some? {
        teamLabel := TeamLabel(t);
      }
    }
  }

  /** A stale team line: built with team "A", set to "B", the line still reads "Team: A". */
  method StaleTeamLine() returns (team: string, caption: Option<string>)
    ensures team == "B" && caption == Some("Team: A")
    ensures caption != TeamLabel(team)
  {
    var m := new TeamMember("Ada", "", "A", "", None, false);
    m.SetTeam("B");
    team, caption := m.team, m.teamLabel;
    assert "Team: " + "A" == "Team: A";
    assert TeamLabel(team).value[6] == 'B' != caption.value[6];
  }

  /** The intended update keeps the team line in step with the team. */
  method FreshTeamLine() returns (team: string, caption: Option<string>)
    ensures team == "B" && caption == TeamLabel(team)
  {
    var m := new TeamMember("Ada", "", "A", "", None, false);
    m.SetTeamIntended("B");
    team, caption := m.team, m.teamLabel;
  }

  /** The two buttons every contact row starts with. */
  const ContactActions: seq<Named<ActionButton>> :=
    [Named("call", ActionButton("Call", "primary")), Named("message", ActionButton("Message", "secondary"))]

  /** A row with a phone line and Call and Message buttons. */
  class Contact {
    const item: UserItem
    var phone: string
    /** The phone line: only for a phone number given at construction, and never updated. */
    const phoneLabel: Option<string>

    constructor (name: string, role: string, email: string, phone: string, avatarPath: string, imageLoads: bool)
      ensures fresh(item) && item.Valid()
      ensures item.name == name && item.role == role && item.email == email && item.status == None
      ensures this.phone == phone && phoneLabel == LabelFor(phone)
      ensures item.actions == ContactActions && item.actionsShown
    {
      item := new UserItem(name, role, email, avatarPath, None, imageLoads);
      this.phone := phone;
      phoneLabel := LabelFor(phone);
      new;
      item.AddAction("Call", Some("call"), "primary");
      item.AddAction("Message", Some("message"), "secondary");
    }

    /** `set_phone`: the number changes; the line on screen does not. */
    method SetPhone(p: string)
      modifies this`phone
      ensures phone == p
    {
      phone := p;
    }
  }

  /** A contact row's buttons report "call" and "message", in that order. */
  lemma ContactActionNames()
    ensures Names(ContactActions) == ["call", "message"]
    ensures Distinct(Names(ContactActions))
  {
    assert Names(ContactActions)[0] == "call";
    assert Names(ContactActions)[1] == "message";
  }

  /** A row with a selection check box. */
  class Selectable {
    const item: UserItem
    /** The checkbox state, and the row's own record of it. */
    var checked: bool
    var selected: bool
    /** Whether the row wears the highlighted style. */
    var highlighted: bool

    predicate Valid()
      reads this
    {
      checked == selected
    }

    constructor (name: string, role: string, email: string, avatarPath: string, imageLoads: bool)
      ensures fresh(item) && item.Valid() && Valid()
      ensures item.name == name && item.role == role && item.email == email && item.status == None
      ensures !checked && !selected && !highlighted
    {
      item := new UserItem(name, role, email, avatarPath, None, imageLoads);
      checked, selected, highlighted := false, false, false;
    }

    /**
     * `set_selected`: the checkbox takes the state; only a change fires
     * `toggled`, which records the state, restyles the row and emits
     * `selection_changed`.
     */
    method SetSelected(s: bool) returns (emitted: Option<bool>)
      requires Valid()
      modifies this`checked, this`selected, this`highlighted
      ensures Valid() && selected == s
      ensures emitted.Some? <==> s != old(selected)
      ensures emitted.Some? ==> emitted.value == s && highlighted == s
      ensures emitted.None? ==> highlighted == old(highlighted)
    {
      if checked != s {
        checked := s;
        selected, highlighted := s, s;
        emitted := Some(s);
      } else {
        emitted := None;
      }
    }

    /** A click on the checkbox flips it, which always reports the new state. */
    method ClickCheckbox() returns (emitted: Option<bool>)
      requires Valid()
      modifies this`checked, this`selected, this`highlighted
      ensures Valid() && selected == !old(selected)
      ensures emitted == Some(selected) && highlighted == selected
    {
      emitted := SetSelected(!checked);
    }
  }

  // ---------------------------------------------------------------------
  // the list

  /** The names the rows show, in list order (`get_users`). */
  function UserNames(us: seq<UserItem>): (r: seq<string>)
    reads us
    ensures |r| == |us|
    ensures forall i :: 0 <= i < |us| ==> r[i] == us[i].name
  {
    if us == [] then [] else [us[0].name] + UserNames(us[1..])
  }

  /** The names of the rows around a removed one are the names around its name. */
  lemma UserNamesDeleteAt(us: seq<UserItem>, i: nat)
    requires i < |us|
    ensures UserNames(us[..i] + us[i + 1..]) == UserNames(us)[..i] + UserNames(us)[i + 1..]
  {
    var a, b := UserNames(us[..i] + us[i + 1..]), UserNames(us)[..i] + UserNames(us)[i + 1..];
    assert |a| == |b|;
    forall k | 0 <= k < |a|
      ensures a[k] == b[k]
    {
      if k < i {
        assert a[k] == us[k].name == b[k];
      } else {
        assert a[k] == us[k + 1].name == b[k];
      }
    }
  }

  /** The list with the first row showing `name` taken out (`remove_user`). */
  function WithoutUser(us: seq<UserItem>, name: string): (r: seq<UserItem>)
    reads us
    ensures UserNames(r) == RemoveFirst(UserNames(us), name)
    ensures name !in UserNames(us) ==> r == us
    ensures |r| == if name in UserNames(us) then |us| - 1 else |us|
  {
    if name in UserNames(us) then
      var i := IndexOf(UserNames(us), name);
      UserNamesDeleteAt(us, i);
      RemoveFirstSlices(UserNames(us), name);
      us[..i] + us[i + 1..]
    else us
  }

  /** A row whose name no earlier row shows is taken out again by name. */
  lemma AddThenRemoveUser(us: seq<UserItem>, u: UserItem)
    requires u.name !in UserNames(us)
    ensures WithoutUser(us + [u], u.name) == us
  {
    var t := us + [u];
    assert UserNames(t)[|us|] == u.name;
    assert forall k :: 0 <= k < |us| ==> UserNames(t)[k] == UserNames(us)[k];
    IndexOfIsFirst(UserNames(t), u.name, |us|);
    assert t[..|us|] + t[|us| + 1..] == us;
  }

  class UserList {
    var users: seq<UserItem>
    /** The rows whose clicks reach the list, once per `add_user` call; never disconnected. */
    var connected: seq<UserItem>

    constructor ()
      ensures users == [] && connected == []
    {
      users, connected := [], [];
    }

    function GetUsers(): (r: seq<string>)
      reads this, users
      ensures r == UserNames(users)
    {
      UserNames(users)
    }

    /** `add_user`: the row goes last, and its signals are connected once more. */
    method AddUser(u: UserItem)
      modifies this`users, this`connected
      ensures users == old(users) + [u]
      ensures connected == old(connected) + [u]
      ensures GetUsers() == old(GetUsers()) + [u.name]
    {
      users, connected := users + [u], connected + [u];
      assert UserNames(users) == UserNames(old(users)) + [u.name];
    }

    /** `remove_user`: the loop takes out the first row showing the name; its connections stay. */
    method RemoveUser(name: string)
      modifies this`users
      ensures users == old(WithoutUser(users, name))
    {
      ghost var after := WithoutUser(users, name);
      var i := 0;
      while i < |users| && users[i].name != name
        invariant 0 <= i <= |users| && users == old(users)
        invariant forall k :: 0 <= k < i ==> users[k].name != name
      {
        i := i + 1;
      }
      if i < |users| {
        IndexOfIsFirst(UserNames(users), name, i);
        users := users[..i] + users[i + 1..];
      } else {
        assert forall k :: 0 <= k < |users| ==> UserNames(users)[k] != name;
      }
      assert users == after;
    }

    /** `clear_users`: no rows; connections stay. */
    method ClearUsers()
      modifies this`users
      ensures users == [] && GetUsers() == []
    {
      users := [];
    }

    /** `find_user`: the first row showing the name, or none. */
    method FindUser(name: string) returns (r: Option<UserItem>)
      ensures r.None? <==> name !in GetUsers()
      ensures r.Some? ==> r.value == users[IndexOf(GetUsers(), name)] && r.value.name == name
    {
      var i := 0;
      while i < |users|
        invariant 0 <= i <= |users|
        invariant forall k :: 0 <= k < i ==> users[k].name != name
      {
        if users[i].name == name {
          IndexOfIsFirst(UserNames(users), name, i);
          return Some(users[i]);
        }
        i := i + 1;
      }
      return None;
    }

    /**
     * A left press on a clickable row emits `user_selected` once per time
     * the row was added, with the name it shows now.
     */
    method ClickUser(u: UserItem, left: bool) returns (emitted: seq<string>)
      ensures u.clickable && left ==> emitted == Repeat(u.name, multiset(connected)[u])
      ensures !(u.clickable && left) ==> emitted == []
      ensures |emitted| > 0 ==> u in connected
    {
      emitted := [];
      var clicked := u.MousePress(left);
      if clicked {
        emitted := Repeat(u.name, multiset(connected)[u]);
      }
    }

    /** A click on a row's action button emits `user_action` with the row's present name and the action's name. */
    method ClickAction(u: UserItem, i: nat) returns (emitted: seq<(string, string)>)
      requires i < |u.actions|
      ensures emitted == Repeat((u.name, u.actions[i].name), multiset(connected)[u])
      ensures u !in connected ==> emitted == []
    {
      var a := u.ClickAction(i);
      emitted := Repeat((u.name, a), multiset(connected)[u]);
    }
  }
}
