/**
 * Profile cards: an avatar that shows an image or the name's initials,
 * name/role/email labels, and a footer of named action buttons that is
 * shown while it holds buttons. Whether an avatar image loads is a
 * parameter (the file is not read here).
 */
module ProfileCard {
  import opened Common
  import BaseCard

  /** The uppercased first characters of the first two words of the name, or "?" when it has no words. */
  function ProfileInitials(name: string): (r: string)
    ensures 1 <= |r| <= 2
  {
    var initials := FirstLetters(PyTake(Split(name), 2));
    if initials == "" then "?" else initials
  }

  /** A blank name gives "?"; otherwise one letter per word up to two, the first being the name's first visible character, uppercased. */
  lemma ProfileInitialsSpec(name: string)
    ensures AllSpace(name) ==> ProfileInitials(name) == "?"
    ensures !AllSpace(name) ==> ProfileInitials(name)[0] == UpperChar(StripLeft(name)[0])
    ensures !AllSpace(name) ==> |ProfileInitials(name)| == if |Split(name)| >= 2 then 2 else 1
    ensures forall k :: 0 <= k < |ProfileInitials(name)| ==> !IsLowerAscii(ProfileInitials(name)[k])
  {
    SplitEmptyIff(name);
    FirstTwoWords(Split(name));
    if !AllSpace(name) {
      SplitFirstChar(name);
    }
  }

  /** The letters of the first two words: one per word, the first one from the first word. */
  lemma FirstTwoWords(words: seq<string>)
    requires forall i :: 0 <= i < |words| ==> IsWord(words[i])
    ensures var r := FirstLetters(PyTake(words, 2));
      |r| == (if |words| >= 2 then 2 else |words|) && (words != [] ==> r[0] == UpperChar(words[0][0]))
  {
    var t := PyTake(words, 2);
    assert forall i :: 0 <= i < |t| ==> t[i] == words[i] && t[i] != "";
  }

  /** `"".join(p[0].upper() for p in parts if p)`. */
  function FirstLetters(parts: seq<string>): (r: string)
    ensures |r| <= |parts|
    ensures (forall i :: 0 <= i < |parts| ==> parts[i] != "") ==>
              |r| == |parts| && forall i :: 0 <= i < |parts| ==> r[i] == UpperChar(parts[i][0])
    ensures forall k :: 0 <= k < |r| ==> !IsLowerAscii(r[k])
  {
    if parts == [] then ""
    else (if parts[0] != "" then [UpperChar(parts[0][0])] else "") + FirstLetters(parts[1..])
  }

  /** The colour token of a team member's status dot; an unknown status uses text_secondary. */
  function MemberStatusToken(status: string): (t: string)
    ensures status !in {"online", "away", "busy", "offline"} ==> t == "text_secondary"
    ensures status == "online" ==> t == "success"
  {
    if status == "online" then "success"
    else if status == "away" then "warning"
    else if status == "busy" then "danger"
    else "text_secondary"
  }

  class ProfileCardWidget {
    const card: BaseCard.Card
    var name: string
    var role: string
    var email: string
    var avatar: Option<string>
    /** The text of the avatar label: the initials, or `None` while it shows an image. */
    var avatarText: Option<string>
    var nameLabel: Option<string>
    var actions: seq<Named<ActionButton>>

    /** The footer is shown exactly while it holds buttons. */
    ghost predicate Valid()
      reads this, card
    {
      card.footerVisible == (actions != [])
    }

    /** `avatarLoads` says whether the avatar image, when there is one, loads. */
    constructor (name0: string, role0: string, avatar0: Option<string>, email0: string, avatarLoads: bool)
      ensures Valid() && fresh(card)
      ensures name == name0 && role == role0 && email == email0 && avatar == avatar0 && actions == []
      ensures avatarText == if avatar0.Some? && avatar0.value != "" && avatarLoads then None else Some(ProfileInitials(name0))
      ensures nameLabel == if name0 != "" then Some(name0) else None
    {
      card := new BaseCard.Card();
      name, role, email, avatar := name0, role0, email0, avatar0;
      nameLabel := if name0 != "" then Some(name0) else None;
      actions := [];
      avatarText := None;
      new;
      if avatar0.Some? && avatar0.value != "" {
        SetAvatarImage(avatarLoads);
      } else {
        SetAvatarInitials();
      }
    }

    method SetAvatarInitials()
      modifies this`avatarText
      ensures avatarText == Some(ProfileInitials(name))
    {
      avatarText := Some(ProfileInitials(name));
    }

    /** An image that fails to load falls back to the initials. */
    method SetAvatarImage(loads: bool)
      modifies this`avatarText
      ensures avatarText == if loads then None else Some(ProfileInitials(name))
    {
      if loads {
        avatarText := None;
      } else {
        SetAvatarInitials();
      }
    }

    /** Appends a button named as given or after its text, and shows the footer. */
    method AddActionButton(text: string, actionName: Option<string>, variant: string)
      requires Valid()
      modifies this`actions, card`footerVisible
      ensures Valid()
      ensures actions == old(actions) + [Named(ActionName(text, actionName), ActionButton(text, variant))]
      ensures card.footerVisible
    {
      actions := actions + [Named(ActionName(text, actionName), ActionButton(text, variant))];
      if !card.footerVisible {
        card.ShowFooter();
      }
    }

    /** Removes the first button with that name; the footer is hidden once no button is left. */
    method RemoveActionButton(actionName: string)
      requires Valid()
      modifies this`actions, card`footerVisible
      ensures Valid()
      ensures actions == RemoveNamed(old(actions), actionName)
      ensures Names(actions) == RemoveFirst(Names(old(actions)), actionName)
    {
      var i := FindName(actions, actionName);
      if i != -1 {
        actions := actions[..i] + actions[i + 1..];
      }
      if actions == [] {
        card.HideFooter();
      }
    }

    /** A click on a button emits `action_clicked` with its name. */
    method ClickAction(i: int) returns (actionClicked: string)
      requires 0 <= i < |actions|
      ensures actionClicked == actions[i].name
    {
      actionClicked := actions[i].name;
    }

    /** The initials follow the new name, replacing an avatar image too. */
    method SetName(n: string)
      modifies this`name, this`nameLabel, this`avatarText
      ensures name == n
      ensures nameLabel == if old(nameLabel).Some? then Some(n) else None
      ensures avatarText == Some(ProfileInitials(n))
    {
      name := n;
      if nameLabel.Some? {
        nameLabel := Some(n);
      }
      SetAvatarInitials();
    }

    method SetRole(r: string)
      modifies this`role
      ensures role == r
    {
      role := r;
    }

    method SetEmail(e: string)
      modifies this`email
      ensures email == e
    {
      email := e;
    }

    method SetAvatar(path: string, loads: bool)
      modifies this`avatar, this`avatarText
      ensures avatar == Some(path)
      ensures avatarText == if loads then None else Some(ProfileInitials(name))
    {
      avatar := Some(path);
      SetAvatarImage(loads);
    }
  }

  /** A team member's card: every status set adds a dot over the avatar, the newest on top. */
  class TeamMemberCard {
    const profile: ProfileCardWidget
    var status: string
    var dots: seq<string>

    constructor (name: string, role: string, avatar: Option<string>, status0: string, avatarLoads: bool)
      ensures fresh(profile) && profile.name == name && status == status0
      ensures dots == [MemberStatusToken(status0)]
    {
      profile := new ProfileCardWidget(name, role, avatar, "", avatarLoads);
      status := status0;
      dots := [MemberStatusToken(status0)];
    }

    method SetStatus(s: string)
      modifies this`status, this`dots
      ensures status == s && dots == old(dots) + [MemberStatusToken(s)]
    {
      status := s;
      dots := dots + [MemberStatusToken(s)];
    }
  }
}
