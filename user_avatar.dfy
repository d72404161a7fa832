/**
 * User avatars: a square widget that shows an image or the initials of a
 * name, with a coloured status dot in its bottom-right corner; an editable
 * avatar whose image is picked from a file dialog; and a group that
 * overlaps its first few avatars and counts the rest.
 *
 * Whether an image file loads and what the file dialog returns are
 * parameters; the initials' background colour is not modelled.
 */
module UserAvatar {
  import opened Common

  // ---------------------------------------------------------------------
  // Initials

  /**
   * `_get_initials`: "?" for an empty name or one without words, the first
   * letters of the first and last words for two or more words, and the
   * first letter of a single word, uppercased.
   */
  function Initials(name: string): (r: string)
    ensures 1 <= |r| <= 2
  {
    if name == "" then "?"
    else
      var parts := Split(Strip(name));
      if |parts| >= 2 then [UpperChar(parts[0][0]), UpperChar(parts[|parts| - 1][0])]
      else if |parts| == 1 then [UpperChar(parts[0][0])]
      else "?"
  }

  /** A blank name gives "?"; otherwise the first initial is the name's first visible character, uppercased, and there are two initials exactly when there are two words. */
  lemma InitialsSpec(name: string)
    ensures AllSpace(name) ==> Initials(name) == "?"
    ensures !AllSpace(name) ==> Strip(name) != [] && Initials(name)[0] == UpperChar(Strip(name)[0])
    ensures !AllSpace(name) ==> |Initials(name)| == if |Split(Strip(name))| >= 2 then 2 else 1
    ensures forall k :: 0 <= k < |Initials(name)| ==> !IsLowerAscii(Initials(name)[k])
  {
    var s := Strip(name);
    StripEmptyIff(name);
    if AllSpace(name) {
      assert s == [];
      assert Split(s) == [];
    } else {
      assert name != [] && s != [] && !IsSpace(s[0]);
      SplitHead(s);
      var parts := Split(s);
      assert parts != [] && parts[0][0] == s[0];
    }
  }

  /** A name of several words takes its letters from the first and the last of them, whatever lies between. */
  lemma InitialsFirstLast(first: string, middle: string, last: string)
    requires IsWord(first) && IsWord(last)
    ensures Initials(first + " " + middle + " " + last) == [UpperChar(first[0]), UpperChar(last[0])]
  {
    var name := first + " " + middle + " " + last;
    assert name[0] == first[0] && name[|name| - 1] == last[|last| - 1];
    StripNoop(name);
    assert name == first + (" " + (middle + " " + last));
    SplitAfterWord(first, middle + " " + last);
    SplitBeforeWord(middle, last);
    var parts := Split(name);
    assert parts == [first] + Split(middle) + [last];
  }

  /** A word followed by whitespace is the first word. */
  lemma {:induction false} TakeWordBefore(w: string, rest: string)
    requires IsWord(w) && rest != [] && IsSpace(rest[0])
    ensures TakeWord(w + rest) == w
  {
    if |w| > 1 {
      assert (w + rest)[1..] == w[1..] + rest;
      TakeWordBefore(w[1..], rest);
    } else {
      assert (w + rest)[1..] == rest;
    }
  }

  /** `split` of a word, a space and more: the word, then the words of the rest. */
  lemma SplitAfterWord(w: string, rest: string)
    requires IsWord(w)
    ensures Split(w + (" " + rest)) == [w] + Split(rest)
  {
    TakeWordBefore(w, " " + rest);
    assert (w + (" " + rest))[|w|..] == " " + rest;
    assert (" " + rest)[1..] == rest;
  }

  /** `split` of some text, a space and a word: the words of the text, then the word. */
  lemma {:induction false} SplitBeforeWord(s: string, w: string)
    requires IsWord(w)
    ensures Split(s + " " + w) == Split(s) + [w]
    decreases |s|
  {
    var t := s + " " + w;
    if s == [] {
      assert t == " " + w && t[1..] == w;
      SplitWord(w);
    } else if IsSpace(s[0]) {
      assert t[1..] == s[1..] + " " + w;
      SplitBeforeWord(s[1..], w);
    } else {
      var u := TakeWord(s);
      TakeWordPrefix(s, " " + w);
      assert s + " " + w == s + (" " + w);
      assert t[|u|..] == s[|u|..] + " " + w;
      SplitBeforeWord(s[|u|..], w);
    }
  }

  /** The first word of some text stays the first word when whitespace-led text follows. */
  lemma {:induction false} TakeWordPrefix(s: string, rest: string)
    requires rest != [] && IsSpace(rest[0])
    ensures TakeWord(s + rest) == TakeWord(s)
  {
    if s != [] && !IsSpace(s[0]) {
      assert (s + rest)[1..] == s[1..] + rest;
      TakeWordPrefix(s[1..], rest);
    } else if s == [] {
      assert s + rest == rest;
    }
  }

  // ---------------------------------------------------------------------
  // Status dot

  const OnlineColor := "#10B981"
  const AwayColor := "#F59E0B"
  const BusyColor := "#EF4444"
  const OfflineColor := "#6B7280"

  /** The status colours; an unknown status uses the offline colour. */
  function StatusColor(status: string): (c: string)
    ensures status !in {"online", "away", "busy"} ==> c == OfflineColor
    ensures status in {"online", "away", "busy"} ==> c != OfflineColor
  {
    if status == "online" then OnlineColor
    else if status == "away" then AwayColor
    else if status == "busy" then BusyColor
    else OfflineColor
  }

  /** The dot's side: a sixth of the avatar, at least 8 pixels. */
  function DotSize(size: int): (d: int)
    ensures d >= 8 && d >= size / 6
    ensures d == 8 || d == size / 6
  {
    if size / 6 > 8 then size / 6 else 8
  }

  datatype Point = Point(x: int, y: int)

  /** A status dot: its colour, side and where its corner sits. */
  datatype Dot = Dot(color: string, side: int, pos: Point)

  /** The dot of a status on an avatar of that size, flush with the bottom-right corner. */
  function StatusDot(status: string, size: int): (d: Dot)
    ensures d.pos.x + d.side == size && d.pos.y + d.side == size
    ensures d.side == DotSize(size) && d.color == StatusColor(status)
  {
    Dot(StatusColor(status), DotSize(size), Point(size - DotSize(size), size - DotSize(size)))
  }

  /** An avatar of at least 8 pixels holds its dot inside it. */
  lemma DotInside(status: string, size: int)
    requires size >= 8
    ensures 0 <= StatusDot(status, size).pos.x < size
    ensures StatusDot(status, size).side <= size
  {
  }

  // ---------------------------------------------------------------------
  // The avatar

  /** What the avatar label shows: the loaded image, or initials. */
  datatype Face = ImageFace(path: string) | InitialsFace(text: string)

  /** Python truth of an optional status: `None` and "" are false. */
  predicate Truthy(status: Option<string>) {
    status.Some? && status.value != ""
  }

  /** What `_update_avatar` draws: an image that loads, or else the initials. */
  function FaceFor(name: string, imagePath: string, imageLoads: bool): (f: Face)
    ensures f.ImageFace? <==> imagePath != "" && imageLoads
    ensures f.InitialsFace? ==> f.text == Initials(name)
  {
    if imagePath != "" && imageLoads then ImageFace(imagePath) else InitialsFace(Initials(name))
  }

  class Avatar {
    var name: string
    var imagePath: string
    var size: int
    var status: Option<string>
    var clickable: bool
    var face: Face
    /** Every status dot drawn on the avatar, oldest first; each `_update_avatar` adds one and none is removed. */
    var dots: seq<Dot>

    constructor (name: string, imagePath: string, size: int, status: Option<string>, imageLoads: bool)
      ensures this.name == name && this.imagePath == imagePath && this.size == size && this.status == status
      ensures !clickable && face == FaceFor(name, imagePath, imageLoads)
      ensures dots == if Truthy(status) then [StatusDot(status.value, size)] else []
    {
      this.name := name;
      this.imagePath := imagePath;
      this.size := size;
      this.status := status;
      clickable := false;
      face := FaceFor(name, imagePath, imageLoads);
      dots := if status.Some? && status.value != "" then [StatusDot(status.value, size)] else [];
    }

    /** `_update_avatar`: redraw the face and, with a status, add a dot over the earlier ones. */
    method Update(imageLoads: bool)
      modifies this`face, this`dots
      ensures face == FaceFor(name, imagePath, imageLoads)
      ensures dots == old(dots) + if Truthy(status) then [StatusDot(status.value, size)] else []
    {
      face := FaceFor(name, imagePath, imageLoads);
      if status.Some? && status.value != "" {
        dots := dots + [StatusDot(status.value, size)];
      }
    }

    /** `set_name`. */
    method SetName(n: string, imageLoads: bool)
      modifies this`name, this`face, this`dots
      ensures name == n && face == FaceFor(n, imagePath, imageLoads)
      ensures dots == old(dots) + if Truthy(status) then [StatusDot(status.value, size)] else []
    {
      name := n;
      Update(imageLoads);
    }

    /** `set_image`. */
    method SetImage(path: string, imageLoads: bool)
      modifies this`imagePath, this`face, this`dots
      ensures imagePath == path && face == FaceFor(name, path, imageLoads)
      ensures dots == old(dots) + if Truthy(status) then [StatusDot(status.value, size)] else []
    {
      imagePath := path;
      Update(imageLoads);
    }

    /**
     * `set_status`, as written: a new status adds its dot over the old
     * ones, and clearing the status leaves every earlier dot in place.
     */
    method SetStatus(s: string, imageLoads: bool)
      modifies this`status, this`face, this`dots
      ensures status == Some(s)
      ensures s != "" ==> dots == old(dots) + [StatusDot(s, size)]
      ensures s == "" ==> dots == old(dots)
    {
      status := Some(s);
      Update(imageLoads);
    }

    /** `set_status` as evidently intended: the avatar carries the dot of its current status, or none. */
    method SetStatusIntended(s: string, imageLoads: bool)
      modifies this`status, this`face, this`dots
      ensures status == Some(s)
      ensures dots == if s != "" then [StatusDot(s, size)] else []
    {
      status := Some(s);
      dots := [];
      Update(imageLoads);
    }

    /** `set_size`: the avatar and any new dot take the new size. */
    method SetSize(n: int, imageLoads: bool)
      modifies this`size, this`face, this`dots
      ensures size == n && face == FaceFor(name, imagePath, imageLoads)
      ensures dots == old(dots) + if Truthy(status) then [StatusDot(status.value, n)] else []
    {
      size := n;
      Update(imageLoads);
    }

    /** `set_clickable`. */
    method SetClickable(c: bool)
      modifies this`clickable
      ensures clickable == c
    {
      clickable := c;
    }

    /** A mouse press emits `clicked` when the avatar is clickable and the button is the left one. */
    method MousePress(left: bool) returns (clicked: bool)
      ensures clicked <==> clickable && left
    {
      clicked := clickable && left;
    }
  }

  /** An avatar whose image is picked from a file dialog. */
  class EditableAvatar {
    const avatar: Avatar
    var editable: bool
    /** Every edit marker drawn, oldest first. */
    var markers: seq<Point>

    constructor (name: string, imagePath: string, size: int, imageLoads: bool)
      ensures fresh(avatar) && editable && markers == []
      ensures avatar.name == name && avatar.imagePath == imagePath && avatar.size == size
      ensures avatar.status == None && avatar.clickable && avatar.dots == []
    {
      avatar := new Avatar(name, imagePath, size, None, imageLoads);
      editable := true;
      markers := [];
      new;
      avatar.SetClickable(true);
    }

    /**
     * `_edit_avatar`: `picked` is the file the dialog returns, "" when it
     * was cancelled; an editable avatar takes a picked file and emits it.
     */
    method Edit(picked: string, imageLoads: bool) returns (emitted: Option<string>)
      modifies avatar`imagePath, avatar`face, avatar`dots
      ensures editable && picked != "" ==>
                (emitted == Some(picked) && avatar.imagePath == picked && avatar.face == FaceFor(avatar.name, picked, imageLoads))
      ensures !(editable && picked != "") ==> emitted == None && avatar.imagePath == old(avatar.imagePath) && avatar.face == old(avatar.face)
    {
      emitted := None;
      if editable && picked != "" {
        avatar.SetImage(picked, imageLoads);
        emitted := Some(picked);
      }
    }

    /** A left click on a clickable avatar opens the dialog. */
    method Click(left: bool, picked: string, imageLoads: bool) returns (emitted: Option<string>)
      modifies avatar`imagePath, avatar`face, avatar`dots
      ensures emitted.Some? <==> avatar.clickable && left && editable && picked != ""
      ensures emitted.Some? ==> avatar.imagePath == picked
    {
      emitted := None;
      var clicked := avatar.MousePress(left);
      if clicked {
        emitted := Edit(picked, imageLoads);
      }
    }

    /** `set_editable`: clickability follows, and turning it on draws a marker at the top-right. */
    method SetEditable(e: bool)
      modifies this`editable, this`markers, avatar`clickable
      ensures editable == e && avatar.clickable == e
      ensures markers == old(markers) + if e then [Point(avatar.size - 16, 0)] else []
    {
      editable := e;
      avatar.SetClickable(e);
      if e {
        markers := markers + [Point(avatar.size - 16, 0)];
      }
    }
  }

  // ---------------------------------------------------------------------
  // The group

  /** How far each avatar of a group is from the one before: its size less a third overlap. */
  function Step(size: int): (s: int)
    ensures size >= 0 ==> 0 <= s <= size
  {
    size - size / 3
  }

  /** The group's width: one avatar and `max_visible - 1` steps. */
  function GroupWidth(maxVisible: nat, size: int): int {
    size + (maxVisible - 1) * Step(size)
  }

  /** Where the count avatar goes: one step past the last visible avatar. */
  function CountX(maxVisible: nat, size: int): int {
    maxVisible * Step(size)
  }

  /** Each visible avatar lies within the group's width. */
  lemma VisibleInside(maxVisible: nat, size: int, i: nat)
    requires size >= 0 && i < maxVisible
    ensures 0 <= i * Step(size) && i * Step(size) + size <= GroupWidth(maxVisible, size)
  {
    assert i * Step(size) <= (maxVisible - 1) * Step(size) by {
      MulLeft(i, maxVisible - 1, Step(size));
    }
  }

  lemma MulLeft(a: nat, b: nat, c: nat)
    requires a <= b
    ensures a * c <= b * c
  {
  }

  /** As written, only the count avatar's left third lies within the group; the rest is cut off. */
  lemma CountClipped(maxVisible: nat, size: int)
    requires size >= 3
    ensures GroupWidth(maxVisible, size) - CountX(maxVisible, size) == size / 3
    ensures CountX(maxVisible, size) + size > GroupWidth(maxVisible, size)
  {
    assert maxVisible * Step(size) == (maxVisible - 1) * Step(size) + Step(size);
  }

  /** The evidently intended width: room for the count avatar after the last visible one. */
  function GroupWidthIntended(maxVisible: nat, size: int): (w: int)
    ensures w == CountX(maxVisible, size) + size
  {
    size + maxVisible * Step(size)
  }

  /** With the intended width every avatar of a group, the count included, lies within it. */
  lemma CountInsideIntended(maxVisible: nat, size: int, i: nat)
    requires size >= 0 && i <= maxVisible
    ensures 0 <= i * Step(size) && i * Step(size) + size <= GroupWidthIntended(maxVisible, size)
  {
    MulLeft(i, maxVisible, Step(size));
  }

  /** An avatar of a group, as the group sees it. */
  datatype Member = Member(name: string, imagePath: string, status: Option<string>, x: int, visible: bool)

  /** A count avatar: its "+n" text and where it sits. */
  datatype Badge = Badge(text: string, x: int)

  /** `_update_positions`: the first `max_visible` members at their steps and shown, the rest hidden. */
  function Placed(ms: seq<Member>, maxVisible: nat, size: int): (r: seq<Member>)
    ensures |r| == |ms|
  {
    seq(|ms|, i requires 0 <= i < |ms| =>
      if i < maxVisible then ms[i].(x := i * Step(size), visible := true) else ms[i].(visible := false))
  }

  /** Exactly the first `min(n, max_visible)` members show, and placing again changes nothing. */
  lemma PlacedSpec(ms: seq<Member>, maxVisible: nat, size: int)
    ensures forall i :: 0 <= i < |ms| ==> (Placed(ms, maxVisible, size)[i].visible <==> i < maxVisible)
    ensures forall i :: 0 <= i < |ms| ==> Placed(ms, maxVisible, size)[i].name == ms[i].name
    ensures Placed(Placed(ms, maxVisible, size), maxVisible, size) == Placed(ms, maxVisible, size)
  {
    var p := Placed(ms, maxVisible, size);
    assert forall i :: 0 <= i < |ms| ==> Placed(p, maxVisible, size)[i] == p[i];
  }

  class AvatarGroup {
    const maxVisible: nat
    const size: int
    var members: seq<Member>
    /** Every count avatar drawn, oldest first; each overflowing addition adds one and none is removed. */
    var badges: seq<Badge>

    constructor (maxVisible: nat, size: int)
      ensures this.maxVisible == maxVisible && this.size == size && members == [] && badges == []
    {
      this.maxVisible := maxVisible;
      this.size := size;
      members := [];
      badges := [];
    }

    /** The fixed width `_setup_ui` gives the group. */
    function Width(): (w: int)
      ensures size >= 3 ==> w < CountX(maxVisible, size) + size
    {
      if size >= 3 then
        CountClipped(maxVisible, size);
        GroupWidth(maxVisible, size)
      else
        GroupWidth(maxVisible, size)
    }

    /** `add_avatar`: the avatar goes last and the members are placed again. */
    method AddAvatar(name: string, imagePath: string, status: Option<string>)
      modifies this`members, this`badges
      ensures members == Placed(old(members) + [Member(name, imagePath, status, 0, false)], maxVisible, size)
      ensures |members| > maxVisible ==>
                badges == old(badges) + [Badge("+" + NatToStr(|members| - maxVisible), CountX(maxVisible, size))]
      ensures |members| <= maxVisible ==> badges == old(badges)
    {
      members := members + [Member(name, imagePath, status, 0, false)];
      UpdatePositions();
    }

    /** `_update_positions`, with the count avatar when members overflow. */
    method UpdatePositions()
      modifies this`members, this`badges
      ensures members == Placed(old(members), maxVisible, size)
      ensures |members| > maxVisible ==>
                badges == old(badges) + [Badge("+" + NatToStr(|members| - maxVisible), CountX(maxVisible, size))]
      ensures |members| <= maxVisible ==> badges == old(badges)
    {
      ghost var m0 := members;
      var shown := if |members| < maxVisible then |members| else maxVisible;
      for i := 0 to shown
        invariant |members| == |m0|
        invariant forall j :: 0 <= j < i ==> members[j] == Placed(m0, maxVisible, size)[j]
        invariant forall j :: i <= j < |members| ==> members[j] == m0[j]
        invariant badges == old(badges)
      {
        members := members[i := members[i].(x := i * Step(size), visible := true)];
      }
      for i := shown to |members|
        invariant |members| == |m0|
        invariant forall j :: 0 <= j < i ==> members[j] == Placed(m0, maxVisible, size)[j]
        invariant forall j :: i <= j < |members| ==> members[j] == m0[j]
        invariant badges == old(badges)
      {
        members := members[i := members[i].(visible := false)];
      }
      if |members| > maxVisible {
        badges := badges + [Badge("+" + NatToStr(|members| - maxVisible), CountX(maxVisible, size))];
      }
    }

    /** `clear_avatars`, as written: the members go but every count avatar stays. */
    method ClearAvatars()
      modifies this`members
      ensures members == [] && badges == old(badges)
    {
      members := [];
    }

    /** `clear_avatars` as evidently intended: the count avatars go with the members. */
    method ClearAvatarsIntended()
      modifies this`members, this`badges
      ensures members == [] && badges == []
    {
      members := [];
      badges := [];
    }

    /** `get_avatar_count`. */
    function Count(): (n: nat)
      reads this
      ensures n == |members|
    {
      |members|
    }
  }
}
