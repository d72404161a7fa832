/**
 * Pill-shaped status chips: a text (and optional glyph icon) coloured by
 * a status and sized by a size name. Variants cycle through a list of
 * statuses on click, pulse when the status changes, or show a counter;
 * a group keeps chips in order and reports clicks on clickable ones.
 * Colours are theme tokens or the literal colours the source names.
 */
module StatusChip {
  import opened Common

  datatype SizeProps = SizeProps(height: int, paddingH: int, paddingV: int, spacing: int,
                                 iconSize: int, fontSize: int, borderRadius: int)

  /** The size table; an unknown size name gets the medium properties. */
  function SizeProperties(size: string): (p: SizeProps)
    ensures size == "small" ==> p == SizeProps(20, 8, 2, 4, 12, 10, 10)
    ensures size == "large" ==> p == SizeProps(32, 16, 6, 8, 16, 12, 16)
    ensures size != "small" && size != "large" ==> p == SizeProps(24, 12, 4, 6, 14, 11, 12)
  {
    if size == "small" then SizeProps(20, 8, 2, 4, 12, 10, 10)
    else if size == "large" then SizeProps(32, 16, 6, 8, 16, 12, 16)
    else SizeProps(24, 12, 4, 6, 14, 11, 12)
  }

  /** Every size is a pill (its corners round by half its height), and the icon fits inside the padding. */
  lemma SizesArePills(size: string)
    ensures 2 * SizeProperties(size).borderRadius == SizeProperties(size).height
    ensures SizeProperties(size).iconSize + 2 * SizeProperties(size).paddingV <= SizeProperties(size).height
  {
  }

  /** Small, medium and large grow in every dimension. */
  lemma SizesGrow()
    ensures var s, m, l := SizeProperties("small"), SizeProperties("medium"), SizeProperties("large");
            s.height < m.height < l.height && s.paddingH < m.paddingH < l.paddingH
            && s.iconSize < m.iconSize < l.iconSize && s.fontSize < m.fontSize < l.fontSize
  {
  }

  datatype ChipColors = ChipColors(bg: string, text: string, border: string)

  /** The statuses with an entry in the colour table. */
  const KnownStatuses: set<string> :=
    {"default", "primary", "success", "warning", "error", "info", "active", "inactive", "pending", "draft"}

  /** The colour table; an unknown status gets the default colours. */
  function StatusColors(status: string): (c: ChipColors)
    ensures status !in KnownStatuses ==> c == ChipColors("light", "text", "border")
    ensures status == "default" ==> c == ChipColors("light", "text", "border")
    ensures status in KnownStatuses - {"default"} ==> c.text == "white" && c.border == c.bg
    ensures status in {"primary", "success", "warning", "info"} ==> c.bg == status
    ensures status == "error" ==> c.bg == "danger"
    ensures status == "inactive" ==> c.bg == "text_secondary"
    ensures status == "active" ==> c.bg == "#10B981"
    ensures status == "pending" ==> c.bg == "#F59E0B"
    ensures status == "draft" ==> c.bg == "#6B7280"
  {
    if status in {"primary", "success", "warning", "info"} then ChipColors(status, "white", status)
    else if status == "error" then ChipColors("danger", "white", "danger")
    else if status == "inactive" then ChipColors("text_secondary", "white", "text_secondary")
    else if status == "active" then ChipColors("#10B981", "white", "#10B981")
    else if status == "pending" then ChipColors("#F59E0B", "white", "#F59E0B")
    else if status == "draft" then ChipColors("#6B7280", "white", "#6B7280")
    else ChipColors("light", "text", "border")
  }

  /** The container's look: colours, corner radius, and a hover background for clickable chips. */
  datatype ChipStyle = ChipStyle(colors: ChipColors, radius: int, hover: Option<string>)

  /**
   * `_apply_styling`. The hover colour is meant to be a darker background
   * but `_darken_color` returns its argument unchanged.
   */
  function Style(status: string, size: string, clickable: bool): (s: ChipStyle)
    ensures s.colors == StatusColors(status) && s.radius == SizeProperties(size).borderRadius
    ensures clickable <==> s.hover.Some?
    ensures clickable ==> s.hover.value == s.colors.bg
  {
    ChipStyle(StatusColors(status), SizeProperties(size).borderRadius,
              if clickable then Some(StatusColors(status).bg) else None)
  }

  /** `CounterChip`'s text: "{label} ({count})", or the count alone without a label. */
  function CounterText(caption: string, count: int): (t: string)
    ensures caption == "" ==> t == IntToStr(count)
    ensures caption != "" ==> |t| > |caption| + 2 && t[..|caption|] == caption && t[|t| - 1] == ')'
  {
    if caption != "" then caption + " (" + IntToStr(count) + ")" else IntToStr(count)
  }

  /** With the same label, different counts read differently. */
  lemma CounterTextInjective(caption: string, a: int, b: int)
    requires CounterText(caption, a) == CounterText(caption, b)
    ensures a == b
  {
    if caption != "" {
      var ta, tb := CounterText(caption, a), CounterText(caption, b);
      assert IntToStr(a) == ta[|caption| + 2..|ta| - 1];
      assert IntToStr(b) == tb[|caption| + 2..|tb| - 1];
    }
    IntToStrInjective(a, b);
  }

  /** The statuses an interactive chip cycles through when given none. */
  const DefaultStatuses: seq<string> := ["default", "active", "inactive"]

  /** `StatusChipWidget` and its subclasses. */
  datatype Kind = Plain | Interactive | Animated | Counter

  class StatusChipWidget {
    const kind: Kind
    var text: string
    var status: string
    const size: string
    var clickable: bool
    /** The icon: `None`, or a glyph (an empty one is falsy and makes no icon label). */
    var icon: Option<string>
    var hasIconLabel: bool
    /**
     * Whether the chip's own labels are the ones on screen. `set_icon` on
     * a chip without an icon label rebuilds the UI under a second layout,
     * which Qt refuses: the new labels never appear and the old ones stay.
     */
    var live: bool
    var screenText: string
    var screenIcon: Option<string>
    var screenStyle: ChipStyle
    /** `InteractiveStatusChip`'s statuses and current position in them. */
    var statuses: seq<string>
    var statusIndex: int
    /** `CounterChip`'s label and count. */
    const caption: string
    var count: int

    /** `StatusChipWidget(text, status, size, clickable, icon)`. */
    constructor (text0: string, status0: string, size0: string, clickable0: bool, icon0: Option<string>)
      ensures kind == Plain && text == text0 && status == status0 && size == size0 && clickable == clickable0
      ensures icon == icon0 && live
      ensures hasIconLabel <==> icon0.Some? && icon0.value != ""
      ensures screenText == text0 && screenStyle == Style(status0, size0, clickable0)
      ensures screenIcon == if hasIconLabel then icon0 else None
    {
      kind, text, status, size, clickable, icon := Plain, text0, status0, size0, clickable0, icon0;
      hasIconLabel := icon0.Some? && icon0.value != "";
      live, screenText, screenStyle := true, text0, Style(status0, size0, clickable0);
      screenIcon := if icon0.Some? && icon0.value != "" then icon0 else None;
      statuses, statusIndex, caption, count := [], 0, "", 0;
    }

    /**
     * `InteractiveStatusChip(text, statuses, current_status)`: clickable,
     * medium, showing the current status; no statuses means the defaults.
     * The index must find a status, counting from either end.
     */
    constructor Cycling(text0: string, statuses0: seq<string>, current: int)
      requires InRange(if statuses0 == [] then 3 else |statuses0|, current)
      ensures kind == Interactive && text == text0 && size == "medium" && clickable && icon == None && live
      ensures statuses == (if statuses0 == [] then DefaultStatuses else statuses0) && statusIndex == current
      ensures status == PyIndex(statuses, current)
      ensures !hasIconLabel && screenIcon == None
      ensures screenText == text0 && screenStyle == Style(status, "medium", true)
    {
      var all := if statuses0 == [] then DefaultStatuses else statuses0;
      kind, text, size, clickable, icon, hasIconLabel := Interactive, text0, "medium", true, None, false;
      statuses, statusIndex, status := all, current, PyIndex(all, current);
      live, screenText, screenIcon := true, text0, None;
      screenStyle := Style(PyIndex(all, current), "medium", true);
      caption, count := "", 0;
    }

    /** The interactive chip, or `None` where Python's `statuses[current_status]` raises `IndexError`. */
    static method NewCycling(text0: string, statuses0: seq<string>, current: int) returns (c: Option<StatusChipWidget>)
      ensures c.None? <==> !InRange(if statuses0 == [] then 3 else |statuses0|, current)
      ensures c.Some? ==> fresh(c.value) && c.value.kind == Interactive && c.value.statusIndex == current
                          && c.value.statuses == (if statuses0 == [] then DefaultStatuses else statuses0)
                          && c.value.status == PyIndex(c.value.statuses, current)
    {
      if !InRange(if statuses0 == [] then 3 else |statuses0|, current) {
        return None;
      }
      var chip := new StatusChipWidget.Cycling(text0, statuses0, current);
      return Some(chip);
    }

    /** `AnimatedStatusChip(text, status)`: medium, not clickable, no icon. */
    constructor Pulsing(text0: string, status0: string)
      ensures kind == Animated && text == text0 && status == status0 && size == "medium" && !clickable
      ensures icon == None && !hasIconLabel && live
      ensures screenText == text0 && screenIcon == None && screenStyle == Style(status0, "medium", false)
    {
      kind, text, status, size, clickable, icon, hasIconLabel := Animated, text0, status0, "medium", false, None, false;
      live, screenText, screenIcon, screenStyle := true, text0, None, Style(status0, "medium", false);
      statuses, statusIndex, caption, count := [], 0, "", 0;
    }

    /** `CounterChip(label, count, status)`: the counter text, medium, not clickable. */
    constructor Counting(caption0: string, count0: int, status0: string)
      ensures kind == Counter && caption == caption0 && count == count0 && status == status0
      ensures text == CounterText(caption0, count0) && size == "medium" && !clickable
      ensures icon == None && !hasIconLabel && live
      ensures screenText == text && screenIcon == None && screenStyle == Style(status0, "medium", false)
    {
      kind, caption, count, status := Counter, caption0, count0, status0;
      text, size, clickable, icon, hasIconLabel := CounterText(caption0, count0), "medium", false, None, false;
      live, screenText, screenIcon := true, CounterText(caption0, count0), None;
      screenStyle := Style(status0, "medium", false);
      statuses, statusIndex := [], 0;
    }

    /** `set_text`: the text, and the screen when the chip is live. */
    method SetText(t: string)
      modifies this`text, this`screenText
      ensures text == t
      ensures screenText == if live then t else old(screenText)
    {
      text := t;
      if live {
        screenText := t;
      }
    }

    /** `StatusChipWidget.set_status`: the status, and its colours on screen when live. */
    method ApplyStatus(s: string)
      modifies this`status, this`screenStyle
      ensures status == s
      ensures screenStyle == if live then Style(s, size, clickable) else old(screenStyle)
    {
      status := s;
      if live {
        screenStyle := Style(s, size, clickable);
      }
    }

    /** `set_status`; an animated chip ignores its own status and pulses on a change. */
    method SetStatus(s: string) returns (pulsed: bool)
      modifies this`status, this`screenStyle
      ensures pulsed <==> kind == Animated && s != old(status)
      ensures kind == Animated && s == old(status) ==> status == old(status) && screenStyle == old(screenStyle)
      ensures kind != Animated || s != old(status) ==>
                status == s && screenStyle == if live then Style(s, size, clickable) else old(screenStyle)
    {
      pulsed := kind == Animated && s != status;
      if kind != Animated || s != status {
        ApplyStatus(s);
      }
    }

    /** `set_clickable`: the flag and the hover style. */
    method SetClickable(c: bool)
      modifies this`clickable, this`screenStyle
      ensures clickable == c
      ensures screenStyle == if live then Style(status, size, c) else old(screenStyle)
    {
      clickable := c;
      if live {
        screenStyle := Style(status, size, c);
      }
    }

    /**
     * `set_icon` as written. With an icon label a glyph replaces its text,
     * and `None` raises `AttributeError` (`None.pixmap`) after being stored.
     * Without one the UI is rebuilt under a layout Qt refuses: the chip
     * stops being live and the screen keeps what it showed.
     */
    method SetIcon(i: Option<string>) returns (attributeError: bool)
      modifies this`icon, this`hasIconLabel, this`live, this`screenIcon
      ensures icon == i
      ensures attributeError <==> old(hasIconLabel) && i.None?
      ensures old(hasIconLabel) ==> hasIconLabel && live == old(live)
      ensures old(hasIconLabel) && i.Some? && old(live) ==> screenIcon == i
      ensures !(old(hasIconLabel) && i.Some? && old(live)) ==> screenIcon == old(screenIcon)
      ensures !old(hasIconLabel) ==> !live && (hasIconLabel <==> i.Some? && i.value != "")
    {
      icon := i;
      attributeError := hasIconLabel && i.None?;
      if hasIconLabel {
        if i.Some? && live {
          screenIcon := i;
        }
      } else {
        hasIconLabel := i.Some? && i.value != "";
        live := false;
      }
    }

    /** `set_icon` as intended: the rebuilt UI replaces the old one on screen, with an icon label for a non-empty glyph. */
    method SetIconIntended(i: Option<string>) returns (attributeError: bool)
      modifies this`icon, this`hasIconLabel, this`screenIcon, this`screenText, this`screenStyle
      ensures icon == i
      ensures attributeError <==> old(hasIconLabel) && i.None?
      ensures old(hasIconLabel) ==> hasIconLabel
      ensures old(hasIconLabel) && i.Some? && live ==> screenIcon == i
      ensures !(old(hasIconLabel) && i.Some?) && old(hasIconLabel) ==> screenIcon == old(screenIcon)
      ensures !old(hasIconLabel) ==> (hasIconLabel <==> i.Some? && i.value != "")
      ensures !old(hasIconLabel) && live ==>
                screenText == text && screenStyle == Style(status, size, clickable)
                && screenIcon == if hasIconLabel then i else None
      ensures old(hasIconLabel) || !live ==> screenText == old(screenText) && screenStyle == old(screenStyle)
      ensures !old(hasIconLabel) && !live ==> screenIcon == old(screenIcon)
    {
      icon := i;
      attributeError := hasIconLabel && i.None?;
      if hasIconLabel {
        if i.Some? && live {
          screenIcon := i;
        }
      } else {
        hasIconLabel := i.Some? && i.value != "";
        if live {
          screenText, screenStyle := text, Style(status, size, clickable);
          screenIcon := if hasIconLabel then i else None;
        }
      }
    }

    /** A left click: a clickable chip emits `clicked`; an interactive one then moves to its next status. */
    method Click() returns (clicked: bool, statusChanged: Option<string>, zeroDivision: bool)
      modifies this`statusIndex, this`status, this`screenStyle
      ensures clicked <==> clickable
      ensures !(clicked && kind == Interactive) ==>
                statusChanged == None && !zeroDivision && status == old(status)
                && statusIndex == old(statusIndex) && screenStyle == old(screenStyle)
      ensures clicked && kind == Interactive ==>
                zeroDivision == (statuses == []) && (statuses == [] ==> statusChanged == None && status == old(status))
      ensures clicked && kind == Interactive && statuses != [] ==>
                statusIndex == (old(statusIndex) + 1) % |statuses| && statusChanged == Some(statuses[statusIndex])
                && status == statuses[statusIndex]
    {
      clicked, statusChanged, zeroDivision := clickable, None, false;
      if clicked && kind == Interactive {
        statusChanged, zeroDivision := CycleStatus();
      }
    }

    /** `_cycle_status`: the next status, wrapping round; with no statuses Python's `%` raises `ZeroDivisionError`. */
    method CycleStatus() returns (statusChanged: Option<string>, zeroDivision: bool)
      modifies this`statusIndex, this`status, this`screenStyle
      ensures zeroDivision <==> statuses == []
      ensures statuses == [] ==> statusChanged == None && status == old(status) && statusIndex == old(statusIndex)
                                 && screenStyle == old(screenStyle)
      ensures statuses != [] ==> statusIndex == (old(statusIndex) + 1) % |statuses|
                                 && 0 <= statusIndex < |statuses|
                                 && statusChanged == Some(statuses[statusIndex]) && status == statuses[statusIndex]
                                 && screenStyle == if live then Style(status, size, clickable) else old(screenStyle)
    {
      if statuses == [] {
        return None, true;
      }
      statusIndex := (statusIndex + 1) % |statuses|;
      ApplyStatus(statuses[statusIndex]);
      statusChanged, zeroDivision := Some(statuses[statusIndex]), false;
    }

    /** `set_statuses`: back to the first status; an empty list is stored and then `statuses[0]` raises `IndexError`. */
    method SetStatuses(all: seq<string>) returns (indexError: bool)
      modifies this`statuses, this`statusIndex, this`status, this`screenStyle
      ensures statuses == all && statusIndex == 0
      ensures indexError <==> all == []
      ensures all == [] ==> status == old(status) && screenStyle == old(screenStyle)
      ensures all != [] ==> status == all[0] && screenStyle == if live then Style(all[0], size, clickable) else old(screenStyle)
    {
      statuses, statusIndex := all, 0;
      indexError := all == [];
      if !indexError {
        ApplyStatus(all[0]);
      }
    }

    /** `CounterChip.set_count`: the count kept as given and shown in the text. */
    method SetCount(c: int)
      modifies this`count, this`text, this`screenText
      ensures count == c && text == CounterText(caption, c)
      ensures screenText == if live then text else old(screenText)
    {
      count := c;
      SetText(CounterText(caption, c));
    }

    method Increment()
      modifies this`count, this`text, this`screenText
      ensures count == old(count) + 1 && text == CounterText(caption, count)
      ensures screenText == if live then text else old(screenText)
    {
      SetCount(count + 1);
    }

    /** `decrement`: never below zero; a negative count set directly becomes 0. */
    method Decrement()
      modifies this`count, this`text, this`screenText
      ensures count == if old(count) - 1 > 0 then old(count) - 1 else 0
      ensures text == CounterText(caption, count)
      ensures screenText == if live then text else old(screenText)
    {
      SetCount(if count - 1 > 0 then count - 1 else 0);
    }
  }

  /**
   * A chip built without an icon is frozen on screen once `set_icon` has
   * run: a later `set_text` changes the chip's text but not what is shown.
   * The intended rebuild shows both the icon and the new text.
   */
  method IconFreezesChip() returns (asWritten: string, intended: string, intendedIcon: Option<string>)
    ensures asWritten == "Draft" && intended == "Published" && intendedIcon == Some("✓")
  {
    var a := new StatusChipWidget("Draft", "draft", "medium", false, None);
    var e := a.SetIcon(Some("✓"));
    a.SetText("Published");
    asWritten := a.screenText;
    var b := new StatusChipWidget("Draft", "draft", "medium", false, None);
    e := b.SetIconIntended(Some("✓"));
    b.SetText("Published");
    intended, intendedIcon := b.screenText, b.screenIcon;
  }

  /** A chip of a group: its text, and the status and clickability it was added with. */
  datatype GroupChip = GroupChip(text: string, status: string, clickable: bool)

  /** The index of the first chip with that text, or the length when there is none. */
  function FirstWithText(chips: seq<GroupChip>, t: string): (i: nat)
    ensures i <= |chips|
    ensures i < |chips| ==> chips[i].text == t
    ensures forall k :: 0 <= k < i ==> chips[k].text != t
  {
    if chips == [] then 0
    else if chips[0].text == t then 0
    else 1 + FirstWithText(chips[1..], t)
  }

  function Texts(chips: seq<GroupChip>): (r: seq<string>)
    ensures |r| == |chips|
  {
    seq(|chips|, i requires 0 <= i < |chips| => chips[i].text)
  }

  /** `StatusChipGroup`: chips in insertion order, reporting clicks on clickable ones. */
  class StatusChipGroup {
    var chips: seq<GroupChip>

    constructor ()
      ensures chips == []
    {
      chips := [];
    }

    /** `add_chip`: a medium chip at the end. */
    method AddChip(text: string, status: string, clickable: bool)
      modifies this
      ensures chips == old(chips) + [GroupChip(text, status, clickable)]
    {
      chips := chips + [GroupChip(text, status, clickable)];
    }

    /** `remove_chip`: the first chip with that text goes; none with it changes nothing. */
    method RemoveChip(text: string)
      modifies this
      ensures var i := FirstWithText(old(chips), text);
              chips == if i < |old(chips)| then old(chips)[..i] + old(chips)[i + 1..] else old(chips)
    {
      var i := 0;
      while i < |chips|
        invariant 0 <= i <= |chips| && chips == old(chips)
        invariant forall k :: 0 <= k < i ==> chips[k].text != text
      {
        if chips[i].text == text {
          chips := chips[..i] + chips[i + 1..];
          return;
        }
        i := i + 1;
      }
    }

    method ClearChips()
      modifies this
      ensures chips == []
    {
      chips := [];
    }

    /** `get_chips`: the texts in order. */
    function GetChips(): (r: seq<string>)
      reads this
      ensures r == Texts(chips)
      ensures |r| == |chips|
    {
      Texts(chips)
    }

    /** A click on chip `i`: a clickable one emits `chip_clicked` with the text and status it was added with. */
    method ClickChip(i: nat) returns (chipClicked: Option<(string, string)>)
      requires i < |chips|
      ensures chipClicked.Some? <==> chips[i].clickable
      ensures chipClicked.Some? ==> chipClicked.value == (chips[i].text, chips[i].status)
    {
      if chips[i].clickable {
        return Some((chips[i].text, chips[i].status));
      }
      return None;
    }
  }

  lemma TextsDeleteAt(chips: seq<GroupChip>, i: nat)
    requires i < |chips|
    ensures Texts(chips[..i] + chips[i + 1..]) == Texts(chips)[..i] + Texts(chips)[i + 1..]
  {
    var a, b := Texts(chips[..i] + chips[i + 1..]), Texts(chips)[..i] + Texts(chips)[i + 1..];
    forall k | 0 <= k < |a|
      ensures a[k] == b[k]
    {
      if k < i {
        assert a[k] == chips[k].text == b[k];
      } else {
        assert a[k] == chips[k + 1].text == b[k];
      }
    }
  }

  /** Removing a chip by text takes out exactly one occurrence of that text, when there is one. */
  lemma RemoveChipTexts(chips: seq<GroupChip>, t: string)
    ensures var i := FirstWithText(chips, t);
            i < |chips| ==> multiset(Texts(chips[..i] + chips[i + 1..])) == multiset(Texts(chips)) - multiset{t}
  {
    var i := FirstWithText(chips, t);
    if i < |chips| {
      var all := Texts(chips);
      TextsDeleteAt(chips, i);
      MultisetSplitAt(all, i);
    }
  }

  /** Taking out the element at `i` takes one copy of it out of the multiset. */
  lemma MultisetSplitAt(s: seq<string>, i: nat)
    requires i < |s|
    ensures multiset(s[..i] + s[i + 1..]) == multiset(s) - multiset{s[i]}
  {
    assert s == s[..i] + [s[i]] + s[i + 1..];
  }
}
