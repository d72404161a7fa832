/**
 * Labels with a count badge: the badge shows the count (or "{max}+"
 * above the maximum), is sized by the length of its text and sits at the
 * right edge of its container. Variants put an icon in place of the text,
 * position the badge for menus, show a status dot instead of a count, or
 * bounce when the count rises. A separate dot badge only has a colour and
 * a size. Colours are theme tokens.
 */
module BadgeLabel {
  import opened Common

  /** The badge shows for a positive count, and for zero when zero is to be shown. */
  predicate ShowsBadge(count: int, showZero: bool) {
    count > 0 || (count == 0 && showZero)
  }

  /** Python `max(0, count)`. */
  function Floor0(count: int): (c: nat)
    ensures count >= 0 ==> c == count
    ensures count < 0 ==> c == 0
  {
    if count >= 0 then count else 0
  }

  /** A count above the maximum reads "{max}+"; any other reads as the number. */
  function BadgeText(count: int, maxCount: int): (t: string)
    ensures |t| >= 1
    ensures count > maxCount <==> t[|t| - 1] == '+'
    ensures 0 <= count <= maxCount ==> (forall i :: 0 <= i < |t| ==> IsDigit(t[i])) && DigitsValue(t) == count
  {
    if count > maxCount then IntToStr(maxCount) + "+"
    else
      if count >= 0 then NatToStrRoundTrip(count); IntToStr(count)
      else IntToStr(count)
  }

  /** Counts up to the maximum show different texts; every count above it shows the same one. */
  lemma BadgeTextDistinguishes(a: int, b: int, maxCount: int)
    requires 0 <= a && 0 <= b
    ensures a <= maxCount && b <= maxCount ==> (BadgeText(a, maxCount) == BadgeText(b, maxCount) <==> a == b)
    ensures a > maxCount && b > maxCount ==> BadgeText(a, maxCount) == BadgeText(b, maxCount)
    ensures a <= maxCount < b ==> BadgeText(a, maxCount) != BadgeText(b, maxCount)
  {
  }

  /** 18 pixels for one character, 22 for two, and 8 per character (at least 22) beyond. */
  function BadgeWidth(text: string): (w: int)
    ensures w >= 18
    ensures |text| == 1 ==> w == 18
    ensures |text| == 2 ==> w == 22
    ensures |text| >= 3 ==> w >= 8 * |text| && w >= 22
  {
    if |text| == 1 then 18
    else if |text| == 2 then 22
    else if 22 >= 8 * |text| then 22 else 8 * |text|
  }

  /** More digits never print shorter. */
  lemma {:induction false} NatToStrLengthMonotone(a: nat, b: nat)
    requires a <= b
    ensures |NatToStr(a)| <= |NatToStr(b)|
    decreases b
  {
    if a >= 10 {
      NatToStrLengthMonotone(a / 10, b / 10);
    }
  }

  /** A larger count never gets a narrower badge. */
  lemma BadgeWidthMonotone(a: int, b: int, maxCount: int)
    requires 0 <= a <= b
    ensures BadgeWidth(BadgeText(a, maxCount)) <= BadgeWidth(BadgeText(b, maxCount))
  {
    var ta, tb := BadgeText(a, maxCount), BadgeText(b, maxCount);
    if b <= maxCount {
      NatToStrLengthMonotone(a, b);
      assert |ta| <= |tb|;
    } else if a <= maxCount {
      NatToStrLengthMonotone(a, maxCount);
      assert |ta| <= |tb|;
    }
  }

  /** The theme token behind a badge colour name; an unknown name uses "primary". */
  function BadgeBg(color: string): (token: string)
    ensures color == "error" ==> token == "danger"
    ensures color == "secondary" ==> token == "text_secondary"
    ensures color in {"primary", "success", "warning", "info"} ==> token == color
    ensures color !in {"primary", "success", "warning", "error", "info", "secondary"} ==> token == "primary"
  {
    if color == "error" then "danger"
    else if color == "secondary" then "text_secondary"
    else if color in {"success", "warning", "info"} then color
    else "primary"
  }

  /** What the badge label shows: whether it is visible, its text, geometry and colours. */
  datatype BadgeView = BadgeView(visible: bool, text: string, width: int, height: int, x: int, y: int, bg: string, fg: string)

  /** A new `QLabel` child: shown with its parent, empty, at Qt's default 100 by 30 geometry, unstyled. */
  const FreshBadge := BadgeView(true, "", 100, 30, 0, 0, "", "")

  /**
   * `_update_badge`: a badge that should not show is hidden and otherwise
   * left as it was; one that should gets its text, a width from the text's
   * length, the right edge of its container, and the colour's theme token
   * on white.
   */
  function Updated(b: BadgeView, count: int, showZero: bool, maxCount: int, color: string, containerWidth: int): (v: BadgeView)
    ensures v.visible <==> ShowsBadge(count, showZero)
    ensures !v.visible ==> v == b.(visible := false)
    ensures v.visible ==> v.text == BadgeText(count, maxCount) && v.width == BadgeWidth(v.text) && v.height == 18
    ensures v.visible ==> v.x + v.width == containerWidth && v.y == 0
    ensures v.visible ==> v.bg == BadgeBg(color) && v.fg == "white"
  {
    if !ShowsBadge(count, showZero) then b.(visible := false)
    else
      var t := BadgeText(count, maxCount);
      BadgeView(true, t, BadgeWidth(t), 18, containerWidth - BadgeWidth(t), 0, BadgeBg(color), "white")
  }

  /** A status's badge colour name and glyph; an unknown status is shown as "offline". */
  function StatusConfig(status: string): (r: (string, string))
    ensures status == "online" ==> r == ("success", "●")
    ensures status == "away" ==> r == ("warning", "●")
    ensures status == "busy" ==> r == ("error", "●")
    ensures status == "invisible" ==> r == ("secondary", "○")
    ensures status !in {"online", "away", "busy", "invisible"} ==> r == ("secondary", "●")
  {
    if status == "online" then ("success", "●")
    else if status == "away" then ("warning", "●")
    else if status == "busy" then ("error", "●")
    else if status == "invisible" then ("secondary", "○")
    else ("secondary", "●")
  }

  /** `BadgeLabel` and its subclasses. */
  datatype Kind = Plain | Icon | Menu | Status | Animated

  class BadgeLabelWidget {
    const kind: Kind
    var text: string
    var count: int
    var badgeColor: string
    var showZero: bool
    var maxCount: int
    /** The badge container's size: 24 by 20, and 20 by 16 for a menu label. */
    var containerWidth: int
    const containerHeight: int
    var badge: BadgeView
    /** What the main label shows: the text, or an icon label's glyph. */
    var labelText: string
    var status: string
    /** Whether the label's window is on screen, so that a shown badge `isVisible()`. */
    var windowShown: bool

    /** `BadgeLabel(text, count, badge_color, show_zero, max_count)`: the count is kept as given. */
    constructor (text0: string, count0: int, color0: string, showZero0: bool, maxCount0: int)
      ensures kind == Plain && text == text0 && labelText == text0 && count == count0
      ensures badgeColor == color0 && showZero == showZero0 && maxCount == maxCount0
      ensures containerWidth == 24 && containerHeight == 20 && !windowShown
      ensures badge == Updated(FreshBadge, count0, showZero0, maxCount0, color0, 24)
    {
      kind, text, labelText, count, badgeColor, showZero, maxCount := Plain, text0, text0, count0, color0, showZero0, maxCount0;
      containerWidth, containerHeight, status, windowShown := 24, 20, "", false;
      badge := Updated(FreshBadge, count0, showZero0, maxCount0, color0, 24);
    }

    /**
     * `IconBadgeLabel(icon, count, badge_color)`: no text, zero hidden,
     * maximum 99; a non-empty text icon takes the label's place.
     */
    constructor WithIcon(icon: string, count0: int, color0: string)
      ensures kind == Icon && text == "" && count == count0 && badgeColor == color0 && !showZero && maxCount == 99
      ensures labelText == icon
      ensures containerWidth == 24 && containerHeight == 20 && !windowShown
      ensures badge == Updated(FreshBadge, count0, false, 99, color0, 24)
    {
      kind, text, labelText, count, badgeColor, showZero, maxCount := Icon, "", icon, count0, color0, false, 99;
      containerWidth, containerHeight, status, windowShown := 24, 20, "", false;
      badge := Updated(FreshBadge, count0, false, 99, color0, 24);
    }

    /**
     * `MenuBadgeLabel(text, count)`: primary, zero hidden, maximum 99. The
     * first update places the badge in the 24-pixel container; the
     * container shrinks to 20 by 16 only afterwards.
     */
    constructor ForMenu(text0: string, count0: int)
      ensures kind == Menu && text == text0 && labelText == text0 && count == count0
      ensures badgeColor == "primary" && !showZero && maxCount == 99
      ensures containerWidth == 20 && containerHeight == 16 && !windowShown
      ensures badge == Updated(FreshBadge, count0, false, 99, "primary", 24)
    {
      kind, text, labelText, count, badgeColor, showZero, maxCount := Menu, text0, text0, count0, "primary", false, 99;
      containerHeight, status, windowShown := 16, "", false;
      badge := Updated(FreshBadge, count0, false, 99, "primary", 24);
      containerWidth := 20;
    }

    /**
     * `StatusBadgeLabel(text, status)`: the count badge for 0 (shown,
     * secondary), then the status glyph, 12 by 12 in the container's
     * bottom-right corner, in the status's colour on a transparent ground.
     */
    constructor ForStatus(text0: string, status0: string)
      ensures kind == Status && text == text0 && labelText == text0 && count == 0 && showZero && maxCount == 99
      ensures status == status0 && badgeColor == StatusConfig(status0).0
      ensures containerWidth == 24 && containerHeight == 20 && !windowShown
      ensures badge == BadgeView(true, StatusConfig(status0).1, 12, 12, 12, 8, "transparent", BadgeBg(StatusConfig(status0).0))
    {
      kind, text, labelText, count, badgeColor, showZero, maxCount := Status, text0, text0, 0, "secondary", true, 99;
      containerWidth, containerHeight, status, windowShown := 24, 20, status0, false;
      badge := Updated(FreshBadge, 0, true, 99, "secondary", 24);
      new;
      UpdateStatusBadge();
    }

    /** `AnimatedBadgeLabel(text, count)`: primary, zero hidden, maximum 99. */
    constructor ForAnimation(text0: string, count0: int)
      ensures kind == Animated && text == text0 && labelText == text0 && count == count0
      ensures badgeColor == "primary" && !showZero && maxCount == 99
      ensures containerWidth == 24 && containerHeight == 20 && !windowShown
      ensures badge == Updated(FreshBadge, count0, false, 99, "primary", 24)
    {
      kind, text, labelText, count, badgeColor, showZero, maxCount := Animated, text0, text0, count0, "primary", false, 99;
      containerWidth, containerHeight, status, windowShown := 24, 20, "", false;
      badge := Updated(FreshBadge, count0, false, 99, "primary", 24);
    }

    /** The window is shown or hidden. */
    method SetWindowShown(shown: bool)
      modifies this`windowShown
      ensures windowShown == shown
    {
      windowShown := shown;
    }

    /** `_update_badge`; a menu label then moves a badge that is on screen to the container's corner. */
    method UpdateBadge()
      modifies this`badge
      ensures var v := Updated(old(badge), count, showZero, maxCount, badgeColor, containerWidth);
              badge == if kind == Menu && v.visible && windowShown then v.(x := 0, y := 0) else v
    {
      badge := Updated(badge, count, showZero, maxCount, badgeColor, containerWidth);
      if kind == Menu && badge.visible && windowShown {
        badge := badge.(x := 0, y := 0);
      }
    }

    /**
     * `_update_status_badge`: the status's glyph and colour replace the
     * badge, and the badge colour name becomes the status's.
     */
    method UpdateStatusBadge()
      modifies this`badge, this`badgeColor
      ensures badgeColor == StatusConfig(status).0
      ensures badge == BadgeView(true, StatusConfig(status).1, 12, 12, containerWidth - 12, containerHeight - 12,
                                 "transparent", BadgeBg(StatusConfig(status).0))
    {
      var config := StatusConfig(status);
      badgeColor := config.0;
      badge := BadgeView(true, config.1, 12, 12, containerWidth - 12, containerHeight - 12, "transparent", BadgeBg(badgeColor));
    }

    method SetText(t: string)
      modifies this`text, this`labelText
      ensures text == t && labelText == t
    {
      text, labelText := t, t;
    }

    /**
     * `set_count`: the count floored at 0, then the badge updated. The
     * animated label bounces when the requested count exceeds the old one
     * and the badge is on screen.
     */
    method SetCount(c: int) returns (bounced: bool)
      modifies this`count, this`badge
      ensures count == Floor0(c)
      ensures var v := Updated(old(badge), count, showZero, maxCount, badgeColor, containerWidth);
              badge == if kind == Menu && v.visible && windowShown then v.(x := 0, y := 0) else v
      ensures bounced <==> kind == Animated && c > old(count) && badge.visible && windowShown
    {
      var before := count;
      count := Floor0(c);
      UpdateBadge();
      bounced := kind == Animated && c > before && badge.visible && windowShown;
    }

    /** `increment_count`. */
    method Increment() returns (bounced: bool)
      modifies this`count, this`badge
      ensures count == Floor0(old(count) + 1)
      ensures old(count) >= 0 ==> count == old(count) + 1
      ensures bounced <==> kind == Animated && badge.visible && windowShown
    {
      bounced := SetCount(count + 1);
    }

    /** `decrement_count`: a count at or below zero stays (or becomes) 0. */
    method Decrement() returns (bounced: bool)
      modifies this`count, this`badge
      ensures count == Floor0(old(count) - 1)
      ensures old(count) <= 0 ==> count == 0
      ensures old(count) > 0 ==> count == old(count) - 1
      ensures !bounced
    {
      bounced := SetCount(count - 1);
    }

    method SetBadgeColor(c: string)
      modifies this`badgeColor, this`badge
      ensures badgeColor == c
      ensures var v := Updated(old(badge), count, showZero, maxCount, c, containerWidth);
              badge == if kind == Menu && v.visible && windowShown then v.(x := 0, y := 0) else v
    {
      badgeColor := c;
      UpdateBadge();
    }

    method SetShowZero(b: bool)
      modifies this`showZero, this`badge
      ensures showZero == b
      ensures var v := Updated(old(badge), count, b, maxCount, badgeColor, containerWidth);
              badge == if kind == Menu && v.visible && windowShown then v.(x := 0, y := 0) else v
    {
      showZero := b;
      UpdateBadge();
    }

    method SetMaxCount(m: int)
      modifies this`maxCount, this`badge
      ensures maxCount == m
      ensures var v := Updated(old(badge), count, showZero, m, badgeColor, containerWidth);
              badge == if kind == Menu && v.visible && windowShown then v.(x := 0, y := 0) else v
    {
      maxCount := m;
      UpdateBadge();
    }

    /** `set_status` of the status label. */
    method SetStatus(s: string)
      requires kind == Status
      modifies this`status, this`badge, this`badgeColor
      ensures status == s && badgeColor == StatusConfig(s).0
      ensures badge.visible && badge.text == StatusConfig(s).1 && badge.fg == BadgeBg(StatusConfig(s).0)
    {
      status := s;
      UpdateStatusBadge();
    }

    /** `set_icon` of the icon label: a non-empty glyph replaces the label's; an empty one leaves it. */
    method SetIcon(icon: string)
      requires kind == Icon
      modifies this`labelText
      ensures labelText == if icon != "" then icon else old(labelText)
    {
      if icon != "" {
        labelText := icon;
      }
    }
  }

  /** A bare count badge right-aligns in the 24-pixel container: "7" at 6, "42" at 2, "99+" at 0 (its maximum is 99). */
  lemma BadgePlacements()
    ensures Updated(FreshBadge, 7, false, 99, "primary", 24).x == 6
    ensures Updated(FreshBadge, 42, false, 99, "primary", 24).x == 2
    ensures Updated(FreshBadge, 150, false, 99, "primary", 24).x == 0
  {
    assert BadgeText(7, 99) == "7";
    assert BadgeText(42, 99) == "42";
    assert BadgeText(150, 99) == "99+";
  }

  /** The dot colour of a `NotificationBadge`: like a badge colour, but "secondary" is unknown and falls back to primary. */
  function DotColor(color: string): (token: string)
    ensures color in {"primary", "success", "warning", "info"} ==> token == color
    ensures color == "error" ==> token == "danger"
    ensures color !in {"primary", "success", "warning", "error", "info"} ==> token == "primary"
  {
    if color == "error" then "danger"
    else if color in {"success", "warning", "info"} then color
    else "primary"
  }

  /** `NotificationBadge(color, size)`: a square dot of the colour, rounded by half its size. */
  class NotificationBadge {
    var color: string
    const size: int
    var visible: bool
    var fill: string

    /** The corner radius, `size // 2`. */
    function Radius(): (r: int)
      reads this
      ensures 2 * r <= size < 2 * r + 2
    {
      size / 2
    }

    constructor (color0: string, size0: int)
      ensures color == color0 && size == size0 && visible && fill == DotColor(color0)
    {
      color, size, visible, fill := color0, size0, true, DotColor(color0);
    }

    method SetVisibleBadge(v: bool)
      modifies this`visible
      ensures visible == v
    {
      visible := v;
    }

    method SetColor(c: string)
      modifies this`color, this`fill
      ensures color == c && fill == DotColor(c)
    {
      color, fill := c, DotColor(c);
    }
  }
}
