/**
 * Buttons with a colour variant and a size, a loading state, toggle
 * buttons, and a group in which at most one toggle button is checked.
 */
module BaseButton {
  datatype ColorSet = ColorSet(bg: string, text: string, border: string,
                               hoverBg: string, hoverBorder: string, pressedBg: string)

  datatype SizeProps = SizeProps(padding: string, fontSize: int, minWidth: int, minHeight: int)

  /** The colour lookup the buttons use: the theme's value, "#000000" for an unknown token. */
  function Color(colors: map<string, string>, token: string): (c: string)
    ensures token in colors ==> c == colors[token]
    ensures token !in colors ==> c == "#000000"
  {
    if token in colors then colors[token] else "#000000"
  }

  function DefaultColors(colors: map<string, string>): ColorSet {
    ColorSet(Color(colors, "surface"), Color(colors, "text"), "1px solid " + Color(colors, "border"),
             Color(colors, "hover"), Color(colors, "border"), Color(colors, "light"))
  }

  /** The colour set of a variant; an unrecognised variant gets the default set. */
  function VariantColors(variant: string, colors: map<string, string>): (cs: ColorSet)
    ensures variant !in {"primary", "secondary", "destructive", "ghost"} ==> cs == DefaultColors(colors)
    ensures variant == "primary" ==> cs.bg == Color(colors, "primary") && cs.text == "white"
    ensures variant == "destructive" ==> cs.bg == Color(colors, "danger") && cs.hoverBg == "#c82333"
    ensures variant in {"secondary", "ghost"} ==> cs.bg == "transparent"
  {
    if variant == "primary" then
      ColorSet(Color(colors, "primary"), "white", "1px solid " + Color(colors, "primary"),
               Color(colors, "dark"), Color(colors, "dark"), Color(colors, "dark"))
    else if variant == "secondary" then
      ColorSet("transparent", Color(colors, "primary"), "1px solid " + Color(colors, "primary"),
               Color(colors, "primary"), Color(colors, "primary"), Color(colors, "dark"))
    else if variant == "destructive" then
      ColorSet(Color(colors, "danger"), "white", "1px solid " + Color(colors, "danger"),
               "#c82333", "#c82333", "#bd2130")
    else if variant == "ghost" then
      ColorSet("transparent", Color(colors, "text"), "none",
               Color(colors, "hover"), "none", Color(colors, "light"))
    else DefaultColors(colors)
  }

  /** Size properties: small 60x24, large 120x44, and medium 80x32 for every other size. */
  function SizeProperties(size: string): (p: SizeProps)
    ensures size == "small" ==> p.minWidth == 60 && p.minHeight == 24 && p.fontSize == 8
    ensures size == "large" ==> p.minWidth == 120 && p.minHeight == 44 && p.fontSize == 11
    ensures size != "small" && size != "large" ==> p.minWidth == 80 && p.minHeight == 32 && p.fontSize == 9
  {
    if size == "small" then SizeProps("4px 8px", 8, 60, 24)
    else if size == "large" then SizeProps("12px 24px", 11, 120, 44)
    else SizeProps("8px 16px", 9, 80, 32)
  }

  /** An icon button is a square as wide as its size's minimum height, rounded by half of it. */
  function IconButtonSide(size: string): (side: int)
    ensures side == SizeProperties(size).minHeight
    ensures side in {24, 32, 44}
  {
    SizeProperties(size).minHeight
  }

  function IconButtonRadius(size: string): (r: int)
    ensures 2 * r <= IconButtonSide(size) < 2 * r + 2
  {
    IconButtonSide(size) / 2
  }

  /** A button; a toggle button additionally uses `checked`. */
  class Button {
    var text: string
    var variant: string
    var size: string
    var loading: bool
    var enabled: bool
    var checked: bool

    constructor Base(text0: string, variant0: string, size0: string)
      ensures text == text0 && variant == variant0 && size == size0
      ensures !loading && enabled && !checked
    {
      text, variant, size := text0, variant0, size0;
      loading, enabled, checked := false, true, false;
    }

    /** A toggle button starts unchecked as a medium secondary button. */
    constructor Toggle(text0: string)
      ensures text == text0 && variant == "secondary" && size == "medium"
      ensures !loading && enabled && !checked
    {
      text, variant, size := text0, "secondary", "medium";
      loading, enabled, checked := false, true, false;
    }

    method SetVariant(v: string)
      modifies this`variant
      ensures variant == v
    {
      variant := v;
    }

    method SetSize(s: string)
      modifies this`size
      ensures size == s
    {
      size := s;
    }

    /**
     * Loading shows "Loading..." and disables the button; leaving the
     * loading state re-enables it but keeps whatever text it shows.
     */
    method SetLoading(l: bool)
      modifies this`loading, this`text, this`enabled
      ensures loading == l
      ensures enabled == !l
      ensures text == if l then "Loading..." else old(text)
    {
      loading := l;
      if l {
        text := "Loading...";
        enabled := false;
      } else {
        enabled := true;
      }
    }

    /** A checked toggle button is drawn as primary, an unchecked one as secondary. */
    method UpdateAppearance()
      modifies this`variant
      ensures variant == if checked then "primary" else "secondary"
    {
      if checked {
        SetVariant("primary");
      } else {
        SetVariant("secondary");
      }
    }

    /** A click on a toggle button flips it and emits `toggled` with the new state. */
    method HandleToggle() returns (toggled: bool)
      modifies this`checked, this`variant
      ensures checked == !old(checked) && toggled == checked
      ensures variant == if checked then "primary" else "secondary"
    {
      checked := !checked;
      UpdateAppearance();
      toggled := checked;
    }

    /** Setting the state does not emit `toggled`. */
    method SetChecked(c: bool)
      modifies this`checked, this`variant
      ensures checked == c
      ensures variant == if c then "primary" else "secondary"
    {
      checked := c;
      UpdateAppearance();
    }
  }

  /** At most one button of the list is checked. */
  ghost predicate AtMostOneChecked(buttons: seq<Button>)
    reads set b | b in buttons
  {
    forall b, c :: b in buttons && c in buttons && b.checked && c.checked ==> b == c
  }

  /** A group of toggle buttons of which at most one stays checked. */
  class ButtonGroup {
    var buttons: seq<Button>
    var active: Button?

    constructor ()
      ensures buttons == [] && active == null
    {
      buttons, active := [], null;
    }

    method AddButton(b: Button)
      modifies this`buttons
      ensures buttons == old(buttons) + [b]
    {
      buttons := buttons + [b];
    }

    /**
     * The group's reaction to `toggled`: turning a button on unchecks
     * every other button and makes it the active one; turning the active
     * button off clears the active button.
     */
    method OnToggled(button: Button, isChecked: bool)
      modifies this`active, set b | b in buttons
      ensures isChecked ==> active == button
      ensures !isChecked ==> active == (if old(active) == button then null else old(active))
      ensures isChecked ==> forall b :: b in buttons && b != button ==> !b.checked
      ensures forall b :: b in buttons && (b == button || !isChecked) ==> b.checked == old(b.checked)
      ensures forall b :: b in buttons && !b.checked ==> b.variant == (if old(b.checked) then "secondary" else old(b.variant))
      ensures forall b :: b in buttons && b.checked ==> b.variant == old(b.variant)
    {
      if isChecked {
        var i := 0;
        while i < |buttons|
          invariant 0 <= i <= |buttons|
          invariant forall b :: b in buttons[..i] && b != button ==> !b.checked
          invariant forall b :: b in buttons && (b == button || b !in buttons[..i]) ==> b.checked == old(b.checked) && b.variant == old(b.variant)
          invariant forall b :: b in buttons && !b.checked ==> b.variant == (if old(b.checked) then "secondary" else old(b.variant))
          invariant forall b :: b in buttons && b.checked ==> b.variant == old(b.variant)
        {
          var btn := buttons[i];
          assert buttons[..i + 1] == buttons[..i] + [btn];
          if btn != button && btn.checked {
            btn.SetChecked(false);
          }
          i := i + 1;
        }
        assert buttons[..i] == buttons;
        active := button;
      } else {
        if button == active {
          active := null;
        }
      }
    }

    /** A click on a member: it flips, and the group reacts to its new state. */
    method ClickMember(button: Button)
      requires button in buttons
      requires AtMostOneChecked(buttons)
      modifies this`active, set b | b in buttons
      ensures AtMostOneChecked(buttons)
      ensures button.checked == !old(button.checked)
      ensures button.checked ==> active == button
    {
      var toggled := button.HandleToggle();
      OnToggled(button, toggled);
    }
  }
}
