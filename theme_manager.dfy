/**
 * The process-wide theme registry: two built-in themes ("light" and
 * "dark"), each a table of colour tokens, spacing sizes and border radii,
 * and a pointer to the current theme. Lookups never fail: an unknown key
 * yields a fixed fallback value.
 */
module ThemeManager {
  import opened Common

  datatype Theme = Theme(colors: map<string, string>, spacing: map<string, int>, borderRadius: map<string, int>)

  /** The colour tokens every built-in theme defines. */
  const ColorTokens: set<string> := {
    "primary", "secondary", "success", "warning", "danger", "info", "light", "dark",
    "background", "surface", "text", "text_secondary", "border", "hover"
  }

  /** The tokens the generated stylesheet reads. */
  const StylesheetTokens: set<string> := {"background", "text", "primary", "hover", "dark", "surface", "border"}

  const Spacing: map<string, int> := map["xs" := 4, "sm" := 8, "md" := 16, "lg" := 24, "xl" := 32]
  const BorderRadius: map<string, int> := map["sm" := 4, "md" := 8, "lg" := 12, "xl" := 16]

  const LightColors: map<string, string> := map[
    "primary" := "#007ACC", "secondary" := "#6C757D", "success" := "#28A745",
    "warning" := "#FFC107", "danger" := "#DC3545", "info" := "#17A2B8",
    "light" := "#F8F9FA", "dark" := "#343A40", "background" := "#FFFFFF",
    "surface" := "#F5F5F5", "text" := "#212529", "text_secondary" := "#6C757D",
    "border" := "#DEE2E6", "hover" := "#E9ECEF"]

  const DarkColors: map<string, string> := map[
    "primary" := "#0D7377", "secondary" := "#495057", "success" := "#198754",
    "warning" := "#FD7E14", "danger" := "#DC3545", "info" := "#0DCAF0",
    "light" := "#F8F9FA", "dark" := "#212529", "background" := "#1E1E1E",
    "surface" := "#2D2D2D", "text" := "#FFFFFF", "text_secondary" := "#B0B0B0",
    "border" := "#404040", "hover" := "#3A3A3A"]

  function BuiltinThemes(): (m: map<string, Theme>)
    ensures m.Keys == {"light", "dark"}
  {
    map["light" := Theme(LightColors, Spacing, BorderRadius),
        "dark" := Theme(DarkColors, Spacing, BorderRadius)]
  }

  /** Both built-in themes define exactly the same colour tokens, and these include every token the stylesheet reads. */
  lemma BuiltinTokensAgree()
    ensures LightColors.Keys == DarkColors.Keys == ColorTokens
    ensures StylesheetTokens <= ColorTokens
  {
  }

  lemma StylesheetTokensKnown()
    ensures StylesheetTokens <= ColorTokens && "background" in StylesheetTokens
  {
  }

  /** A line of the stylesheet template: the selector lines are indented by 12 spaces, the declarations by 16. */
  function Line(indent: nat, text: string): (l: string)
    ensures |l| == indent + |text| + 1 && l[|l| - 1] == '\n'
  {
    Repeat(' ', indent) + text + "\n"
  }

  /**
   * The stylesheet template over a colour table that holds every token it
   * reads, with the template's own line breaks and indentation: it opens
   * with a line break and ends with the 8 spaces before its closing quotes.
   */
  function Stylesheet(colors: map<string, string>): (css: string)
    requires StylesheetTokens <= colors.Keys
    ensures Contains(css, colors["background"])
  {
    var pre, bg := StylesheetHead(), colors["background"];
    ContainsSelf(bg);
    ContainsInAppend(pre, bg, bg);
    var rest := StylesheetAfterBackground(colors);
    ContainsInAppend(pre + bg, rest, bg);
    pre + bg + rest
  }

  /** Everything before the QWidget background colour. */
  function StylesheetHead(): (h: string)
    ensures |h| > 0 && h[0] == '\n'
  {
    "\n" + Line(12, "QWidget {") + Repeat(' ', 16) + "background-color: "
  }

  /** Everything after the QWidget background colour. */
  function StylesheetAfterBackground(colors: map<string, string>): string
    requires StylesheetTokens <= colors.Keys
  {
    ";\n"
    + Line(16, "color: " + colors["text"] + ";")
    + Line(16, "font-family: 'Segoe UI';")
    + Line(16, "font-size: 9pt;")
    + Line(12, "}")
    + "\n"
    + Line(12, "QPushButton {")
    + Line(16, "background-color: " + colors["primary"] + ";")
    + Line(16, "color: white;")
    + Line(16, "border: none;")
    + Line(16, "padding: 8px 16px;")
    + Line(16, "border-radius: 4px;")
    + Line(16, "font-weight: bold;")
    + Line(12, "}")
    + "\n"
    + Line(12, "QPushButton:hover {")
    + Line(16, "background-color: " + colors["hover"] + ";")
    + Line(12, "}")
    + "\n"
    + Line(12, "QPushButton:pressed {")
    + Line(16, "background-color: " + colors["dark"] + ";")
    + Line(12, "}")
    + "\n"
    + Line(12, "QFrame {")
    + Line(16, "background-color: " + colors["surface"] + ";")
    + Line(16, "border: 1px solid " + colors["border"] + ";")
    + Line(16, "border-radius: 8px;")
    + Line(12, "}")
    + "\n"
    + Line(12, "QLabel {")
    + Line(16, "color: " + colors["text"] + ";")
    + Line(16, "background-color: transparent;")
    + Line(12, "}")
    + Repeat(' ', 8)
  }

  /** The stylesheet depends only on the values of the tokens it reads. */
  lemma StylesheetDependsOnlyOnItsTokens(a: map<string, string>, b: map<string, string>)
    requires StylesheetTokens <= a.Keys && StylesheetTokens <= b.Keys
    requires forall t :: t in StylesheetTokens ==> a[t] == b[t]
    ensures Stylesheet(a) == Stylesheet(b)
  {
    assert a["background"] == b["background"] && a["text"] == b["text"];
    assert a["primary"] == b["primary"] && a["hover"] == b["hover"] && a["dark"] == b["dark"];
    assert a["surface"] == b["surface"] && a["border"] == b["border"];
  }

  class Manager {
    var currentTheme: string
    const themes: map<string, Theme>

    /** The current theme is always a registered one whose colours cover the tokens. */
    ghost predicate Valid()
      reads this
    {
      currentTheme in themes
      && (forall n :: n in themes ==> ColorTokens <= themes[n].colors.Keys)
    }

    constructor ()
      ensures Valid()
      ensures currentTheme == "light" && themes == BuiltinThemes()
    {
      currentTheme := "light";
      themes := BuiltinThemes();
    }

    /** A registered name becomes current (and `theme_changed` fires); any other name changes nothing. */
    method SetTheme(name: string) returns (themeChanged: bool)
      requires Valid()
      modifies this
      ensures Valid()
      ensures themeChanged <==> name in themes
      ensures currentTheme == if name in themes then name else old(currentTheme)
    {
      themeChanged := name in themes;
      if themeChanged {
        currentTheme := name;
      }
    }

    function CurrentColors(): (colors: map<string, string>)
      reads this
      requires Valid()
      ensures ColorTokens <= colors.Keys
      ensures StylesheetTokens <= colors.Keys && "background" in colors
    {
      StylesheetTokensKnown();
      themes[currentTheme].colors
    }

    /** The current theme's value for a known token, "#000000" for any other. */
    function GetColor(token: string): (color: string)
      reads this
      requires Valid()
      ensures token in themes[currentTheme].colors ==> color == themes[currentTheme].colors[token]
      ensures token !in themes[currentTheme].colors ==> color == "#000000"
    {
      if token in themes[currentTheme].colors then themes[currentTheme].colors[token] else "#000000"
    }

    /** The current theme's spacing for a known size, 8 for any other. */
    function GetSpacing(size: string): (px: int)
      reads this
      requires Valid()
      ensures size in themes[currentTheme].spacing ==> px == themes[currentTheme].spacing[size]
      ensures size !in themes[currentTheme].spacing ==> px == 8
    {
      if size in themes[currentTheme].spacing then themes[currentTheme].spacing[size] else 8
    }

    /** The current theme's border radius for a known size, 4 for any other. */
    function GetBorderRadius(size: string): (px: int)
      reads this
      requires Valid()
      ensures size in themes[currentTheme].borderRadius ==> px == themes[currentTheme].borderRadius[size]
      ensures size !in themes[currentTheme].borderRadius ==> px == 4
    {
      if size in themes[currentTheme].borderRadius then themes[currentTheme].borderRadius[size] else 4
    }

    /** The stylesheet of the current theme; it carries its background colour. */
    function GetStylesheet(): (css: string)
      reads this
      requires Valid()
      ensures Contains(css, CurrentColors()["background"])
    {
      Stylesheet(CurrentColors())
    }
  }
}
