/**
 * A label that turns into a text field for editing. Starting to edit hides
 * the label and shows the field. Finishing checks the stripped text with
 * the widget's validator. A rejected text puts the stored text back into
 * the field and editing goes on. An accepted one is stored, the label is
 * redrawn and editing ends. An empty stored text shows the placeholder in
 * the secondary colour.
 *
 * The variants differ only in how editing starts or ends, and in which
 * validator they carry:
 *  - multi-line: no validator, and focus loss finishes;
 *  - validated: a validator and placeholder chosen by a type name;
 *  - quick: a single left click starts editing.
 * The e-mail, number, phone and URL validators are modelled as predicates.
 * A caller-supplied validator is code the widget only calls, so its verdict
 * is a parameter. A group of editors maps names to
 * editors and reports all values when one of them changes.
 */
module InlineEdit {
  import opened Common
  import opened PyDict

  // ---------------------------------------------------------------------
  // the phone validator

  /** A character the phone pattern `[\d\s\-\(\)\+]` accepts. */
  predicate PhoneChar(c: char) {
    IsDigit(c) || IsSpace(c) || c == '-' || c == '(' || c == ')' || c == '+'
  }

  /** A character the phone check removes before counting: space, dash, parentheses, plus. */
  predicate Separator(c: char) {
    c == ' ' || c == '-' || c == '(' || c == ')' || c == '+'
  }

  /** The text with every separator removed (the chain of `replace` calls). */
  function WithoutSeparators(s: string): (r: string)
    ensures |r| <= |s|
    ensures forall c :: c in r ==> c in s && !Separator(c)
  {
    if s == [] then []
    else (if Separator(s[0]) then [] else [s[0]]) + WithoutSeparators(s[1..])
  }

  /** `_validate_phone`: only phone characters, at least one, and ten or more once separators are removed. */
  predicate PhoneValid(t: string) {
    && t != []
    && (forall i :: 0 <= i < |t| ==> PhoneChar(t[i]))
    && |WithoutSeparators(t)| >= 10
  }

  /**
   * An accepted phone number is at least ten characters long, and what is
   * counted is digits and whitespace other than the plain space.
   */
  lemma PhoneValidCounts(t: string)
    requires PhoneValid(t)
    ensures |t| >= 10
    ensures forall c :: c in WithoutSeparators(t) ==> IsDigit(c) || (IsSpace(c) && c != ' ')
  {
    forall c | c in WithoutSeparators(t)
      ensures IsDigit(c) || (IsSpace(c) && c != ' ')
    {
      var i :| 0 <= i < |t| && t[i] == c;
    }
  }

  /** A text without separators is counted whole. */
  lemma {:induction false} NoSeparatorsKept(s: string)
    requires forall i :: 0 <= i < |s| ==> !Separator(s[i])
    ensures WithoutSeparators(s) == s
  {
    if s != [] {
      NoSeparatorsKept(s[1..]);
    }
  }

  /** Ten or more digits are a phone number. */
  lemma DigitsArePhone(t: string)
    requires |t| >= 10 && forall i :: 0 <= i < |t| ==> IsDigit(t[i])
    ensures PhoneValid(t)
  {
    NoSeparatorsKept(t);
  }

  /** Ten tabs: whitespace to the pattern, and not removed before counting. */
  const TenTabs := Repeat('\t', 10)

  /** As written, ten tabs pass as a phone number although they hold no digit. */
  lemma TabsPassAsPhone()
    ensures PhoneValid(TenTabs) && DigitCount(TenTabs) == 0
  {
    OnlyTabs(TenTabs);
  }

  /** Tabs are phone characters, none is a separator, and none is a digit. */
  lemma {:induction false} OnlyTabs(s: string)
    requires forall i :: 0 <= i < |s| ==> s[i] == '\t'
    ensures forall i :: 0 <= i < |s| ==> PhoneChar(s[i])
    ensures WithoutSeparators(s) == s && DigitCount(s) == 0
  {
    if s != [] {
      OnlyTabs(s[1..]);
    }
  }

  /** The number of digits in a text. */
  function DigitCount(s: string): (n: nat)
    ensures n <= |s|
  {
    if s == [] then 0 else (if IsDigit(s[0]) then 1 else 0) + DigitCount(s[1..])
  }

  /** The number of whitespace characters other than the plain space. */
  function OtherSpaceCount(s: string): (n: nat)
    ensures n <= |s|
  {
    if s == [] then 0 else (if IsSpace(s[0]) && s[0] != ' ' then 1 else 0) + OtherSpaceCount(s[1..])
  }

  /** For phone characters, what is counted is the digits plus the other whitespace. */
  lemma {:induction false} CountedCharacters(s: string)
    requires forall i :: 0 <= i < |s| ==> PhoneChar(s[i])
    ensures |WithoutSeparators(s)| == DigitCount(s) + OtherSpaceCount(s)
  {
    if s != [] {
      CountedCharacters(s[1..]);
    }
  }

  /** The evidently intended phone check: the pattern as before, and at least ten digits. */
  predicate IntendedPhoneValid(t: string) {
    && t != []
    && (forall i :: 0 <= i < |t| ==> PhoneChar(t[i]))
    && DigitCount(t) >= 10
  }

  /**
   * The intended check only rejects more: it rejects ten tabs, and agrees
   * with the written check on texts whose only whitespace is the space.
   */
  lemma IntendedPhoneValidSpec(t: string)
    ensures IntendedPhoneValid(t) ==> PhoneValid(t)
    ensures (forall i :: 0 <= i < |t| ==> !IsSpace(t[i]) || t[i] == ' ') ==> (IntendedPhoneValid(t) <==> PhoneValid(t))
    ensures !IntendedPhoneValid(TenTabs)
  {
    if forall i :: 0 <= i < |t| ==> PhoneChar(t[i]) {
      CountedCharacters(t);
      if forall i :: 0 <= i < |t| ==> !IsSpace(t[i]) || t[i] == ' ' {
        NoOtherSpace(t);
      }
    }
    TabsPassAsPhone();
  }

  lemma {:induction false} NoOtherSpace(s: string)
    requires forall i :: 0 <= i < |s| ==> !IsSpace(s[i]) || s[i] == ' '
    ensures OtherSpaceCount(s) == 0
  {
    if s != [] {
      NoOtherSpace(s[1..]);
    }
  }

  // ---------------------------------------------------------------------
  // the URL validator

  /** Characters the pattern forbids right after the scheme: whitespace, `/ $ . ? #`. */
  predicate UrlBadStart(c: char) {
    IsSpace(c) || c == '/' || c == '$' || c == '.' || c == '?' || c == '#'
  }

  /** `[^\s]*$`: no whitespace, except that `$` also matches before one final newline. */
  predicate UrlTail(s: string) {
    || (forall i :: 0 <= i < |s| ==> !IsSpace(s[i]))
    || (|s| >= 1 && s[|s| - 1] == '\n' && forall i :: 0 <= i < |s| - 1 ==> !IsSpace(s[i]))
  }

  /** What follows the scheme: an allowed first character, any character but a newline, then the tail. */
  predicate UrlRest(r: string) {
    |r| >= 2 && !UrlBadStart(r[0]) && r[1] != '\n' && UrlTail(r[2..])
  }

  /** `_validate_url`: `^https?://[^\s/$.?#].[^\s]*$` matched from the start. */
  predicate UrlValid(t: string) {
    || (|t| >= 7 && t[..7] == "http://" && UrlRest(t[7..]))
    || (|t| >= 8 && t[..8] == "https://" && UrlRest(t[8..]))
  }

  /** An accepted URL starts with a scheme followed by an allowed character, and has one more character after it. */
  lemma UrlValidStart(t: string)
    requires UrlValid(t)
    ensures || (|t| >= 9 && t[..7] == "http://" && !UrlBadStart(t[7]))
            || (|t| >= 10 && t[..8] == "https://" && !UrlBadStart(t[8]))
  {
  }

  /** A scheme and a host of two or more non-whitespace characters, not starting with `/ $ . ? #`, is accepted. */
  lemma HostAfterSchemeValid(scheme: string, host: string)
    requires scheme == "http://" || scheme == "https://"
    requires |host| >= 2 && !UrlBadStart(host[0]) && forall i :: 0 <= i < |host| ==> !IsSpace(host[i])
    ensures UrlValid(scheme + host)
  {
    var t := scheme + host;
    assert t[..|scheme|] == scheme && t[|scheme|..] == host;
    assert host[1] != '\n';
    assert forall i :: 0 <= i < |host[2..]| ==> host[2..][i] == host[i + 2];
  }

  /** Neither an unknown scheme nor a host right after the slashes that starts with a dot is accepted. */
  lemma UrlRejects(host: string)
    ensures !UrlValid("ftp://" + host)
    ensures !UrlValid("http://." + host) && !UrlValid("https://." + host)
  {
    var a := "http://." + host;
    var b := "https://." + host;
    var c := "ftp://" + host;
    assert a[7] == '.' && a[4] == ':';
    assert b[8] == '.' && b[4] == 's';
    assert c[0] == 'f';
  }

  // ---------------------------------------------------------------------
  // the e-mail validator

  /** `[a-zA-Z0-9._%+-]`: a character of the part before the `@`. */
  predicate LocalChar(c: char) {
    IsAsciiLetter(c) || IsDigit(c) || c == '.' || c == '_' || c == '%' || c == '+' || c == '-'
  }

  /** `[a-zA-Z0-9.-]`: a character of the domain before its final dot. */
  predicate DomainChar(c: char) {
    IsAsciiLetter(c) || IsDigit(c) || c == '.' || c == '-'
  }

  /**
   * `s` read as a local part `s[..at]`, the `@`, a domain `s[at + 1..dot]`,
   * the dot, and two or more letters up to the end.
   */
  predicate EmailSplit(s: string, at: int, dot: int) {
    && 0 < at && at + 1 < dot && dot + 2 < |s|
    && s[at] == '@' && s[dot] == '.'
    && (forall i :: 0 <= i < at ==> LocalChar(s[i]))
    && (forall i :: at < i < dot ==> DomainChar(s[i]))
    && (forall i :: dot < i < |s| ==> IsAsciiLetter(s[i]))
  }

  /** The whole of `s` matches the pattern. */
  predicate EmailBody(s: string) {
    exists at, dot | 0 <= at < dot < |s| :: EmailSplit(s, at, dot)
  }

  /**
   * `_validate_email`: `^[a-zA-Z0-9._%+-]+@[a-zA-Z0-9.-]+\.[a-zA-Z]{2,}$`
   * matched from the start; `$` also matches before one final newline.
   */
  predicate EmailValid(t: string) {
    || EmailBody(t)
    || (|t| >= 1 && t[|t| - 1] == '\n' && EmailBody(t[..|t| - 1]))
  }

  /** Any local part, `@`, domain, dot and top-level part of the allowed characters is accepted. */
  lemma EmailFromParts(local: string, domain: string, top: string)
    requires local != [] && forall i :: 0 <= i < |local| ==> LocalChar(local[i])
    requires domain != [] && forall i :: 0 <= i < |domain| ==> DomainChar(domain[i])
    requires |top| >= 2 && forall i :: 0 <= i < |top| ==> IsAsciiLetter(top[i])
    ensures EmailValid(local + "@" + domain + "." + top)
  {
    var s := local + "@" + domain + "." + top;
    var at := |local|;
    var dot := |local| + 1 + |domain|;
    assert forall i :: 0 <= i < at ==> s[i] == local[i];
    assert forall i :: at < i < dot ==> s[i] == domain[i - at - 1];
    assert forall i :: dot < i < |s| ==> s[i] == top[i - dot - 1];
    assert EmailSplit(s, at, dot);
  }

  /**
   * An accepted address has exactly one `@`, not at the start, and a dot
   * after it that is followed by at least two more characters.
   */
  lemma EmailShape(t: string) returns (at: int, dot: int)
    requires EmailValid(t)
    ensures 0 < at && at + 1 < dot && dot + 2 < |t|
    ensures t[at] == '@' && t[dot] == '.'
    ensures forall i :: 0 <= i < |t| && i != at ==> t[i] != '@'
  {
    var s := if EmailBody(t) then t else t[..|t| - 1];
    assert EmailBody(s);
    at, dot :| 0 <= at < dot < |s| && EmailSplit(s, at, dot);
    assert forall i :: 0 <= i < |s| ==> s[i] == t[i];
    forall i | 0 <= i < |t| && i != at
      ensures t[i] != '@'
    {
      if i < at {
        assert LocalChar(s[i]);
      } else if i < dot {
        assert DomainChar(s[i]);
      } else if i == dot {
      } else if i < |s| {
        assert IsAsciiLetter(s[i]);
      } else {
        assert t[i] == '\n';
      }
    }
  }

  /** A text without an `@` is refused. */
  lemma EmailNeedsAt(t: string)
    requires forall i :: 0 <= i < |t| ==> t[i] != '@'
    ensures !EmailValid(t)
  {
    if EmailValid(t) {
      var at, dot := EmailShape(t);
      assert false;
    }
  }

  // ---------------------------------------------------------------------
  // the number validator

  /** The length of the digit run `\d(_?\d)*` at `s[i..]`; 0 when `s[i]` is not a digit. */
  function DigitsLen(s: string, i: nat): (n: nat)
    requires i <= |s|
    ensures i + n <= |s|
    ensures n > 0 ==> IsDigit(s[i]) && IsDigit(s[i + n - 1])
    decreases |s| - i
  {
    if i < |s| && IsDigit(s[i]) then
      if i + 1 < |s| && IsDigit(s[i + 1]) then 1 + DigitsLen(s, i + 1)
      else if i + 2 < |s| && s[i + 1] == '_' && IsDigit(s[i + 2]) then 2 + DigitsLen(s, i + 2)
      else 1
    else 0
  }

  /** `[+-]?` followed by a digit run, covering all of `s`. */
  predicate ExponentText(s: string) {
    var j := if s != [] && (s[0] == '+' || s[0] == '-') then 1 else 0;
    DigitsLen(s, j) > 0 && j + DigitsLen(s, j) == |s|
  }

  /** `digits [. [digits]]` or `. digits`, then an optional exponent, covering all of `s`. */
  predicate DecimalText(s: string) {
    var n1 := DigitsLen(s, 0);
    var point := n1 < |s| && s[n1] == '.';
    var n2 := if point then DigitsLen(s, n1 + 1) else 0;
    var m := if point then n1 + 1 + n2 else n1;
    && (n1 > 0 || n2 > 0)
    && (m == |s| || ((s[m] == 'e' || s[m] == 'E') && ExponentText(s[m + 1..])))
  }

  /**
   * `_validate_number`: Python's `float(text)` succeeds. Surrounding
   * whitespace is ignored, a sign may come first, and then either a decimal
   * (underscores only between digits) or `inf`, `infinity`, `nan` in any case.
   */
  predicate NumberValid(t: string) {
    var r := Unsigned(Strip(t));
    SpecialNumber(r) || DecimalText(r)
  }

  /** `s` without one leading sign. */
  function Unsigned(s: string): (r: string)
    ensures r == s || (s != [] && (s[0] == '+' || s[0] == '-') && r == s[1..])
  {
    if s != [] && (s[0] == '+' || s[0] == '-') then s[1..] else s
  }

  /** `inf`, `infinity` or `nan`, in any mix of case. */
  predicate SpecialNumber(r: string) {
    var l := Lower(r);
    l == "inf" || l == "infinity" || l == "nan"
  }

  /** A run of digits that ends at the text's end, or before a character that is neither a digit nor `_`, is one digit run. */
  lemma {:induction false} DigitsLenRun(s: string, i: nat, j: nat)
    requires i <= j <= |s|
    requires forall k :: i <= k < j ==> IsDigit(s[k])
    requires j == |s| || (!IsDigit(s[j]) && s[j] != '_')
    ensures DigitsLen(s, i) == j - i
    decreases j - i
  {
    if i + 1 < j {
      DigitsLenRun(s, i + 1, j);
    }
  }

  /** `s[k]`, inside the run of `n` characters from `i`, is a digit or an `_` with digits on both sides within the run. */
  predicate RunChar(s: string, i: int, n: int, k: int)
    requires 0 <= i <= k < i + n <= |s|
  {
    IsDigit(s[k]) || (s[k] == '_' && i < k < i + n - 1 && IsDigit(s[k - 1]) && IsDigit(s[k + 1]))
  }

  /** Inside a digit run every `_` stands between two digits. */
  lemma {:induction false} DigitsUnderscores(s: string, i: nat)
    requires i <= |s|
    ensures forall k :: i <= k < i + DigitsLen(s, i) ==> RunChar(s, i, DigitsLen(s, i), k)
    decreases |s| - i
  {
    var n := DigitsLen(s, i);
    if i < |s| && IsDigit(s[i]) {
      if i + 1 < |s| && IsDigit(s[i + 1]) {
        DigitsUnderscores(s, i + 1);
        var m := DigitsLen(s, i + 1);
        assert n == 1 + m;
        forall k | i < k < i + n
          ensures RunChar(s, i, n, k)
        {
          assert RunChar(s, i + 1, m, k);
        }
      } else if i + 2 < |s| && s[i + 1] == '_' && IsDigit(s[i + 2]) {
        DigitsUnderscores(s, i + 2);
        var m := DigitsLen(s, i + 2);
        assert n == 2 + m;
        forall k | i + 1 < k < i + n
          ensures RunChar(s, i, n, k)
        {
          assert RunChar(s, i + 2, m, k);
        }
      }
    }
  }

  /** Every nonempty string of decimal digits is a number. */
  lemma DigitsAreNumber(s: string)
    requires s != [] && forall k :: 0 <= k < |s| ==> IsDigit(s[k])
    ensures NumberValid(s)
  {
    StripNoop(s);
    DigitsLenRun(s, 0, |s|);
  }

  /** Digits, a point and digits, with digits on at least one side, are a decimal. */
  lemma PointDecimal(whole: string, fraction: string)
    requires forall k :: 0 <= k < |whole| ==> IsDigit(whole[k])
    requires forall k :: 0 <= k < |fraction| ==> IsDigit(fraction[k])
    requires whole != [] || fraction != []
    ensures DecimalText(whole + "." + fraction)
  {
    var s := whole + "." + fraction;
    assert s[|whole|] == '.';
    assert forall k :: 0 <= k < |whole| ==> s[k] == whole[k];
    assert forall k :: |whole| < k < |s| ==> s[k] == fraction[k - |whole| - 1];
    DigitsLenRun(s, 0, |whole|);
    DigitsLenRun(s, |whole| + 1, |s|);
  }

  /** A decimal starts with a digit or a point and ends with a digit or a point. */
  lemma DecimalEnds(s: string)
    requires DecimalText(s)
    ensures s != [] && (IsDigit(s[0]) || s[0] == '.')
    ensures IsDigit(s[|s| - 1]) || s[|s| - 1] == '.'
  {
    var n1 := DigitsLen(s, 0);
    var point := n1 < |s| && s[n1] == '.';
    var n2 := if point then DigitsLen(s, n1 + 1) else 0;
    var m := if point then n1 + 1 + n2 else n1;
    if m < |s| {
      var e := s[m + 1..];
      var j := if e != [] && (e[0] == '+' || e[0] == '-') then 1 else 0;
      assert IsDigit(e[j + DigitsLen(e, j) - 1]);
      assert s[|s| - 1] == e[|e| - 1];
    }
  }

  /** A decimal is a number. */
  lemma DecimalNumber(s: string)
    requires DecimalText(s)
    ensures NumberValid(s)
  {
    DecimalEnds(s);
    StripNoop(s);
    assert Unsigned(s) == s;
  }

  /** A decimal with a minus sign in front is a number. */
  lemma NegativeDecimalNumber(s: string)
    requires DecimalText(s)
    ensures NumberValid("-" + s)
  {
    DecimalEnds(s);
    var t := "-" + s;
    assert t[1..] == s && t[|t| - 1] == s[|s| - 1];
    StripNoop(t);
    assert Unsigned(t) == s;
  }

  /** Apart from the special names, an accepted number has a digit. */
  lemma NumberHasDigit(t: string)
    requires NumberValid(t) && !SpecialNumber(Unsigned(Strip(t)))
    ensures exists k :: 0 <= k < |Unsigned(Strip(t))| && IsDigit(Unsigned(Strip(t))[k])
  {
    var r := Unsigned(Strip(t));
    var n1 := DigitsLen(r, 0);
    if n1 > 0 {
      assert IsDigit(r[0]);
    } else {
      assert IsDigit(r[n1 + 1]);
    }
  }

  // ---------------------------------------------------------------------
  // validators, placeholders, display

  /** The validator an editor carries: none, one of the built-in ones, or a caller's function. */
  datatype Validation = NoCheck | Email | Number | Phone | Url | Custom

  /** `_get_validation_func`: a known type name picks its check, any other none. */
  function ValidationFor(validationType: string): (v: Validation)
    ensures v == NoCheck <==> validationType !in {"email", "number", "phone", "url"}
  {
    if validationType == "email" then Email
    else if validationType == "number" then Number
    else if validationType == "phone" then Phone
    else if validationType == "url" then Url
    else NoCheck
  }

  /** `_get_placeholder`: a prompt per known type, "Click to edit" otherwise. */
  function PlaceholderFor(validationType: string): (p: string)
    ensures validationType !in {"email", "number", "phone", "url"} ==> p == "Click to edit"
  {
    if validationType == "email" then "Enter email address"
    else if validationType == "number" then "Enter number"
    else if validationType == "phone" then "Enter phone number"
    else if validationType == "url" then "Enter URL"
    else "Click to edit"
  }

  /** Every built-in validator has its own prompt; the prompt tells the validator. */
  lemma PlaceholderTellsValidation(a: string, b: string)
    requires ValidationFor(a) != NoCheck && ValidationFor(b) != NoCheck
    ensures PlaceholderFor(a) == PlaceholderFor(b) <==> ValidationFor(a) == ValidationFor(b)
  {
  }

  /**
   * Whether finishing accepts a text. With no check it does; the built-in
   * checks are decided here; a caller's function gives its verdict from outside.
   */
  function Accepts(v: Validation, t: string, verdict: bool): (b: bool)
    ensures v == NoCheck ==> b
    ensures v == Email ==> (b <==> EmailValid(t))
    ensures v == Number ==> (b <==> NumberValid(t))
    ensures v == Phone ==> (b <==> PhoneValid(t))
    ensures v == Url ==> (b <==> UrlValid(t))
    ensures v == Custom ==> b == verdict
  {
    match v
    case NoCheck => true
    case Email => EmailValid(t)
    case Number => NumberValid(t)
    case Phone => PhoneValid(t)
    case Url => UrlValid(t)
    case Custom => verdict
  }

  /** What the label shows, and whether in the secondary colour. */
  datatype Display = Display(shown: string, muted: bool)

  /** `_update_display`: the text when there is one, otherwise the placeholder, muted. */
  function DisplayFor(text: string, placeholder: string): (d: Display)
    ensures d.muted <==> text == ""
    ensures d.muted ==> d.shown == placeholder
    ensures !d.muted ==> d.shown == text
  {
    if text != "" then Display(text, false) else Display(placeholder, true)
  }

  /** How editing starts: a double click on the label, or (the quick label) a single left click. */
  datatype Variant = DoubleClickToEdit | Multiline | Quick

  // ---------------------------------------------------------------------
  // the editor

  class InlineEditLabel {
    const variant: Variant
    var text: string
    var placeholder: string
    var validation: Validation
    var editing: bool
    /** The edit field's text. */
    var input: string
    var display: Display
    var labelVisible: bool
    var inputVisible: bool

    /** The label shows outside editing and the field inside it; the label follows the stored text. */
    ghost predicate Valid()
      reads this
    {
      && labelVisible == !editing
      && inputVisible == editing
      && display == DisplayFor(text, placeholder)
    }

    /**
     * `InlineEditLabel(text, placeholder, validation_func)` and its
     * variants; the multi-line editor is made with no check.
     */
    constructor (text0: string, placeholder0: string, validation0: Validation, variant0: Variant)
      requires variant0 == Multiline ==> validation0 == NoCheck
      ensures Valid() && variant == variant0
      ensures text == text0 && placeholder == placeholder0 && validation == validation0
      ensures !editing && input == text0
    {
      variant := variant0;
      text := text0;
      placeholder := placeholder0;
      validation := validation0;
      editing := false;
      input := text0;
      display := DisplayFor(text0, placeholder0);
      labelVisible := true;
      inputVisible := false;
    }

    /** `ValidatedInlineEdit(text, validation_type)`: the validator and prompt the type name picks. */
    constructor Validated(text0: string, validationType: string)
      ensures Valid() && variant == DoubleClickToEdit
      ensures text == text0 && placeholder == PlaceholderFor(validationType)
      ensures validation == ValidationFor(validationType)
      ensures !editing && input == text0
    {
      variant := DoubleClickToEdit;
      text := text0;
      placeholder := PlaceholderFor(validationType);
      validation := ValidationFor(validationType);
      editing := false;
      input := text0;
      display := DisplayFor(text0, PlaceholderFor(validationType));
      labelVisible := true;
      inputVisible := false;
    }

    /** `_start_editing`: ignored while editing; otherwise the field replaces the label and the start is reported. */
    method StartEditing() returns (started: bool)
      requires Valid()
      modifies this`editing, this`labelVisible, this`inputVisible
      ensures Valid() && editing
      ensures started == !old(editing)
    {
      if editing {
        return false;
      }
      editing := true;
      labelVisible := false;
      inputVisible := true;
      started := true;
    }

    /** A double click on the label starts editing, except on the quick label. */
    method DoubleClickLabel() returns (started: bool)
      requires Valid()
      modifies this`editing, this`labelVisible, this`inputVisible
      ensures Valid()
      ensures variant != Quick ==> editing && started == !old(editing)
      ensures variant == Quick ==> editing == old(editing) && !started
    {
      started := false;
      if variant != Quick {
        started := StartEditing();
      }
    }

    /** `_on_single_click` on the quick label: a left click starts editing. */
    method PressLabel(left: bool) returns (started: bool)
      requires Valid()
      modifies this`editing, this`labelVisible, this`inputVisible
      ensures Valid()
      ensures variant == Quick && left ==> editing && started == !old(editing)
      ensures !(variant == Quick && left) ==> editing == old(editing) && !started
    {
      started := false;
      if variant == Quick && left {
        started := StartEditing();
      }
    }

    /** The user types into the field while editing. */
    method TypeInput(t: string)
      requires editing
      modifies this`input
      ensures input == t
    {
      input := t;
    }

    /**
     * Whether finishing refuses a text: the multi-line editor's own
     * `_finish_editing` never consults the validator, even one set later
     * with `set_validation`; the others refuse what the validator rejects.
     */
    predicate Refuses(t: string, verdict: bool)
      reads this
    {
      variant != Multiline && !Accepts(validation, t, verdict)
    }

    /**
     * `_finish_editing`, run once (the field losing focus): nothing outside
     * editing. A stripped text the validator rejects puts the stored text back
     * into the field, and editing goes on. An accepted one is stored and
     * editing ends. A change is reported, and the finish always is. The
     * multi-line editor stores every text.
     */
    method FinishEditing(verdict: bool) returns (changed: Option<string>, finished: Option<string>)
      requires Valid()
      modifies this`text, this`input, this`display, this`editing, this`labelVisible, this`inputVisible
      ensures Valid()
      ensures !old(editing) ==>
                text == old(text) && input == old(input) && !editing && changed == None && finished == None
      ensures old(editing) && Refuses(Strip(old(input)), verdict) ==>
                text == old(text) && input == old(text) && editing && changed == None && finished == None
      ensures old(editing) && !Refuses(Strip(old(input)), verdict) ==>
                && text == Strip(old(input)) && input == old(input) && !editing
                && changed == (if text != old(text) then Some(text) else None)
                && finished == Some(text)
    {
      changed, finished := None, None;
      if !editing {
        return;
      }
      var newText := Strip(input);
      if Refuses(newText, verdict) {
        input := text;
        return;
      }
      var oldText := text;
      text := newText;
      display := DisplayFor(text, placeholder);
      editing := false;
      inputVisible := false;
      labelVisible := true;
      if newText != oldText {
        changed := Some(newText);
      }
      finished := Some(newText);
    }

    /**
     * Return in a one-line field: the field's `returnPressed` and then its
     * `editingFinished` both run `_finish_editing`. When the first run
     * accepts the text the second finds editing over. When it refuses, the
     * stored text is back in the field, and the second run checks that text,
     * so editing ends with the stored text unless the validator refuses it
     * too.
     */
    method PressReturn(verdict: bool, storedVerdict: bool) returns (changed: Option<string>, finished: Option<string>)
      requires Valid() && variant != Multiline
      modifies this`text, this`input, this`display, this`editing, this`labelVisible, this`inputVisible
      ensures Valid()
      ensures !old(editing) ==> text == old(text) && input == old(input) && !editing && changed == None && finished == None
      ensures old(editing) && !Refuses(Strip(old(input)), verdict) ==>
                && text == Strip(old(input)) && input == old(input) && !editing
                && changed == (if text != old(text) then Some(text) else None)
                && finished == Some(text)
      ensures old(editing) && Refuses(Strip(old(input)), verdict) && !Refuses(Strip(old(text)), storedVerdict) ==>
                && text == Strip(old(text)) && input == old(text) && !editing
                && changed == (if text != old(text) then Some(text) else None)
                && finished == Some(text)
      ensures old(editing) && Refuses(Strip(old(input)), verdict) && Refuses(Strip(old(text)), storedVerdict) ==>
                text == old(text) && input == old(text) && editing && changed == None && finished == None
    {
      var changed1, finished1 := FinishEditing(verdict);
      var changed2, finished2 := FinishEditing(storedVerdict);
      changed := if changed1.Some? then changed1 else changed2;
      finished := if finished1.Some? then finished1 else finished2;
    }

    /**
     * `cancel_editing`: the stored text goes back into the field and
     * editing is finished with it, so it is stripped and checked like any
     * other text.
     */
    method CancelEditing(verdict: bool) returns (changed: Option<string>, finished: Option<string>)
      requires Valid()
      modifies this`text, this`input, this`display, this`editing, this`labelVisible, this`inputVisible
      ensures Valid()
      ensures !old(editing) ==> text == old(text) && input == old(input) && !editing && changed == None && finished == None
      ensures old(editing) && Refuses(Strip(old(text)), verdict) ==>
                text == old(text) && input == old(text) && editing && changed == None && finished == None
      ensures old(editing) && !Refuses(Strip(old(text)), verdict) ==>
                && text == Strip(old(text)) && input == old(text) && !editing
                && changed == (if text != old(text) then Some(text) else None)
                && finished == Some(text)
    {
      changed, finished := None, None;
      if editing {
        input := text;
        changed, finished := FinishEditing(verdict);
      }
    }

    /** `set_text`: stored as given (not stripped), copied into the field, and shown. */
    method SetText(t: string)
      requires Valid()
      modifies this`text, this`input, this`display
      ensures Valid() && text == t && input == t
    {
      text := t;
      input := t;
      display := DisplayFor(text, placeholder);
    }

    method GetText() returns (t: string)
      ensures t == text
    {
      t := text;
    }

    /** `set_placeholder`: the label is redrawn when it shows the placeholder. */
    method SetPlaceholder(p: string)
      requires Valid()
      modifies this`placeholder, this`display
      ensures Valid() && placeholder == p
      ensures text != "" ==> display == old(display)
    {
      placeholder := p;
      if text == "" {
        display := DisplayFor(text, placeholder);
      }
    }

    method SetValidation(v: Validation)
      modifies this`validation
      ensures validation == v
    {
      validation := v;
    }

    method IsEditing() returns (b: bool)
      ensures b == editing
    {
      b := editing;
    }
  }

  // ---------------------------------------------------------------------
  // the group

  /** No editor object is stored under two names. */
  predicate DistinctEditors(es: seq<Named<InlineEditLabel>>) {
    forall i, j :: 0 <= i < j < |es| ==> es[i].item != es[j].item
  }

  /** Every editor of the list is valid. */
  ghost predicate AllValid(es: seq<Named<InlineEditLabel>>)
    reads set i | 0 <= i < |es| :: es[i].item
  {
    forall i :: 0 <= i < |es| ==> es[i].item.Valid()
  }

  /** The value a dictionary holds for a name, or a default. */
  function ValueOr(d: seq<Named<string>>, n: string, default: string): string {
    match Get(d, n)
    case Some(v) => v
    case None => default
  }

  class InlineEditGroup {
    /** Name to editor, in insertion order. */
    var editors: seq<Named<InlineEditLabel>>

    ghost function Editors(): set<InlineEditLabel>
      reads this
    {
      set i | 0 <= i < |editors| :: editors[i].item
    }

    /** Names are distinct, every editor is its own object, and every editor is valid. */
    ghost predicate Valid()
      reads this, Editors()
    {
      IsDict(editors) && DistinctEditors(editors) && EditorsValid()
    }

    ghost predicate EditorsValid()
      reads this, Editors()
    {
      AllValid(editors)
    }

    constructor ()
      ensures Valid() && editors == []
    {
      editors := [];
    }

    /** The editors' texts, in order. */
    ghost function Texts(): (r: seq<string>)
      reads this, Editors()
      ensures |r| == |editors|
      ensures forall i :: 0 <= i < |editors| ==> r[i] == editors[i].item.text
    {
      seq(|editors|, i reads this, Editors() requires 0 <= i < |editors| => editors[i].item.text)
    }

    /** `get_values` (and what `group_changed` carries): each name with its editor's text, in order. */
    function Values(): (r: seq<Named<string>>)
      reads this, Editors()
      ensures |r| == |editors|
      ensures forall i :: 0 <= i < |editors| ==> r[i] == Named(editors[i].name, editors[i].item.text)
    {
      seq(|editors|, i reads this, Editors() requires 0 <= i < |editors| => Named(editors[i].name, editors[i].item.text))
    }

    /**
     * `add_editor`: a new editor (validated unless the type is "text"; an
     * unknown type behaves as "text") is stored under the name, replacing
     * an editor of the same name in place.
     */
    method AddEditor(name: string, initial: string, validationType: string) returns (editor: InlineEditLabel)
      requires Valid()
      modifies this`editors
      ensures Valid() && fresh(editor)
      ensures editors == Put(old(editors), name, editor)
      ensures editor.text == initial && !editor.editing && editor.variant == DoubleClickToEdit
      ensures editor.validation == ValidationFor(validationType) && editor.placeholder == PlaceholderFor(validationType)
    {
      editor := new InlineEditLabel.Validated(initial, validationType);
      Register(name, editor);
    }

    /** Files an editor under a name, replacing the one stored there before. */
    method Register(name: string, editor: InlineEditLabel)
      requires Valid() && editor.Valid() && editor !in Editors()
      modifies this`editors
      ensures Valid()
      ensures editors == Put(old(editors), name, editor)
    {
      var es := editors;
      var e := Named(name, editor);
      PutIsDict(es, name, editor);
      if name in Names(es) {
        var k := IndexOf(Names(es), name);
        PutAt(es, k, editor);
        ReplaceDistinct(es, k, e);
        ReplaceValid(es, k, e);
        editors := es[k := e];
      } else {
        PutNew(es, name, editor);
        AppendDistinct(es, e);
        AppendValid(es, e);
        editors := es + [e];
      }
    }

    /** `get_editor`. */
    method GetEditor(name: string) returns (e: Option<InlineEditLabel>)
      ensures e == Get(editors, name)
    {
      e := Get(editors, name);
    }

    /**
     * `set_values`: every named editor takes the given value as its text;
     * names without an editor are ignored, and the other editors keep
     * theirs.
     */
    method SetValues(values: seq<Named<string>>)
      requires Valid() && IsDict(values)
      modifies Editors()
      ensures Valid()
      ensures forall i :: 0 <= i < |editors| ==> editors[i].item.text == ValueOr(values, editors[i].name, old(editors[i].item.text))
    {
      ghost var before := Texts();
      var k := 0;
      while k < |values|
        invariant 0 <= k <= |values|
        invariant Valid()
        invariant forall i :: 0 <= i < |editors| ==> editors[i].item.text == ValueOr(values[..k], editors[i].name, before[i])
      {
        GetPrefixStep(values, k);
        SetNamed(values[k].name, values[k].item);
        k := k + 1;
      }
      assert values[..k] == values;
    }

    /** The editor stored under the name, if any, takes the value as its text; the others keep theirs. */
    method SetNamed(name: string, value: string)
      requires Valid()
      modifies Editors()
      ensures Valid()
      ensures forall i :: 0 <= i < |editors| ==> editors[i].item.text == if editors[i].name == name then value else old(editors[i].item.text)
    {
      if name in Names(editors) {
        var j := IndexOf(Names(editors), name);
        editors[j].item.SetText(value);
        forall i | 0 <= i < |editors| && i != j
          ensures editors[i].item.text == old(editors[i].item.text) && editors[i].name != name
        {
          assert editors[i].item != editors[j].item;
          assert Names(editors)[i] != Names(editors)[j];
        }
      }
    }

    /**
     * The user finishes editing the named editor; a change of its text
     * makes the group report all values (`group_changed`).
     */
    method FinishEdit(name: string, verdict: bool) returns (groupChanged: Option<seq<Named<string>>>)
      requires Valid() && name in Names(editors)
      modifies Editors()
      ensures Valid()
      ensures groupChanged.Some? ==> groupChanged.value == Values()
    {
      var j := IndexOf(Names(editors), name);
      var changed, _ := editors[j].item.FinishEditing(verdict);
      groupChanged := if changed.Some? then Some(Values()) else None;
    }
  }

  lemma ReplaceDistinct(es: seq<Named<InlineEditLabel>>, k: nat, e: Named<InlineEditLabel>)
    requires DistinctEditors(es) && k < |es| && forall i :: 0 <= i < |es| ==> es[i].item != e.item
    ensures DistinctEditors(es[k := e])
  {
  }

  lemma ReplaceValid(es: seq<Named<InlineEditLabel>>, k: nat, e: Named<InlineEditLabel>)
    requires AllValid(es) && k < |es| && e.item.Valid()
    ensures AllValid(es[k := e])
  {
  }

  lemma AppendValid(es: seq<Named<InlineEditLabel>>, e: Named<InlineEditLabel>)
    requires AllValid(es) && e.item.Valid()
    ensures AllValid(es + [e])
  {
  }

  lemma AppendDistinct(es: seq<Named<InlineEditLabel>>, e: Named<InlineEditLabel>)
    requires DistinctEditors(es) && forall i :: 0 <= i < |es| ==> es[i].item != e.item
    ensures DistinctEditors(es + [e])
  {
  }

  /**
   * An e-mail editor holding a valid address, given a malformed entry and
   * Return: the first run refuses the entry and puts the address back, the
   * second accepts the address, so editing ends and the finish is reported.
   */
  method ReturnOnRefusedEntryEndsEditing(address: string, entry: string) returns (editing: bool, finished: Option<string>)
    requires Strip(address) == address && EmailValid(address)
    requires !EmailValid(Strip(entry))
    ensures !editing && finished == Some(address)
  {
    var e := new InlineEditLabel.Validated(address, "email");
    var _ := e.StartEditing();
    e.TypeInput(entry);
    assert e.Refuses(Strip(entry), false) && !e.Refuses(Strip(address), false);
    var _, f := e.PressReturn(false, false);
    editing, finished := e.editing, f;
  }
}
