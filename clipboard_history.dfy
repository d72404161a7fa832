/**
 * Clipboard history: the clipboard's recent contents, most recent first,
 * one entry per content and at most `max_items` of them, with a list that
 * shows a preview of each and a status line counting them; and a simpler
 * history of the last ten distinct texts.
 *
 * The system clipboard is not part of the model: what it holds when it is
 * checked is a parameter, and what a click copies to it is returned. The
 * clock is a parameter too, and timestamps are plain integers.
 */
module ClipboardHistory {
  import opened Common

  /** What `_add_to_history` was told the entry is. */
  datatype ClipKind = Text | Image | Manual

  /** A history entry: the content, its kind and when it was recorded. */
  datatype Clip = Clip(content: string, kind: ClipKind, time: int)

  /** What the clipboard's MIME data offers when it is checked. */
  datatype ClipData =
    | TextData(text: string)
    | ImageData(formats: string)
    | NoData

  /** The contents of a history, in order. */
  function Contents(h: seq<Clip>): (r: seq<string>)
    ensures |r| == |h|
  {
    seq(|h|, i requires 0 <= i < |h| => h[i].content)
  }

  /**
   * The loop of `_add_to_history`: the first entry with that content
   * taken out, the rest in order.
   */
  function RemoveContent(h: seq<Clip>, c: string): seq<Clip>
  {
    if h == [] then []
    else if h[0].content == c then h[1..]
    else [h[0]] + RemoveContent(h[1..], c)
  }

  /** `_add_to_history`: the entry put first, an older one with its content dropped, the list cut to the cap. */
  function Recorded(h: seq<Clip>, item: Clip, cap: int): seq<Clip>
  {
    PyTake([item] + RemoveContent(h, item.content), cap)
  }

  lemma {:induction false} ContentsRemoveContent(h: seq<Clip>, c: string)
    ensures Contents(RemoveContent(h, c)) == RemoveFirst(Contents(h), c)
  {
    if h != [] {
      assert Contents(h)[1..] == Contents(h[1..]);
      if h[0].content != c {
        ContentsRemoveContent(h[1..], c);
        assert Contents([h[0]] + RemoveContent(h[1..], c)) == [h[0].content] + Contents(RemoveContent(h[1..], c));
      }
    }
  }

  lemma ContentsTake(h: seq<Clip>, n: int)
    ensures Contents(PyTake(h, n)) == PyTake(Contents(h), n)
  {
  }

  /**
   * The history's contents follow the most-recent-first rule: the new
   * content in front, its older copy gone, at most `cap` entries.
   */
  lemma RecordedContents(h: seq<Clip>, item: Clip, cap: int)
    ensures Contents(Recorded(h, item, cap)) == MoveToFront(Contents(h), item.content, cap)
  {
    var full := [item] + RemoveContent(h, item.content);
    ContentsRemoveContent(h, item.content);
    assert Contents(full) == [item.content] + Contents(RemoveContent(h, item.content));
    ContentsTake(full, cap);
  }

  /**
   * After recording, with a cap of at least one, the entry comes first, no
   * content is listed twice and the cap holds.
   */
  lemma RecordedFrontDistinct(h: seq<Clip>, item: Clip, cap: int)
    requires Distinct(Contents(h)) && cap >= 1
    ensures var r := Recorded(h, item, cap);
      && |r| >= 1 && r[0] == item && |r| <= cap && Distinct(Contents(r))
  {
    RecordedContents(h, item, cap);
    MoveToFrontDistinct(Contents(h), item.content, cap);
    assert Recorded(h, item, cap)[0] == ([item] + RemoveContent(h, item.content))[0];
  }

  /** The first position holding content `c` delimits what `RemoveContent` takes out. */
  lemma {:induction false} RemoveContentAt(h: seq<Clip>, c: string, i: nat)
    requires i <= |h|
    requires forall k :: 0 <= k < i ==> h[k].content != c
    ensures i < |h| && h[i].content == c ==> RemoveContent(h, c) == h[..i] + h[i + 1..]
    ensures i == |h| ==> RemoveContent(h, c) == h
  {
    if i > 0 {
      var t := h[1..];
      assert forall k :: 0 <= k < i - 1 ==> t[k].content != c by {
        forall k | 0 <= k < i - 1 ensures t[k].content != c {
          assert t[k] == h[k + 1];
        }
      }
      RemoveContentAt(t, c, i - 1);
      assert h[0].content != c;
      assert RemoveContent(h, c) == [h[0]] + RemoveContent(t, c);
      if i < |h| {
        assert t[..i - 1] == h[1..i] && t[i..] == h[i + 1..];
        assert h[..i] == [h[0]] + h[1..i];
      } else {
        assert h == [h[0]] + t;
      }
    }
  }

  /** The status line: "<count> items". */
  function StatusText(n: nat): string
  {
    NatToStr(n) + " items"
  }

  /** Python `s.replace(c, rep)` for one character. */
  function ReplaceChar(s: string, c: char, rep: string): (r: string)
    ensures c !in rep ==> c !in r
    ensures c !in s ==> r == s
    ensures |rep| == 1 ==> |r| == |s|
  {
    if s == [] then []
    else (if s[0] == c then rep else [s[0]]) + ReplaceChar(s[1..], c, rep)
  }

  /** At most `n` characters, and "..." after a cut. */
  function Truncated(s: string, n: nat): (r: string)
    ensures |s| <= n ==> r == s
    ensures |s| > n ==> |r| == n + 3 && r[..n] == s[..n] && r[n..] == "..."
  {
    if |s| > n then s[..n] + "..." else s
  }

  /** `ClipboardHistoryItem`'s preview: the first 100 characters, newlines shown as " ↵ ". */
  function Preview(content: string): (r: string)
    ensures '\n' !in r
    ensures |content| <= 100 && '\n' !in content ==> r == content
  {
    ReplaceChar(Truncated(content, 100), '\n', " ↵ ")
  }

  /** `_copy_as_plain`: newlines become spaces and the ends are stripped. */
  function PlainText(content: string): (r: string)
    ensures '\n' !in r && |r| <= |content|
    ensures r == [] || (!IsSpace(r[0]) && !IsSpace(r[|r| - 1]))
  {
    var t := ReplaceChar(content, '\n', " ");
    StripRightIn(t);
    Strip(t)
  }

  /** Stripping keeps only characters of the text it strips. */
  lemma StripRightIn(s: string)
    ensures forall ch :: ch in Strip(s) ==> ch in s
  {
    var l := StripLeft(s);
    assert Strip(s) == StripRight(l) == l[..|StripRight(l)|];
    assert l == s[|s| - |l|..];
  }

  /** What the history list shows: one preview per entry. */
  function Previews(h: seq<Clip>): (r: seq<string>)
    ensures |r| == |h|
    ensures forall i :: 0 <= i < |h| ==> r[i] == Preview(h[i].content)
  {
    seq(|h|, i requires 0 <= i < |h| => Preview(h[i].content))
  }

  /** The exported form of an entry: content, kind name and timestamp. */
  datatype Exported = Exported(content: string, kind: string, time: int)

  function KindName(k: ClipKind): string
  {
    match k
    case Text => "text"
    case Image => "image"
    case Manual => "manual"
  }

  class ClipboardHistoryWidget {
    var maxItems: int
    var history: seq<Clip>
    var lastText: string
    /** The monitor button's checked state and caption. */
    var monitoring: bool
    var monitorCaption: string
    /** What the list and the status line show. */
    var rows: seq<string>
    var status: string

    /** The list shows a preview per entry and the status line counts them; no content is listed twice. */
    ghost predicate Valid()
      reads this
    {
      && rows == Previews(history)
      && status == StatusText(|history|)
      && Distinct(Contents(history))
    }

    /** The list and status line redrawn from the history. */
    method UpdateList()
      requires Distinct(Contents(history))
      modifies this`rows, this`status
      ensures Valid()
    {
      rows := Previews(history);
      status := StatusText(|history|);
    }

    /**
     * `ClipboardHistoryWidget(max_items)`: an empty history, monitoring on,
     * then the clipboard checked once.
     */
    constructor (cap: int, initial: ClipData, now: int)
      ensures Valid()
      ensures maxItems == cap && monitoring && monitorCaption == "Monitoring: ON"
      ensures (history, lastText) == Checked([], "", initial, now, cap)
    {
      maxItems, history, lastText := cap, [], "";
      monitoring, monitorCaption := true, "Monitoring: ON";
      rows, status := Previews([]), StatusText(0);
      new;
      CheckClipboard(initial, now);
    }

    /**
     * `_add_to_history`: a loop finds the entry with that content and
     * removes it, the new entry goes in front, and the list is cut to the cap.
     */
    method AddToHistory(content: string, kind: ClipKind, now: int)
      requires Valid()
      modifies this`history, this`rows, this`status
      ensures Valid()
      ensures history == Recorded(old(history), Clip(content, kind, now), maxItems)
      ensures Contents(history) == MoveToFront(Contents(old(history)), content, maxItems)
      ensures maxItems >= 1 ==> history[0] == Clip(content, kind, now) && |history| <= maxItems
    {
      var i := 0;
      while i < |history| && history[i].content != content
        invariant 0 <= i <= |history|
        invariant forall k :: 0 <= k < i ==> history[k].content != content
      {
        i := i + 1;
      }
      RemoveContentAt(history, content, i);
      var item := Clip(content, kind, now);
      if i < |history| {
        history := history[..i] + history[i + 1..];
      }
      history := [item] + history;
      if |history| > maxItems {
        history := PyTake(history, maxItems);
      }
      RecordedContents(old(history), item, maxItems);
      MoveToFrontDistinct(Contents(old(history)), content, maxItems);
      if maxItems >= 1 {
        RecordedFrontDistinct(old(history), item, maxItems);
      }
      UpdateList();
    }

    /**
     * `_check_clipboard`: nothing while monitoring is off; a text is
     * recorded when its stripped form is non-empty and not the last one
     * seen; an image is recorded by its description when that is new.
     */
    method CheckClipboard(data: ClipData, now: int)
      requires Valid()
      modifies this`history, this`lastText, this`rows, this`status
      ensures Valid()
      ensures !monitoring ==> history == old(history) && lastText == old(lastText)
      ensures monitoring ==> (history, lastText) == Checked(old(history), old(lastText), data, now, maxItems)
    {
      if !monitoring {
        return;
      }
      match data
      case TextData(t) =>
        var text := Strip(t);
        if text != "" && text != lastText {
          AddToHistory(text, Text, now);
          lastText := text;
        }
      case ImageData(f) =>
        var info := ImageInfo(f);
        if info != lastText {
          AddToHistory(info, Image, now);
          lastText := info;
        }
      case NoData =>
    }

    /** `_on_item_clicked`: the row's content is copied and emitted; a click off the list does nothing. */
    method ItemClicked(row: int) returns (copied: Option<string>)
      ensures copied.Some? <==> 0 <= row < |history|
      ensures copied.Some? ==> copied.value == history[row].content && copied.value in Contents(history)
    {
      if 0 <= row < |history| {
        copied := Some(history[row].content);
        assert Contents(history)[row] == copied.value;
      } else {
        copied := None;
      }
    }

    /** `_copy_as_plain`: the row's content, flattened to one stripped line. */
    method CopyAsPlain(row: int) returns (copied: Option<string>)
      ensures copied.Some? <==> 0 <= row < |history|
      ensures copied.Some? ==> copied.value == PlainText(history[row].content) && '\n' !in copied.value
    {
      if 0 <= row < |history| {
        copied := Some(PlainText(history[row].content));
      } else {
        copied := None;
      }
    }

    /** `_delete_item`: only a row inside the history is removed. */
    method DeleteItem(row: int)
      requires Valid()
      modifies this`history, this`rows, this`status
      ensures Valid()
      ensures history == if 0 <= row < |old(history)| then DeleteAt(old(history), row) else old(history)
      ensures 0 <= row < |old(history)| ==> multiset(Contents(history)) == multiset(Contents(old(history))) - multiset{old(history)[row].content}
    {
      if 0 <= row < |history| {
        var h := history;
        history := DeleteAt(history, row);
        DeleteAtContents(h, row);
        UpdateList();
      }
    }

    /** `_toggle_monitoring`: the button's state and caption. */
    method ToggleMonitoring(enabled: bool)
      modifies this`monitoring, this`monitorCaption
      ensures monitoring == enabled
      ensures monitorCaption == if enabled then "Monitoring: ON" else "Monitoring: OFF"
    {
      monitoring := enabled;
      monitorCaption := if enabled then "Monitoring: ON" else "Monitoring: OFF";
    }

    /** `clear_history`: no entries, the list redrawn, `history_cleared` emitted. */
    method ClearHistory() returns (cleared: bool)
      requires Valid()
      modifies this`history, this`rows, this`status
      ensures Valid()
      ensures history == [] && rows == [] && status == "0 items" && cleared
    {
      history := [];
      UpdateList();
      cleared := true;
    }

    /** `get_history`: content, kind name and timestamp of every entry, in order. */
    function GetHistory(): (r: seq<Exported>)
      reads this
      ensures |r| == |history|
      ensures forall i :: 0 <= i < |r| ==> r[i].content == history[i].content && r[i].time == history[i].time
    {
      seq(|history|, i requires 0 <= i < |history| reads this => Exported(history[i].content, KindName(history[i].kind), history[i].time))
    }

    /** `set_max_items`: the new cap, and the history cut to it when longer. */
    method SetMaxItems(n: int)
      requires Valid()
      modifies this`maxItems, this`history, this`rows, this`status
      ensures Valid()
      ensures maxItems == n
      ensures history == if |old(history)| > n then PyTake(old(history), n) else old(history)
      ensures n >= 0 ==> |history| <= n
      ensures history <= old(history)
    {
      maxItems := n;
      if |history| > n {
        var h := history;
        history := PyTake(history, n);
        ContentsTake(h, n);
        DistinctPrefix(Contents(h), Contents(history));
        UpdateList();
      }
    }

    /** `add_manual_item`: recorded like a copy, as a manual entry. */
    method AddManualItem(content: string, now: int)
      requires Valid()
      modifies this`history, this`rows, this`status
      ensures Valid()
      ensures history == Recorded(old(history), Clip(content, Manual, now), maxItems)
      ensures maxItems >= 1 ==> history[0].content == content
    {
      AddToHistory(content, Manual, now);
      if maxItems >= 1 {
        RecordedFrontDistinct(old(history), Clip(content, Manual, now), maxItems);
      }
    }
  }

  /** The description an image on the clipboard is recorded under. */
  function ImageInfo(formats: string): (r: string)
    ensures |r| == |formats| + 8 && r[..7] == "Image (" && r[|r| - 1] == ')'
  {
    "Image (" + formats + ")"
  }

  /** What `_check_clipboard` makes of the history and the last text seen, monitoring on. */
  function Checked(h: seq<Clip>, last: string, data: ClipData, now: int, cap: int): (seq<Clip>, string)
  {
    match data
    case TextData(t) =>
      var text := Strip(t);
      if text != "" && text != last then (Recorded(h, Clip(text, Text, now), cap), text) else (h, last)
    case ImageData(f) =>
      var info := ImageInfo(f);
      if info != last then (Recorded(h, Clip(info, Image, now), cap), info) else (h, last)
    case NoData => (h, last)
  }

  /**
   * A check records at most one entry and only a new one: the same text
   * seen twice in a row is recorded once, and a blank text never.
   */
  lemma CheckedTwice(h: seq<Clip>, last: string, t: string, now1: int, now2: int, cap: int)
    ensures var (h1, l1) := Checked(h, last, TextData(t), now1, cap);
      Checked(h1, l1, TextData(t), now2, cap) == (h1, l1)
    ensures AllSpace(t) ==> Checked(h, last, TextData(t), now1, cap) == (h, last)
  {
    StripEmptyIff(t);
  }

  lemma DeleteAtContents(h: seq<Clip>, i: nat)
    requires i < |h|
    ensures Contents(DeleteAt(h, i)) == DeleteAt(Contents(h), i)
    ensures multiset(Contents(DeleteAt(h, i))) == multiset(Contents(h)) - multiset{h[i].content}
    ensures Distinct(Contents(h)) ==> Distinct(Contents(DeleteAt(h, i)))
  {
    var c := Contents(h);
    assert c == c[..i] + [c[i]] + c[i + 1..];
    assert DeleteAt(c, i) == c[..i] + c[i + 1..];
    var d := DeleteAt(c, i);
    if Distinct(c) {
      forall a, b | 0 <= a < b < |d| ensures d[a] != d[b] {
        var a' := if a < i then a else a + 1;
        var b' := if b < i then b else b + 1;
        assert d[a] == c[a'] && d[b] == c[b'];
      }
    }
  }

  lemma DistinctPrefix(s: seq<string>, p: seq<string>)
    requires Distinct(s) && p <= s
    ensures Distinct(p)
  {
    forall a, b | 0 <= a < b < |p| ensures p[a] != p[b] {
      assert p[a] == s[a] && p[b] == s[b];
    }
  }

  /** `SimpleClipboardHistory`'s update: a new non-empty text goes in front, ten kept. */
  function SimpleRecorded(h: seq<string>, text: string): (r: seq<string>)
  {
    if text != "" && text !in h then PyTake([text] + h, 10) else h
  }

  /**
   * A history without repeats keeps none, stays within ten and starts with
   * a text it did not hold; a text already held changes nothing, even when
   * it is not the most recent.
   */
  lemma SimpleRecordedProps(h: seq<string>, text: string)
    requires Distinct(h) && |h| <= 10
    ensures var r := SimpleRecorded(h, text);
      && Distinct(r) && |r| <= 10
      && (text != "" && text !in h ==> r[0] == text && r[1..] == h[..|r| - 1])
      && (text in h ==> r == h)
  {
    if text != "" && text !in h {
      DistinctCons(text, h);
      var full := [text] + h;
      var r := SimpleRecorded(h, text);
      DistinctPrefix(full, r);
      assert r == full[..|r|];
      assert r[1..] == h[..|r| - 1];
    }
  }

  function SimplePreviews(h: seq<string>): (r: seq<string>)
    ensures |r| == |h|
    ensures forall i :: 0 <= i < |h| ==> r[i] == SimplePreview(h[i])
  {
    seq(|h|, i requires 0 <= i < |h| => SimplePreview(h[i]))
  }

  /** `SimpleClipboardHistory`'s list entry: the first 50 characters and "..." when longer. */
  function SimplePreview(text: string): (r: string)
    ensures |r| <= 53 && (|text| <= 50 ==> r == text)
  {
    Truncated(text, 50)
  }

  class SimpleClipboardHistory {
    var history: seq<string>
    var rows: seq<string>

    ghost predicate Valid()
      reads this
    {
      && Distinct(history) && |history| <= 10
      && rows == SimplePreviews(history)
    }

    constructor ()
      ensures Valid() && history == []
    {
      history, rows := [], [];
    }

    /** `_on_clipboard_changed`: a non-empty text not yet listed goes in front; ten are kept. */
    method ClipboardChanged(text: string)
      requires Valid()
      modifies this
      ensures Valid()
      ensures history == SimpleRecorded(old(history), text)
      ensures text != "" && text !in old(history) ==> history[0] == text
    {
      SimpleRecordedProps(history, text);
      if text != "" && text !in history {
        history := [text] + history;
        if |history| > 10 {
          history := history[..10];
        }
        rows := SimplePreviews(history);
      }
    }

    /** `_on_item_clicked`: the row's text is copied and emitted. */
    method ItemClicked(row: int) returns (copied: Option<string>)
      ensures copied.Some? <==> 0 <= row < |history|
      ensures copied.Some? ==> copied.value == history[row] && copied.value in history
    {
      copied := if 0 <= row < |history| then Some(history[row]) else None;
    }
  }
}
