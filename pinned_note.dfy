/**
 * Pinned notes: sticky notes that can be edited, recoloured and dragged,
 * that serialize to a dictionary and back, and a manager that keeps a list
 * of them, adds, duplicates, removes, clears and reloads them and reports
 * the data of all of them after every change; and a simpler note holding
 * only text.
 *
 * The clock, the colour dialog and the random placement of a new note are
 * parameters. A creation time is kept as the ISO text it serializes to.
 */
module PinnedNote {
  import opened Common

  /** A point in parent coordinates. */
  datatype Point = Point(x: int, y: int)

  /** The colour of a new note. */
  const DefaultColor := "#FFE066"

  /** What a note holds: the data `get_data` reports. */
  datatype NoteState = NoteState(content: string, color: string, pos: Point, created: string)

  /**
   * A note's dictionary as `set_data` reads it: each key may be missing. A
   * position holds both `x` and `y`.
   */
  datatype Data = Data(content: Option<string>, color: Option<string>, position: Option<Point>, created: Option<string>)

  /** `get_data`: every key present. */
  function Saved(s: NoteState): (d: Data)
    ensures d.content.Some? && d.color.Some? && d.position.Some? && d.created.Some?
  {
    Data(Some(s.content), Some(s.color), Some(s.pos), Some(s.created))
  }

  /**
   * `set_data` on a note holding `s`: a missing content or colour falls
   * back to the defaults, while a missing position or creation time keeps
   * the note's own.
   */
  function Loaded(s: NoteState, d: Data): NoteState {
    NoteState(
      match d.content case Some(c) => c case None => "",
      match d.color case Some(c) => c case None => DefaultColor,
      match d.position case Some(p) => p case None => s.pos,
      match d.created case Some(t) => t case None => s.created)
  }

  /** `set_data(get_data())` gives any note back what the first one held. */
  lemma LoadSaved(s: NoteState, t: NoteState)
    ensures Loaded(t, Saved(s)) == s
  {
  }

  /** What loading a dictionary keeps of it: given keys are taken, missing ones default or stay. */
  lemma LoadedFields(s: NoteState, d: Data)
    ensures Loaded(s, d).content == (if d.content.Some? then d.content.value else "")
    ensures Loaded(s, d).color == (if d.color.Some? then d.color.value else DefaultColor)
    ensures d.position.None? ==> Loaded(s, d).pos == s.pos
    ensures d.position.Some? ==> Loaded(s, d).pos == d.position.value
    ensures Saved(Loaded(s, d)).content == Some(Loaded(s, d).content)
  {
  }

  /** A draggable note. */
  class Note {
    var content: string
    var color: string
    var pos: Point
    var created: string
    /** Where the pointer grabbed the note, relative to its corner, while the left button is down. */
    var grab: Option<Point>
    var closed: bool
    /** Whether the note's parent widget has a `duplicate_note` method. */
    const parentDuplicates: bool

    function State(): NoteState
      reads this
    {
      NoteState(content, color, pos, created)
    }

    constructor (content: string, color: string, now: string, parentDuplicates: bool)
      ensures State() == NoteState(content, color, Point(0, 0), now)
      ensures grab == None && !closed && this.parentDuplicates == parentDuplicates
    {
      this.content := content;
      this.color := color;
      pos := Point(0, 0);
      created := now;
      grab := None;
      closed := false;
      this.parentDuplicates := parentDuplicates;
    }

    /** `get_data`. */
    function GetData(): (d: Data)
      reads this
      ensures Loaded(NoteState("", DefaultColor, Point(0, 0), ""), d) == State()
    {
      Saved(State())
    }

    /**
     * `set_data`. Its `setPlainText` emits the editor's `textChanged`, so
     * `note_changed` reports the loaded content.
     */
    method SetData(d: Data) returns (noteChanged: string)
      modifies this`content, this`color, this`pos, this`created
      ensures State() == Loaded(old(State()), d)
      ensures noteChanged == Loaded(old(State()), d).content
    {
      content := match d.content case Some(c) => c case None => "";
      color := match d.color case Some(c) => c case None => DefaultColor;
      if d.position.Some? {
        pos := d.position.value;
      }
      if d.created.Some? {
        created := d.created.value;
      }
      noteChanged := OnContentChanged(content);
    }

    /**
     * `set_content`: the content is stored and put in the editor, whose
     * `textChanged` makes `note_changed` report it.
     */
    method SetContent(c: string) returns (noteChanged: string)
      modifies this`content
      ensures State() == old(State()).(content := c)
      ensures noteChanged == c
    {
      content := c;
      noteChanged := OnContentChanged(c);
    }

    /** `set_color`. */
    method SetColor(c: string)
      modifies this`color
      ensures State() == old(State()).(color := c)
    {
      color := c;
    }

    /** The editor's text changed: it becomes the content, which is emitted. */
    method OnContentChanged(text: string) returns (emitted: string)
      modifies this`content
      ensures State() == old(State()).(content := text)
      ensures emitted == content
    {
      content := text;
      emitted := content;
    }

    /**
     * `_change_color`: `picked` is what the colour dialog returns, `None`
     * when it was cancelled; a valid pick becomes the colour and is emitted.
     */
    method ChangeColor(picked: Option<string>) returns (emitted: Option<string>)
      modifies this`color
      ensures picked.None? ==> color == old(color) && emitted == None
      ensures picked.Some? ==> color == picked.value && emitted == Some(color)
    {
      emitted := None;
      if picked.Some? {
        color := picked.value;
        emitted := Some(color);
      }
    }

    /** A press of the left button grabs the note where the pointer is; another button does nothing. */
    method MousePress(left: bool, pointer: Point)
      modifies this`grab
      ensures left ==> grab == Some(Point(pointer.x - pos.x, pointer.y - pos.y))
      ensures !left ==> grab == old(grab)
    {
      if left {
        grab := Some(Point(pointer.x - pos.x, pointer.y - pos.y));
      }
    }

    /**
     * A move with exactly the left button held drags a grabbed note so that
     * the grabbed spot stays under the pointer, and emits the new position.
     */
    method MouseMove(leftOnly: bool, pointer: Point) returns (moved: Option<Point>)
      modifies this`pos
      ensures leftOnly && grab.Some? ==> pos == Point(pointer.x - grab.value.x, pointer.y - grab.value.y) && moved == Some(pos)
      ensures !(leftOnly && grab.Some?) ==> pos == old(pos) && moved == None
    {
      moved := None;
      if leftOnly && grab.Some? {
        pos := Point(pointer.x - grab.value.x, pointer.y - grab.value.y);
        moved := Some(pos);
      }
    }

    /** Releasing the button lets go of the note. */
    method MouseRelease()
      modifies this`grab
      ensures grab == None
    {
      grab := None;
    }

    /**
     * The menu's Duplicate entry: it hands the note to its parent when the
     * parent has `duplicate_note`, and does nothing otherwise.
     */
    method RequestDuplicate() returns (delegated: bool)
      ensures delegated == parentDuplicates
    {
      delegated := parentDuplicates;
    }
  }

  /** The data of every note, in order. */
  function Snapshot(ns: seq<Note>): (r: seq<NoteState>)
    reads ns
    ensures |r| == |ns|
    ensures forall i :: 0 <= i < |ns| ==> r[i] == ns[i].State()
  {
    if ns == [] then [] else Snapshot(ns[..|ns| - 1]) + [ns[|ns| - 1].State()]
  }

  /**
   * Where `add_note` puts a note, as written: PyQt treats a `QPoint` as
   * false when it is null, so a given position at (0, 0) falls back to the
   * random one.
   */
  function Placement(position: Option<Point>, drawn: Point): Point {
    if position.Some? && position.value != Point(0, 0) then position.value else drawn
  }

  /** Where `add_note` evidently means to put a note: wherever a position is given. */
  function PlacementIntended(position: Option<Point>, drawn: Point): (p: Point)
    ensures position.Some? ==> p == position.value
    ensures position.None? ==> p == drawn
  {
    if position.Some? then position.value else drawn
  }

  /** The two placements differ exactly on a given (0, 0) when the draw lands elsewhere. */
  lemma PlacementNullPoint(drawn: Point)
    requires drawn != Point(0, 0)
    ensures Placement(Some(Point(0, 0)), drawn) == drawn
    ensures PlacementIntended(Some(Point(0, 0)), drawn) == Point(0, 0)
    ensures Placement(Some(Point(0, 0)), drawn) != PlacementIntended(Some(Point(0, 0)), drawn)
  {
  }

  /** Away from (0, 0) the placement as written is the intended one. */
  lemma PlacementAgrees(position: Option<Point>, drawn: Point)
    requires position != Some(Point(0, 0))
    ensures Placement(position, drawn) == PlacementIntended(position, drawn)
  {
  }

  /** The data a reload produces: one note per dictionary, each loaded onto a blank note. */
  function LoadAll(batch: seq<Data>, now: string): (r: seq<NoteState>)
    ensures |r| == |batch|
  {
    seq(|batch|, i requires 0 <= i < |batch| => Loaded(NoteState("", DefaultColor, Point(0, 0), now), batch[i]))
  }

  /** A reload of saved notes gives every note back as it was, in order, whatever the reload time. */
  lemma LoadAllSaved(states: seq<NoteState>, now: string)
    ensures LoadAll(seq(|states|, i requires 0 <= i < |states| => Saved(states[i])), now) == states
  {
    var batch := seq(|states|, i requires 0 <= i < |states| => Saved(states[i]));
    forall i | 0 <= i < |states|
      ensures LoadAll(batch, now)[i] == states[i]
    {
      LoadSaved(states[i], NoteState("", DefaultColor, Point(0, 0), now));
    }
  }

  /** The two notes of the sample that `load_notes` loads, stamped with the current time. */
  function SampleData(now: string): seq<Data> {
    [Data(Some("Sample note 1"), Some("#FFE066"), Some(Point(50, 50)), Some(now)),
     Data(Some("Sample note 2\nWith multiple lines"), Some("#FF9999"), Some(Point(270, 80)), Some(now))]
  }

  /** The manager: its notes in the order they were added, placed in an area of at least 800 by 600. */
  class NoteManager {
    var notes: seq<Note>
    const areaWidth: int
    const areaHeight: int

    /** Each note appears once, and none of them has a parent that duplicates. */
    predicate Valid()
      reads this, notes
    {
      Distinct(notes) && (forall n :: n in notes ==> !n.parentDuplicates) &&
      areaWidth >= 800 && areaHeight >= 600
    }

    constructor (areaWidth: int, areaHeight: int)
      requires areaWidth >= 800 && areaHeight >= 600
      ensures Valid() && notes == []
      ensures this.areaWidth == areaWidth && this.areaHeight == areaHeight
    {
      notes := [];
      this.areaWidth := areaWidth;
      this.areaHeight := areaHeight;
    }

    /** `get_notes_data`, and what `notes_changed` carries. */
    function NotesData(): (r: seq<NoteState>)
      reads this, notes
      ensures |r| == |notes|
      ensures forall i :: 0 <= i < |notes| ==> r[i] == notes[i].State()
    {
      Snapshot(notes)
    }

    /**
     * `add_note`: a new note with that content and colour, placed at the
     * given position or, when there is none (or it is null), at `drawn`,
     * the random draw; it goes last and the data of all notes is emitted.
     */
    method AddNote(content: string, color: string, position: Option<Point>, drawn: Point, now: string)
      returns (note: Note, emitted: seq<NoteState>)
      requires Valid()
      requires 10 <= drawn.x <= areaWidth - 210 && 10 <= drawn.y <= areaHeight - 210
      modifies this`notes
      ensures Valid() && fresh(note)
      ensures notes == old(notes) + [note]
      ensures note.State() == NoteState(content, color, Placement(position, drawn), now)
      ensures emitted == NotesData()
    {
      note := new Note(content, color, now, false);
      note.pos := Placement(position, drawn);
      notes := notes + [note];
      emitted := NotesData();
    }

    /**
     * The Add Note button, as written: `clicked` passes its `checked` flag,
     * False, as `add_note`'s content, and the new note's editor refuses
     * `setPlainText(False)` with TypeError before the note is placed, shown
     * or listed; nothing changes and nothing is emitted.
     */
    method ClickAddNoteButton() returns (typeError: bool, emitted: Option<seq<NoteState>>)
      ensures typeError && emitted == None
    {
      typeError, emitted := true, None;
    }

    /** The Add Note button as intended: `add_note` with its defaults, at the random draw. */
    method ClickAddNoteButtonIntended(drawn: Point, now: string) returns (note: Note, emitted: seq<NoteState>)
      requires Valid()
      requires 10 <= drawn.x <= areaWidth - 210 && 10 <= drawn.y <= areaHeight - 210
      modifies this`notes
      ensures Valid() && fresh(note)
      ensures notes == old(notes) + [note]
      ensures note.State() == NoteState("New note", DefaultColor, drawn, now)
      ensures emitted == NotesData()
    {
      note, emitted := AddNote("New note", DefaultColor, None, drawn, now);
    }

    /** `_remove_note`: a note in the list leaves it and the data is emitted; any other note changes nothing. */
    method RemoveNote(note: Note) returns (emitted: Option<seq<NoteState>>)
      requires Valid()
      modifies this`notes
      ensures Valid()
      ensures note !in old(notes) ==> notes == old(notes) && emitted == None
      ensures note in old(notes) ==> notes == RemoveFirst(old(notes), note) && emitted == Some(NotesData())
      ensures forall n :: n in notes <==> n in old(notes) && n != note
    {
      RemoveFirstDistinct(notes, note);
      emitted := None;
      if note in notes {
        notes := RemoveFirst(notes, note);
        emitted := Some(NotesData());
      }
    }

    /** `delete_note` on a note of the manager: the manager drops it, then it closes. */
    method DeleteNote(note: Note) returns (emitted: Option<seq<NoteState>>)
      requires Valid()
      modifies this`notes, note`closed
      ensures Valid()
      ensures note.closed && note !in notes
      ensures forall n :: n in notes <==> n in old(notes) && n != note
      ensures note in old(notes) <==> emitted.Some?
    {
      emitted := RemoveNote(note);
      note.closed := true;
    }

    /**
     * `duplicate_note`: a new note with the same content and colour, 20
     * pixels right of and below the original.
     */
    method DuplicateNote(note: Note, drawn: Point, now: string) returns (copy: Note, emitted: seq<NoteState>)
      requires Valid()
      requires 10 <= drawn.x <= areaWidth - 210 && 10 <= drawn.y <= areaHeight - 210
      modifies this`notes
      ensures Valid() && fresh(copy)
      ensures notes == old(notes) + [copy]
      ensures copy.content == note.content && copy.color == note.color && copy.created == now
      ensures copy.pos == Placement(Some(Point(note.pos.x + 20, note.pos.y + 20)), drawn)
      ensures emitted == NotesData()
    {
      copy, emitted := AddNote(note.content, note.color, Some(Point(note.pos.x + 20, note.pos.y + 20)), drawn, now);
    }

    /**
     * The Duplicate entry of a note's menu, as written: the note's parent is
     * the manager's notes area, a plain widget without `duplicate_note`, so
     * nothing happens.
     */
    method MenuDuplicate(note: Note) returns (delegated: bool)
      requires Valid() && note in notes
      ensures !delegated
    {
      delegated := note.RequestDuplicate();
    }

    /** The Duplicate entry as evidently intended: the manager duplicates the note. */
    method MenuDuplicateIntended(note: Note, drawn: Point, now: string) returns (copy: Note, emitted: seq<NoteState>)
      requires Valid() && note in notes
      requires 10 <= drawn.x <= areaWidth - 210 && 10 <= drawn.y <= areaHeight - 210
      modifies this`notes
      ensures Valid() && fresh(copy)
      ensures notes == old(notes) + [copy]
      ensures |notes| == |old(notes)| + 1
      ensures copy.content == note.content && copy.color == note.color
      ensures emitted == NotesData()
    {
      copy, emitted := DuplicateNote(note, drawn, now);
    }

    /** `clear_notes`: every note closes and the list empties; the empty data is emitted. */
    method ClearNotes() returns (emitted: seq<NoteState>)
      requires Valid()
      modifies this`notes, notes
      ensures Valid() && notes == [] && emitted == []
      ensures forall n :: n in old(notes) ==> n.closed && n.State() == old(n.State())
    {
      var all := notes;
      for i := 0 to |all|
        invariant notes == all
        invariant forall j :: 0 <= j < i ==> all[j].closed
        invariant forall n :: n in all ==> n.State() == old(n.State())
      {
        all[i].closed := true;
      }
      notes := [];
      emitted := NotesData();
    }

    /**
     * `load_notes_data`: the notes are cleared, then each dictionary, in
     * order, becomes a new note loaded from it, and the data is emitted.
     */
    method LoadNotesData(batch: seq<Data>, now: string) returns (cleared: seq<NoteState>, emitted: seq<NoteState>)
      requires Valid()
      modifies this`notes, notes
      ensures Valid() && cleared == []
      ensures forall n :: n in old(notes) ==> n.closed
      ensures forall n :: n in notes ==> fresh(n)
      ensures NotesData() == LoadAll(batch, now)
      ensures emitted == NotesData()
    {
      cleared := ClearNotes();
      var i := 0;
      while i < |batch|
        invariant 0 <= i <= |batch| && |notes| == i
        invariant Distinct(notes) && forall n :: n in notes ==> !n.parentDuplicates && fresh(n)
        invariant forall j :: 0 <= j < i ==> notes[j].State() == LoadAll(batch, now)[j]
        invariant forall n :: n in old(notes) ==> n.closed
      {
        var note := new Note("", DefaultColor, now, false);
        var _ := note.SetData(batch[i]);
        notes := notes + [note];
        i := i + 1;
      }
      emitted := NotesData();
    }

    /** `load_notes`: the two sample notes replace the others. */
    method LoadNotes(now: string) returns (cleared: seq<NoteState>, emitted: seq<NoteState>)
      requires Valid()
      modifies this`notes, notes
      ensures Valid() && |notes| == 2
      ensures notes[0].State() == NoteState("Sample note 1", "#FFE066", Point(50, 50), now)
      ensures notes[1].State() == NoteState("Sample note 2\nWith multiple lines", "#FF9999", Point(270, 80), now)
      ensures emitted == NotesData()
    {
      cleared, emitted := LoadNotesData(SampleData(now), now);
    }
  }

  /** The simple note: text and nothing else. */
  class SimpleNote {
    var content: string

    constructor (content: string)
      ensures this.content == content
    {
      this.content := content;
    }

    /** The editor's text changed: it becomes the content, which is emitted. */
    method OnContentChanged(text: string) returns (emitted: string)
      modifies this
      ensures content == text && emitted == text
    {
      content := text;
      emitted := content;
    }

    /**
     * `set_content`: the content is stored and put in the editor, whose
     * `textChanged` makes `content_changed` report it.
     */
    method SetContent(c: string) returns (contentChanged: string)
      modifies this
      ensures content == c && contentChanged == c
    {
      content := c;
      contentChanged := OnContentChanged(c);
    }
  }
}
