/**
 * The property grid: a dictionary of property values and one of their
 * types, and a tree with a row per property holding an editor for it. The
 * grouped grid puts rows under group rows; the object grid fills itself
 * from an object's public attributes and writes edits back to it.
 *
 * Python values are `Value`s; floats and colours carry the text `str()`
 * gives for them, since float and colour formatting is not modelled.
 */
module PropertyGrid {
  import opened Common
  import PyDict
  import QtRange

  datatype Value =
    | BoolV(b: bool)
    | IntV(i: int)
    | FloatV(x: real, text: string)
    | StrV(s: string)
    | ColorV(name: string, text: string)
    | OtherV(text: string)

  /** Python `str(value)`. */
  function Str(v: Value): string {
    match v
    case BoolV(b) => if b then "True" else "False"
    case IntV(i) => IntToStr(i)
    case FloatV(_, t) => t
    case StrV(s) => s
    case ColorV(_, t) => t
    case OtherV(t) => t
  }

  /** The type names a property can be given; any other name is kept as `Unknown`. */
  datatype Kind = Auto | BoolKind | IntKind | FloatKind | StringKind | ChoiceKind | ColorKind | FileKind | Unknown(name: string)

  /** `_detect_type`: booleans are tested before integers, and anything unrecognised edits as a string. */
  function DetectType(v: Value): (t: Kind)
    ensures t == BoolKind <==> v.BoolV?
    ensures t == IntKind <==> v.IntV?
    ensures t == FloatKind <==> v.FloatV?
    ensures t == ColorKind <==> v.ColorV?
    ensures t == StringKind <==> v.StrV? || v.OtherV?
  {
    match v
    case BoolV(_) => BoolKind
    case IntV(_) => IntKind
    case FloatV(_, _) => FloatKind
    case StrV(_) => StringKind
    case ColorV(_, _) => ColorKind
    case OtherV(_) => StringKind
  }

  /** The type `add_property` records: the given one, or the detected one for "auto". */
  function Resolve(ptype: Kind, v: Value): Kind {
    if ptype == Auto then DetectType(v) else ptype
  }

  datatype PropType = PropType(kind: Kind, options: Option<seq<Value>>, readonly: bool)

  /** The editor in a row's value column, with what it shows. */
  datatype Editor =
    | Label(text: string)
    | CheckBox(checked: bool)
    | IntSpin(value: int)
    | FloatSpin(amount: real)
    | LineEdit(text: string)
    | Combo(items: seq<string>, current: nat)
    | ColorPicker(preview: string)
    | FilePicker(path: string)

  const IntLimit: int := 999999
  const FloatLimit: real := 999999.0

  /** The setters PyQt lets through: a check box takes a bool, an integer spin box an int, a float spin box any number. */
  predicate Accepts(kind: Kind, v: Value) {
    if kind == BoolKind then v.BoolV?
    else if kind == IntKind then v.BoolV? || v.IntV?
    else if kind == FloatKind then v.BoolV? || v.IntV? || v.FloatV?
    else true
  }

  /** A detected type always accepts the value it was detected from. */
  lemma DetectedAccepts(v: Value)
    ensures Accepts(DetectType(v), v)
  {
  }

  function AsInt(v: Value): int
    requires v.BoolV? || v.IntV?
  {
    if v.BoolV? then (if v.b then 1 else 0) else v.i
  }

  function AsReal(v: Value): real
    requires v.BoolV? || v.IntV? || v.FloatV?
  {
    if v.FloatV? then v.x else AsInt(v) as real
  }

  function ClampInt(x: int): (r: int)
    ensures -IntLimit <= r <= IntLimit
  {
    QtRange.Clamp(x, -IntLimit, IntLimit)
  }

  function ClampReal(x: real): (r: real)
    ensures -FloatLimit <= r <= FloatLimit
    ensures -FloatLimit <= x <= FloatLimit ==> r == x
  {
    if x < -FloatLimit then -FloatLimit else if x > FloatLimit then FloatLimit else x
  }

  /** `[str(opt) for opt in options]`. */
  function Texts(options: seq<Value>): (r: seq<string>)
    ensures |r| == |options| && forall i :: 0 <= i < |options| ==> r[i] == Str(options[i])
  {
    seq(|options|, i requires 0 <= i < |options| => Str(options[i]))
  }

  /**
   * `_create_editor`: a read-only property shows its text in a label;
   * otherwise the type picks the editor, and a choice without options
   * or an unknown type edits as a string.
   */
  function MakeEditor(kind: Kind, v: Value, options: Option<seq<Value>>, readonly: bool): (e: Editor)
    requires readonly || Accepts(kind, v)
  {
    if readonly then Label(Str(v))
    else if kind == BoolKind then CheckBox(v.b)
    else if kind == IntKind then IntSpin(ClampInt(AsInt(v)))
    else if kind == FloatKind then FloatSpin(ClampReal(AsReal(v)))
    else if kind == StringKind then LineEdit(Str(v))
    else if kind == ChoiceKind && options.Some? && options.value != [] then
      Combo(Texts(options.value), if v in options.value then IndexOf(options.value, v) else 0)
    else if kind == ColorKind then ColorPicker(if v.ColorV? then v.name else Str(v))
    else if kind == FileKind then FilePicker(Str(v))
    else LineEdit(Str(v))
  }

  /** Which editor a property gets; a choice with no options falls back to a line edit. */
  lemma MakeEditorSpec(kind: Kind, v: Value, options: Option<seq<Value>>, readonly: bool)
    requires readonly || Accepts(kind, v)
    ensures var e := MakeEditor(kind, v, options, readonly);
            (readonly <==> e.Label?)
            && (kind == ChoiceKind && !readonly ==> (e.Combo? <==> options.Some? && options.value != []))
            && (kind == ChoiceKind && !readonly && (options.None? || options.value == []) ==> e == LineEdit(Str(v)))
            && (e.Combo? ==> e.current < |e.items| && (v in options.value ==> e.items[e.current] == Str(v)))
            && (!readonly && kind == IntKind ==> e == IntSpin(ClampInt(AsInt(v))))
  {
  }

  /** What an editor shows, as the value its signal would carry. */
  predicate Shows(e: Editor, w: Value) {
    match e
    case CheckBox(c) => w == BoolV(c)
    case IntSpin(x) => w == IntV(x)
    case FloatSpin(x) => w.FloatV? && w.x == x
    case LineEdit(t) => w == StrV(t)
    case Combo(items, cur) => cur < |items| && w == StrV(items[cur])
    case ColorPicker(p) => w.ColorV? && w.name == p
    case FilePicker(p) => w == StrV(p)
    case Label(_) => false
  }

  /** The setters `_update_widget_value` calls accept the value. */
  predicate WidgetAccepts(e: Editor, v: Value) {
    match e
    case CheckBox(_) => v.BoolV?
    case IntSpin(_) => v.BoolV? || v.IntV?
    case FloatSpin(_) => v.BoolV? || v.IntV? || v.FloatV?
    case _ => true
  }

  /** The text of the float a float spin box emits after `setValue(v)` left it at `y`. */
  function FloatText(v: Value, y: real): string
    requires v.BoolV? || v.IntV? || v.FloatV?
  {
    if v.FloatV? && y == v.x then v.text
    else if y == FloatLimit then "999999.0"
    else if y == -FloatLimit then "-999999.0"
    else if v.FloatV? then v.text
    else IntToStr(AsInt(v)) + ".0"
  }

  /**
   * `_update_widget_value`: the editor's new state, and the value its
   * change signal then hands to `_update_property` (none when the editor
   * did not change). Labels, colour and file pickers are not updated.
   */
  function UpdateWidget(e: Editor, v: Value): (Editor, Option<Value>)
    requires WidgetAccepts(e, v)
  {
    match e
    case CheckBox(c) => (CheckBox(v.b), if v.b != c then Some(BoolV(v.b)) else None)
    case IntSpin(x) =>
      var y := ClampInt(AsInt(v));
      (IntSpin(y), if y != x then Some(IntV(y)) else None)
    case FloatSpin(x) =>
      var y := ClampReal(AsReal(v));
      (FloatSpin(y), if y != x then Some(FloatV(y, FloatText(v, y))) else None)
    case LineEdit(t) => (LineEdit(Str(v)), if Str(v) != t then Some(StrV(Str(v))) else None)
    case Combo(items, cur) =>
      if Str(v) in items then
        var i := IndexOf(items, Str(v));
        (Combo(items, i), if cur >= |items| || items[cur] != Str(v) then Some(StrV(Str(v))) else None)
      else (e, None)
    case _ => (e, None)
  }

  /** A signal, when the update emits one, carries exactly what the editor now shows. */
  lemma UpdateWidgetShows(e: Editor, v: Value)
    requires WidgetAccepts(e, v)
    ensures UpdateWidget(e, v).1.Some? ==> Shows(UpdateWidget(e, v).0, UpdateWidget(e, v).1.value)
    ensures UpdateWidget(e, v).1.Some? <==>
              UpdateWidget(e, v).0 != e && !(e.Combo? && e.current < |e.items| && e.items[e.current] == Str(v))
  {
  }

  /** Setting the same value a second time changes nothing and emits nothing. */
  lemma UpdateWidgetTwice(e: Editor, v: Value)
    requires WidgetAccepts(e, v)
    ensures WidgetAccepts(UpdateWidget(e, v).0, v)
    ensures UpdateWidget(UpdateWidget(e, v).0, v) == (UpdateWidget(e, v).0, None)
  {
  }

  /** A value the user can put into an editor. */
  predicate Editable(e: Editor, w: Value) {
    match e
    case CheckBox(_) => w.BoolV?
    case IntSpin(_) => w.IntV? && -IntLimit <= w.i <= IntLimit
    case FloatSpin(_) => w.FloatV? && -FloatLimit <= w.x <= FloatLimit
    case LineEdit(_) => w.StrV?
    case Combo(items, _) => w.StrV? && w.s in items
    case _ => false
  }

  /** The editor after the user put `w` into it. */
  function Showing(e: Editor, w: Value): (r: Editor)
    requires Editable(e, w)
    ensures Shows(r, w)
  {
    match e
    case CheckBox(_) => CheckBox(w.b)
    case IntSpin(_) => IntSpin(w.i)
    case FloatSpin(_) => FloatSpin(w.x)
    case LineEdit(_) => LineEdit(w.s)
    case Combo(items, _) => Combo(items, IndexOf(items, w.s))
  }

  // ---------------------------------------------------------------------
  // Rows, groups and the reflected object

  datatype Row =
    | PropertyRow(name: string, editor: Editor)
    | GroupRow(id: nat, name: string, members: seq<Named<Editor>>, expanded: bool)

  /** The first top-level row with that text, or -1. */
  function RowIndex(rows: seq<Row>, name: string): (i: int)
    ensures -1 <= i < |rows|
    ensures i >= 0 ==> rows[i].name == name && forall j :: 0 <= j < i ==> rows[j].name != name
    ensures i < 0 ==> forall j :: 0 <= j < |rows| ==> rows[j].name != name
  {
    if rows == [] then -1
    else if rows[0].name == name then 0
    else var k := RowIndex(rows[1..], name); if k < 0 then -1 else k + 1
  }

  /** The top-level row of the group item `id`, or -1 when the item is not in the tree. */
  function GroupIndex(rows: seq<Row>, id: nat): (i: int)
    ensures -1 <= i < |rows|
    ensures i >= 0 ==> rows[i].GroupRow? && rows[i].id == id
    ensures i < 0 ==> forall j :: 0 <= j < |rows| ==> !(rows[j].GroupRow? && rows[j].id == id)
  {
    if rows == [] then -1
    else if rows[0].GroupRow? && rows[0].id == id then 0
    else var k := GroupIndex(rows[1..], id); if k < 0 then -1 else k + 1
  }

  /** The group items in the tree. */
  function GroupIds(rows: seq<Row>): set<nat> {
    set j | 0 <= j < |rows| && rows[j].GroupRow? :: rows[j].id
  }

  /** The ids `GroupIds` collects are exactly the group items a lookup finds. */
  lemma GroupIdsSpec(rows: seq<Row>, id: nat)
    ensures id in GroupIds(rows) <==> GroupIndex(rows, id) >= 0
  {
    if GroupIndex(rows, id) >= 0 {
      var j := GroupIndex(rows, id);
      assert rows[j].id in GroupIds(rows);
    }
  }

  /** A row added to group item `id`, which expands; nothing changes when the item is not in the tree. */
  function Joined(rows: seq<Row>, id: nat, member: Named<Editor>): (r: seq<Row>)
    ensures |r| == |rows|
  {
    var j := GroupIndex(rows, id);
    if j < 0 then rows else rows[j := rows[j].(members := rows[j].members + [member], expanded := true)]
  }

  /** Only the group's row changes: it takes the member last and expands. */
  lemma JoinedSpec(rows: seq<Row>, id: nat, member: Named<Editor>)
    ensures GroupIndex(rows, id) < 0 ==> Joined(rows, id, member) == rows
    ensures var j := GroupIndex(rows, id);
            j >= 0 ==> Joined(rows, id, member)[j] == GroupRow(id, rows[j].name, rows[j].members + [member], true)
                       && forall k :: 0 <= k < |rows| && k != j ==> Joined(rows, id, member)[k] == rows[k]
  {
  }

  datatype Variant = Plain | Grouped | Reflecting

  /** An attribute of the reflected object, as `dir()` lists it. */
  datatype Attr = Attr(name: string, value: Value, callable: bool, readable: bool, writable: bool)

  /** Whether `_reflect_object` adds the attribute: public, readable and not callable. */
  predicate Reflected(a: Attr) {
    !(|a.name| > 0 && a.name[0] == '_') && a.readable && !a.callable
  }

  /** The properties reflected from attributes `attrs`, in `dir()` order. */
  function ReflectedProps(attrs: seq<Attr>): (d: seq<Named<Value>>)
    ensures |d| <= |attrs|
  {
    if attrs == [] then []
    else
      var init := ReflectedProps(attrs[..|attrs| - 1]);
      var a := attrs[|attrs| - 1];
      if Reflected(a) then init + [Named(a.name, a.value)] else init
  }

  /** An attribute is reflected exactly when `dir()` lists it and it is public, readable and no method. */
  lemma {:induction false} ReflectedPropsSpec(attrs: seq<Attr>, n: string, v: Value)
    ensures Named(n, v) in ReflectedProps(attrs) <==>
              exists j :: 0 <= j < |attrs| && attrs[j].name == n && attrs[j].value == v && Reflected(attrs[j])
  {
    if attrs != [] {
      var init := attrs[..|attrs| - 1];
      ReflectedPropsSpec(init, n, v);
      assert forall j :: 0 <= j < |init| ==> init[j] == attrs[j];
      if Named(n, v) in ReflectedProps(attrs) && Named(n, v) !in ReflectedProps(init) {
        assert attrs[|attrs| - 1].name == n && attrs[|attrs| - 1].value == v;
      }
    }
  }

  /** `setattr` on the target after `hasattr`: a readable, writable attribute takes the value; a failing one is skipped. */
  function SetAttr(attrs: seq<Attr>, name: string, v: Value): (r: seq<Attr>)
    ensures |r| == |attrs|
    ensures forall j :: 0 <= j < |attrs| ==>
              r[j] == if attrs[j].name == name && attrs[j].readable && attrs[j].writable
                        && (forall k :: 0 <= k < j ==> attrs[k].name != name)
                      then attrs[j].(value := v) else attrs[j]
  {
    if attrs == [] then []
    else if attrs[0].name == name then
      [if attrs[0].readable && attrs[0].writable then attrs[0].(value := v) else attrs[0]] + attrs[1..]
    else [attrs[0]] + SetAttr(attrs[1..], name, v)
  }

  /** The type `add_property` records for an automatically typed value. */
  function AutoType(v: Value): PropType {
    PropType(DetectType(v), None, false)
  }

  /** The types `set_properties` records: each value's detected type, in dictionary order. */
  function AutoTypes(d: seq<Named<Value>>): (r: seq<Named<PropType>>)
    ensures |r| == |d| && forall i :: 0 <= i < |d| ==> r[i] == Named(d[i].name, AutoType(d[i].item))
  {
    seq(|d|, i requires 0 <= i < |d| => Named(d[i].name, AutoType(d[i].item)))
  }

  /** The rows `set_properties` creates: one per entry, with the editor its detected type picks. */
  function AutoRows(d: seq<Named<Value>>): (r: seq<Row>)
    ensures |r| == |d|
    ensures forall i :: 0 <= i < |d| ==>
              r[i] == PropertyRow(d[i].name, MakeEditor(DetectType(d[i].item), d[i].item, None, false))
  {
    seq(|d|, i requires 0 <= i < |d| =>
      DetectedAccepts(d[i].item);
      PropertyRow(d[i].name, MakeEditor(DetectType(d[i].item), d[i].item, None, false)))
  }

  lemma NamesPrefix<T>(d: seq<Named<T>>, i: nat)
    requires PyDict.IsDict(d) && i < |d|
    ensures d[i].name !in Names(d[..i])
  {
    var n := Names(d);
    assert Names(d[..i]) == n[..i];
    forall j | 0 <= j < i
      ensures n[..i][j] != d[i].name
    {
      assert n[i] == d[i].name;
    }
  }

  /** One more entry of `set_properties`' loop adds one type and one row. */
  lemma AutoStep(d: seq<Named<Value>>, i: nat)
    requires i < |d|
    ensures d[..i + 1] == d[..i] + [d[i]]
    ensures Names(AutoTypes(d[..i])) == Names(d[..i])
    ensures AutoTypes(d[..i + 1]) == AutoTypes(d[..i]) + [Named(d[i].name, AutoType(d[i].item))]
    ensures AutoRows(d[..i + 1]) == AutoRows(d[..i]) + [PropertyRow(d[i].name, MakeEditor(DetectType(d[i].item), d[i].item, None, false))]
  {
    assert d[..i + 1] == d[..i] + [d[i]];
    assert Names(AutoTypes(d[..i])) == Names(d[..i]);
    assert AutoTypes(d[..i + 1]) == AutoTypes(d[..i]) + [Named(d[i].name, AutoType(d[i].item))];
    assert AutoRows(d[..i + 1]) == AutoRows(d[..i]) + [PropertyRow(d[i].name, MakeEditor(DetectType(d[i].item), d[i].item, None, false))];
  }

  /** One pass of `set_properties`' loop: adding the next entry with its detected type extends all three by it. */
  lemma SetStep(d: seq<Named<Value>>, i: nat)
    requires PyDict.IsDict(d) && i < |d|
    ensures Accepts(Resolve(Auto, d[i].item), d[i].item)
    ensures PyDict.Put(d[..i], d[i].name, d[i].item) == d[..i + 1]
    ensures PyDict.Put(AutoTypes(d[..i]), d[i].name, PropType(Resolve(Auto, d[i].item), None, false)) == AutoTypes(d[..i + 1])
    ensures AutoRows(d[..i]) + [PropertyRow(d[i].name, MakeEditor(Resolve(Auto, d[i].item), d[i].item, None, false))]
            == AutoRows(d[..i + 1])
  {
    NamesPrefix(d, i);
    AutoStep(d, i);
    PyDict.PutNew(d[..i], d[i].name, d[i].item);
    PyDict.PutNew(AutoTypes(d[..i]), d[i].name, AutoType(d[i].item));
    DetectedAccepts(d[i].item);
  }

  // ---------------------------------------------------------------------
  // The widget

  /**
   * `PropertyGridWidget`, `GroupedPropertyGrid` or `ObjectPropertyGrid`:
   * the two dictionaries, the tree's top-level rows, the grouped grid's
   * group items (by name, as item ids), the ids of group items the tree
   * has deleted, and the reflected object's attributes.
   */
  class PropertyGridWidget {
    var properties: PyDict.Dict<Value>
    var types: PyDict.Dict<PropType>
    var rows: seq<Row>
    var groups: seq<Named<nat>>
    var nextGroup: nat
    var deleted: set<nat>
    var target: Option<seq<Attr>>
    const variant: Variant

    /** An empty grid of the given kind, without a target object. */
    constructor (variant: Variant)
      ensures this.variant == variant
      ensures properties == [] && types == [] && rows == [] && groups == [] && deleted == {} && target == None
    {
      this.variant := variant;
      properties, types, rows, groups := [], [], [], [];
      nextGroup, deleted, target := 0, {}, None;
    }

    /** `add_property`: both dictionaries take the name, and a row with the type's editor goes to the end of the tree. */
    method AddProperty(name: string, value: Value, ptype: Kind, options: Option<seq<Value>>, readonly: bool)
      requires (readonly || Accepts(Resolve(ptype, value), value))
      modifies this`properties, this`types, this`rows
      ensures var kind := Resolve(ptype, value);
              properties == PyDict.Put(old(properties), name, value)
              && types == PyDict.Put(old(types), name, PropType(kind, options, readonly))
              && rows == old(rows) + [PropertyRow(name, MakeEditor(kind, value, options, readonly))]
    {
      var kind := Resolve(ptype, value);
      Store(name, value, PropType(kind, options, readonly));
      rows := rows + [PropertyRow(name, MakeEditor(kind, value, options, readonly))];
    }

    /** `_update_property`: the value is stored and `property_changed` emitted; the object grid also sets the target's attribute. */
    method UpdateProperty(name: string, value: Value) returns (emitted: (string, Value))
      modifies this`properties, this`target
      ensures emitted == (name, value)
      ensures properties == PyDict.Put(old(properties), name, value)
      ensures target == if variant == Reflecting && old(target).Some? then Some(SetAttr(old(target).value, name, value))
                        else old(target)
    {
      PyDict.PutIsDict(properties, name, value);
      properties := PyDict.Put(properties, name, value);
      if variant == Reflecting && target.Some? {
        target := Some(SetAttr(target.value, name, value));
      }
      emitted := (name, value);
    }

    method GetProperty(name: string) returns (value: Option<Value>)
      ensures value == PyDict.Get(properties, name)
      ensures value.Some? <==> name in Names(properties)
    {
      value := PyDict.Get(properties, name);
    }

    /** The loop of `set_property` and `remove_property` over the top-level rows. */
    method FindRow(name: string) returns (i: int)
      ensures i == RowIndex(rows, name)
    {
      i := 0;
      while i < |rows|
        invariant 0 <= i <= |rows| && forall j :: 0 <= j < i ==> rows[j].name != name
      {
        if rows[i].name == name {
          return;
        }
        i := i + 1;
      }
      i := -1;
    }

    /**
     * `set_property`: only a present name is set. The first top-level row
     * with that text has its editor updated; when the editor changes, its
     * signal stores what the editor now shows and emits it.
     */
    method SetProperty(name: string, value: Value) returns (emitted: Option<(string, Value)>)
      requires var i := RowIndex(rows, name);
               name in Names(properties) && i >= 0 && rows[i].PropertyRow? ==> WidgetAccepts(rows[i].editor, value)
      modifies this`properties, this`rows, this`target
      ensures name !in Names(old(properties)) ==>
                properties == old(properties) && rows == old(rows) && target == old(target) && emitted == None
      ensures name in Names(old(properties)) ==>
                var i := RowIndex(old(rows), name);
                if i >= 0 && old(rows[i]).PropertyRow? then
                  var (e, signal) := UpdateWidget(old(rows[i]).editor, value);
                  rows == old(rows)[i := PropertyRow(name, e)]
                  && properties == PyDict.Put(old(properties), name, if signal.Some? then signal.value else value)
                  && emitted == (if signal.Some? then Some((name, signal.value)) else None)
                  && target == if signal.Some? && variant == Reflecting && old(target).Some?
                               then Some(SetAttr(old(target).value, name, signal.value)) else old(target)
                else properties == PyDict.Put(old(properties), name, value) && rows == old(rows)
                     && target == old(target) && emitted == None
    {
      emitted := None;
      if name !in Names(properties) {
        return;
      }
      PyDict.PutIsDict(properties, name, value);
      properties := PyDict.Put(properties, name, value);
      var i := FindRow(name);
      if i < 0 || !rows[i].PropertyRow? {
        return;
      }
      var (e, signal) := UpdateWidget(rows[i].editor, value);
      rows := rows[i := PropertyRow(name, e)];
      if signal.Some? {
        PyDict.PutPut(old(properties), name, value, signal.value);
        var sent := UpdateProperty(name, signal.value);
        emitted := Some(sent);
      }
    }

    /**
     * `remove_property`: a present name leaves both dictionaries and the
     * first top-level row with that text leaves the tree. A name with no
     * recorded type raises `KeyError` after leaving the values.
     */
    method RemoveProperty(name: string) returns (raised: bool)
      modifies this`properties, this`types, this`rows
      ensures name !in Names(old(properties)) ==>
                !raised && properties == old(properties) && types == old(types) && rows == old(rows)
      ensures name in Names(old(properties)) ==>
                properties == PyDict.Del(old(properties), name)
                && raised == (name !in Names(old(types)))
                && (raised ==> types == old(types) && rows == old(rows))
                && (!raised ==> types == PyDict.Del(old(types), name)
                                && var i := RowIndex(old(rows), name);
                                   rows == if i >= 0 then DeleteAt(old(rows), i) else old(rows))
    {
      raised := false;
      if name !in Names(properties) {
        return;
      }
      PyDict.DelIsDict(properties, name);
      properties := PyDict.Del(properties, name);
      if name !in Names(types) {
        return true;
      }
      PyDict.DelIsDict(types, name);
      types := PyDict.Del(types, name);
      var i := FindRow(name);
      if i >= 0 {
        rows := DeleteAt(rows, i);
      }
    }

    /** `clear_properties`: both dictionaries and the tree empty; the group items in the tree are deleted, though the grouped grid still records them. */
    method ClearProperties()
      modifies this`properties, this`types, this`rows, this`deleted
      ensures properties == [] && types == [] && rows == []
      ensures deleted == old(deleted) + GroupIds(old(rows))
    {
      deleted := deleted + GroupIds(rows);
      properties, types, rows := [], [], [];
    }

    /** `get_all_properties`: a copy of the values, as a mapping. */
    method GetAllProperties() returns (all: map<string, Value>)
      ensures forall k :: k in all <==> k in Names(properties)
      ensures forall k :: k in all ==> PyDict.Get(properties, k) == Some(all[k])
    {
      all := PyDict.ToMap(properties);
    }

    /** `set_properties`: everything is cleared, then each entry is added with its detected type, in order. */
    method SetProperties(d: seq<Named<Value>>)
      requires PyDict.IsDict(d)
      modifies this`properties, this`types, this`rows, this`deleted
      ensures properties == d && types == AutoTypes(d) && rows == AutoRows(d)
      ensures deleted == old(deleted) + GroupIds(old(rows))
    {
      ClearProperties();
      ghost var cleared := deleted;
      var i := 0;
      while i < |d|
        invariant 0 <= i <= |d|
        invariant properties == d[..i] && types == AutoTypes(d[..i]) && rows == AutoRows(d[..i])
        invariant deleted == cleared
      {
        SetStep(d, i);
        AddProperty(d[i].name, d[i].item, Auto, None, false);
        i := i + 1;
      }
      assert d[..i] == d;
    }

    /** `add_group`: a new group item at the end of the tree, recorded under its name (replacing an earlier one). */
    method AddGroup(groupName: string)
      requires variant == Grouped
      modifies this`rows, this`groups, this`nextGroup
      ensures nextGroup == old(nextGroup) + 1
      ensures rows == old(rows) + [GroupRow(old(nextGroup), groupName, [], false)]
      ensures groups == PyDict.Put(old(groups), groupName, old(nextGroup))
    {
      var g := PyDict.Put(groups, groupName, nextGroup);
      rows, groups, nextGroup := rows + [GroupRow(nextGroup, groupName, [], false)], g, nextGroup + 1;
    }

    /** The two assignments `add_property` and `add_property_to_group` make to the dictionaries. */
    method Store(name: string, value: Value, ptype: PropType)
      modifies this`properties, this`types
      ensures properties == PyDict.Put(old(properties), name, value) && types == PyDict.Put(old(types), name, ptype)
    {
      var p := PyDict.Put(properties, name, value);
      var t := PyDict.Put(types, name, ptype);
      PyDict.PutIsDict(properties, name, value);
      PyDict.PutIsDict(types, name, ptype);
      properties, types := p, t;
    }

    /**
     * `add_property_to_group`: an unknown group is added first; both
     * dictionaries take the property; its row joins the group item, which
     * expands. A group item the tree deleted raises `RuntimeError` instead;
     * one removed from the tree takes the row out of sight.
     */
    method AddPropertyToGroup(group: string, name: string, value: Value, ptype: Kind,
                              options: Option<seq<Value>>, readonly: bool) returns (raised: bool, ghost id: nat)
      requires variant == Grouped && (readonly || Accepts(Resolve(ptype, value), value))
      modifies this`properties, this`types, this`rows, this`groups, this`nextGroup
      ensures var kind := Resolve(ptype, value);
              properties == PyDict.Put(old(properties), name, value)
              && types == PyDict.Put(old(types), name, PropType(kind, options, readonly))
      ensures group in Names(old(groups)) ==>
                groups == old(groups) && nextGroup == old(nextGroup) && Some(id) == PyDict.Get(old(groups), group)
      ensures group !in Names(old(groups)) ==>
                groups == PyDict.Put(old(groups), group, old(nextGroup)) && id == old(nextGroup)
      ensures raised == (id in deleted)
      ensures var before := if group in Names(old(groups)) then old(rows) else old(rows) + [GroupRow(id, group, [], false)];
              rows == if raised then before else Joined(before, id, Named(name, MakeEditor(Resolve(ptype, value), value, options, readonly)))
    {
      if group !in Names(groups) {
        AddGroup(group);
      }
      var kind := Resolve(ptype, value);
      Store(name, value, PropType(kind, options, readonly));
      var gid := PyDict.Get(groups, group).value;
      id := gid;
      raised := gid in deleted;
      if !raised {
        rows := Joined(rows, gid, Named(name, MakeEditor(kind, value, options, readonly)));
      }
    }

    /** The user puts `w` into the editor of top-level row `r`: a change emits it through `_update_property`. */
    method EditRow(r: nat, w: Value) returns (emitted: Option<(string, Value)>)
      requires r < |rows| && rows[r].PropertyRow? && Editable(rows[r].editor, w)
      modifies this`properties, this`rows, this`target
      ensures Shows(old(rows[r]).editor, w) ==>
                emitted == None && properties == old(properties) && rows == old(rows) && target == old(target)
      ensures !Shows(old(rows[r]).editor, w) ==>
                var name := old(rows[r]).name;
                emitted == Some((name, w))
                && rows == old(rows)[r := PropertyRow(name, Showing(old(rows[r]).editor, w))]
                && properties == PyDict.Put(old(properties), name, w)
                && target == if variant == Reflecting && old(target).Some? then Some(SetAttr(old(target).value, name, w))
                             else old(target)
    {
      emitted := None;
      if Shows(rows[r].editor, w) {
        return;
      }
      var name := rows[r].name;
      rows := rows[r := PropertyRow(name, Showing(rows[r].editor, w))];
      var sent := UpdateProperty(name, w);
      emitted := Some(sent);
    }

    /** `_choose_color`: a valid colour from the dialog is stored and shown in the row's preview; a cancelled dialog changes nothing. */
    method ChooseColor(r: nat, picked: Option<Value>) returns (emitted: Option<(string, Value)>)
      requires r < |rows| && rows[r].PropertyRow? && rows[r].editor.ColorPicker?
      requires picked.Some? ==> picked.value.ColorV?
      modifies this`properties, this`rows, this`target
      ensures picked.None? ==> emitted == None && properties == old(properties) && rows == old(rows) && target == old(target)
      ensures picked.Some? ==>
                var name := old(rows[r]).name;
                emitted == Some((name, picked.value))
                && properties == PyDict.Put(old(properties), name, picked.value)
                && rows == old(rows)[r := PropertyRow(name, ColorPicker(picked.value.name))]
                && target == if variant == Reflecting && old(target).Some? then Some(SetAttr(old(target).value, name, picked.value))
                             else old(target)
    {
      emitted := None;
      if picked.None? {
        return;
      }
      var name := rows[r].name;
      var sent := UpdateProperty(name, picked.value);
      emitted := Some(sent);
      rows := rows[r := PropertyRow(name, ColorPicker(picked.value.name))];
    }

    /** `_browse_file`: a chosen file name is stored and shown; an empty one (a cancelled dialog) changes nothing. */
    method BrowseFile(r: nat, filename: string) returns (emitted: Option<(string, Value)>)
      requires r < |rows| && rows[r].PropertyRow? && rows[r].editor.FilePicker?
      modifies this`properties, this`rows, this`target
      ensures filename == "" ==> emitted == None && properties == old(properties) && rows == old(rows) && target == old(target)
      ensures filename != "" ==>
                var name := old(rows[r]).name;
                emitted == Some((name, StrV(filename)))
                && properties == PyDict.Put(old(properties), name, StrV(filename))
                && rows == old(rows)[r := PropertyRow(name, FilePicker(filename))]
                && target == if variant == Reflecting && old(target).Some? then Some(SetAttr(old(target).value, name, StrV(filename)))
                             else old(target)
    {
      emitted := None;
      if filename == "" {
        return;
      }
      var name := rows[r].name;
      var sent := UpdateProperty(name, StrV(filename));
      emitted := Some(sent);
      rows := rows[r := PropertyRow(name, FilePicker(filename))];
    }

    /**
     * `set_target_object` (and `ObjectPropertyGrid(target)`): the target is
     * recorded and, when there is one, the grid is cleared and refilled with
     * its public, readable, non-callable attributes in `dir()` order.
     */
    method SetTargetObject(obj: Option<seq<Attr>>)
      requires variant == Reflecting
      requires obj.Some? ==> Distinct(AttrNames(obj.value))
      modifies this`target, this`properties, this`types, this`rows, this`deleted
      ensures target == obj
      ensures obj.None? ==> properties == old(properties) && types == old(types) && rows == old(rows) && deleted == old(deleted)
      ensures obj.Some? ==>
                var d := ReflectedProps(obj.value);
                properties == d && types == AutoTypes(d) && rows == AutoRows(d)
                && deleted == old(deleted) + GroupIds(old(rows))
    {
      target := obj;
      if obj.None? {
        return;
      }
      ReflectedDistinct(obj.value);
      SetProperties(ReflectedProps(obj.value));
    }
  }

  function AttrNames(attrs: seq<Attr>): (r: seq<string>)
    ensures |r| == |attrs| && forall i :: 0 <= i < |attrs| ==> r[i] == attrs[i].name
  {
    seq(|attrs|, i requires 0 <= i < |attrs| => attrs[i].name)
  }

  /** Distinct attribute names give a dictionary of reflected properties. */
  lemma {:induction false} ReflectedDistinct(attrs: seq<Attr>)
    requires Distinct(AttrNames(attrs))
    ensures PyDict.IsDict(ReflectedProps(attrs))
    ensures forall n :: n in Names(ReflectedProps(attrs)) ==> n in AttrNames(attrs)
  {
    if attrs != [] {
      var init := attrs[..|attrs| - 1];
      var a := attrs[|attrs| - 1];
      assert AttrNames(init) == AttrNames(attrs)[..|attrs| - 1];
      ReflectedDistinct(init);
      if Reflected(a) {
        var d := ReflectedProps(init);
        NamesAppend(d, [Named(a.name, a.value)]);
        DistinctSnoc(Names(d), a.name);
      }
    }
  }
}
