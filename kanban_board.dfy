/**
 * The Kanban board: columns of cards, where a card dragged far enough
 * carries its id in a text payload, a column that receives a drop reports
 * the card and itself, and the board moves the card from the column that
 * holds it to the end of the target column. The board keeps its cards in a
 * dictionary by id, and saves and loads its columns and cards as plain
 * data.
 *
 * An id is the string it was given or, when none or an empty one was given,
 * the object's `id()`, a non-zero integer. Object identities are drawn
 * from a counter of the objects the board has made. A dictionary lookup
 * by a string never finds an integer id.
 */
module KanbanBoard {
  import opened Common
  import opened BaseCard

  datatype Id = Given(text: string) | Auto(n: nat)

  /** Python truthiness of an id. */
  predicate Truthy(id: Id) {
    match id
    case Given(s) => s != ""
    case Auto(n) => n != 0
  }

  /** `str(id)`. */
  function IdText(id: Id): string {
    match id
    case Given(s) => s
    case Auto(n) => NatToStr(n)
  }

  /** `given or id(self)`. */
  function IdOr(given: Option<Id>, identity: nat): (id: Id)
    requires identity > 0
    ensures Truthy(id)
    ensures given.Some? && Truthy(given.value) ==> id == given.value
  {
    if given.Some? && Truthy(given.value) then given.value else Auto(identity)
  }

  // ---------------------------------------------------------------------
  // Drag payloads

  const PayloadPrefix := "kanban_card:"

  /** The text a dragged card carries. */
  function Payload(id: Id): (t: string)
    ensures PayloadPrefix <= t
  {
    PayloadPrefix + IdText(id)
  }

  /** `text.split(":")[1]` for a text that starts with the prefix. */
  function DroppedId(text: string): string
    requires PayloadPrefix <= text
  {
    var rest := text[|PayloadPrefix|..];
    assert text == "kanban_card" + [':'] + rest;
    SplitOnField("kanban_card", ':', rest);
    SplitOn(text, ':')[1]
  }

  /** The id read back from a payload is the id up to its first colon, so the whole id when it has none. */
  lemma PayloadRoundTrip(id: Id)
    ensures DroppedId(Payload(id)) == SplitOn(IdText(id), ':')[0]
    ensures ':' !in IdText(id) ==> DroppedId(Payload(id)) == IdText(id)
  {
    var t := Payload(id);
    assert t[|PayloadPrefix|..] == IdText(id);
    assert t == "kanban_card" + [':'] + IdText(id);
    SplitOnField("kanban_card", ':', IdText(id));
  }

  function Abs(x: int): nat { if x < 0 then -x else x }

  /** `QPoint.manhattanLength` of the move from `a` to `b`. */
  function Manhattan(a: (int, int), b: (int, int)): nat {
    Abs(b.0 - a.0) + Abs(b.1 - a.1)
  }

  const DragDistance := 10

  datatype CardData = CardData(id: Id, title: string, description: string)

  datatype ColumnData = ColumnData(id: Id, title: string, cards: seq<CardData>)

  class KanbanCard {
    const base: Card
    const cardId: Id
    var title: string
    var description: string
    /** The title and description labels exist when the texts were non-empty at construction. */
    const hasTitleLabel: bool
    const hasDescLabel: bool
    var titleLabel: string
    var descLabel: string
    var dragStart: Option<(int, int)>

    constructor (title0: string, description0: string, cardId0: Option<Id>, identity: nat)
      requires identity > 0
      ensures fresh(base)
      ensures cardId == IdOr(cardId0, identity) && title == title0 && description == description0
      ensures hasTitleLabel == (title0 != "") && hasDescLabel == (description0 != "")
      ensures titleLabel == title0 && descLabel == description0 && dragStart == None
    {
      base := new Card();
      cardId := IdOr(cardId0, identity);
      title, description := title0, description0;
      hasTitleLabel, hasDescLabel := title0 != "", description0 != "";
      titleLabel, descLabel := title0, description0;
      dragStart := None;
      new;
      base.SetBody("content");
    }

    /** A left press remembers where a drag may start; every press then reaches the base card. */
    method MousePress(left: bool, x: int, y: int) returns (clicked: bool)
      modifies this`dragStart, base`selected
      ensures dragStart == if left then Some((x, y)) else old(dragStart)
      ensures clicked == left
      ensures base.selected == if left && base.selectable then !old(base.selected) else old(base.selected)
    {
      if left {
        dragStart := Some((x, y));
      }
      clicked := base.MousePress(left);
    }

    /** A move with only the left button held, at least 10 away from the press, starts a drag of the payload. */
    method MouseMove(leftOnly: bool, x: int, y: int) returns (drag: Option<string>)
      ensures drag.Some? <==> leftOnly && dragStart.Some? && Manhattan(dragStart.value, (x, y)) >= DragDistance
      ensures drag.Some? ==> drag.value == Payload(cardId)
    {
      drag := None;
      if leftOnly && dragStart.Some? {
        var distance := Manhattan(dragStart.value, (x, y));
        if distance >= DragDistance {
          drag := Some(Payload(cardId));
        }
      }
    }

    method SetTitle(t: string)
      modifies this`title, this`titleLabel
      ensures title == t && titleLabel == if hasTitleLabel then t else old(titleLabel)
    {
      title := t;
      if hasTitleLabel {
        titleLabel := t;
      }
    }

    method SetDescription(d: string)
      modifies this`description, this`descLabel
      ensures description == d && descLabel == if hasDescLabel then d else old(descLabel)
    {
      description := d;
      if hasDescLabel {
        descLabel := d;
      }
    }

    function GetData(): (d: CardData)
      reads this
      ensures d.id == cardId && d.title == title && d.description == description
    {
      CardData(cardId, title, description)
    }
  }

  // ---------------------------------------------------------------------
  // Cards in a column, found by id

  /** The position of the first card with id `id`, or the length when there is none. */
  function FindId(cs: seq<KanbanCard>, id: Id): (i: nat)
    ensures i <= |cs|
    ensures forall k :: 0 <= k < i ==> cs[k].cardId != id
    ensures i < |cs| ==> cs[i].cardId == id
  {
    if cs == [] then 0 else if cs[0].cardId == id then 0 else 1 + FindId(cs[1..], id)
  }

  /** The cards without the first one whose id is `id`. */
  function RemoveWith(cs: seq<KanbanCard>, id: Id): seq<KanbanCard> {
    var i := FindId(cs, id);
    if i < |cs| then DeleteAt(cs, i) else cs
  }

  /** Removal takes out exactly one card, the first with the id, when there is one, and nothing otherwise. */
  lemma RemoveWithSpec(cs: seq<KanbanCard>, id: Id)
    ensures (exists k :: 0 <= k < |cs| && cs[k].cardId == id) ==>
              |RemoveWith(cs, id)| == |cs| - 1
              && multiset(RemoveWith(cs, id)) + multiset{cs[FindId(cs, id)]} == multiset(cs)
    ensures (forall k :: 0 <= k < |cs| ==> cs[k].cardId != id) ==> RemoveWith(cs, id) == cs
  {
    var i := FindId(cs, id);
    if i < |cs| {
      MultisetDeleteAt(cs, i);
    }
  }

  class KanbanColumn {
    const columnId: Id
    var title: string
    var cards: seq<KanbanCard>

    /** The count label always shows the number of cards. */
    function CountText(): string
      reads this
    {
      NatToStr(|cards|)
    }

    constructor (title0: string, columnId0: Option<Id>, identity: nat)
      requires identity > 0
      ensures columnId == IdOr(columnId0, identity) && title == title0 && cards == []
    {
      columnId := IdOr(columnId0, identity);
      title := title0;
      cards := [];
    }

    /** `dragEnterEvent` and `dragMoveEvent`: only card payloads are accepted. */
    predicate AcceptsDrag(text: string) {
      PayloadPrefix <= text
    }

    /** `dropEvent`: a card payload emits `card_dropped` with the card id and this column's id. */
    method DropEvent(text: string) returns (cardDropped: Option<(string, string)>)
      ensures AcceptsDrag(text) <==> cardDropped.Some?
      ensures cardDropped.Some? ==> cardDropped.value == (DroppedId(text), IdText(columnId))
    {
      cardDropped := None;
      if PayloadPrefix <= text {
        cardDropped := Some((DroppedId(text), IdText(columnId)));
      }
    }

    method AddCard(card: KanbanCard)
      modifies this`cards
      ensures cards == old(cards) + [card]
    {
      cards := cards + [card];
    }

    /** `remove_card`: the first card with that id leaves the column. */
    method RemoveCard(cardId: string)
      modifies this`cards
      ensures cards == RemoveWith(old(cards), Given(cardId))
    {
      var i := 0;
      while i < |cards|
        invariant 0 <= i <= |cards| && cards == old(cards)
        invariant forall k :: 0 <= k < i ==> cards[k].cardId != Given(cardId)
      {
        if cards[i].cardId == Given(cardId) {
          cards := DeleteAt(cards, i);
          return;
        }
        i := i + 1;
      }
    }

    /** `get_card`: the first card with that id, or none. */
    method GetCard(cardId: string) returns (card: KanbanCard?)
      ensures var i := FindId(cards, Given(cardId)); card == if i < |cards| then cards[i] else null
    {
      var i := 0;
      while i < |cards|
        invariant 0 <= i <= |cards|
        invariant forall k :: 0 <= k < i ==> cards[k].cardId != Given(cardId)
      {
        if cards[i].cardId == Given(cardId) {
          return cards[i];
        }
        i := i + 1;
      }
      return null;
    }

    /** The "+" button asks for a placeholder card. */
    method AddNewCard() returns (cardAdded: (string, string))
      ensures cardAdded == ("New Card", "Click to edit...")
    {
      cardAdded := ("New Card", "Click to edit...");
    }

    method GetCards() returns (cs: seq<KanbanCard>)
      ensures cs == cards
    {
      cs := cards;
    }

    method SetTitle(t: string)
      modifies this`title
      ensures title == t
    {
      title := t;
    }
  }

  // ---------------------------------------------------------------------
  // The board

  /** The position of the first column whose id reads `text`, or the length when there is none. */
  function ColumnIndex(cols: seq<KanbanColumn>, text: string): (i: nat)
    ensures i <= |cols|
    ensures forall k :: 0 <= k < i ==> IdText(cols[k].columnId) != text
    ensures i < |cols| ==> IdText(cols[i].columnId) == text
  {
    if cols == [] then 0 else if IdText(cols[0].columnId) == text then 0 else 1 + ColumnIndex(cols[1..], text)
  }

  /** The cards of each column, column by column. */
  type Decks = seq<seq<KanbanCard>>

  /** The position of the first column holding a card with id `id`, or the length when there is none. */
  function HolderIndex(d: Decks, id: Id): (i: nat)
    ensures i <= |d|
    ensures forall k :: 0 <= k < i ==> FindId(d[k], id) == |d[k]|
    ensures i < |d| ==> FindId(d[i], id) < |d[i]|
  {
    if d == [] then 0
    else if FindId(d[0], id) < |d[0]| then 0
    else 1 + HolderIndex(d[1..], id)
  }

  /** Some column holds a card with id `id`. */
  predicate HeldIn(d: Decks, id: Id) {
    d != [] && (FindId(d[0], id) < |d[0]| || HeldIn(d[1..], id))
  }

  /** An id is held exactly when some column holds it, the first such column being where the search stops. */
  lemma {:induction false} HeldInHolder(d: Decks, id: Id)
    ensures HeldIn(d, id) <==> HolderIndex(d, id) < |d|
  {
    if d != [] {
      HeldInHolder(d[1..], id);
    }
  }

  /** A column holding the id makes it held. */
  lemma HeldInAt(d: Decks, i: nat, id: Id)
    requires i < |d| && FindId(d[i], id) < |d[i]|
    ensures HeldIn(d, id)
  {
    HeldInHolder(d, id);
  }

  /** Every card filed under an id carries that id and lies in some column. */
  predicate Filed(m: map<Id, KanbanCard>, d: Decks) {
    forall id :: id in m ==> m[id].cardId == id && HeldIn(d, id)
  }

  /** The number of cards in all the columns. */
  function Total(d: Decks): nat {
    if d == [] then 0 else |d[0]| + Total(d[1..])
  }

  /** Replacing one column's cards changes the total by the difference in length. */
  lemma {:induction false} TotalUpdate(d: Decks, i: nat, s: seq<KanbanCard>)
    requires i < |d|
    ensures Total(d[i := s]) == Total(d) - |d[i]| + |s|
  {
    if i > 0 {
      TotalUpdate(d[1..], i - 1, s);
      assert d[i := s][1..] == d[1..][i - 1 := s];
    }
  }

  /** A new empty column files nothing new and loses nothing. */
  lemma FiledAddColumn(m: map<Id, KanbanCard>, d: Decks)
    requires Filed(m, d)
    ensures Filed(m, d + [[]])
  {
    forall id | id in m
      ensures HeldIn(d + [[]], id)
    {
      HeldInHolder(d, id);
      var h := HolderIndex(d, id);
      assert (d + [[]])[h] == d[h];
      HeldInAt(d + [[]], h, id);
    }
  }

  /** A card appended to column `c` and filed under its id keeps every filed id held. */
  lemma FiledAddCard(m: map<Id, KanbanCard>, d: Decks, c: nat, card: KanbanCard)
    requires Filed(m, d) && c < |d|
    ensures Filed(m[card.cardId := card], d[c := d[c] + [card]])
  {
    var d' := d[c := d[c] + [card]];
    forall id | id in m[card.cardId := card]
      ensures HeldIn(d', id)
    {
      if id == card.cardId {
        assert d'[c][|d'[c]| - 1].cardId == id;
        HeldInAt(d', c, id);
      } else {
        HeldInHolder(d, id);
        var h := HolderIndex(d, id);
        var k := FindId(d[h], id);
        assert d'[h][k] == d[h][k];
        HeldInAt(d', h, id);
      }
    }
  }

  /**
   * Moving the card filed under `id` out of column `f`, whose first card
   * with that id leaves, to the end of column `t` keeps every filed id held
   * and the number of cards.
   */
  lemma FiledMove(m: map<Id, KanbanCard>, d: Decks, f: nat, t: nat, id: Id)
    requires Filed(m, d) && id in m && f < |d| && t < |d| && f != t
    requires FindId(d[f], id) < |d[f]|
    ensures var d' := d[f := RemoveWith(d[f], id)][t := d[t] + [m[id]]];
            Filed(m, d') && Total(d') == Total(d)
  {
    var d' := d[f := RemoveWith(d[f], id)][t := d[t] + [m[id]]];
    TotalUpdate(d, f, RemoveWith(d[f], id));
    TotalUpdate(d[f := RemoveWith(d[f], id)], t, d[t] + [m[id]]);
    forall k | k in m
      ensures HeldIn(d', k)
    {
      FiledMoveHeld(m, d, f, t, id, k);
    }
  }

  /** After that move, one filed id is still held. */
  lemma FiledMoveHeld(m: map<Id, KanbanCard>, d: Decks, f: nat, t: nat, id: Id, k: Id)
    requires Filed(m, d) && id in m && f < |d| && t < |d| && f != t
    requires FindId(d[f], id) < |d[f]| && k in m
    ensures HeldIn(d[f := RemoveWith(d[f], id)][t := d[t] + [m[id]]], k)
  {
    var r := FindId(d[f], id);
    var d': Decks := d[f := RemoveWith(d[f], id)][t := d[t] + [m[id]]];
    if k == id {
      assert d'[t][|d'[t]| - 1].cardId == k;
      HeldInAt(d', t, k);
    } else {
      HeldInHolder(d, k);
      var h := HolderIndex(d, k);
      var j := FindId(d[h], k);
      if h == f {
        if j < r {
          assert d'[f][j] == d[f][j];
        } else {
          assert d'[f][j - 1] == d[f][j];
        }
      } else {
        assert d'[h][j] == d[h][j];
      }
      HeldInAt(d', h, k);
    }
  }

  /** The ids of the cards in a column. */
  function IdsOf(cs: seq<KanbanCard>): set<Id> {
    set k | k in cs :: k.cardId
  }

  /** Dropping column `c` and unfiling the ids of its cards keeps every remaining filed id held. */
  lemma FiledRemoveColumn(m: map<Id, KanbanCard>, d: Decks, c: nat)
    requires Filed(m, d) && c < |d|
    ensures Filed(m - IdsOf(d[c]), DeleteAt(d, c))
  {
    var d' := DeleteAt(d, c);
    forall id | id in m - IdsOf(d[c])
      ensures HeldIn(d', id)
    {
      HeldInHolder(d, id);
      var h := HolderIndex(d, id);
      var j := FindId(d[h], id);
      if h == c {
        assert false;
      }
      var h' := if h < c then h else h - 1;
      assert d'[h'] == d[h];
      HeldInAt(d', h', id);
    }
  }

  /** The id texts of columns. */
  function ColumnTexts(cols: seq<KanbanColumn>): (r: seq<string>)
    ensures |r| == |cols| && forall i :: 0 <= i < |cols| ==> r[i] == IdText(cols[i].columnId)
  {
    seq(|cols|, i requires 0 <= i < |cols| => IdText(cols[i].columnId))
  }

  /** Deleting a column deletes its id text. */
  lemma ColumnTextsDeleteAt(cols: seq<KanbanColumn>, c: nat)
    requires c < |cols|
    ensures ColumnTexts(DeleteAt(cols, c)) == DeleteAt(ColumnTexts(cols), c)
  {
  }

  /** The last column is the first whose id reads `text` when no earlier one does. */
  /** A new last deck that then receives `made` holds exactly `made`, and the decks before it are unchanged. */
  lemma DecksAfterLoad(d0: Decks, made: seq<KanbanCard>)
    ensures var d := (d0 + [[]])[|d0| := (d0 + [[]])[|d0|] + made];
      d[..|d0|] == d0 && d[|d0|] == made
  {
    var d := (d0 + [[]])[|d0| := (d0 + [[]])[|d0|] + made];
    assert (d0 + [[]])[|d0|] + made == made;
    assert d[..|d0|] == d0;
  }

  /** A column appended after columns none of whose ids read `text`, with an id that does, is the one `text` finds. */
  lemma ColumnIndexAppended(cols: seq<KanbanColumn>, column: KanbanColumn, text: string)
    requires IdText(column.columnId) == text && text !in ColumnTexts(cols)
    ensures ColumnIndex(cols + [column], text) == |cols|
  {
    assert (cols + [column])[..|cols|] == cols;
    ColumnIndexLast(cols + [column], text);
  }

  lemma ColumnIndexLast(cols: seq<KanbanColumn>, text: string)
    requires cols != [] && IdText(cols[|cols| - 1].columnId) == text
    requires text !in ColumnTexts(cols[..|cols| - 1])
    ensures ColumnIndex(cols, text) == |cols| - 1
  {
  }

  /** Deleting one element takes exactly that element out of the multiset. */
  lemma MultisetDeleteAt<T>(s: seq<T>, i: nat)
    requires i < |s|
    ensures multiset(DeleteAt(s, i)) == multiset(s) - multiset{s[i]}
  {
    assert s == s[..i] + [s[i]] + s[i + 1..];
  }

  function ColumnDataOf(c: KanbanColumn): ColumnData
    reads c, set k | k in c.cards
  {
    ColumnData(c.columnId, c.title, seq(|c.cards|, j reads c, set k | k in c.cards requires 0 <= j < |c.cards| => c.cards[j].GetData()))
  }

  // ---------------------------------------------------------------------
  // Loading saved boards

  /** A card as the loader reads it: the id and the description may be missing. */
  datatype CardInput = CardInput(id: Option<Id>, title: string, description: Option<string>)

  datatype ColumnInput = ColumnInput(id: Id, title: string, cards: seq<CardInput>)

  /** The input a saved card reads back as. */
  function SavedCard(c: CardData): (r: CardInput)
    ensures r.id == Some(c.id) && r.title == c.title && r.description == Some(c.description)
  {
    CardInput(Some(c.id), c.title, Some(c.description))
  }

  function Saved(d: seq<ColumnData>): (r: seq<ColumnInput>)
    ensures |r| == |d|
    ensures forall i :: 0 <= i < |d| ==> r[i].id == d[i].id && r[i].title == d[i].title && |r[i].cards| == |d[i].cards|
    ensures forall i, j :: 0 <= i < |d| && 0 <= j < |d[i].cards| ==> r[i].cards[j] == SavedCard(d[i].cards[j])
  {
    seq(|d|, i requires 0 <= i < |d| =>
      ColumnInput(d[i].id, d[i].title, seq(|d[i].cards|, j requires 0 <= j < |d[i].cards| => SavedCard(d[i].cards[j]))))
  }

  /** Every card comes with a truthy id. */
  predicate IdsGiven(cs: seq<CardInput>) {
    forall j :: 0 <= j < |cs| ==> cs[j].id.Some? && Truthy(cs[j].id.value)
  }

  predicate CardIdsGiven(cd: ColumnInput) {
    IdsGiven(cd.cards)
  }

  /** Every id is truthy and no two columns have ids that read the same. */
  predicate Plain(d: seq<ColumnInput>) {
    (forall i :: 0 <= i < |d| ==> Truthy(d[i].id) && CardIdsGiven(d[i]))
    && forall i, j :: 0 <= i < j < |d| ==> IdText(d[i].id) != IdText(d[j].id)
  }

  /** The card a loaded card's data reads back as: a missing description is empty. */
  function RestoredCard(c: CardInput): (r: CardData)
    requires c.id.Some?
    ensures r.id == c.id.value && r.title == c.title
    ensures r.description == if c.description.Some? then c.description.value else ""
  {
    CardData(c.id.value, c.title, if c.description.Some? then c.description.value else "")
  }

  function RestoredCards(cs: seq<CardInput>): (r: seq<CardData>)
    requires IdsGiven(cs)
    ensures |r| == |cs| && forall j :: 0 <= j < |cs| ==> r[j] == RestoredCard(cs[j])
  {
    seq(|cs|, j requires 0 <= j < |cs| => RestoredCard(cs[j]))
  }

  function RestoredColumn(cd: ColumnInput): (r: ColumnData)
    requires CardIdsGiven(cd)
    ensures r.id == cd.id && r.title == cd.title && r.cards == RestoredCards(cd.cards)
  {
    ColumnData(cd.id, cd.title, RestoredCards(cd.cards))
  }

  /** The board data a plain input loads as. */
  function Restored(d: seq<ColumnInput>): (r: seq<ColumnData>)
    requires Plain(d)
    ensures |r| == |d| && forall i :: 0 <= i < |d| ==> r[i] == RestoredColumn(d[i])
  {
    seq(|d|, i requires 0 <= i < |d| => RestoredColumn(d[i]))
  }

  /** Saved data loads back as itself when its ids are truthy and its column ids read differently. */
  lemma SaveRestore(d: seq<ColumnData>)
    requires forall i, j :: 0 <= i < |d| && 0 <= j < |d[i].cards| ==> Truthy(d[i].cards[j].id)
    requires forall i :: 0 <= i < |d| ==> Truthy(d[i].id)
    requires forall i, j :: 0 <= i < j < |d| ==> IdText(d[i].id) != IdText(d[j].id)
    ensures Plain(Saved(d)) && Restored(Saved(d)) == d
  {
    var s := Saved(d);
    forall i | 0 <= i < |d|
      ensures CardIdsGiven(s[i]) && RestoredColumn(s[i]) == d[i]
    {
      assert RestoredColumn(s[i]).cards == d[i].cards;
    }
  }

  /** The cards carry, in order, the data the inputs load as. */
  /** The cards made so far carry the data of the first inputs, in order. */
  ghost predicate MadeFrom(made: seq<KanbanCard>, cs: seq<CardInput>)
    reads set k | k in made
  {
    IdsGiven(cs) && |made| <= |cs|
    && forall k :: 0 <= k < |made| ==> CardData(made[k].cardId, made[k].title, made[k].description) == RestoredCard(cs[k])
  }

  ghost predicate Shows(d: seq<KanbanCard>, cs: seq<CardInput>)
    reads set k | k in d
  {
    IdsGiven(cs) && |d| == |cs| && forall j :: 0 <= j < |d| ==> d[j].GetData() == RestoredCard(cs[j])
  }

  /** A column showing a saved column's id, title and cards reads back as that column restored. */
  lemma ShowsData(c: KanbanColumn, cd: ColumnInput)
    requires c.columnId == cd.id && c.title == cd.title && Shows(c.cards, cd.cards)
    ensures ColumnDataOf(c) == RestoredColumn(cd)
  {
  }

  class KanbanBoardWidget {
    var columns: seq<KanbanColumn>
    var cardsById: map<Id, KanbanCard>
    /** The next object identity, standing for `id()` of the next object made. */
    var nextIdentity: nat
    /** The cards of each column, as the columns hold them. */
    ghost var decks: Decks

    /**
     * Columns are distinct objects whose cards `decks` records; the
     * dictionary files each card under its own id and only names cards that
     * are on the board.
     */
    ghost predicate Valid()
      reads this, columns
    {
      nextIdentity > 0
      && Distinct(columns)
      && |decks| == |columns|
      && (forall i :: 0 <= i < |columns| ==> columns[i].cards == decks[i])
      && Filed(cardsById, decks)
    }

    constructor ()
      ensures Valid() && columns == [] && cardsById == map[] && nextIdentity == 1
    {
      columns, cardsById, nextIdentity := [], map[], 1;
      decks := [];
    }

    /** The loop of `_find_column`: where the first column whose id reads the same as `columnId` stands. */
    method FindColumnAt(columnId: string) returns (i: nat)
      ensures i == ColumnIndex(columns, columnId)
    {
      i := 0;
      while i < |columns|
        invariant 0 <= i <= |columns|
        invariant forall k :: 0 <= k < i ==> IdText(columns[k].columnId) != columnId
      {
        if IdText(columns[i].columnId) == columnId {
          return;
        }
        i := i + 1;
      }
    }

    /** `_find_column`: the first column whose id reads the same as `columnId`, or none. */
    method FindColumn(columnId: string) returns (column: KanbanColumn?)
      ensures var i := ColumnIndex(columns, columnId); column == if i < |columns| then columns[i] else null
    {
      var i := FindColumnAt(columnId);
      column := if i < |columns| then columns[i] else null;
    }

    /** `add_column`: a new empty column at the end. */
    method AddColumn(title: string, columnId: Option<Id>) returns (column: KanbanColumn)
      requires Valid()
      modifies this`columns, this`nextIdentity, this`decks
      ensures Valid() && fresh(column)
      ensures columns == old(columns) + [column] && cardsById == old(cardsById) && decks == old(decks) + [[]]
      ensures column.title == title && column.columnId == IdOr(columnId, old(nextIdentity))
      ensures BoardData() == old(BoardData()) + [ColumnData(column.columnId, title, [])]
    {
      ghost var b := BoardData();
      column := new KanbanColumn(title, columnId, nextIdentity);
      nextIdentity := nextIdentity + 1;
      columns := columns + [column];
      decks := decks + [[]];
      FiledAddColumn(cardsById, old(decks));
      assert ColumnDataOf(column) == ColumnData(column.columnId, title, []);
      assert BoardData() == b + [ColumnDataOf(column)];
    }

    /**
     * `add_card`: a column id no column reads as gives no card and changes
     * nothing; otherwise a new card goes to the end of the first such
     * column and is filed under its id, replacing any card filed there.
     */
    method AddCard(columnId: string, title: string, description: string, cardId: Option<Id>) returns (card: KanbanCard?)
      requires Valid()
      modifies this`cardsById, this`nextIdentity, this`decks, columns`cards
      ensures Valid() && columns == old(columns)
      ensures var c := ColumnIndex(columns, columnId);
              (card == null <==> c == |columns|)
              && (card == null ==> cardsById == old(cardsById) && decks == old(decks))
              && (card != null ==>
                    fresh(card) && card.cardId == IdOr(cardId, old(nextIdentity))
                    && card.title == title && card.description == description
                    && cardsById == old(cardsById)[card.cardId := card]
                    && decks == old(decks)[c := old(decks)[c] + [card]])
    {
      var c := FindColumnAt(columnId);
      if c == |columns| {
        return null;
      }
      var made := new KanbanCard(title, description, cardId, nextIdentity);
      nextIdentity := nextIdentity + 1;
      FileCard(c, made);
      card := made;
    }

    /** The card is filed under its id and appended to column `c`. */
    method FileCard(c: nat, card: KanbanCard)
      requires Valid() && c < |columns|
      modifies this`cardsById, this`decks, {columns[c]}`cards
      ensures Valid()
      ensures cardsById == old(cardsById)[card.cardId := card]
      ensures decks == old(decks)[c := old(decks)[c] + [card]]
    {
      cardsById := cardsById[card.cardId := card];
      columns[c].AddCard(card);
      decks := decks[c := decks[c] + [card]];
      FiledAddCard(old(cardsById), old(decks), c, card);
    }

    /** The loop of `_handle_card_drop` over the columns: where the first column holding a card with the id stands. */
    method FindHolder(cardId: string) returns (i: nat)
      requires Valid()
      ensures i == HolderIndex(decks, Given(cardId))
    {
      i := 0;
      while i < |columns|
        invariant 0 <= i <= |columns|
        invariant forall k :: 0 <= k < i ==> FindId(decks[k], Given(cardId)) == |decks[k]|
      {
        var c := columns[i].GetCard(cardId);
        if c != null {
          return;
        }
        i := i + 1;
      }
    }

    /**
     * `_handle_card_drop`: a card filed under the id, held by some column,
     * dropped on another existing column, leaves the first column that
     * holds a card with that id and goes to the end of the target, and
     * `card_moved` is emitted. In every other case nothing changes. The
     * number of cards on the board stays the same either way.
     */
    method HandleCardDrop(cardId: string, toColumnId: string) returns (cardMoved: Option<(string, string, string)>)
      requires Valid()
      modifies columns, this`decks
      ensures Valid() && columns == old(columns) && cardsById == old(cardsById)
      ensures Total(decks) == Total(old(decks))
      ensures var id := Given(cardId);
              var d := old(decks);
              var f := HolderIndex(d, id);
              var t := ColumnIndex(columns, toColumnId);
              (cardMoved.Some? <==> id in cardsById && f < |d| && t < |d| && f != t)
              && (cardMoved.Some? ==>
                    cardMoved.value == (cardId, IdText(columns[f].columnId), toColumnId)
                    && decks == d[f := RemoveWith(d[f], id)][t := d[t] + [cardsById[id]]])
              && (cardMoved.None? ==> decks == d)
    {
      var f, t, moves := DropRoute(cardId, toColumnId);
      if moves {
        MoveBetween(f, t, cardId);
        cardMoved := Some((cardId, IdText(columns[f].columnId), toColumnId));
      } else {
        cardMoved := None;
      }
    }

    /**
     * The checks of `_handle_card_drop`, in its order: the id must be filed,
     * some column must hold a card with it, the target column must exist
     * and must not be the column the card comes from.
     */
    method DropRoute(cardId: string, toColumnId: string) returns (f: nat, t: nat, moves: bool)
      requires Valid()
      ensures f == HolderIndex(decks, Given(cardId)) && t == ColumnIndex(columns, toColumnId)
      ensures moves <==> Given(cardId) in cardsById && f < |columns| && t < |columns| && f != t
      ensures moves ==> FindId(decks[f], Given(cardId)) < |decks[f]|
    {
      f := FindHolder(cardId);
      t := FindColumnAt(toColumnId);
      if Given(cardId) !in cardsById || f == |columns| {
        moves := false;
      } else {
        moves := t < |columns| && columns[t] != columns[f];
      }
    }

    /** The move itself: the first card with the id leaves column `f`, the card filed under it joins the end of column `t`. */
    method MoveBetween(f: nat, t: nat, cardId: string)
      requires Valid() && f < |columns| && t < |columns| && f != t && Given(cardId) in cardsById
      requires FindId(decks[f], Given(cardId)) < |decks[f]|
      modifies columns[f], columns[t], this`decks
      ensures Valid() && Total(decks) == Total(old(decks))
      ensures var d := old(decks);
              decks == d[f := RemoveWith(d[f], Given(cardId))][t := d[t] + [cardsById[Given(cardId)]]]
    {
      columns[f].RemoveCard(cardId);
      columns[t].AddCard(cardsById[Given(cardId)]);
      decks := decks[f := RemoveWith(decks[f], Given(cardId))][t := decks[t] + [cardsById[Given(cardId)]]];
      FiledMove(cardsById, old(decks), f, t, Given(cardId));
    }

    /**
     * `_handle_card_creation` as written, reached through `add_column`'s
     * lambda with the column's own id: `card_created` is declared
     * `(str, dict)`, so the id `id(self)` of a column made without one, an
     * int, makes the emit raise `TypeError`; a given id is re-emitted with
     * the request.
     */
    method HandleCardCreation(columnId: Id, cardData: (string, string))
      returns (cardCreated: Option<(string, (string, string))>, typeError: bool)
      ensures typeError <==> columnId.Auto?
      ensures columnId.Given? ==> cardCreated == Some((columnId.text, cardData))
      ensures columnId.Auto? ==> cardCreated == None
    {
      match columnId
      case Given(s) =>
        cardCreated, typeError := Some((s, cardData)), false;
      case Auto(_) =>
        cardCreated, typeError := None, true;
    }

    /**
     * `_handle_card_creation` as intended: the column id is passed on as
     * text, as `card_dropped` already does, whichever kind of id it is.
     */
    method HandleCardCreationIntended(columnId: Id, cardData: (string, string))
      returns (cardCreated: (string, (string, string)))
      ensures cardCreated == (IdText(columnId), cardData)
      ensures columnId.Given? ==> cardCreated.0 == columnId.text
    {
      cardCreated := (IdText(columnId), cardData);
    }

    /** `_add_new_column`: a column titled "Column n+1" after n columns, announced with its title. */
    method AddNewColumn() returns (columnAdded: string)
      requires Valid()
      modifies this`columns, this`nextIdentity, this`decks
      ensures Valid() && cardsById == old(cardsById)
      ensures columnAdded == "Column " + NatToStr(|old(columns)| + 1)
      ensures |columns| == |old(columns)| + 1 && columns[..|old(columns)|] == old(columns)
      ensures columns[|old(columns)|].title == columnAdded && decks == old(decks) + [[]]
    {
      columnAdded := "Column " + NatToStr(|columns| + 1);
      var _ := AddColumn(columnAdded, None);
    }

    /**
     * `remove_column`: the first column whose id reads as `columnId` leaves
     * the board, and the ids of its cards leave the dictionary; an unknown
     * id changes nothing.
     */
    method RemoveColumn(columnId: string)
      requires Valid()
      modifies this`columns, this`cardsById, this`decks
      ensures Valid()
      ensures var c := ColumnIndex(old(columns), columnId);
              if c < |old(columns)| then
                columns == DeleteAt(old(columns), c) && decks == DeleteAt(old(decks), c)
                && cardsById == old(cardsById) - IdsOf(old(decks)[c])
              else columns == old(columns) && decks == old(decks) && cardsById == old(cardsById)
    {
      var c := FindColumnAt(columnId);
      if c == |columns| {
        return;
      }
      var cs := columns[c].GetCards();
      UnfileCards(cs);
      columns := DeleteAt(columns, c);
      decks := DeleteAt(decks, c);
      FiledRemoveColumn(old(cardsById), old(decks), c);
    }

    /** The loop of `remove_column` over the column's cards: each id still filed is unfiled. */
    method UnfileCards(cs: seq<KanbanCard>)
      modifies this`cardsById
      ensures cardsById == old(cardsById) - IdsOf(cs)
    {
      var i := 0;
      while i < |cs|
        invariant 0 <= i <= |cs|
        invariant cardsById == old(cardsById) - IdsOf(cs[..i])
      {
        assert cs[..i + 1] == cs[..i] + [cs[i]];
        if cs[i].cardId in cardsById {
          cardsById := cardsById - {cs[i].cardId};
        }
        i := i + 1;
      }
      assert cs[..i] == cs;
    }

    /** The first loop of `load_board_data`: every column is removed by its id, so the board ends empty. */
    method ClearBoard()
      requires Valid()
      modifies this`columns, this`cardsById, this`decks
      ensures Valid() && columns == [] && cardsById == map[]
    {
      var snapshot := columns;
      var i := 0;
      while i < |snapshot|
        invariant 0 <= i <= |snapshot| && Valid()
        invariant multiset(ColumnTexts(columns)) == multiset(ColumnTexts(snapshot[i..]))
      {
        ghost var before := columns;
        var text := IdText(snapshot[i].columnId);
        assert ColumnTexts(snapshot[i..]) == [text] + ColumnTexts(snapshot[i + 1..]);
        assert text in multiset(ColumnTexts(snapshot[i..]));
        assert text in ColumnTexts(before);
        ghost var c := ColumnIndex(before, text);
        assert c < |before|;
        RemoveColumn(text);
        ColumnTextsDeleteAt(before, c);
        MultisetDeleteAt(ColumnTexts(before), c);
        i := i + 1;
      }
      assert |ColumnTexts(columns)| == |multiset(ColumnTexts(columns))| == 0;
    }

    /**
     * `load_board_data`: the board is cleared, then each saved column is
     * added with its title and id and its cards in order. When every id is
     * truthy and the column ids read differently, the board's data is
     * exactly the input's.
     */
    method LoadBoardData(data: seq<ColumnInput>)
      requires Valid()
      modifies this`columns, this`cardsById, this`nextIdentity, this`decks, columns`cards
      ensures Valid() && |columns| == |data|
      ensures forall i :: 0 <= i < |data| ==> fresh(columns[i]) && columns[i].title == data[i].title
      ensures forall i :: 0 <= i < |data| && Truthy(data[i].id) ==> columns[i].columnId == data[i].id
      ensures Plain(data) ==> BoardData() == Restored(data)
    {
      ClearBoard();
      var i := 0;
      while i < |data|
        invariant Valid() && 0 <= i <= |data| && |columns| == i
        invariant forall k :: 0 <= k < i ==> fresh(columns[k]) && columns[k].title == data[k].title
        invariant forall k :: 0 <= k < i && Truthy(data[k].id) ==> columns[k].columnId == data[k].id
        invariant Plain(data) ==> forall k :: 0 <= k < i ==> Shows(decks[k], data[k].cards)
      {
        if Plain(data) {
          assert forall k :: 0 <= k < i ==> ColumnTexts(columns)[k] != IdText(data[i].id);
        }
        LoadColumn(data[i]);
        i := i + 1;
      }
      if Plain(data) {
        forall k | 0 <= k < |data|
          ensures BoardData()[k] == Restored(data)[k]
        {
          ShowsData(columns[k], data[k]);
        }
      }
    }

    /**
     * The loop body of `load_board_data` for one column: the column is
     * added, then each of its cards by the column's id. When the column's id
     * is truthy and no column's id read the same before, the new column
     * holds new cards carrying the input's data, in order.
     */
    method LoadColumn(cd: ColumnInput)
      requires Valid()
      modifies this`columns, this`cardsById, this`nextIdentity, this`decks, columns`cards
      ensures Valid()
      ensures |columns| == |old(columns)| + 1 && columns[..|old(columns)|] == old(columns)
      ensures fresh(columns[|old(columns)|])
      ensures columns[|old(columns)|].title == cd.title
      ensures columns[|old(columns)|].columnId == IdOr(Some(cd.id), old(nextIdentity))
      ensures Truthy(cd.id) && CardIdsGiven(cd) && IdText(cd.id) !in ColumnTexts(old(columns)) ==>
                decks[..|old(columns)|] == old(decks) && Shows(decks[|old(columns)|], cd.cards)
    {
      ghost var d0 := decks;
      var column := AddColumn(cd.title, Some(cd.id));
      var text := IdText(column.columnId);
      ghost var fits := Truthy(cd.id) && CardIdsGiven(cd) && IdText(cd.id) !in ColumnTexts(old(columns));
      if fits {
        ColumnIndexAppended(old(columns), column, text);
      }
      ghost var made := LoadCards(text, cd.cards);
      if fits {
        DecksAfterLoad(d0, made);
      }
    }

    /**
     * The inner loop of `load_board_data`: each card is added to the column
     * whose id reads `text`. When that is the last column and every card
     * has a truthy id, that column gains new cards carrying the inputs'
     * data, in order, and no other column changes.
     */
    method LoadCards(text: string, cards: seq<CardInput>) returns (ghost made: seq<KanbanCard>)
      requires Valid()
      modifies this`cardsById, this`nextIdentity, this`decks, columns`cards
      ensures Valid() && columns == old(columns)
      ensures var n := |columns| - 1;
              n >= 0 && ColumnIndex(columns, text) == n && IdsGiven(cards) ==>
                decks == old(decks)[n := old(decks)[n] + made] && Shows(made, cards)
    {
      ghost var n := |columns| - 1;
      ghost var fits := n >= 0 && ColumnIndex(columns, text) == n && IdsGiven(cards);
      made := [];
      if fits {
        assert old(decks)[n] + made == old(decks)[n];
      }
      var j := 0;
      while j < |cards|
        invariant Valid() && 0 <= j <= |cards| && columns == old(columns)
        invariant fits ==> n == |columns| - 1 && |old(decks)| == |columns| && |made| == j
        invariant fits ==> decks == old(decks)[n := old(decks)[n] + made]
        invariant fits ==> MadeFrom(made, cards)
      {
        made := LoadNext(text, cards, j, made, fits, old(decks));
        j := j + 1;
      }
      if fits {
        assert Shows(made, cards);
      }
    }

    /**
     * One turn of `LoadCards`' loop: the next card is loaded and, when the
     * cards all go to the last column, recorded after the ones made so far.
     */
    method LoadNext(text: string, cards: seq<CardInput>, j: nat, ghost made: seq<KanbanCard>, ghost fits: bool,
                    ghost d0: Decks) returns (ghost made': seq<KanbanCard>)
      requires Valid() && j < |cards|
      requires fits ==> j == |made| && 0 <= |columns| - 1 < |d0| && ColumnIndex(columns, text) == |columns| - 1
      requires fits ==> decks == d0[|columns| - 1 := d0[|columns| - 1] + made] && MadeFrom(made, cards)
      modifies this`cardsById, this`nextIdentity, this`decks, columns`cards
      ensures Valid() && columns == old(columns)
      ensures fits ==> |made'| == |made| + 1 && decks == d0[|columns| - 1 := d0[|columns| - 1] + made']
      ensures fits ==> MadeFrom(made', cards)
    {
      ghost var n := |columns| - 1;
      var card := LoadCard(text, cards[j]);
      made' := made;
      if fits {
        assert d0[n] + made + [card as KanbanCard] == d0[n] + (made + [card]);
        made' := made + [card];
      }
    }

    /**
     * One step of the inner loop of `load_board_data`. When the last column
     * is the first whose id reads `text` and the card's id is truthy, a new
     * card carrying the input's data joins the end of that column.
     */
    method LoadCard(text: string, c: CardInput) returns (card: KanbanCard?)
      requires Valid()
      modifies this`cardsById, this`nextIdentity, this`decks, columns`cards
      ensures Valid() && columns == old(columns)
      ensures var n := |columns| - 1;
              n >= 0 && ColumnIndex(columns, text) == n && c.id.Some? && Truthy(c.id.value) ==>
                card != null && decks == old(decks)[n := old(decks)[n] + [card]]
                && CardData(card.cardId, card.title, card.description) == RestoredCard(c)
    {
      card := AddCard(text, c.title, if c.description.Some? then c.description.value else "", c.id);
    }

    /** `get_board_data`: every column's id, title and cards, in order. */
    function BoardData(): (d: seq<ColumnData>)
      reads this, columns, set c, k | c in columns && k in c.cards :: k
      ensures |d| == |columns|
      ensures forall i :: 0 <= i < |d| ==> d[i] == ColumnDataOf(columns[i])
    {
      seq(|columns|, i reads this, columns, set c, k | c in columns && k in c.cards :: k
                       requires 0 <= i < |columns| => ColumnDataOf(columns[i]))
    }

    method GetBoardData() returns (d: seq<ColumnData>)
      ensures d == BoardData()
    {
      d := [];
      var i := 0;
      while i < |columns|
        invariant 0 <= i <= |columns|
        invariant |d| == i && forall k :: 0 <= k < i ==> d[k] == ColumnDataOf(columns[k])
      {
        var cs := columns[i].GetCards();
        var cards := [];
        var j := 0;
        while j < |cs|
          invariant 0 <= j <= |cs|
          invariant |cards| == j && forall k :: 0 <= k < j ==> cards[k] == cs[k].GetData()
        {
          cards := cards + [cs[j].GetData()];
          j := j + 1;
        }
        d := d + [ColumnData(columns[i].columnId, columns[i].title, cards)];
        i := i + 1;
      }
    }
  }

  /** As written, the "+" button of a column added without an id raises `TypeError` instead of reporting the request. */
  method CardRequestFails() returns (created: Option<(string, (string, string))>, typeError: bool)
    ensures created == None && typeError
  {
    var b := new KanbanBoardWidget();
    var column := b.AddColumn("To do", None);
    var data := column.AddNewCard();
    created, typeError := b.HandleCardCreation(column.columnId, data);
  }

  /** As intended, the same request is reported with the column's id as text. */
  method CardRequestIntended() returns (created: (string, (string, string)))
    ensures created == ("1", ("New Card", "Click to edit..."))
  {
    var b := new KanbanBoardWidget();
    var column := b.AddColumn("To do", None);
    var data := column.AddNewCard();
    created := b.HandleCardCreationIntended(column.columnId, data);
    assert NatToStr(1) == "1";
  }
}
