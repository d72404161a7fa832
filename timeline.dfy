/**
 * The timeline: events kept sorted by timestamp, ties in the order they
 * were added, shown as one card per event with a dot and the connector
 * lines between dots. The compact timeline shows a smaller card; the
 * interactive one adds Edit and Delete buttons.
 *
 * Timestamps are whole numbers (milliseconds); the current time is a
 * parameter. The cards on screen are `Card`s recording the event they were
 * built from and their position; what is painted for a card is read from
 * the event list when it is painted.
 */
module Timeline {
  import opened Common

  datatype Event = Event(title: string, description: string, timestamp: int, kind: string,
                         icon: Option<string>, data: map<string, string>)

  datatype Variant = Standard | Compact | Interactive

  /** A card on screen: the event it shows, its position when built, and the orientation it was laid out in. */
  datatype Card = Card(event: Event, index: nat, vertical: bool)

  /** What a click on a card emits: the event, or the `TypeError` PyQt raises for a wrongly typed argument. */
  datatype Emitted = EventData(event: Event) | TypeError

  /** The event `add_event` builds: no timestamp means now, no data an empty dictionary. */
  function NewEvent(title: string, description: string, timestamp: Option<int>, now: int, kind: string,
                    icon: Option<string>, data: Option<map<string, string>>): (e: Event)
    ensures e.title == title && e.description == description && e.kind == kind && e.icon == icon
    ensures e.timestamp == (if timestamp.Some? then timestamp.value else now)
    ensures e.data == (if data.Some? then data.value else map[])
  {
    Event(title, description, if timestamp.Some? then timestamp.value else now, kind, icon,
          if data.Some? then data.value else map[])
  }

  // ---------------------------------------------------------------------
  // Sorting by timestamp

  predicate TimeSorted(s: seq<Event>) {
    forall i, j :: 0 <= i < j < |s| ==> s[i].timestamp <= s[j].timestamp
  }

  /** The events with timestamp `t`, in list order. */
  function WithTime(s: seq<Event>, t: int): seq<Event> {
    if s == [] then [] else (if s[0].timestamp == t then [s[0]] else []) + WithTime(s[1..], t)
  }

  /**
   * Appending `e` to a sorted list and sorting stably by timestamp: `e`
   * goes after every event not later than it and before the first later one.
   */
  function Place(s: seq<Event>, e: Event): (r: seq<Event>)
    ensures |r| == |s| + 1
  {
    if s == [] then [e]
    else if s[0].timestamp > e.timestamp then [e] + s
    else [s[0]] + Place(s[1..], e)
  }

  /** The placed list is sorted, holds the old events and `e`, and keeps each timestamp's events in the order they were added. */
  lemma PlaceSpec(s: seq<Event>, e: Event, t: int)
    requires TimeSorted(s)
    ensures TimeSorted(Place(s, e))
    ensures multiset(Place(s, e)) == multiset(s) + multiset{e}
    ensures WithTime(Place(s, e), t) == WithTime(s, t) + (if e.timestamp == t then [e] else [])
  {
    PlaceSorted(s, e);
    PlaceMultiset(s, e);
    PlaceStable(s, e, t);
  }

  lemma {:induction false} PlaceSorted(s: seq<Event>, e: Event)
    requires TimeSorted(s)
    ensures TimeSorted(Place(s, e))
  {
    if s != [] && s[0].timestamp <= e.timestamp {
      var r := Place(s, e);
      var p := Place(s[1..], e);
      PlaceSorted(s[1..], e);
      assert r == [s[0]] + p;
      PlaceBounds(s[1..], e, s[0].timestamp);
      forall i, j | 0 <= i < j < |r|
        ensures r[i].timestamp <= r[j].timestamp
      {
        assert r[j] == p[j - 1];
        if i > 0 {
          assert r[i] == p[i - 1];
        }
      }
    }
  }

  lemma {:induction false} PlaceMultiset(s: seq<Event>, e: Event)
    ensures multiset(Place(s, e)) == multiset(s) + multiset{e}
  {
    if s != [] && s[0].timestamp <= e.timestamp {
      PlaceMultiset(s[1..], e);
      assert s == [s[0]] + s[1..];
    }
  }

  lemma {:induction false} PlaceStable(s: seq<Event>, e: Event, t: int)
    requires TimeSorted(s)
    ensures WithTime(Place(s, e), t) == WithTime(s, t) + (if e.timestamp == t then [e] else [])
  {
    if s == [] {
    } else if s[0].timestamp > e.timestamp {
      assert ([e] + s)[1..] == s;
      if e.timestamp == t {
        LaterNone(s, t);
      }
    } else {
      var p := Place(s[1..], e);
      PlaceStable(s[1..], e, t);
      assert ([s[0]] + p)[1..] == p;
      ConcatAssoc(if s[0].timestamp == t then [s[0]] else [], WithTime(s[1..], t), if e.timestamp == t then [e] else []);
    }
  }

  /** Every event placed after a bound is still after it. */
  lemma {:induction false} PlaceBounds(s: seq<Event>, e: Event, lo: int)
    requires lo <= e.timestamp && forall i :: 0 <= i < |s| ==> lo <= s[i].timestamp
    ensures forall i :: 0 <= i < |Place(s, e)| ==> lo <= Place(s, e)[i].timestamp
  {
    if s != [] && s[0].timestamp <= e.timestamp {
      PlaceBounds(s[1..], e, lo);
      var p := Place(s[1..], e);
      assert Place(s, e) == [s[0]] + p;
    }
  }

  /** A sorted list whose first event is later than `t` holds no event at `t`. */
  lemma {:induction false} LaterNone(s: seq<Event>, t: int)
    requires TimeSorted(s) && (s != [] ==> s[0].timestamp > t)
    ensures WithTime(s, t) == []
  {
    if s != [] {
      if |s| > 1 {
        assert s[1..][0] == s[1];
      }
      LaterNone(s[1..], t);
    }
  }

  /** The insertion point a scan from the front finds: after every event not later than `e`. */
  lemma {:induction false} PlaceSplit(s: seq<Event>, e: Event, k: nat)
    requires k <= |s| && (forall j :: 0 <= j < k ==> s[j].timestamp <= e.timestamp)
    requires k == |s| || s[k].timestamp > e.timestamp
    ensures Place(s, e) == s[..k] + [e] + s[k..]
  {
    if k > 0 {
      PlaceSplit(s[1..], e, k - 1);
      assert s[1..][..k - 1] == s[1..k];
      assert s[1..][k - 1..] == s[k..];
      assert s[..k] == [s[0]] + s[1..k];
    } else {
      assert s[k..] == s;
    }
  }

  /** Removing an event keeps the list sorted. */
  lemma DeleteSorted(s: seq<Event>, i: nat)
    requires TimeSorted(s) && i < |s|
    ensures TimeSorted(DeleteAt(s, i))
  {
    var r := DeleteAt(s, i);
    forall a, b | 0 <= a < b < |r|
      ensures r[a].timestamp <= r[b].timestamp
    {
      var a' := if a < i then a else a + 1;
      var b' := if b < i then b else b + 1;
      assert r[a] == s[a'] && r[b] == s[b'];
    }
  }

  // ---------------------------------------------------------------------
  // Painting

  /** `_get_event_color`: the theme colour an event type is drawn in, the primary colour for any other type. */
  function EventColorRole(kind: string): (role: string)
    ensures kind == "error" ==> role == "danger"
    ensures kind == "success" || kind == "warning" || kind == "info" ==> role == kind
    ensures role == "primary" <==> kind != "success" && kind != "warning" && kind != "error" && kind != "info"
  {
    if kind == "success" then "success"
    else if kind == "warning" then "warning"
    else if kind == "error" then "danger"
    else if kind == "info" then "info"
    else "primary"
  }

  /** The connector below (or right of) dot `i` of `n`: every dot but the last. */
  function LineAfter(i: int, n: int): bool {
    i < n - 1
  }

  /** The connector above (or left of) dot `i`: every dot but the first. */
  function LineBefore(i: int): bool {
    i > 0
  }

  /** Each gap between consecutive dots is drawn from both sides, and the ends have no outer connector. */
  lemma ConnectorsMeet(n: nat, i: nat)
    requires i < n
    ensures !LineBefore(0) && !LineAfter(n - 1, n)
    ensures LineAfter(i, n) <==> i + 1 < n && LineBefore(i + 1)
    ensures LineBefore(i) <==> i > 0 && LineAfter(i - 1, n)
  {
  }

  /** The cards `_rebuild_timeline` lays out, one per event in order. */
  function Cards(s: seq<Event>, vertical: bool): (r: seq<Card>)
    ensures |r| == |s| && forall i :: 0 <= i < |s| ==> r[i] == Card(s[i], i, vertical)
  {
    seq(|s|, i requires 0 <= i < |s| => Card(s[i], i, vertical))
  }

  /** The texts a card shows: the title, then the description when not empty, then the icon when set and not empty. */
  function CardTexts(variant: Variant, e: Event): (texts: seq<string>)
    ensures |texts| == 1 + (if variant != Compact && e.description != "" then 1 else 0)
                         + (if e.icon.Some? && e.icon.value != "" then 1 else 0)
    ensures texts[0] == e.title
    ensures variant != Compact && e.description != "" ==> texts[1] == e.description
    ensures e.icon.Some? && e.icon.value != "" ==> texts[|texts| - 1] == e.icon.value
  {
    var icon := if e.icon.Some? && e.icon.value != "" then [e.icon.value] else [];
    match variant
    case Compact => [e.title] + icon
    case _ => [e.title] + (if e.description != "" then [e.description] else []) + icon
  }

  /** The buttons in a card's footer. */
  function CardActions(variant: Variant): seq<string> {
    if variant == Interactive then ["Edit", "Delete"] else []
  }

  /** The compact card's colour strip, drawn only when the event shows no icon. */
  function Indicator(variant: Variant, e: Event): (role: Option<string>)
    ensures role.Some? <==> variant == Compact && !(e.icon.Some? && e.icon.value != "")
    ensures role.Some? ==> role.value == EventColorRole(e.kind)
  {
    if variant == Compact && !(e.icon.Some? && e.icon.value != "") then Some(EventColorRole(e.kind)) else None
  }

  // ---------------------------------------------------------------------
  // The widget

  class TimelineWidget {
    var events: seq<Event>
    var vertical: bool
    /** Whether the layout being rebuilt is the one on screen. */
    var attached: bool
    /** The cards on screen. */
    var shown: seq<Card>
    const variant: Variant

    ghost predicate Valid()
      reads this
    {
      TimeSorted(events) && (attached ==> shown == Cards(events, vertical))
    }

    /** `TimelineWidget(orientation)`; the compact and interactive timelines are vertical. */
    constructor (variant: Variant, vertical: bool)
      ensures Valid() && events == [] && shown == [] && attached && this.variant == variant
      ensures this.vertical == (variant != Standard || vertical)
    {
      events := [];
      shown := [];
      attached := true;
      this.variant := variant;
      this.vertical := variant != Standard || vertical;
    }

    /** `_rebuild_timeline`: the layout gets one card per event, in order. */
    method Rebuild()
      requires TimeSorted(events)
      modifies this`shown
      ensures Valid()
      ensures shown == if attached then Cards(events, vertical) else old(shown)
    {
      if !attached {
        return;
      }
      var cards: seq<Card> := [];
      var i := 0;
      while i < |events|
        invariant 0 <= i <= |events| && |cards| == i
        invariant forall j :: 0 <= j < i ==> cards[j] == Card(events[j], j, vertical)
      {
        cards := cards + [Card(events[i], i, vertical)];
        i := i + 1;
      }
      shown := cards;
    }

    /** The scan `list.sort` performs on a sorted list with one event appended. */
    method Insert(e: Event)
      modifies this`events
      ensures events == Place(old(events), e)
    {
      var k := 0;
      while k < |events| && events[k].timestamp <= e.timestamp
        invariant 0 <= k <= |events| && forall j :: 0 <= j < k ==> events[j].timestamp <= e.timestamp
      {
        k := k + 1;
      }
      PlaceSplit(events, e, k);
      events := events[..k] + [e] + events[k..];
    }

    /** `add_event`: the event joins the list in timestamp order, after the events with the same timestamp, and the timeline is rebuilt. */
    method AddEvent(title: string, description: string, timestamp: Option<int>, now: int, kind: string,
                    icon: Option<string>, data: Option<map<string, string>>)
      requires Valid()
      modifies this`events, this`shown
      ensures Valid()
      ensures events == Place(old(events), NewEvent(title, description, timestamp, now, kind, icon, data))
      ensures shown == if attached then Cards(events, vertical) else old(shown)
    {
      var e := NewEvent(title, description, timestamp, now, kind, icon, data);
      Insert(e);
      PlaceSpec(old(events), e, e.timestamp);
      Rebuild();
    }

    /** `clear_events`. */
    method ClearEvents()
      requires Valid()
      modifies this`events, this`shown
      ensures Valid() && events == []
      ensures shown == if attached then [] else old(shown)
    {
      events := [];
      Rebuild();
    }

    /** `remove_event`: an index outside the list does nothing. */
    method RemoveEvent(index: int)
      requires Valid()
      modifies this`events, this`shown
      ensures Valid()
      ensures if 0 <= index < |old(events)| then events == DeleteAt(old(events), index)
                                               && shown == (if attached then Cards(events, vertical) else old(shown))
              else events == old(events) && shown == old(shown)
    {
      if 0 <= index < |events| {
        DeleteSorted(events, index);
        events := DeleteAt(events, index);
        Rebuild();
      }
    }

    /** `get_events`: a copy of the list. */
    method GetEvents() returns (r: seq<Event>)
      ensures r == events
    {
      r := events;
    }

    /**
     * `set_orientation` as written: it builds a new main layout on a widget
     * that already has one, which Qt refuses, so the rebuilt timeline is in
     * a scroll area that is never shown and the cards on screen stay as
     * they were, now and after every later change.
     */
    method SetOrientation(vertical: bool)
      requires Valid()
      modifies this`vertical, this`attached
      ensures Valid() && this.vertical == vertical && !attached
    {
      this.vertical := vertical;
      attached := false;
    }

    /** `set_orientation` as intended: the cards on screen are laid out again in the new orientation. */
    method SetOrientationIntended(vertical: bool)
      requires Valid()
      modifies this`vertical, this`shown
      ensures Valid() && this.vertical == vertical
      ensures shown == if attached then Cards(events, vertical) else old(shown)
    {
      this.vertical := vertical;
      Rebuild();
    }

    /** What painting card `c` draws: the dot's colour and the connectors, read from the event list; an index past its end raises `IndexError`. */
    method Paint(c: nat) returns (r: Option<(string, bool, bool)>)
      requires c < |shown|
      ensures var i := shown[c].index;
              if i < |events| then r == Some((EventColorRole(events[i].kind), LineBefore(i), LineAfter(i, |events|)))
              else r == None
    {
      var i := shown[c].index;
      if i >= |events| {
        return None;
      }
      r := Some((EventColorRole(events[i].kind), LineBefore(i), LineAfter(i, |events|)));
    }

    /**
     * A click on card `c` emits `event_clicked`. The compact card's handler
     * passes on its mouse event instead, which the `dict` signal refuses.
     */
    method ClickCard(c: nat) returns (emitted: Emitted)
      requires c < |shown|
      ensures emitted == if variant == Compact then TypeError else EventData(shown[c].event)
    {
      if variant == Compact {
        return TypeError;
      }
      emitted := EventData(shown[c].event);
    }

    /** A click as intended: every card emits the event it shows. */
    method ClickCardIntended(c: nat) returns (emitted: Emitted)
      requires c < |shown|
      ensures emitted == EventData(shown[c].event)
    {
      emitted := EventData(shown[c].event);
    }

    /** `_edit_event`: the position of the first event equal to the card's, emitted with it; `ValueError` (none) when no event equals it. */
    method EditCard(c: nat) returns (edited: Option<(nat, Event)>)
      requires c < |shown|
      ensures shown[c].event in events <==> edited.Some?
      ensures edited.Some? ==> edited.value.1 == shown[c].event && edited.value.0 < |events|
                               && events[edited.value.0] == shown[c].event
                               && forall j :: 0 <= j < edited.value.0 ==> events[j] != shown[c].event
    {
      var e := shown[c].event;
      if e !in events {
        return None;
      }
      var i := IndexOf(events, e);
      edited := Some((i, e));
    }

    /** `_delete_event`: the first event equal to the card's is removed and its position emitted; `ValueError` (none) when no event equals it. */
    method DeleteCard(c: nat) returns (deleted: Option<nat>)
      requires Valid() && c < |shown|
      modifies this`events, this`shown
      ensures Valid()
      ensures old(shown[c].event in events) <==> deleted.Some?
      ensures deleted.Some? ==> deleted.value == IndexOf(old(events), old(shown[c].event))
                                && events == RemoveFirst(old(events), old(shown[c].event))
      ensures deleted.None? ==> events == old(events) && shown == old(shown)
    {
      var e := shown[c].event;
      if e !in events {
        return None;
      }
      var i := IndexOf(events, e);
      RemoveFirstSlices(events, e);
      RemoveEvent(i);
      deleted := Some(i);
    }
  }

  /** After `set_orientation` the cards on screen keep the old orientation although the widget's changed. */
  lemma StaleAfterOrientation(s: seq<Event>, v: bool)
    requires s != []
    ensures Cards(s, v) != Cards(s, !v)
  {
    assert Cards(s, v)[0].vertical != Cards(s, !v)[0].vertical;
  }
}
