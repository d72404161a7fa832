/**
 * Cards that can be selected: a tick indicator in single-select mode, a
 * checkbox kept in step (with its signals blocked) in multi-select mode,
 * and filter cards whose subtitle shows an item count.
 */
module SelectableCard {
  import opened Common
  import BaseCard

  /** The indicator shows a tick exactly when the card is selected. */
  function IndicatorText(selected: bool): (t: string)
    ensures t == "✓" <==> selected
    ensures t == "" <==> !selected
  {
    if selected then "✓" else ""
  }

  /** "N items" for a positive count, "No items" otherwise. */
  function FilterSubtitle(count: int): (s: string)
    ensures count > 0 ==> s == IntToStr(count) + " items"
    ensures count <= 0 ==> s == "No items"
  {
    if count > 0 then IntToStr(count) + " items" else "No items"
  }

  /** Two positive counts give the same subtitle only if they are equal, and no positive count reads "No items". */
  lemma FilterSubtitleDeterminesCount(a: int, b: int)
    requires a > 0 && b > 0
    requires FilterSubtitle(a) == FilterSubtitle(b)
    ensures a == b
    ensures FilterSubtitle(a) != "No items"
  {
    var sa, sb := NatToStr(a), NatToStr(b);
    assert FilterSubtitle(a) == sa + " items" && FilterSubtitle(b) == sb + " items";
    assert |sa| == |sb|;
    assert sa == FilterSubtitle(a)[..|sa|] == FilterSubtitle(b)[..|sb|] == sb;
    NatToStrInjective(a, b);
    assert IsDigit(FilterSubtitle(a)[0]);
  }

  class SelectableCardWidget {
    const card: BaseCard.Card
    var title: string
    var subtitle: string
    const multiSelect: bool
    /** The checkbox exists only in multi-select mode. */
    var checkboxChecked: bool
    /** The indicator exists only in single-select mode. */
    var indicator: string

    ghost predicate Valid()
      reads this, card
    {
      !multiSelect ==> indicator == IndicatorText(card.selected)
    }

    constructor (title0: string, subtitle0: string, selectable: bool, multiSelect0: bool)
      ensures Valid() && fresh(card)
      ensures title == title0 && subtitle == subtitle0 && multiSelect == multiSelect0
      ensures card.selectable == selectable && !card.selected && !checkboxChecked
    {
      card := new BaseCard.Card();
      title, subtitle, multiSelect := title0, subtitle0, multiSelect0;
      checkboxChecked := false;
      indicator := "";
      new;
      card.SetSelectable(selectable);
    }

    /** An option card is a single-select card. */
    constructor Option(title0: string, description: string)
      ensures Valid() && fresh(card)
      ensures title == title0 && subtitle == description && !multiSelect
      ensures card.selectable && !card.selected
    {
      card := new BaseCard.Card();
      title, subtitle, multiSelect := title0, description, false;
      checkboxChecked := false;
      indicator := "";
      new;
      card.SetSelectable(true);
    }

    /** A multi-select card carries a checkbox. */
    constructor MultiSelect(title0: string, subtitle0: string)
      ensures Valid() && fresh(card)
      ensures title == title0 && subtitle == subtitle0 && multiSelect
      ensures card.selectable && !card.selected && !checkboxChecked
    {
      card := new BaseCard.Card();
      title, subtitle, multiSelect := title0, subtitle0, true;
      checkboxChecked := false;
      indicator := "";
      new;
      card.SetSelectable(true);
    }

    /**
     * The base card changes the selection only when selectable, but the
     * checkbox follows the requested value and `selection_changed` is
     * emitted with it in every case. The checkbox is updated with its
     * signals blocked, so this does not run again.
     */
    method SetSelected(s: bool) returns (selectionChanged: bool)
      requires Valid()
      modifies card`selected, this`indicator, this`checkboxChecked
      ensures Valid()
      ensures card.selected == if card.selectable then s else old(card.selected)
      ensures checkboxChecked == if multiSelect then s else old(checkboxChecked)
      ensures selectionChanged == s
    {
      card.SetSelected(s);
      if !multiSelect {
        indicator := IndicatorText(card.selected);
      }
      if multiSelect {
        checkboxChecked := s;
      }
      selectionChanged := s;
    }

    /** The user ticks or clears the checkbox: the card follows it. */
    method OnCheckboxChanged(isChecked: bool) returns (selectionChanged: bool)
      requires Valid() && multiSelect
      modifies card`selected, this`indicator, this`checkboxChecked
      ensures Valid()
      ensures card.selected == if card.selectable then isChecked else old(card.selected)
      ensures checkboxChecked == isChecked && selectionChanged == isChecked
    {
      selectionChanged := SetSelected(isChecked);
    }

    /** A left click on a selectable card flips its selection through the overriding setter. */
    method MousePress(leftButton: bool) returns (clicked: bool, selectionChanged: Option<bool>)
      requires Valid()
      modifies card`selected, this`indicator, this`checkboxChecked
      ensures Valid()
      ensures clicked == leftButton
      ensures card.selected == if leftButton && card.selectable then !old(card.selected) else old(card.selected)
      ensures selectionChanged == if leftButton && card.selectable then Some(card.selected) else None
    {
      clicked, selectionChanged := false, None;
      if leftButton {
        if card.selectable {
          var e := SetSelected(!card.selected);
          selectionChanged := Some(e);
        }
        clicked := true;
      }
    }

    method SetTitle(t: string)
      modifies this`title
      ensures title == t
    {
      title := t;
    }

    method SetSubtitle(s: string)
      modifies this`subtitle
      ensures subtitle == s
    {
      subtitle := s;
    }
  }

  /** A multi-select card for a filter, with an item count in its subtitle. */
  class FilterCard {
    const widget: SelectableCardWidget
    const filterName: string
    var count: int

    ghost predicate Valid()
      reads this, widget
    {
      widget.subtitle == FilterSubtitle(count) && widget.multiSelect
    }

    constructor (filterName0: string, count0: int)
      ensures Valid() && fresh(widget)
      ensures filterName == filterName0 && count == count0 && widget.title == filterName0
    {
      filterName, count := filterName0, count0;
      widget := new SelectableCardWidget(filterName0, FilterSubtitle(count0), true, true);
    }

    method SetCount(c: int)
      requires Valid()
      modifies this`count, widget`subtitle
      ensures Valid() && count == c
    {
      count := c;
      widget.SetSubtitle(FilterSubtitle(c));
    }
  }
}
