/**
 * The card every other card builds on: a header, body and footer, hover
 * and selection flags, and the click handler that toggles selection.
 * Child widgets are named by strings; the three sections hold their
 * children in layout order.
 */
module BaseCard {

  class Card {
    var hoverable: bool
    var selectable: bool
    var selected: bool
    var header: seq<string>
    var body: seq<string>
    var footer: seq<string>
    var headerVisible: bool
    var footerVisible: bool

    /** A new card is hoverable, not selectable, not selected, with header and footer hidden. */
    constructor ()
      ensures hoverable && !selectable && !selected
      ensures !headerVisible && !footerVisible
      ensures header == [] && body == [] && footer == []
    {
      hoverable, selectable, selected := true, false, false;
      header, body, footer := [], [], [];
      headerVisible, footerVisible := false, false;
    }

    /** Replaces the header contents with one widget and shows the header. */
    method SetHeader(w: string)
      modifies this`header, this`headerVisible
      ensures header == [w] && headerVisible
    {
      header := [w];
      headerVisible := true;
    }

    /** Replaces the body contents with one widget. */
    method SetBody(w: string)
      modifies this`body
      ensures body == [w]
    {
      body := [w];
    }

    /** Replaces the footer contents with one widget and shows the footer. */
    method SetFooter(w: string)
      modifies this`footer, this`footerVisible
      ensures footer == [w] && footerVisible
    {
      footer := [w];
      footerVisible := true;
    }

    method ShowFooter()
      modifies this`footerVisible
      ensures footerVisible
    {
      footerVisible := true;
    }

    method HideFooter()
      modifies this`footerVisible
      ensures !footerVisible
    {
      footerVisible := false;
    }

    /** Appends a button to the header, showing it if hidden. */
    method AddHeaderAction(button: string)
      modifies this`header, this`headerVisible
      ensures header == old(header) + [button] && headerVisible
    {
      if !headerVisible {
        headerVisible := true;
      }
      header := header + [button];
    }

    /** Appends a button to the footer, showing it if hidden. */
    method AddFooterAction(button: string)
      modifies this`footer, this`footerVisible
      ensures footer == old(footer) + [button] && footerVisible
    {
      if !footerVisible {
        footerVisible := true;
      }
      footer := footer + [button];
    }

    method SetHoverable(h: bool)
      modifies this`hoverable
      ensures hoverable == h
    {
      hoverable := h;
    }

    method SetSelectable(s: bool)
      modifies this`selectable
      ensures selectable == s
    {
      selectable := s;
    }

    /** The selection changes only on a selectable card. */
    method SetSelected(s: bool)
      modifies this`selected
      ensures selected == if selectable then s else old(selected)
    {
      if selectable {
        selected := s;
      }
    }

    /** Entering emits `hover_entered` only on a hoverable card. */
    method Enter() returns (hoverEntered: bool)
      ensures hoverEntered == hoverable
    {
      hoverEntered := hoverable;
    }

    /** Leaving emits `hover_left` only on a hoverable card. */
    method Leave() returns (hoverLeft: bool)
      ensures hoverLeft == hoverable
    {
      hoverLeft := hoverable;
    }

    /**
     * A left click flips the selection of a selectable card and emits
     * `clicked` whether or not the card is selectable; other buttons do nothing.
     */
    method MousePress(leftButton: bool) returns (clicked: bool)
      modifies this`selected
      ensures clicked == leftButton
      ensures selected == if leftButton && selectable then !old(selected) else old(selected)
    {
      clicked := false;
      if leftButton {
        if selectable {
          SetSelected(!selected);
        }
        clicked := true;
      }
    }
  }
}
