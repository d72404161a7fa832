/**
 * Cards whose body expands and collapses. The height animation is kept in
 * a field, so it runs to its end: after every change the content is shown
 * exactly when the card is expanded.
 */
module ExpandableCard {
  import opened Common

  /** The expand button shows a down arrow when expanded and a right arrow when collapsed. */
  function ArrowText(expanded: bool): (t: string)
    ensures t == "▼" <==> expanded
    ensures t == "▶" <==> !expanded
  {
    if expanded then "▼" else "▶"
  }

  class ExpandableCardWidget {
    var title: string
    var expanded: bool
    var contentVisible: bool
    var arrow: string
    var content: seq<string>

    ghost predicate Valid()
      reads this
    {
      contentVisible == expanded && arrow == ArrowText(expanded)
    }

    constructor (title0: string, expanded0: bool)
      ensures Valid()
      ensures title == title0 && expanded == expanded0 && content == []
    {
      title, expanded, content := title0, expanded0, [];
      contentVisible := expanded0;
      arrow := ArrowText(expanded0);
    }

    /** An accordion card starts collapsed, holding its text as content when there is one. */
    constructor Accordion(title0: string, contentText: string)
      ensures Valid()
      ensures title == title0 && !expanded
      ensures content == if contentText != "" then [contentText] else []
    {
      title, expanded := title0, false;
      contentVisible := false;
      arrow := ArrowText(false);
      content := if contentText != "" then [contentText] else [];
    }

    /** A collapsible section starts expanded. */
    constructor Collapsible(title0: string)
      ensures Valid()
      ensures title == title0 && expanded && content == []
    {
      title, expanded, content := title0, true, [];
      contentVisible := true;
      arrow := ArrowText(true);
    }

    /** The expand button flips the state and emits `expanded` with the new value. */
    method ToggleExpansion() returns (emitted: bool)
      requires Valid()
      modifies this`expanded, this`arrow, this`contentVisible
      ensures Valid()
      ensures expanded == !old(expanded) && emitted == expanded
    {
      expanded := !expanded;
      arrow := ArrowText(expanded);
      if expanded {
        if !contentVisible {
          contentVisible := true;
        }
      } else {
        if contentVisible {
          contentVisible := false;
        }
      }
      emitted := expanded;
    }

    /**
     * Setting the current state does nothing and emits nothing; any other
     * value is taken, with or without animation, and emitted.
     */
    method SetExpanded(e: bool, animate: bool) returns (emitted: Option<bool>)
      requires Valid()
      modifies this`expanded, this`arrow, this`contentVisible
      ensures Valid()
      ensures expanded == e
      ensures emitted == if old(expanded) == e then None else Some(e)
    {
      if expanded == e {
        return None;
      }
      expanded := e;
      arrow := ArrowText(e);
      contentVisible := e;
      emitted := Some(e);
    }

    /** The content is replaced by one widget, shown exactly when expanded. */
    method SetContent(w: string)
      requires Valid()
      modifies this`content, this`contentVisible
      ensures Valid() && content == [w]
    {
      content := [w];
      contentVisible := expanded;
    }

    /** `AccordionCard.set_content_text`: a label with the text, even an empty one, becomes the content. */
    method SetContentText(text: string)
      requires Valid()
      modifies this`content, this`contentVisible
      ensures Valid() && content == [text]
    {
      SetContent(text);
    }

    method AddContentWidget(w: string)
      modifies this`content
      ensures content == old(content) + [w]
    {
      content := content + [w];
    }

    method SetTitle(t: string)
      modifies this`title
      ensures title == t
    {
      title := t;
    }
  }

  /** The step badge shows a tick once completed and the step number otherwise. */
  function StepLabel(stepNumber: int, completed: bool): (t: string)
    ensures completed ==> t == "✓"
    ensures !completed ==> t == IntToStr(stepNumber) && t != "✓"
  {
    if completed then "✓" else IntToStr(stepNumber)
  }

  /** The step badge is green when completed, primary otherwise. */
  function StepColorToken(completed: bool): (token: string)
    ensures token == (if completed then "success" else "primary")
  {
    if completed then "success" else "primary"
  }

  /**
   * A collapsed card for one step of a process. Each call of the badge
   * setup inserts a new badge at the front of the header.
   */
  class StepCard {
    const card: ExpandableCardWidget
    const stepNumber: int
    var completed: bool
    var badges: seq<string>

    constructor (stepNumber0: int, title: string, completed0: bool)
      ensures fresh(card) && card.Valid() && !card.expanded && card.title == title
      ensures stepNumber == stepNumber0 && completed == completed0
      ensures badges == [StepLabel(stepNumber0, completed0)]
    {
      stepNumber, completed := stepNumber0, completed0;
      card := new ExpandableCardWidget(title, false);
      badges := [StepLabel(stepNumber0, completed0)];
    }

    /** Marks the step and adds a badge for the new state in front of the existing ones. */
    method SetCompleted(c: bool)
      modifies this`completed, this`badges
      ensures completed == c
      ensures badges == [StepLabel(stepNumber, c)] + old(badges)
    {
      completed := c;
      badges := [StepLabel(stepNumber, c)] + badges;
    }
  }
}
