/**
 * The star rating (`RatingStarWidget`) and its compact form
 * (`CompactRatingWidget`, which adds a "(n)" label after the stars).
 *
 * Each star (`StarLabel`) is a value holding whether it is drawn filled and
 * whether in the preview colour; the widget keeps them in order, star 1
 * first. A star's `star_hovered` / `star_clicked` signals carry its 1-based
 * index and are modelled as calls of `Hover` / `Click` with that index.
 * A signal of the widget is modelled by the sequence of values it carried
 * during a call.
 */
module RatingStar {
  import opened Common

  /** A star as drawn. */
  datatype Star = Star(filled: bool, preview: bool)

  /** `_get_star_size`: pixel size of a star for the size setting; unknown settings use medium. */
  function StarSize(size: string): (px: int)
    ensures size == "small" ==> px == 16
    ensures size == "large" ==> px == 24
    ensures size != "small" && size != "large" ==> px == 20
    ensures 16 <= px <= 24
  {
    match size
    case "small" => 16
    case "large" => 24
    case _ => 20
  }

  /**
   * `StarLabel._update_display`: the glyph and the theme colour token: a
   * filled star in the preview colour, a filled star, an empty star.
   */
  function Glyph(s: Star): (r: (char, string))
    ensures r.0 == '★' <==> s.filled
    ensures r.0 == '☆' <==> !s.filled
    ensures r.1 == "warning" <==> s.filled && s.preview
    ensures r.1 == "primary" <==> s.filled && !s.preview
    ensures r.1 == "text_secondary" <==> !s.filled
  {
    if s.filled then ('★', if s.preview then "warning" else "primary")
    else ('☆', "text_secondary")
  }

  /** `range(max_stars)` creates no star for a maximum below 1. */
  function StarCount(maxStars: int): (n: nat)
    ensures maxStars >= 0 ==> n == maxStars
    ensures maxStars < 0 ==> n == 0
  {
    if maxStars > 0 then maxStars else 0
  }

  /** `set_rating`: the rating clamped to [0, max_stars]. */
  function Clamped(rating: int, maxStars: int): (c: int)
    ensures 0 <= c
    ensures maxStars >= 0 ==> c <= maxStars
    ensures 0 <= rating <= maxStars ==> c == rating
    ensures rating < 0 ==> c == 0
    ensures 0 <= maxStars < rating ==> c == maxStars
  {
    if rating < 0 then 0 else if rating <= maxStars then rating else if maxStars >= 0 then maxStars else 0
  }

  /** `_on_star_click`: clicking the star equal to the rating clears it, any other star sets it. */
  function ClickedRating(current: int, index: int): (r: int)
    ensures current == index ==> r == 0
    ensures current != index ==> r == index
  {
    if current == index then 0 else index
  }

  /**
   * The rating `_update_stars_display` shows: the hovered one while
   * previewing a hover, otherwise the current one.
   */
  function RatingShown(current: int, hover: int, preview: bool): (r: int)
    ensures preview && hover > 0 ==> r == hover
    ensures !(preview && hover > 0) ==> r == current
  {
    if preview && hover > 0 then hover else current
  }

  /** One star of the display: star `index` is filled iff `index <= shown`; only filled stars can be tinted. */
  function Paint(index: int, shown: int, tinted: bool): (s: Star)
    ensures s.filled <==> index <= shown
    ensures s.preview <==> index <= shown && tinted
  {
    if index <= shown then Star(true, tinted) else Star(false, false)
  }

  /**
   * The stars after `_update_stars_display` with `n` stars: the first
   * `shown` stars are filled, the rest are empty, and the filled ones carry
   * the preview colour when `tinted` (previewing, and not read-only).
   */
  function Display(n: nat, shown: int, tinted: bool): (r: seq<Star>)
    ensures |r| == n
    ensures forall i :: 0 <= i < n ==> (r[i].filled <==> i + 1 <= shown)
    ensures forall i :: 0 <= i < n ==> (r[i].preview <==> i + 1 <= shown && tinted)
  {
    seq(n, i requires 0 <= i < n => Paint(i + 1, shown, tinted))
  }

  /** How many of the stars are filled. */
  function FilledCount(s: seq<Star>): (k: nat)
    ensures k <= |s|
  {
    if s == [] then 0 else FilledCount(s[..|s| - 1]) + (if s[|s| - 1].filled then 1 else 0)
  }

  lemma DisplayLast(n: nat, shown: int, tinted: bool)
    requires n > 0
    ensures Display(n, shown, tinted)[..n - 1] == Display(n - 1, shown, tinted)
    ensures Display(n, shown, tinted)[n - 1] == Paint(n, shown, tinted)
  {
  }

  /**
   * The number of filled stars is the shown rating, cut to the range
   * [0, n]: a rating above the maximum fills every star, a negative one none.
   */
  lemma {:induction false} DisplayFilledCount(n: nat, shown: int, tinted: bool)
    ensures FilledCount(Display(n, shown, tinted)) == if shown < 0 then 0 else if shown <= n then shown else n
  {
    if n > 0 {
      DisplayLast(n, shown, tinted);
      DisplayFilledCount(n - 1, shown, tinted);
    }
  }

  /** The filled stars are always the leading ones: no empty star comes before a filled one. */
  lemma DisplayFilledPrefix(n: nat, shown: int, tinted: bool, i: nat, j: nat)
    requires i < j < n && Display(n, shown, tinted)[j].filled
    ensures Display(n, shown, tinted)[i].filled
  {
  }

  /** The text of the compact widget's rating label. */
  function RatingText(rating: int): (t: string)
    ensures t == "(" + IntToStr(rating) + ")"
    ensures |t| >= 3 && t[0] == '(' && t[|t| - 1] == ')'
  {
    "(" + IntToStr(rating) + ")"
  }

  class RatingStarWidget {
    var maxStars: int
    var currentRating: int
    var readOnly: bool
    const size: string
    var hoverRating: int
    var stars: seq<Star>
    /** The rating and the tint the stars were last drawn with. */
    ghost var shown: int
    ghost var tinted: bool
    /** Whether this is a `CompactRatingWidget`. */
    const compact: bool
    /**
     * The compact widget's "(n)" labels, oldest first; `_rating_label` is the
     * last. Every `_setup_ui` adds one, and the older ones stay in the row.
     */
    var ratingLabels: seq<string>
    /** Whether `stars` are the star labels in the widget's layout on screen. */
    var attached: bool

    /** The star labels the widget shows: none once they live in a layout Qt refused. */
    function OnScreen(): (r: seq<Star>)
      reads this
      ensures attached ==> r == stars
      ensures !attached ==> r == []
    {
      if attached then stars else []
    }

    /** One star per unit of the maximum, drawn for some shown rating; a compact widget has its label. */
    ghost predicate Valid()
      reads this
    {
      && stars == Display(StarCount(maxStars), shown, tinted)
      && (compact <==> ratingLabels != [])
    }

    /** `RatingStarWidget(max_stars, current_rating, read_only, size)`: the rating is kept as given, not clamped. */
    constructor (maxStars0: int, rating0: int, readOnly0: bool, size0: string)
      ensures Valid() && !compact && ratingLabels == []
      ensures maxStars == maxStars0 && currentRating == rating0 && readOnly == readOnly0 && size == size0
      ensures hoverRating == 0 && attached
      ensures stars == Display(StarCount(maxStars0), rating0, false)
    {
      maxStars, currentRating, readOnly, size, hoverRating := maxStars0, rating0, readOnly0, size0, 0;
      compact, ratingLabels, attached := false, [], true;
      stars := Repeat(Star(false, false), StarCount(maxStars0));
      new;
      Redraw(false);
    }

    /** `CompactRatingWidget(current_rating, read_only)`: five small stars followed by a "(n)" label. */
    constructor Compact(rating0: int, readOnly0: bool)
      ensures Valid() && compact && ratingLabels == [RatingText(rating0)]
      ensures maxStars == 5 && currentRating == rating0 && readOnly == readOnly0 && size == "small"
      ensures hoverRating == 0 && attached
      ensures stars == Display(5, rating0, false)
    {
      maxStars, currentRating, readOnly, size, hoverRating := 5, rating0, readOnly0, "small", 0;
      compact, ratingLabels, attached := true, [RatingText(rating0)], true;
      stars := Repeat(Star(false, false), 5);
      new;
      Redraw(false);
    }

    /**
     * `_update_stars_display(preview)`: every star is repainted, in order,
     * for the shown rating; the preview colour only when previewing and not
     * read-only.
     */
    method Redraw(preview: bool)
      modifies this`stars, this`shown, this`tinted
      ensures shown == RatingShown(currentRating, hoverRating, preview)
      ensures tinted == (preview && !readOnly)
      ensures stars == Display(|old(stars)|, shown, tinted)
    {
      var r := RatingShown(currentRating, hoverRating, preview);
      var t := preview && !readOnly;
      var s := stars;
      var i := 0;
      while i < |s|
        invariant 0 <= i <= |s| == |stars|
        invariant forall k :: 0 <= k < i ==> s[k] == Paint(k + 1, r, t)
      {
        s := s[i := Paint(i + 1, r, t)];
        i := i + 1;
      }
      stars, shown, tinted := s, r, t;
    }

    /** `_on_star_hover`: a read-only widget ignores it; otherwise the hovered star is previewed. */
    method Hover(index: int)
      requires Valid()
      modifies this`hoverRating, this`stars, this`shown, this`tinted
      ensures Valid()
      ensures old(readOnly) ==> hoverRating == old(hoverRating) && stars == old(stars)
      ensures !old(readOnly) ==>
        hoverRating == index && stars == Display(StarCount(maxStars), RatingShown(currentRating, index, true), true)
    {
      if !readOnly {
        hoverRating := index;
        Redraw(true);
      }
    }

    /**
     * `_on_star_click`: a read-only widget ignores it; otherwise the rating
     * toggles between the clicked star and 0, the hover is dropped, and
     * `rating_changed` carries the new rating.
     */
    method Click(index: int) returns (emitted: seq<int>)
      requires Valid()
      modifies this`currentRating, this`hoverRating, this`stars, this`shown, this`tinted
      ensures Valid()
      ensures old(readOnly) ==> emitted == [] && currentRating == old(currentRating) && stars == old(stars)
      ensures !old(readOnly) ==> currentRating == ClickedRating(old(currentRating), index) && hoverRating == 0
      ensures !old(readOnly) ==> emitted == [currentRating] && stars == Display(StarCount(maxStars), currentRating, false)
    {
      emitted := [];
      if !readOnly {
        currentRating, hoverRating := ClickedRating(currentRating, index), 0;
        Redraw(false);
        emitted := [currentRating];
      }
    }

    /** `leaveEvent`: unless read-only, the hover is dropped and the current rating shown again. */
    method Leave()
      requires Valid()
      modifies this`hoverRating, this`stars, this`shown, this`tinted
      ensures Valid()
      ensures old(readOnly) ==> hoverRating == old(hoverRating) && stars == old(stars)
      ensures !old(readOnly) ==> hoverRating == 0 && stars == Display(StarCount(maxStars), currentRating, false)
    {
      if !readOnly {
        hoverRating := 0;
        Redraw(false);
      }
    }

    /**
     * `set_rating`: the rating is clamped to [0, max_stars] and drawn; the
     * compact widget's label shows the value as passed, before clamping.
     */
    method SetRating(rating: int)
      requires Valid()
      modifies this`currentRating, this`stars, this`shown, this`tinted, this`ratingLabels
      ensures Valid()
      ensures currentRating == Clamped(rating, maxStars)
      ensures stars == Display(StarCount(maxStars), currentRating, false)
      ensures compact ==> ratingLabels == old(ratingLabels)[|old(ratingLabels)| - 1 := RatingText(rating)]
      ensures !compact ==> ratingLabels == old(ratingLabels)
    {
      currentRating := Clamped(rating, maxStars);
      Redraw(false);
      if compact {
        ratingLabels := ratingLabels[|ratingLabels| - 1 := RatingText(rating)];
      }
    }

    /** `set_read_only`: only the flag (and the cursor) changes; the stars are not repainted. */
    method SetReadOnly(ro: bool)
      modifies this`readOnly
      ensures readOnly == ro
    {
      readOnly := ro;
    }

    /**
     * `set_max_stars` as written: the same maximum changes nothing; another
     * one detaches the old stars, caps the rating at it and re-runs
     * `_setup_ui`, whose `QHBoxLayout(self)` Qt refuses because the widget
     * already has a layout. The new stars, drawn for the current rating (the
     * hover stays recorded), are kept but never shown. The compact widget
     * adds a fresh label to the layout that is on screen.
     */
    method SetMaxStars(m: int)
      requires Valid()
      modifies this`maxStars, this`currentRating, this`stars, this`shown, this`tinted, this`ratingLabels, this`attached
      ensures Valid()
      ensures m == old(maxStars) ==> currentRating == old(currentRating) && stars == old(stars)
      ensures m == old(maxStars) ==> ratingLabels == old(ratingLabels) && attached == old(attached)
      ensures m != old(maxStars) ==> !attached
      ensures maxStars == m
      ensures m != old(maxStars) ==> currentRating == (if old(currentRating) <= m then old(currentRating) else m)
      ensures m != old(maxStars) ==> stars == Display(StarCount(m), currentRating, false)
      ensures m != old(maxStars) ==> ratingLabels == old(ratingLabels) + (if compact then [RatingText(currentRating)] else [])
    {
      if m != maxStars {
        maxStars := m;
        currentRating := if currentRating <= m then currentRating else m;
        stars, attached := Repeat(Star(false, false), StarCount(m)), false;
        Redraw(false);
        if compact {
          ratingLabels := ratingLabels + [RatingText(currentRating)];
        }
      }
    }

    /**
     * `set_max_stars` as intended: the stars on screen are replaced by the
     * rebuilt ones, and the compact widget's label shows the capped rating.
     */
    method SetMaxStarsIntended(m: int)
      requires Valid()
      modifies this`maxStars, this`currentRating, this`stars, this`shown, this`tinted, this`ratingLabels
      ensures Valid() && maxStars == m && attached == old(attached)
      ensures m == old(maxStars) ==> currentRating == old(currentRating) && stars == old(stars)
      ensures m == old(maxStars) ==> ratingLabels == old(ratingLabels)
      ensures m != old(maxStars) ==> currentRating == (if old(currentRating) <= m then old(currentRating) else m)
      ensures m != old(maxStars) ==> stars == Display(StarCount(m), currentRating, false)
      ensures m != old(maxStars) && compact ==> ratingLabels == old(ratingLabels)[|old(ratingLabels)| - 1 := RatingText(currentRating)]
      ensures !compact ==> ratingLabels == old(ratingLabels)
    {
      if m != maxStars {
        maxStars := m;
        currentRating := if currentRating <= m then currentRating else m;
        stars := Repeat(Star(false, false), StarCount(m));
        Redraw(false);
        if compact {
          ratingLabels := ratingLabels[|ratingLabels| - 1 := RatingText(currentRating)];
        }
      }
    }
  }

  /** As written, a widget rated 3 of 5 shows no stars at all once its maximum becomes 10. */
  method StarsHiddenAfterSetMaxStars() returns (before: seq<Star>, after: seq<Star>)
    ensures |before| == 5 && before[2].filled && !before[3].filled
    ensures after == []
  {
    var w := new RatingStarWidget(5, 3, false, "medium");
    before := w.OnScreen();
    w.SetMaxStars(10);
    after := w.OnScreen();
  }

  /** As intended, the same widget shows ten stars, the first three filled. */
  method StarsShownAfterSetMaxStarsIntended() returns (after: seq<Star>)
    ensures |after| == 10 && after[2].filled && !after[3].filled
  {
    var w := new RatingStarWidget(5, 3, false, "medium");
    w.SetMaxStarsIntended(10);
    after := w.OnScreen();
  }

  /**
   * The compact widget's label keeps the value passed to `set_rating`, so
   * a rating above the maximum shows a label that disagrees with the stars.
   */
  lemma CompactLabelShowsUnclamped()
    ensures Clamped(7, 5) == 5
    ensures RatingText(7) != RatingText(Clamped(7, 5))
  {
    assert RatingText(7) == "(7)";
    assert RatingText(5) == "(5)";
  }
}
