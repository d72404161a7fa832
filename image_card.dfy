/**
 * Image cards: an image with an overlay for the title and description, a
 * gallery that pages through a list of images with a "k / n" counter, and
 * a product card with a star rating. Whether an image file loads is a
 * parameter (files are not read here).
 */
module ImageCard {
  import opened Common
  import BaseCard

  /** What the image label shows: a loaded picture, or a text in its place. */
  datatype ImageView = Picture(path: string) | Placeholder(text: string)

  /** "No Image" without a path, the picture when it loads, "Invalid Image" when it does not. */
  function ViewOf(path: string, loads: bool): (v: ImageView)
    ensures path == "" <==> v == Placeholder("No Image")
    ensures path != "" && loads <==> v == Picture(path)
    ensures path != "" && !loads <==> v == Placeholder("Invalid Image")
  {
    if path == "" then Placeholder("No Image")
    else if loads then Picture(path)
    else Placeholder("Invalid Image")
  }

  /** The counter "{index + 1} / {count}". */
  function CounterText(index: int, count: nat): string {
    IntToStr(index + 1) + " / " + IntToStr(count)
  }

  /** Two counters read the same only for the same position and count. */
  lemma CounterTextInjective(i1: int, n1: nat, i2: int, n2: nat)
    requires i1 >= -1 && i2 >= -1
    requires CounterText(i1, n1) == CounterText(i2, n2)
    ensures i1 == i2 && n1 == n2
  {
    CounterTextParts(i1, n1);
    CounterTextParts(i2, n2);
    SplitAtSpace(NatToStr(i1 + 1), " / " + NatToStr(n1), NatToStr(i2 + 1), " / " + NatToStr(n2));
    NatToStrInjective(i1 + 1, i2 + 1);
    SeparatorTail(NatToStr(n1), NatToStr(n2));
    NatToStrInjective(n1, n2);
  }

  /** The counter is a run of digits, then the separator " / " and the count. */
  lemma CounterTextParts(i: int, n: nat)
    requires i >= -1
    ensures CounterText(i, n) == NatToStr(i + 1) + (" / " + NatToStr(n))
    ensures ' ' !in NatToStr(i + 1)
  {
    var a := NatToStr(i + 1);
    assert forall k :: 0 <= k < |a| ==> IsDigit(a[k]);
  }

  lemma SeparatorTail(b1: string, b2: string)
    requires " / " + b1 == " / " + b2
    ensures b1 == b2
  {
    assert b1 == (" / " + b1)[3..];
    assert b2 == (" / " + b2)[3..];
  }

  /**
   * "★" for each whole star of the rating (`int(rating)`, which truncates),
   * then "☆" up to five; no label for a rating that is not positive. A
   * rating below 1 shows five empty stars.
   */
  function StarsText(rating: real): (t: Option<string>)
    ensures rating <= 0.0 <==> t.None?
    ensures rating > 0.0 ==> |t.value| == if rating.Floor > 5 then rating.Floor else 5
    ensures rating > 0.0 ==> forall k :: 0 <= k < |t.value| ==> t.value[k] == if k < rating.Floor then '★' else '☆'
  {
    if rating <= 0.0 then None
    else
      var whole := rating.Floor;
      Some(Repeat('★', whole) + Repeat('☆', if whole < 5 then 5 - whole else 0))
  }

  class ImageCardWidget {
    const card: BaseCard.Card
    var imagePath: string
    var title: string
    var description: string
    var view: ImageView
    /** The overlay exists when there is a title or a description. */
    var hasOverlay: bool

    constructor (path: string, title0: string, description0: string, loads: bool)
      ensures fresh(card) && imagePath == path && title == title0 && description == description0
      ensures view == ViewOf(path, loads)
      ensures hasOverlay == (title0 != "" || description0 != "")
    {
      card := new BaseCard.Card();
      imagePath, title, description := path, title0, description0;
      view := ViewOf(path, loads);
      hasOverlay := title0 != "" || description0 != "";
    }

    /** Rebuilds the image area: the view and the overlay follow the fields. */
    method SetupUi(loads: bool)
      modifies this`view, this`hasOverlay
      ensures view == ViewOf(imagePath, loads)
      ensures hasOverlay == (title != "" || description != "")
    {
      view := ViewOf(imagePath, loads);
      hasOverlay := title != "" || description != "";
    }

    /** A new path loads when non-empty; an empty path leaves the label as it was. */
    method SetImage(path: string, loads: bool)
      modifies this`imagePath, this`view
      ensures imagePath == path
      ensures view == if path == "" then old(view) else ViewOf(path, loads)
    {
      imagePath := path;
      if path != "" {
        view := ViewOf(path, loads);
      }
    }

    method SetTitle(t: string, loads: bool)
      modifies this`title, this`view, this`hasOverlay
      ensures title == t && view == ViewOf(imagePath, loads)
      ensures hasOverlay == (t != "" || description != "")
    {
      title := t;
      SetupUi(loads);
    }

    method SetDescription(d: string, loads: bool)
      modifies this`description, this`view, this`hasOverlay
      ensures description == d && view == ViewOf(imagePath, loads)
      ensures hasOverlay == (title != "" || d != "")
    {
      description := d;
      SetupUi(loads);
    }

    /** A left click on the image emits `image_clicked`. */
    method ImageClick(leftButton: bool) returns (imageClicked: bool)
      ensures imageClicked == leftButton
    {
      imageClicked := leftButton;
    }
  }

  /**
   * A gallery. Its index is whatever it was given or stepped to: it may be
   * negative (Python then counts from the end), it becomes -1 when the last
   * image is removed, and adding images does not reset it. A step or a
   * removal that lands on an index Python cannot look up raises
   * `IndexError` after the index has changed and before the counter is
   * updated.
   */
  class GalleryCard {
    const image: ImageCardWidget
    var images: seq<string>
    var currentIndex: int
    /** The counter label exists only when the gallery started with more than one image. */
    var counter: Option<string>

    /** `GalleryCard(images, current_index)` for a start the image lookup accepts. */
    constructor (images0: seq<string>, startIndex: int, loads: bool)
      requires images0 != [] ==> InRange(|images0|, startIndex)
      ensures fresh(image)
      ensures images == images0 && currentIndex == startIndex
      ensures image.imagePath == if images0 != [] then PyIndex(images0, startIndex) else ""
      ensures counter == if |images0| > 1 then Some(CounterText(startIndex, |images0|)) else None
    {
      images, currentIndex := images0, startIndex;
      image := new ImageCardWidget(if images0 != [] then PyIndex(images0, startIndex) else "", "", "", loads);
      counter := if |images0| > 1 then Some(CounterText(startIndex, |images0|)) else None;
    }

    /**
     * Constructing a gallery: with images, an index Python cannot look up
     * raises `IndexError` and no card is made; without images any index is
     * kept.
     */
    static method Create(images0: seq<string>, startIndex: int, loads: bool) returns (g: Option<GalleryCard>)
      ensures g.None? <==> images0 != [] && !InRange(|images0|, startIndex)
      ensures g.Some? ==> fresh(g.value) && fresh(g.value.image)
      ensures g.Some? ==> g.value.images == images0 && g.value.currentIndex == startIndex
    {
      if images0 != [] && !InRange(|images0|, startIndex) {
        return None;
      }
      var c := new GalleryCard(images0, startIndex, loads);
      g := Some(c);
    }

    method UpdateCounter()
      modifies this`counter
      ensures counter == if old(counter).Some? then Some(CounterText(currentIndex, |images|)) else None
    {
      if counter.Some? {
        counter := Some(CounterText(currentIndex, |images|));
      }
    }

    /**
     * Shows the image at the new index and updates the counter; an index
     * Python cannot look up raises `IndexError` instead.
     */
    method ShowCurrent(loads: bool) returns (indexError: bool)
      requires images != []
      modifies this`counter, image`imagePath, image`view
      ensures indexError <==> !InRange(|images|, currentIndex)
      ensures indexError ==> counter == old(counter) && image.imagePath == old(image.imagePath)
      ensures !indexError ==> image.imagePath == PyIndex(images, currentIndex)
      ensures !indexError ==> counter == if old(counter).Some? then Some(CounterText(currentIndex, |images|)) else None
    {
      indexError := !InRange(|images|, currentIndex);
      if !indexError {
        image.SetImage(PyIndex(images, currentIndex), loads);
        UpdateCounter();
      }
    }

    /** Moves back by one while the index is above 0. */
    method PreviousImage(loads: bool) returns (indexError: bool)
      modifies this`currentIndex, this`counter, image`imagePath, image`view
      ensures currentIndex == if old(images) != [] && old(currentIndex) > 0 then old(currentIndex) - 1 else old(currentIndex)
      ensures indexError <==> currentIndex != old(currentIndex) && currentIndex >= |images|
      ensures currentIndex != old(currentIndex) && !indexError ==> image.imagePath == images[currentIndex]
      ensures currentIndex == old(currentIndex) || indexError ==> counter == old(counter)
      ensures currentIndex != old(currentIndex) && !indexError ==>
                counter == if old(counter).Some? then Some(CounterText(currentIndex, |images|)) else None
    {
      indexError := false;
      if images != [] && currentIndex > 0 {
        currentIndex := currentIndex - 1;
        indexError := ShowCurrent(loads);
      }
    }

    /** Moves on by one while the index is below the last position. */
    method NextImage(loads: bool) returns (indexError: bool)
      modifies this`currentIndex, this`counter, image`imagePath, image`view
      ensures currentIndex == if old(images) != [] && old(currentIndex) < |old(images)| - 1 then old(currentIndex) + 1 else old(currentIndex)
      ensures indexError <==> currentIndex != old(currentIndex) && currentIndex < -|images|
      ensures currentIndex != old(currentIndex) && !indexError ==> image.imagePath == PyIndex(images, currentIndex)
      ensures currentIndex == old(currentIndex) || indexError ==> counter == old(counter)
      ensures currentIndex != old(currentIndex) && !indexError ==>
                counter == if old(counter).Some? then Some(CounterText(currentIndex, |images|)) else None
    {
      indexError := false;
      if images != [] && currentIndex < |images| - 1 {
        currentIndex := currentIndex + 1;
        indexError := ShowCurrent(loads);
      }
    }

    /** Appends; the new image is displayed only when it is the first one. */
    method AddImage(path: string, loads: bool)
      modifies this`images, this`counter, image`imagePath, image`view
      ensures images == old(images) + [path] && currentIndex == old(currentIndex)
      ensures image.imagePath == if old(images) == [] then path else old(image.imagePath)
      ensures counter == if old(counter).Some? then Some(CounterText(currentIndex, |images|)) else None
    {
      images := images + [path];
      if |images| == 1 {
        image.SetImage(path, loads);
      }
      UpdateCounter();
    }

    /**
     * Ignores an index out of range. Otherwise deletes it; an index that
     * falls off the end becomes the last position, -1 for an empty list;
     * the image at the index is shown unless Python cannot look it up.
     */
    method RemoveImage(index: int, loads: bool) returns (indexError: bool)
      modifies this`images, this`currentIndex, this`counter, image`imagePath, image`view
      ensures !(0 <= index < |old(images)|) ==> images == old(images) && currentIndex == old(currentIndex) && !indexError
      ensures 0 <= index < |old(images)| ==> images == DeleteAt(old(images), index)
      ensures 0 <= index < |old(images)| ==>
                currentIndex == if old(currentIndex) >= |images| then |images| - 1 else old(currentIndex)
      ensures indexError <==> 0 <= index < |old(images)| && images != [] && !InRange(|images|, currentIndex)
      ensures 0 <= index < |old(images)| && images != [] && !indexError ==> image.imagePath == PyIndex(images, currentIndex)
      ensures !(0 <= index < |old(images)|) || indexError ==> counter == old(counter)
      ensures 0 <= index < |old(images)| && !indexError ==>
                counter == if old(counter).Some? then Some(CounterText(currentIndex, |images|)) else None
    {
      indexError := false;
      if 0 <= index < |images| {
        images := images[..index] + images[index + 1..];
        if currentIndex >= |images| {
          currentIndex := |images| - 1;
        }
        if images != [] {
          indexError := ShowCurrent(loads);
        } else {
          UpdateCounter();
        }
      }
    }

    /** Replaces the images and goes back to the first. */
    method SetImages(images0: seq<string>, loads: bool)
      modifies this`images, this`currentIndex, this`counter, image`imagePath, image`view
      ensures images == images0 && currentIndex == 0
      ensures images0 != [] ==> image.imagePath == images0[0]
      ensures counter == if old(counter).Some? then Some(CounterText(0, |images0|)) else None
    {
      images, currentIndex := images0, 0;
      if images != [] {
        image.SetImage(images[0], loads);
      }
      UpdateCounter();
    }
  }

  /** Emptying a gallery leaves index -1, and the next image added does not reset it. */
  method GalleryIndexQuirk() returns (index: int)
    ensures index == -1
  {
    var g := new GalleryCard(["a.png"], 0, true);
    var _ := g.RemoveImage(0, true);
    g.AddImage("b.png", true);
    index := g.currentIndex;
  }

  /**
   * An empty gallery keeps any start index; after an image is added,
   * stepping back from index 5 lands on 4, which the one-image list cannot
   * look up.
   */
  method EmptyGalleryStepRaises() returns (indexError: bool)
    ensures indexError
  {
    var g := new GalleryCard([], 5, true);
    g.AddImage("a.png", true);
    indexError := g.PreviousImage(true);
  }

  /** A negative start counts from the end: -1 shows the last image, and the counter reads "0 / 3". */
  method NegativeStartShowsLast() returns (path: string, counter: Option<string>)
    ensures path == "c.png" && counter == Some(CounterText(-1, 3))
  {
    var g := new GalleryCard(["a.png", "b.png", "c.png"], -1, true);
    path, counter := g.image.imagePath, g.counter;
  }

  /**
   * A product card. Each price or rating change adds another info row
   * under the image; the newest row is last.
   */
  class ProductCard {
    const image: ImageCardWidget
    var name: string
    var price: string
    var rating: real
    /** The info rows added so far: the name, price and stars each shows (None for a label left out). */
    var infoRows: seq<(Option<string>, Option<string>, Option<string>)>

    constructor (path: string, name0: string, price0: string, rating0: real, loads: bool)
      ensures fresh(image) && name == name0 && price == price0 && rating == rating0
      ensures image.title == name0
      ensures infoRows == [InfoRow(name0, price0, rating0)]
    {
      image := new ImageCardWidget(path, name0, "", loads);
      name, price, rating := name0, price0, rating0;
      infoRows := [InfoRow(name0, price0, rating0)];
    }

    static function InfoRow(name: string, price: string, rating: real): (row: (Option<string>, Option<string>, Option<string>))
      ensures row.0.Some? <==> name != ""
      ensures row.1.Some? <==> price != ""
      ensures row.2 == StarsText(rating)
    {
      (if name != "" then Some(name) else None, if price != "" then Some(price) else None, StarsText(rating))
    }

    method SetPrice(p: string)
      modifies this`price, this`infoRows
      ensures price == p && infoRows == old(infoRows) + [InfoRow(name, p, rating)]
    {
      price := p;
      infoRows := infoRows + [InfoRow(name, price, rating)];
    }

    method SetRating(r: real)
      modifies this`rating, this`infoRows
      ensures rating == r && infoRows == old(infoRows) + [InfoRow(name, price, r)]
    {
      rating := r;
      infoRows := infoRows + [InfoRow(name, price, rating)];
    }

    /**
     * The name is shown as the image title. The image card's rebuilt body
     * goes in through `set_body`, which first detaches everything in the
     * body layout, so every info row added so far leaves the card.
     */
    method SetName(n: string, loads: bool)
      modifies this`name, this`infoRows, image`title, image`view, image`hasOverlay
      ensures name == n && image.title == n
      ensures infoRows == []
    {
      name := n;
      image.SetTitle(n, loads);
      infoRows := [];
    }

    /** `set_description`, inherited from the image card, rebuilds the body the same way and so also drops the info rows. */
    method SetDescription(d: string, loads: bool)
      modifies this`infoRows, image`description, image`view, image`hasOverlay
      ensures image.description == d && image.title == old(image.title)
      ensures infoRows == []
    {
      image.SetDescription(d, loads);
      infoRows := [];
    }
  }
}
