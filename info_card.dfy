/**
 * Information cards: a title, subtitle and description shown as labels
 * in the body, a metric card whose description is built from a value, a
 * unit and a change, and a status card with a coloured dot in its header.
 *
 * A label is created only for a non-empty field; once created it stays
 * (Python's `hasattr`), and later setters write into it instead of
 * rebuilding. `None` stands for a label that was never created.
 */
module InfoCard {
  import opened Common
  import BaseCard

  /** `f"{value} {unit}"`, followed by `f" ({change})"` only for a non-empty change. */
  function MetricDescription(value: string, unit: string, change: string): (d: string)
    ensures |d| == |value| + 1 + |unit| + (if change != "" then |change| + 3 else 0)
    ensures d[..|value| + 1 + |unit|] == value + " " + unit
    ensures change == "" ==> d == value + " " + unit
    ensures change != "" ==> d[|value| + 1 + |unit|..] == " (" + change + ")"
    ensures d != ""
  {
    value + " " + unit + ChangeSuffix(change)
  }

  /** The metric parts can be read back from a description whose value and unit have no spaces. */
  lemma MetricDescriptionDeterminesParts(v1: string, u1: string, c1: string, v2: string, u2: string, c2: string)
    requires ' ' !in v1 && ' ' !in v2 && ' ' !in u1 && ' ' !in u2
    requires MetricDescription(v1, u1, c1) == MetricDescription(v2, u2, c2)
    ensures v1 == v2 && u1 == u2 && (c1 == "" <==> c2 == "") && (c1 != "" ==> c1 == c2)
  {
    var t1, t2 := ChangeSuffix(c1), ChangeSuffix(c2);
    MetricDescriptionShape(v1, u1, c1);
    MetricDescriptionShape(v2, u2, c2);
    SplitAtSpace(v1, " " + (u1 + t1), v2, " " + (u2 + t2));
    DropLeadingSpace(u1 + t1, u2 + t2);
    SplitAtSpace(u1, t1, u2, t2);
    if c1 != "" && c2 != "" {
      assert c1 == t1[2..|t1| - 1] == c2;
    }
  }

  lemma MetricDescriptionShape(v: string, u: string, c: string)
    ensures MetricDescription(v, u, c) == v + (" " + (u + ChangeSuffix(c)))
  {
  }

  lemma DropLeadingSpace(a: string, b: string)
    requires " " + a == " " + b
    ensures a == b
  {
    assert a == (" " + a)[1..];
  }

  function ChangeSuffix(change: string): (t: string)
    ensures |t| == if change != "" then |change| + 3 else 0
    ensures t == "" || t[0] == ' '
    ensures t == "" <==> change == ""
    ensures change != "" ==> t[2..|t| - 1] == change
  {
    if change != "" then " (" + change + ")" else ""
  }

  /** The colour token of a change: success for '+', danger for '-', text otherwise; an empty change recolours nothing. */
  function ChangeColorToken(change: string): (t: Option<string>)
    ensures t.None? <==> change == ""
    ensures change != "" && change[0] == '+' ==> t == Some("success")
    ensures change != "" && change[0] == '-' ==> t == Some("danger")
    ensures change != "" && change[0] != '+' && change[0] != '-' ==> t == Some("text")
  {
    if change == "" then None
    else if change[0] == '+' then Some("success")
    else if change[0] == '-' then Some("danger")
    else Some("text")
  }

  /** The colour token of a status dot; an unknown status uses text_secondary. */
  function StatusColorToken(status: string): (t: string)
    ensures status !in {"active", "inactive", "warning", "error", "pending"} ==> t == "text_secondary"
    ensures status == "active" ==> t == "success"
    ensures status == "error" ==> t == "danger"
  {
    if status == "active" then "success"
    else if status == "inactive" then "text_secondary"
    else if status == "warning" then "warning"
    else if status == "error" then "danger"
    else if status == "pending" then "info"
    else "text_secondary"
  }

  class InfoCardWidget {
    const card: BaseCard.Card
    var title: string
    var subtitle: string
    var description: string
    var hasIcon: bool
    var titleLabel: Option<string>
    var subtitleLabel: Option<string>
    var descriptionLabel: Option<string>
    /** The colour token of the description label. */
    var descriptionColor: string

    /** A label, once created, shows its field. */
    ghost predicate Valid()
      reads this
    {
      (titleLabel.Some? ==> titleLabel.value == title)
      && (subtitleLabel.Some? ==> subtitleLabel.value == subtitle)
      && (descriptionLabel.Some? ==> descriptionLabel.value == description)
    }

    constructor (title0: string, subtitle0: string, description0: string, hasIcon0: bool)
      ensures Valid() && fresh(card)
      ensures title == title0 && subtitle == subtitle0 && description == description0 && hasIcon == hasIcon0
      ensures titleLabel == (if title0 != "" then Some(title0) else None)
      ensures subtitleLabel == (if subtitle0 != "" then Some(subtitle0) else None)
      ensures descriptionLabel == (if description0 != "" then Some(description0) else None)
      ensures descriptionColor == "text"
    {
      card := new BaseCard.Card();
      title, subtitle, description, hasIcon := title0, subtitle0, description0, hasIcon0;
      titleLabel, subtitleLabel, descriptionLabel := None, None, None;
      descriptionColor := "text";
      new;
      SetupInfoUi();
    }

    /** Builds the body again: a label for every non-empty field; older labels stay in place. */
    method SetupInfoUi()
      modifies this`titleLabel, this`subtitleLabel, this`descriptionLabel, this`descriptionColor, card`body
      ensures titleLabel == if title != "" then Some(title) else old(titleLabel)
      ensures subtitleLabel == if subtitle != "" then Some(subtitle) else old(subtitleLabel)
      ensures descriptionLabel == if description != "" then Some(description) else old(descriptionLabel)
      ensures descriptionColor == if description != "" then "text" else old(descriptionColor)
      ensures card.body == ["content"]
    {
      if title != "" {
        titleLabel := Some(title);
      }
      if subtitle != "" {
        subtitleLabel := Some(subtitle);
      }
      if description != "" {
        descriptionLabel := Some(description);
        descriptionColor := "text";
      }
      card.SetBody("content");
    }

    method SetTitle(t: string)
      requires Valid()
      modifies this`title, this`titleLabel, this`subtitleLabel, this`descriptionLabel, this`descriptionColor, card`body
      ensures Valid() && title == t
      ensures old(titleLabel).Some? ==> titleLabel == Some(t)
      ensures old(titleLabel).Some? ==> subtitleLabel == old(subtitleLabel) && descriptionLabel == old(descriptionLabel)
    {
      title := t;
      if titleLabel.Some? {
        titleLabel := Some(t);
      } else {
        SetupInfoUi();
      }
    }

    method SetSubtitle(s: string)
      requires Valid()
      modifies this`subtitle, this`titleLabel, this`subtitleLabel, this`descriptionLabel, this`descriptionColor, card`body
      ensures Valid() && subtitle == s
      ensures old(subtitleLabel).Some? ==> subtitleLabel == Some(s)
      ensures old(subtitleLabel).Some? ==> titleLabel == old(titleLabel) && descriptionLabel == old(descriptionLabel)
    {
      subtitle := s;
      if subtitleLabel.Some? {
        subtitleLabel := Some(s);
      } else {
        SetupInfoUi();
      }
    }

    method SetDescription(d: string)
      requires Valid()
      modifies this`description, this`titleLabel, this`subtitleLabel, this`descriptionLabel, this`descriptionColor, card`body
      ensures Valid() && description == d
      ensures d != "" ==> descriptionLabel == Some(d)
      ensures old(descriptionLabel).Some? ==> descriptionLabel == Some(d) && descriptionColor == old(descriptionColor)
      ensures old(descriptionLabel).Some? ==> titleLabel == old(titleLabel) && subtitleLabel == old(subtitleLabel)
    {
      description := d;
      if descriptionLabel.Some? {
        descriptionLabel := Some(d);
      } else {
        SetupInfoUi();
      }
    }

    method SetIcon(icon: bool)
      requires Valid()
      modifies this`hasIcon, this`titleLabel, this`subtitleLabel, this`descriptionLabel, this`descriptionColor, card`body
      ensures Valid() && hasIcon == icon
    {
      hasIcon := icon;
      SetupInfoUi();
    }
  }

  /** A card showing a metric: its description always exists, so its colour follows every non-empty change. */
  class MetricInfoCard {
    const info: InfoCardWidget
    var value: string
    var unit: string
    var change: string

    ghost predicate Valid()
      reads this, info
    {
      info.Valid() && info.description == MetricDescription(value, unit, change)
      && info.descriptionLabel == Some(info.description)
    }

    constructor (title: string, value0: string, unit0: string, change0: string)
      ensures Valid() && fresh(info)
      ensures value == value0 && unit == unit0 && change == change0 && info.title == title
      ensures info.descriptionColor == if change0 != "" then ChangeColorToken(change0).value else "text"
    {
      value, unit, change := value0, unit0, change0;
      info := new InfoCardWidget(title, "", MetricDescription(value0, unit0, change0), false);
      new;
      SetupMetricStyling();
    }

    /** With a description label, a non-empty change recolours it; an empty one leaves its colour as it was. */
    method SetupMetricStyling()
      modifies info`descriptionColor
      ensures info.descriptionColor ==
                if info.descriptionLabel.Some? && change != "" then ChangeColorToken(change).value
                else old(info.descriptionColor)
    {
      if info.descriptionLabel.Some? {
        var t := ChangeColorToken(change);
        if t.Some? {
          info.descriptionColor := t.value;
        }
      }
    }

    method UpdateMetric(value0: string, unit0: string, change0: string)
      requires Valid()
      modifies this`value, this`unit, this`change, info`description, info`titleLabel, info`subtitleLabel,
               info`descriptionLabel, info`descriptionColor, info.card`body
      ensures Valid()
      ensures value == value0 && unit == unit0 && change == change0
      ensures info.description == MetricDescription(value0, unit0, change0)
      ensures info.descriptionColor == if change0 != "" then ChangeColorToken(change0).value else old(info.descriptionColor)
    {
      var d := MetricDescription(value0, unit0, change0);
      info.SetDescription(d);
      value, unit, change := value0, unit0, change0;
      SetupMetricStyling();
    }
  }

  /**
   * A card with a status dot. The first dot is placed in a new header;
   * while the header is visible, each later status adds another dot.
   */
  class StatusInfoCard {
    const info: InfoCardWidget
    var status: string
    /** The colour tokens of the dots in the header, oldest first. */
    var dots: seq<string>

    constructor (title: string, subtitle: string, description: string, status0: string)
      ensures fresh(info) && status == status0 && info.title == title
      ensures dots == [StatusColorToken(status0)] && info.card.headerVisible
    {
      info := new InfoCardWidget(title, subtitle, description, false);
      status, dots := status0, [];
      new;
      AddStatusIndicator();
    }

    method AddStatusIndicator()
      modifies this`dots, info.card`header, info.card`headerVisible
      ensures info.card.headerVisible
      ensures dots == if old(info.card.headerVisible) then old(dots) + [StatusColorToken(status)]
                      else [StatusColorToken(status)]
    {
      if info.card.headerVisible {
        dots := dots + [StatusColorToken(status)];
      } else {
        info.card.SetHeader("status");
        dots := [StatusColorToken(status)];
      }
    }

    method SetStatus(s: string)
      modifies this`status, this`dots, info.card`header, info.card`headerVisible
      ensures status == s && info.card.headerVisible
      ensures dots == if old(info.card.headerVisible) then old(dots) + [StatusColorToken(s)] else [StatusColorToken(s)]
    {
      status := s;
      AddStatusIndicator();
    }
  }
}
