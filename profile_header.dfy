// The header of a profile page: a banner, a clickable avatar, the name,
// an optional title, location and bio, a strip of named action buttons and
// a dictionary of statistics; a compact variant, a business variant (the
// industry as title, a founding date and website and contact buttons) and
// a social variant (an @-handle as title, post and follower counts, follow
// and message buttons).
//
// The variants reuse the plain header by holding one (`const header`).
// Whether the avatar's picture file loads is a parameter (`imageLoads`).

module ProfileHeader {
  import opened Common
  import opened PyDict
  import opened UserAvatar

  /** A statistic's value: the source stores numbers and text alike. */
  datatype StatValue = Count(n: int) | Text(s: string)

  /** The two layouts: the full header, and the compact one that overrides how the banner and the name row are built. */
  datatype Layout = Full | Compact

  /** The banner's background: the picture given at construction, or the theme gradient. */
  datatype Banner = Picture(path: string) | Gradient

  const FullBannerHeight := 200
  const CompactBannerHeight := 100
  const FullAvatarSize := 80
  const CompactAvatarSize := 60

  /** The location line starts with a pin. */
  const Pin := "\U{1F4CD} "

  function BannerFor(path: string): (b: Banner)
    ensures b.Picture? <==> path != ""
    ensures b.Picture? ==> b.path == path
  {
    if path != "" then Picture(path) else Gradient
  }

  /** How a statistic's value reads on screen (Python `str(value)`). */
  function ValueText(v: StatValue): (t: string)
    ensures v.Text? ==> t == v.s
    ensures v.Count? ==> t == IntToStr(v.n)
  {
    match v
    case Count(n) => IntToStr(n)
    case Text(s) => s
  }

  /** A statistic on screen: its value above its name. */
  datatype StatWidget = StatWidget(value: string, name: string)

  /** The statistics section: one widget per statistic, in the dictionary's order. */
  function StatsSection(stats: seq<Named<StatValue>>): (r: seq<StatWidget>)
    ensures |r| == |stats|
    ensures forall i :: 0 <= i < |stats| ==> r[i] == StatWidget(ValueText(stats[i].item), stats[i].name)
  {
    if stats == [] then [] else [StatWidget(ValueText(stats[0].item), stats[0].name)] + StatsSection(stats[1..])
  }

  class Header {
    const layout: Layout
    var name: string
    var title: string
    var bio: string
    var location: string
    var avatarPath: string
    var bannerPath: string
    /** The action buttons with the names their clicks report, in order. */
    var actions: seq<Named<ActionButton>>
    /** The statistics in insertion order; `Put` keeps their keys distinct (`PyDict.PutIsDict`). */
    var stats: seq<Named<StatValue>>
    var nameLabel: string
    var titleLabel: Option<string>
    var bioLabel: Option<string>
    /** Built once, and never updated: `set_location` changes only the field. */
    const locationLabel: Option<string>
    /** Built once from the statistics present at construction, which are none. */
    var statsShown: seq<StatWidget>
    const banner: Banner
    const bannerHeight: int
    /** The compact banner has no press handler. */
    const bannerClickable: bool
    const avatar: Avatar

    /** The avatar shows this header's user. */
    predicate Valid()
      reads this, avatar
    {
      avatar.name == name && avatar.imagePath == avatarPath && avatar.status == None
      && avatar.clickable && nameLabel == name
      && (bannerClickable <==> layout == Full)
    }

    /**
     * A header with no actions and no statistics; a title, location and bio
     * line only for non-empty values; the banner, avatar and banner press
     * as the layout builds them.
     */
    constructor (name: string, title: string, bio: string, location: string, avatarPath: string, bannerPath: string,
                 layout: Layout, imageLoads: bool)
      ensures Valid() && fresh(avatar)
      ensures this.layout == layout && this.name == name && this.title == title && this.bio == bio
      ensures this.location == location && this.avatarPath == avatarPath && this.bannerPath == bannerPath
      ensures actions == [] && stats == [] && statsShown == []
      ensures titleLabel == LabelFor(title) && bioLabel == LabelFor(bio)
      ensures locationLabel == if layout == Full && location != "" then Some(Pin + location) else None
      ensures banner == if layout == Full then BannerFor(bannerPath) else Gradient
      ensures bannerHeight == if layout == Full then FullBannerHeight else CompactBannerHeight
      ensures bannerClickable <==> layout == Full
      ensures avatar.size == if layout == Full then FullAvatarSize else CompactAvatarSize
      ensures avatar.face == FaceFor(name, avatarPath, imageLoads) && avatar.dots == []
    {
      this.layout, this.name, this.title, this.bio := layout, name, title, bio;
      this.location, this.avatarPath, this.bannerPath := location, avatarPath, bannerPath;
      actions, stats, statsShown := [], [], [];
      nameLabel := name;
      titleLabel, bioLabel := LabelFor(title), LabelFor(bio);
      locationLabel := if layout == Full && location != "" then Some(Pin + location) else None;
      banner := if layout == Full then BannerFor(bannerPath) else Gradient;
      bannerHeight := if layout == Full then FullBannerHeight else CompactBannerHeight;
      bannerClickable := layout == Full;
      avatar := new Avatar(name, avatarPath, if layout == Full then FullAvatarSize else CompactAvatarSize, None, imageLoads);
      new;
      avatar.SetClickable(true);
    }

    /** `add_action`: the button goes last under its given or default name. */
    method AddAction(text: string, actionName: Option<string>, variant: string)
      requires Valid()
      modifies this`actions
      ensures Valid()
      ensures actions == old(actions) + [Named(ActionName(text, actionName), ActionButton(text, variant))]
    {
      actions := actions + [Named(ActionName(text, actionName), ActionButton(text, variant))];
    }

    /** `remove_action`: the loop takes out the first button of that name; an absent name changes nothing. */
    method RemoveAction(actionName: string)
      modifies this`actions
      ensures actions == RemoveNamed(old(actions), actionName)
      ensures Names(actions) == RemoveFirst(Names(old(actions)), actionName)
    {
      var i := FindName(actions, actionName);
      if i != -1 {
        actions := actions[..i] + actions[i + 1..];
      }
    }

    /** Clicking an action button emits `action_clicked` with the name it was added under. */
    method ClickAction(i: nat) returns (emitted: string)
      requires i < |actions|
      ensures emitted == Names(actions)[i]
      ensures emitted in Names(actions)
    {
      emitted := actions[i].name;
    }

    /**
     * `add_stat` as written: the dictionary entry is added, or replaced in
     * place, but the statistics section on screen is not rebuilt.
     */
    method AddStat(statName: string, value: StatValue)
      requires Valid()
      modifies this`stats
      ensures Valid()
      ensures stats == Put(old(stats), statName, value)
    {
      stats := Put(stats, statName, value);
    }

    /** `add_stat` as its comment intends: the section on screen shows every statistic, in order. */
    method AddStatIntended(statName: string, value: StatValue)
      requires Valid()
      modifies this`stats, this`statsShown
      ensures Valid()
      ensures stats == Put(old(stats), statName, value)
      ensures statsShown == StatsSection(stats)
    {
      AddStat(statName, value);
      statsShown := StatsSection(stats);
    }

    /** `get_stats`: a copy of the statistics, in insertion order. */
    function GetStats(): (r: seq<Named<StatValue>>)
      reads this
      ensures Names(r) == Names(stats)
      ensures forall k :: Get(r, k) == Get(stats, k)
    {
      stats
    }

    /** `set_name`: the name, its label and the avatar follow. */
    method SetName(n: string, imageLoads: bool)
      requires Valid()
      modifies this`name, this`nameLabel, avatar`name, avatar`face, avatar`dots
      ensures Valid() && name == n && nameLabel == n
      ensures avatar.face == FaceFor(n, avatarPath, imageLoads) && avatar.dots == old(avatar.dots)
    {
      name, nameLabel := n, n;
      avatar.SetName(n, imageLoads);
    }

    /** `set_title`: the title changes; its line follows only if the header was built with one. */
    method SetTitle(t: string)
      requires Valid()
      modifies this`title, this`titleLabel
      ensures Valid()
      ensures title == t && titleLabel == Relabel(old(titleLabel), t)
    {
      title := t;
      titleLabel := Relabel(titleLabel, t);
    }

    /** `set_bio`: likewise for the bio. */
    method SetBio(b: string)
      modifies this`bio, this`bioLabel
      ensures bio == b && bioLabel == Relabel(old(bioLabel), b)
    {
      bio := b;
      bioLabel := Relabel(bioLabel, b);
    }

    /** `set_location`: only the field; the line on screen keeps the location it was built with. */
    method SetLocation(l: string)
      modifies this`location
      ensures location == l
    {
      location := l;
    }

    /** `set_avatar`: the header and its avatar take the picture path. */
    method SetAvatar(path: string, imageLoads: bool)
      requires Valid()
      modifies this`avatarPath, avatar`imagePath, avatar`face, avatar`dots
      ensures Valid() && avatarPath == path
      ensures avatar.face == FaceFor(name, path, imageLoads) && avatar.dots == old(avatar.dots)
    {
      avatarPath := path;
      avatar.SetImage(path, imageLoads);
    }

    /** `set_banner`: only the field; the banner keeps the background it was built with. */
    method SetBanner(path: string)
      modifies this`bannerPath
      ensures bannerPath == path
    {
      bannerPath := path;
    }

    /** A press on the banner emits `banner_clicked` for the left button, and never on the compact banner. */
    method BannerPress(left: bool) returns (emitted: bool)
      requires Valid()
      ensures emitted <==> layout == Full && left
    {
      emitted := bannerClickable && left;
    }

    /** A press on the avatar emits `avatar_clicked` for the left button. */
    method AvatarPress(left: bool) returns (emitted: bool)
      requires Valid()
      ensures emitted <==> left
    {
      emitted := avatar.MousePress(left);
    }
  }

  /** The compact header: no bio, no location, no banner picture. */
  class CompactHeader {
    const header: Header

    constructor (name: string, title: string, avatarPath: string, imageLoads: bool)
      ensures fresh(header) && header.Valid() && header.layout == Compact
      ensures header.name == name && header.title == title && header.titleLabel == LabelFor(title)
      ensures header.bio == "" && header.bioLabel == None && header.locationLabel == None
      ensures header.banner == Gradient && header.bannerHeight == CompactBannerHeight && !header.bannerClickable
      ensures header.avatar.size == CompactAvatarSize
    {
      header := new Header(name, title, "", "", avatarPath, "", Compact, imageLoads);
    }
  }

  // ---------------------------------------------------------------------
  // business profiles

  /** The two buttons every business header starts with. */
  const BusinessActions: seq<Named<ActionButton>> :=
    [Named("website", ActionButton("Visit Website", "secondary")), Named("contact", ActionButton("Contact", "primary"))]

  /** The statistics a business header starts with: the founding date, when there is one. */
  function BusinessStats(founded: string): (r: seq<Named<StatValue>>)
    ensures IsDict(r)
    ensures Get(r, "Founded") == if founded != "" then Some(Text(founded)) else None
    ensures |r| <= 1
  {
    if founded != "" then [Named("Founded", Text(founded))] else []
  }

  class BusinessHeader {
    const header: Header
    var industry: string
    var website: string
    var founded: string

    constructor (name: string, industry: string, website: string, founded: string, avatarPath: string,
                 bannerPath: string, imageLoads: bool)
      ensures fresh(header) && header.Valid() && header.layout == Full
      ensures this.industry == industry && this.website == website && this.founded == founded
      ensures header.name == name && header.title == industry && header.titleLabel == LabelFor(industry)
      ensures header.stats == BusinessStats(founded) && header.statsShown == []
      ensures header.actions == BusinessActions
    {
      header := new Header(name, industry, "", "", avatarPath, bannerPath, Full, imageLoads);
      this.industry, this.website, this.founded := industry, website, founded;
      new;
      AddBusinessInfo();
    }

    /**
     * `_add_business_info`: the industry as title again, the founding date
     * as a statistic when there is one, then the website and contact buttons.
     */
    method AddBusinessInfo()
      requires header.Valid()
      modifies header`title, header`titleLabel, header`stats, header`actions
      ensures header.Valid()
      ensures header.title == if industry != "" then industry else old(header.title)
      ensures header.titleLabel == if industry != "" then Relabel(old(header.titleLabel), industry) else old(header.titleLabel)
      ensures header.stats == if founded != "" then Put(old(header.stats), "Founded", Text(founded)) else old(header.stats)
      ensures header.actions == old(header.actions) + BusinessActions
    {
      AddBusinessTitle();
      AddBusinessStat();
      AddBusinessActions();
    }

    /** The title part of `_add_business_info`. */
    method AddBusinessTitle()
      requires header.Valid()
      modifies header`title, header`titleLabel
      ensures header.Valid()
      ensures header.title == if industry != "" then industry else old(header.title)
      ensures header.titleLabel == if industry != "" then Relabel(old(header.titleLabel), industry) else old(header.titleLabel)
    {
      if industry != "" {
        header.SetTitle(industry);
      }
    }

    /** The statistics part of `_add_business_info`. */
    method AddBusinessStat()
      requires header.Valid()
      modifies header`stats
      ensures header.Valid()
      ensures header.stats == if founded != "" then Put(old(header.stats), "Founded", Text(founded)) else old(header.stats)
    {
      if founded != "" {
        header.AddStat("Founded", Text(founded));
      }
    }

    /** The buttons part of `_add_business_info`. */
    method AddBusinessActions()
      requires header.Valid()
      modifies header`actions
      ensures header.Valid()
      ensures header.actions == old(header.actions) + BusinessActions
    {
      ghost var a0 := header.actions;
      header.AddAction("Visit Website", Some("website"), "secondary");
      header.AddAction("Contact", Some("contact"), "primary");
      ConcatAssoc(a0, [BusinessActions[0]], [BusinessActions[1]]);
    }

    /** `set_industry`: the industry is the title, and its line follows if it exists. */
    method SetIndustry(i: string)
      requires header.Valid()
      modifies this`industry, header`title, header`titleLabel
      ensures header.Valid()
      ensures industry == i && header.title == i
      ensures header.titleLabel == Relabel(old(header.titleLabel), i)
    {
      industry := i;
      header.SetTitle(i);
    }

    method SetWebsite(w: string)
      modifies this`website
      ensures website == w
    {
      website := w;
    }

    /** `set_founded`: only the field; the "Founded" statistic keeps its value. */
    method SetFounded(f: string)
      modifies this`founded
      ensures founded == f
    {
      founded := f;
    }
  }

  // ---------------------------------------------------------------------
  // social profiles

  /** The title a username gets: an @-handle, unless it is empty or already one. */
  function Handle(username: string): (h: string)
    ensures username == "" ==> h == ""
    ensures username != "" ==> h != [] && h[0] == '@'
    ensures username != "" && username[0] != '@' ==> h == "@" + username
    ensures username != "" && username[0] == '@' ==> h == username
  {
    if username != "" && username[0] != '@' then "@" + username else username
  }

  /** A handle is already a handle, and the username can be read back from it. */
  lemma HandleRoundTrip(username: string)
    ensures Handle(Handle(username)) == Handle(username)
    ensures username != "" && username[0] != '@' ==> Handle(username)[1..] == username
    ensures Handle(username) == username <==> username == "" || username[0] == '@'
  {
    if username != "" && username[0] != '@' {
      assert Handle(username) == "@" + username;
      assert |Handle(username)| == |username| + 1;
    }
  }

  /** The names of the three social statistics differ. */
  lemma SocialNamesDistinct()
    ensures "Posts" != "Followers" && "Posts" != "Following" && "Followers" != "Following"
  {
    assert "Posts"[0] == 'P' && "Followers"[0] == 'F' && "Following"[0] == 'F';
    assert "Followers"[6] == 'e' && "Following"[6] == 'i';
  }

  /** The social statistics, in their order on a social header. */
  function SocialStats(posts: int, followers: int, following: int): (r: seq<Named<StatValue>>)
    ensures IsDict(r) && Names(r) == ["Posts", "Followers", "Following"]
    ensures Get(r, "Posts") == Some(Count(posts))
    ensures Get(r, "Followers") == Some(Count(followers))
    ensures Get(r, "Following") == Some(Count(following))
  {
    var r := [Named("Posts", Count(posts)), Named("Followers", Count(followers)), Named("Following", Count(following))];
    assert Names(r) == ["Posts", "Followers", "Following"];
    SocialNamesDistinct();
    GetAt(r, 0);
    GetAt(r, 1);
    GetAt(r, 2);
    r
  }

  /** Three new keys put one after another into an empty dictionary stand in that order. */
  lemma PutThreeNew<T>(a: string, b: string, c: string, x: T, y: T, z: T)
    requires a != b && a != c && b != c
    ensures Put(Put(Put([], a, x), b, y), c, z) == [Named(a, x), Named(b, y), Named(c, z)]
  {
    PutNew([], a, x);
    PutSecondNew(a, b, x, y);
    PutThirdNew(a, b, c, x, y, z);
  }

  lemma PutSecondNew<T>(a: string, b: string, x: T, y: T)
    requires a != b
    ensures Put([Named(a, x)], b, y) == [Named(a, x), Named(b, y)]
  {
    assert Names([Named(a, x)]) == [a];
    PutNew([Named(a, x)], b, y);
  }

  lemma PutThirdNew<T>(a: string, b: string, c: string, x: T, y: T, z: T)
    requires a != c && b != c
    ensures Put([Named(a, x), Named(b, y)], c, z) == [Named(a, x), Named(b, y), Named(c, z)]
  {
    assert Names([Named(a, x), Named(b, y)]) == [a, b];
    PutNew([Named(a, x), Named(b, y)], c, z);
  }

  /** Putting the three keys of a three-entry dictionary again replaces each value in place. */
  lemma PutThreeAgain<T>(a: string, b: string, c: string, x: T, y: T, z: T, x1: T, y1: T, z1: T)
    requires a != b && a != c && b != c
    ensures Put(Put(Put([Named(a, x), Named(b, y), Named(c, z)], a, x1), b, y1), c, z1)
      == [Named(a, x1), Named(b, y1), Named(c, z1)]
  {
    PutFirstAgain(a, b, c, x, y, z, x1);
    PutSecondAgain(a, b, c, x1, y, z, y1);
    PutThirdAgain(a, b, c, x1, y1, z, z1);
  }

  lemma PutFirstAgain<T>(a: string, b: string, c: string, x: T, y: T, z: T, x1: T)
    ensures Put([Named(a, x), Named(b, y), Named(c, z)], a, x1) == [Named(a, x1), Named(b, y), Named(c, z)]
  {
    var d := [Named(a, x), Named(b, y), Named(c, z)];
    PutAtFirst(d, 0, x1);
    assert d[0 := Named(a, x1)] == [Named(a, x1), Named(b, y), Named(c, z)];
  }

  lemma PutSecondAgain<T>(a: string, b: string, c: string, x: T, y: T, z: T, y1: T)
    requires a != b
    ensures Put([Named(a, x), Named(b, y), Named(c, z)], b, y1) == [Named(a, x), Named(b, y1), Named(c, z)]
  {
    var d := [Named(a, x), Named(b, y), Named(c, z)];
    PutAtFirst(d, 1, y1);
    assert d[1 := Named(b, y1)] == [Named(a, x), Named(b, y1), Named(c, z)];
  }

  lemma PutThirdAgain<T>(a: string, b: string, c: string, x: T, y: T, z: T, z1: T)
    requires a != c && b != c
    ensures Put([Named(a, x), Named(b, y), Named(c, z)], c, z1) == [Named(a, x), Named(b, y), Named(c, z1)]
  {
    var d := [Named(a, x), Named(b, y), Named(c, z)];
    PutAtFirst(d, 2, z1);
    assert d[2 := Named(c, z1)] == [Named(a, x), Named(b, y), Named(c, z1)];
  }

  /** Setting the three counts one after another on an empty dictionary builds them in that order. */
  lemma SocialStatsFromEmpty(posts: int, followers: int, following: int)
    ensures Put(Put(Put([], "Posts", Count(posts)), "Followers", Count(followers)), "Following", Count(following))
      == SocialStats(posts, followers, following)
  {
    SocialNamesDistinct();
    PutThreeNew("Posts", "Followers", "Following", Count(posts), Count(followers), Count(following));
  }

  /** `set_social_stats` over the counts a social header starts with replaces them in place, keeping their order. */
  lemma SocialStatsUpdate(p0: int, f0: int, g0: int, posts: int, followers: int, following: int)
    ensures Put(Put(Put(SocialStats(p0, f0, g0), "Posts", Count(posts)), "Followers", Count(followers)), "Following", Count(following))
      == SocialStats(posts, followers, following)
  {
    SocialNamesDistinct();
    PutThreeAgain("Posts", "Followers", "Following", Count(p0), Count(f0), Count(g0), Count(posts), Count(followers), Count(following));
  }

  /** The two buttons every social header starts with. */
  const SocialActions: seq<Named<ActionButton>> :=
    [Named("follow", ActionButton("Follow", "primary")), Named("message", ActionButton("Message", "secondary"))]

  class SocialHeader {
    const header: Header
    /** The username as given; the title shows its handle. */
    var username: string

    constructor (name: string, username: string, bio: string, avatarPath: string, bannerPath: string, imageLoads: bool)
      ensures fresh(header) && header.Valid() && header.layout == Full
      ensures this.username == username && header.title == Handle(username)
      ensures header.titleLabel == LabelFor(Handle(username)) && header.bioLabel == LabelFor(bio)
      ensures header.stats == SocialStats(0, 0, 0) && header.statsShown == []
      ensures header.actions == SocialActions
    {
      header := new Header(name, Handle(username), bio, "", avatarPath, bannerPath, Full, imageLoads);
      new;
      AddSocialFeatures();
      this.username := username;
    }

    /** `_add_social_features`: the three counts at zero, then the Follow and Message buttons. */
    method AddSocialFeatures()
      requires header.Valid()
      modifies header`stats, header`actions
      ensures header.Valid()
      ensures old(header.stats) == [] ==> header.stats == SocialStats(0, 0, 0)
      ensures header.actions == old(header.actions) + SocialActions
    {
      AddSocialStats();
      AddSocialActions();
    }

    /** The statistics half of `_add_social_features`. */
    method AddSocialStats()
      requires header.Valid()
      modifies header`stats
      ensures header.Valid()
      ensures old(header.stats) == [] ==> header.stats == SocialStats(0, 0, 0)
    {
      ghost var s0 := header.stats;
      header.AddStat("Posts", Count(0));
      header.AddStat("Followers", Count(0));
      header.AddStat("Following", Count(0));
      if s0 == [] {
        SocialStatsFromEmpty(0, 0, 0);
      }
    }

    /** The buttons half of `_add_social_features`. */
    method AddSocialActions()
      requires header.Valid()
      modifies header`actions
      ensures header.Valid()
      ensures header.actions == old(header.actions) + SocialActions
    {
      ghost var a0 := header.actions;
      header.AddAction("Follow", Some("follow"), "primary");
      header.AddAction("Message", Some("message"), "secondary");
      ConcatAssoc(a0, [SocialActions[0]], [SocialActions[1]]);
    }

    /** `set_username`: the raw name is kept, and the title becomes its handle. */
    method SetUsername(u: string)
      requires header.Valid()
      modifies this`username, header`title, header`titleLabel
      ensures header.Valid()
      ensures username == u && header.title == Handle(u)
      ensures header.titleLabel == Relabel(old(header.titleLabel), Handle(u))
    {
      username := u;
      header.SetTitle(Handle(u));
    }

    /** `set_social_stats`: the three counts are set, each in its place; the section on screen is not rebuilt. */
    method SetSocialStats(posts: int, followers: int, following: int)
      requires header.Valid()
      modifies header`stats
      ensures header.Valid()
      ensures header.stats == Put(Put(Put(old(header.stats), "Posts", Count(posts)), "Followers", Count(followers)), "Following", Count(following))
      ensures Get(header.stats, "Posts") == Some(Count(posts))
      ensures Get(header.stats, "Followers") == Some(Count(followers))
      ensures Get(header.stats, "Following") == Some(Count(following))
    {
      header.AddStat("Posts", Count(posts));
      header.AddStat("Followers", Count(followers));
      header.AddStat("Following", Count(following));
    }
  }

  /** A social header holds three statistics and shows none of them. */
  method SocialStatsHidden() returns (stats: seq<Named<StatValue>>, shown: seq<StatWidget>)
    ensures |stats| == 3 && shown == []
  {
    var s := new SocialHeader("Ada", "ada", "", "", "", false);
    stats, shown := s.header.stats, s.header.statsShown;
  }

  /** With the intended `add_stat`, the same three statistics are on screen. */
  method SocialStatsShownIntended() returns (stats: seq<Named<StatValue>>, shown: seq<StatWidget>)
    ensures |stats| == 3 && shown == StatsSection(stats) && |shown| == 3
  {
    var h := new Header("Ada", "@ada", "", "", "", "", Full, false);
    SocialStatsFromEmpty(0, 0, 0);
    h.AddStatIntended("Posts", Count(0));
    h.AddStatIntended("Followers", Count(0));
    h.AddStatIntended("Following", Count(0));
    stats, shown := h.stats, h.statsShown;
  }
}
