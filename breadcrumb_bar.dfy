/**
 * A breadcrumb trail: path segments shown left to right with separators,
 * compressed to the first segment, an ellipsis and the last few segments
 * when there are more than `maxItems`. Every segment but the last is a
 * link that reports its index in the full path.
 */
module BreadcrumbBar {
  import opened Common

  /** The segments shown: all of them, or the first, "..." and `paths[-(maxItems - 2):]`. */
  function DisplayPaths(paths: seq<string>, maxItems: int): (d: seq<string>)
    requires paths != []
    ensures d != []
  {
    if |paths| > maxItems then [paths[0], "..."] + PyDrop(paths, -(maxItems - 2)) else paths
  }

  /** Up to `maxItems` segments are shown as they are; beyond that, the first, "..." and the last `maxItems - 2` (all of them again for `maxItems` 2). */
  lemma DisplayPathsShape(paths: seq<string>, maxItems: int)
    requires paths != []
    ensures |paths| <= maxItems ==> DisplayPaths(paths, maxItems) == paths
    ensures |paths| > maxItems >= 3 ==>
              DisplayPaths(paths, maxItems) == [paths[0], "..."] + paths[|paths| - (maxItems - 2)..]
              && |DisplayPaths(paths, maxItems)| == maxItems
    ensures |paths| > maxItems == 2 ==> DisplayPaths(paths, maxItems) == [paths[0], "..."] + paths
  {
  }

  /** The index in the full path that the `i`-th displayed segment reports. */
  function ActualIndex(n: int, shown: int, maxItems: int, i: int): int
  {
    if n > maxItems && i > 1 then n - (shown - i)
    else if i < n then i
    else n - 1
  }

  datatype Crumb = Link(text: string, index: int) | Current(text: string) | Dots | Sep(text: string)

  /** The widget for the `i`-th displayed segment: "..." is an ellipsis, the last one a plain label, the others links. */
  function CrumbAt(paths: seq<string>, maxItems: int, i: int): Crumb
    requires paths != [] && 0 <= i < |DisplayPaths(paths, maxItems)|
  {
    CrumbOf(DisplayPaths(paths, maxItems), |paths|, maxItems, i)
  }

  /** The same, given the displayed segments `d` of a path of `n` segments. */
  function CrumbOf(d: seq<string>, n: int, maxItems: int, i: int): Crumb
    requires 0 <= i < |d|
  {
    if d[i] == "..." then Dots
    else if i == |d| - 1 then Current(d[i])
    else Link(d[i], ActualIndex(n, |d|, maxItems, i))
  }

  /** A link reports a position of the full path holding its own text; the plain label shows the last segment. */
  lemma CrumbsPointAtTheirText(paths: seq<string>, maxItems: int, i: int)
    requires paths != [] && 0 <= i < |DisplayPaths(paths, maxItems)|
    ensures CrumbAt(paths, maxItems, i).Link? ==>
              var k := CrumbAt(paths, maxItems, i).index; 0 <= k < |paths| && paths[k] == CrumbAt(paths, maxItems, i).text
    ensures CrumbAt(paths, maxItems, i).Current? ==> paths != [] && CrumbAt(paths, maxItems, i).text == paths[|paths| - 1]
  {
    var d := DisplayPaths(paths, maxItems);
    var n := |paths|;
    if n > maxItems {
      var tail := PyDrop(paths, -(maxItems - 2));
      var st := n - |tail|;
      assert tail == paths[st..];
      if i > 1 {
        assert d[i] == tail[i - 2] == paths[st + i - 2];
        assert ActualIndex(n, |d|, maxItems, i) == st + i - 2;
      }
      if i == |d| - 1 && i > 1 {
        assert d[i] == paths[n - 1];
      }
    }
  }

  /** The crumbs between separators: the `i`-th displayed segment at `2i`, the separator at `2i + 1`. */
  ghost predicate IsCrumbBar(crumbs: seq<Crumb>, paths: seq<string>, maxItems: int, separator: string)
  {
    if paths == [] then crumbs == []
    else
      var d := DisplayPaths(paths, maxItems);
      |crumbs| == 2 * |d| - 1
      && (forall i :: 0 <= i < |d| ==> crumbs[2 * i] == CrumbAt(paths, maxItems, i))
      && (forall i :: 0 <= i < |d| - 1 ==> crumbs[2 * i + 1] == Sep(separator))
  }

  /** The first `i` displayed segments as crumbs, each followed by a separator unless it is the last shown. */
  ghost function CrumbPrefix(d: seq<string>, n: int, maxItems: int, separator: string, i: nat): seq<Crumb>
    requires i <= |d|
  {
    if i == 0 then []
    else CrumbPrefix(d, n, maxItems, separator, i - 1) + [CrumbOf(d, n, maxItems, i - 1)]
         + (if i - 1 < |d| - 1 then [Sep(separator)] else [])
  }

  /** The layout of a crumb prefix: segment `k` at `2k`, separators between, the plain label only at the very end. */
  lemma {:induction false} CrumbPrefixShape(d: seq<string>, n: int, maxItems: int, separator: string, i: nat)
    requires 0 < |d| && i <= |d|
    ensures var c := CrumbPrefix(d, n, maxItems, separator, i);
      |c| == (if i < |d| then 2 * i else 2 * i - 1)
      && (forall k :: 0 <= k < i ==> c[2 * k] == CrumbOf(d, n, maxItems, k))
      && (forall k :: 0 <= k < i && k < |d| - 1 ==> c[2 * k + 1] == Sep(separator))
      && (forall j :: 0 <= j < |c| && c[j].Current? ==> j == 2 * |d| - 2)
  {
    if i > 0 {
      CrumbPrefixShape(d, n, maxItems, separator, i - 1);
      var p := CrumbPrefix(d, n, maxItems, separator, i - 1);
      var c := CrumbPrefix(d, n, maxItems, separator, i);
      assert |p| == 2 * (i - 1);
      assert forall k :: 0 <= k < |p| ==> c[k] == p[k];
      assert c[2 * (i - 1)] == CrumbOf(d, n, maxItems, i - 1);
    }
  }

  /** Every link of a crumb bar reports a position of the full path holding its own text. */
  lemma LinksPointAtTheirText(crumbs: seq<Crumb>, paths: seq<string>, maxItems: int, separator: string, j: int)
    requires IsCrumbBar(crumbs, paths, maxItems, separator) && 0 <= j < |crumbs|
    ensures crumbs[j].Link? ==> 0 <= crumbs[j].index < |paths| && paths[crumbs[j].index] == crumbs[j].text
  {
    assert paths != [];
    var d := DisplayPaths(paths, maxItems);
    var k := j / 2;
    assert 0 <= k < |d|;
    if j == 2 * k {
      assert crumbs[2 * k] == CrumbAt(paths, maxItems, k);
      CrumbsPointAtTheirText(paths, maxItems, k);
    } else {
      assert j == 2 * k + 1 && k < |d| - 1;
      assert crumbs[2 * k + 1] == Sep(separator);
    }
  }

  /** `_update_breadcrumbs`: one widget per displayed segment, a separator after each but the last. */
  method BuildCrumbs(paths: seq<string>, maxItems: int, separator: string) returns (crumbs: seq<Crumb>)
    ensures IsCrumbBar(crumbs, paths, maxItems, separator)
    ensures forall j :: 0 <= j < |crumbs| && crumbs[j].Current? ==> j == |crumbs| - 1
  {
    crumbs := [];
    if paths == [] {
      return;
    }
    var d := DisplayPaths(paths, maxItems);
    var i := 0;
    while i < |d|
      invariant 0 <= i <= |d|
      invariant crumbs == CrumbPrefix(d, |paths|, maxItems, separator, i)
    {
      var c: Crumb;
      if d[i] == "..." {
        c := Dots;
      } else {
        var actual := if |paths| > maxItems && i > 1 then |paths| - (|d| - i) else if i < |paths| then i else |paths| - 1;
        c := if i == |d| - 1 then Current(d[i]) else Link(d[i], actual);
      }
      assert c == CrumbOf(d, |paths|, maxItems, i);
      crumbs := crumbs + [c];
      if i < |d| - 1 {
        crumbs := crumbs + [Sep(separator)];
      }
      i := i + 1;
    }
    CrumbPrefixShape(d, |paths|, maxItems, separator, |d|);
  }

  class BreadcrumbBarWidget {
    var separator: string
    var maxItems: int
    var paths: seq<string>
    var crumbs: seq<Crumb>

    ghost predicate Valid()
      reads this
    {
      IsCrumbBar(crumbs, paths, maxItems, separator)
    }

    constructor (separator0: string, maxItems0: int)
      ensures Valid() && separator == separator0 && maxItems == maxItems0 && paths == []
    {
      separator, maxItems, paths, crumbs := separator0, maxItems0, [], [];
    }

    method Update()
      modifies this`crumbs
      ensures Valid()
    {
      crumbs := BuildCrumbs(paths, maxItems, separator);
    }

    method SetPaths(ps: seq<string>)
      modifies this`paths, this`crumbs
      ensures Valid() && paths == ps
    {
      paths := ps;
      Update();
    }

    method AddPath(p: string)
      modifies this`paths, this`crumbs
      ensures Valid() && paths == old(paths) + [p]
    {
      paths := paths + [p];
      Update();
    }

    /** Drops the last segment; an empty trail is left alone. */
    method RemoveLastPath()
      requires Valid()
      modifies this`paths, this`crumbs
      ensures Valid()
      ensures paths == if old(paths) == [] then [] else old(paths)[..|old(paths)| - 1]
    {
      if paths != [] {
        paths := paths[..|paths| - 1];
        Update();
      }
    }

    method ClearPaths()
      modifies this`paths, this`crumbs
      ensures Valid() && paths == [] && crumbs == []
    {
      paths := [];
      Update();
    }

    /** Keeps the segments up to and including `index`; an index out of range changes nothing. */
    method NavigateToIndex(index: int)
      requires Valid()
      modifies this`paths, this`crumbs
      ensures Valid()
      ensures 0 <= index < |old(paths)| ==> paths == old(paths)[..index + 1] && paths[|paths| - 1] == old(paths)[index]
      ensures !(0 <= index < |old(paths)|) ==> paths == old(paths)
    {
      if 0 <= index < |paths| {
        paths := paths[..index + 1];
        Update();
      }
    }

    method GetCurrentPath() returns (p: string)
      ensures paths != [] ==> p == paths[|paths| - 1]
      ensures paths == [] ==> p == ""
    {
      p := if paths != [] then paths[|paths| - 1] else "";
    }

    method GetFullPath(sep: string) returns (p: string)
      ensures p == Join(sep, paths)
    {
      p := Join(sep, paths);
    }

    method GetPaths() returns (ps: seq<string>)
      ensures ps == paths
    {
      ps := paths;
    }

    method SetSeparator(sep: string)
      modifies this`separator, this`crumbs
      ensures Valid() && separator == sep
    {
      separator := sep;
      Update();
    }

    method SetMaxItems(m: int)
      modifies this`maxItems, this`crumbs
      ensures Valid() && maxItems == m
    {
      maxItems := m;
      Update();
    }

    /** A click on a link emits `breadcrumb_clicked` with its index and text; the label, ellipsis and separators do nothing. */
    method ClickCrumb(j: int) returns (clicked: Option<(int, string)>)
      requires Valid() && 0 <= j < |crumbs|
      ensures crumbs[j].Link? <==> clicked.Some?
      ensures clicked.Some? ==> 0 <= clicked.value.0 < |paths| && paths[clicked.value.0] == clicked.value.1
    {
      LinksPointAtTheirText(crumbs, paths, maxItems, separator, j);
      match crumbs[j]
      case Link(t, k) => clicked := Some((k, t));
      case _ => clicked := None;
    }
  }

  /** The segments of an already normalised path: the non-empty fields between '/'. */
  function FileParts(path: string): seq<string>
  {
    NonEmpty(SplitOn(path, '/'))
  }

  /** Segments without '/' joined into a file path and split again come back unchanged. */
  lemma FilePathRoundTrip(parts: seq<string>)
    requires forall i :: 0 <= i < |parts| ==> parts[i] != "" && '/' !in parts[i]
    ensures FileParts(Join("/", parts)) == parts
  {
    if parts != [] {
      SplitOnJoin(parts, '/');
    }
  }

  /** A bar of file-path segments separated by " / ". */
  class FileBreadcrumbBar {
    const bar: BreadcrumbBarWidget

    constructor ()
      ensures fresh(bar) && bar.Valid() && bar.separator == " / " && bar.maxItems == 5 && bar.paths == []
    {
      bar := new BreadcrumbBarWidget(" / ", 5);
    }

    method SetFilePath(path: string)
      modifies bar`paths, bar`crumbs
      ensures bar.Valid() && bar.paths == FileParts(path)
    {
      bar.SetPaths(FileParts(path));
    }

    method GetFilePath() returns (path: string)
      ensures path == Join("/", bar.paths)
    {
      path := Join("/", bar.paths);
    }
  }

  /** The segments of a URL: its host first (when there is one), then the non-empty fields of its path. */
  function UrlParts(netloc: string, path: string): seq<string>
  {
    (if netloc != "" then [netloc] else []) + NonEmpty(SplitOn(path, '/'))
  }

  /** `get_url_path`: "" without segments, "https://{host}" for one, "https://{host}/" and the rest joined by '/' otherwise. */
  function UrlPath(paths: seq<string>): (u: string)
    ensures paths == [] <==> u == ""
    ensures |paths| == 1 ==> u == "https://" + paths[0]
    ensures |paths| > 1 ==> u == "https://" + paths[0] + "/" + Join("/", paths[1..])
  {
    if paths == [] then ""
    else if |paths| > 1 then "https://" + paths[0] + "/" + Join("/", paths[1..])
    else "https://" + paths[0]
  }

  /** A leading '/' splits off one empty field. */
  lemma LeadingSlashSplit(x: string)
    ensures SplitOn("/" + x, '/') == [""] + SplitOn(x, '/')
  {
    var path := "/" + x;
    assert path[0] == '/';
    assert IndexOf(path, '/') == 0;
    assert path[..0] == "" && path[1..] == x;
  }

  /** Dropping empty fields ignores a leading empty one. */
  lemma NonEmptySkipsEmpty(xs: seq<string>)
    ensures NonEmpty([""] + xs) == NonEmpty(xs)
  {
    assert ([""] + xs)[1..] == xs;
  }

  /** A host and a path made of segments come back as the host followed by the segments. */
  lemma UrlPartsOfJoin(netloc: string, parts: seq<string>)
    requires netloc != ""
    requires forall i :: 0 <= i < |parts| ==> parts[i] != "" && '/' !in parts[i]
    ensures UrlParts(netloc, "/" + Join("/", parts)) == [netloc] + parts
  {
    var x := Join("/", parts);
    LeadingSlashSplit(x);
    NonEmptySkipsEmpty(SplitOn(x, '/'));
    FilePathRoundTrip(parts);
  }

  /** A host and path segments set from a URL are written back as the same URL. */
  lemma UrlRoundTrip(netloc: string, parts: seq<string>)
    requires netloc != ""
    requires forall i :: 0 <= i < |parts| ==> parts[i] != "" && '/' !in parts[i]
    ensures UrlPath(UrlParts(netloc, "/" + Join("/", parts))) ==
              "https://" + netloc + (if parts == [] then "" else "/" + Join("/", parts))
  {
    UrlPartsOfJoin(netloc, parts);
    UrlPathOfHost(netloc, parts);
  }

  /** The URL of a host followed by segments. */
  lemma UrlPathOfHost(netloc: string, parts: seq<string>)
    ensures UrlPath([netloc] + parts) == "https://" + netloc + (if parts == [] then "" else "/" + Join("/", parts))
  {
    var u := [netloc] + parts;
    assert u[0] == netloc && u[1..] == parts;
    if parts == [] {
      assert |u| == 1;
    } else {
      assert |u| > 1;
    }
  }

  /** A bar of URL segments separated by " › ". */
  class WebBreadcrumbBar {
    const bar: BreadcrumbBarWidget

    constructor ()
      ensures fresh(bar) && bar.Valid() && bar.separator == " › " && bar.maxItems == 5 && bar.paths == []
    {
      bar := new BreadcrumbBarWidget(" › ", 5);
    }

    /** The URL arrives already split into its host and its path. */
    method SetUrlPath(netloc: string, path: string)
      modifies bar`paths, bar`crumbs
      ensures bar.Valid() && bar.paths == UrlParts(netloc, path)
    {
      bar.SetPaths(UrlParts(netloc, path));
    }

    method GetUrlPath() returns (url: string)
      ensures url == UrlPath(bar.paths)
    {
      if bar.paths == [] {
        return "";
      }
      var domain := bar.paths[0];
      var rest := if |bar.paths| > 1 then bar.paths[1..] else [];
      if rest != [] {
        url := "https://" + domain + "/" + Join("/", rest);
      } else {
        url := "https://" + domain;
      }
    }
  }

  /** A bar whose segments can carry icons, looked up by the segment's text. */
  class CustomizableBreadcrumb {
    const bar: BreadcrumbBarWidget
    var icons: map<string, string>

    constructor ()
      ensures fresh(bar) && bar.Valid() && bar.separator == " > " && bar.maxItems == 5 && icons == map[]
    {
      bar := new BreadcrumbBarWidget(" > ", 5);
      icons := map[];
    }

    method SetPathIcon(path: string, icon: string)
      modifies this`icons, bar`crumbs
      ensures bar.Valid() && icons == old(icons)[path := icon]
    {
      icons := icons[path := icon];
      bar.Update();
    }

    /** The icon shown beside a segment, if one was set for its text. */
    function IconOf(text: string): (icon: Option<string>)
      reads this
      ensures icon.Some? <==> text in icons
      ensures icon.Some? ==> icon.value == icons[text]
    {
      if text in icons then Some(icons[text]) else None
    }
  }
}
