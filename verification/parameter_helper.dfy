/**
 * The activity parameter formatter: turns the raw string parameters of an
 * activity event into display strings, one per parameter, according to the
 * classification declared for the event's (app, subject) pair, and joins
 * multi-valued parameters into one localised phrase.
 */
module ParameterHelper {
  import opened Wrappers
  import opened Strings
  import opened Activity
  import opened Translation
  import Html
  import Url
  import Paths

  /** Link to the files app, up to its folder argument; the web root is taken to be empty. */
  const LinkPrefix := "/index.php/apps/files?dir="
  const ScrollArg := "&scrollto="

  /** Translation keys the formatter looks up. */
  const RemoteUserKey := "\"remote user\""
  const InDirKey := "in %s"
  const AndKey := "%s and %s"
  const ListSeparatorKey := ", "

  /**
   * The formatter's collaborators: the registered extensions, the filesystem's
   * directory test (asked about a path below the user's root), the current
   * translator, and the user whose files are shown.
   */
  datatype Helper = Helper(extensions: seq<Extension>, isDir: string -> bool, l: Translator, user: string)

  /** Replaces the translator; later calls render in the new locale, and nothing else changes. */
  function SetL10n(h: Helper, l: Translator): (r: Helper)
    ensures r.l == l
    ensures r.extensions == h.extensions && r.isDir == h.isDir && r.user == h.user
  {
    h.(l := l)
  }

  // ---------------------------------------------------------------- classifier

  /** The classification for (app, text): the first declaring extension's map, or the empty map. */
  function GetSpecialParameterList(h: Helper, app: string, text: string): (r: Classification)
    ensures (forall i :: 0 <= i < |h.extensions| ==> h.extensions[i](app, text).None?) ==> r == map[]
    ensures forall i ::
              (0 <= i < |h.extensions| && h.extensions[i](app, text).Some? &&
               forall j :: 0 <= j < i ==> h.extensions[j](app, text).None?)
              ==> r == h.extensions[i](app, text).value
  {
    FirstDeclared(h.extensions, app, text).GetOr(map[])
  }

  /** The declared type of position `i`, if any. */
  function TypeAt(cls: Option<Classification>, i: nat): Option<ParamType> {
    if cls.Some? && i in cls.value then Some(cls.value[i]) else None
  }

  // ---------------------------------------------------------------- links

  /** The folder a files-app link opens and the entry it scrolls to. */
  datatype LinkTarget = LinkTarget(dir: string, scrollTo: Option<string>)

  /** The query arguments of a link to `t`, each urlencoded. */
  function Query(t: LinkTarget): (r: string)
    ensures Html.Inert(r)
  {
    var e := Url.Encode(t.dir);
    QuerySafeIsInert(e);
    match t.scrollTo
    case None => e
    case Some(n) =>
      QuerySafeIsInert(Url.Encode(n));
      Html.InertConcat(ScrollArg, Url.Encode(n));
      Html.InertConcat(e, ScrollArg + Url.Encode(n));
      assert e + ScrollArg + Url.Encode(n) == e + (ScrollArg + Url.Encode(n));
      e + ScrollArg + Url.Encode(n)
  }

  /** The files-app URL for `t`; safe to place inside a double-quoted attribute. */
  function Href(t: LinkTarget): (r: string)
    ensures Html.Inert(r)
  {
    Html.InertConcat(LinkPrefix, Query(t));
    LinkPrefix + Query(t)
  }

  lemma QuerySafeIsInert(s: string)
    requires Url.QuerySafe(s)
    ensures Html.Inert(s)
  {
  }

  lemma QuerySafeHasNoAmpersand(s: string)
    requires Url.QuerySafe(s)
    ensures '&' !in s
  {
    forall i | 0 <= i < |s| ensures s[i] != '&' {
      assert !Url.IsDelimiter(s[i]);
    }
  }

  /** Reads the query arguments of a files-app link back into folder and scroll target. */
  function ParseQuery(q: string): Option<LinkTarget> {
    match IndexOf(q, '&')
    case None => Some(LinkTarget(Url.Decode(q), None))
    case Some(i) =>
      if IsPrefix(ScrollArg, q[i..]) then
        Some(LinkTarget(Url.Decode(q[..i]), Some(Url.Decode(q[i + |ScrollArg|..]))))
      else None
  }

  /** Reads a files-app URL back into the folder and scroll target it names. */
  function ParseHref(s: string): Option<LinkTarget> {
    if IsPrefix(LinkPrefix, s) then ParseQuery(s[|LinkPrefix|..]) else None
  }

  lemma QueryRoundTrip(t: LinkTarget)
    ensures ParseQuery(Query(t)) == Some(t)
  {
    var e := Url.Encode(t.dir);
    Url.EncodeRoundTrip(t.dir);
    QuerySafeHasNoAmpersand(e);
    match t.scrollTo
    case None =>
    case Some(n) =>
      Url.EncodeRoundTrip(n);
      ScrollQueryParses(e, Url.Encode(n));
  }

  /** A folder argument without '&', then the scroll argument: both read back apart. */
  lemma ScrollQueryParses(e: string, e2: string)
    requires '&' !in e
    ensures ParseQuery(e + ScrollArg + e2) == Some(LinkTarget(Url.Decode(e), Some(Url.Decode(e2))))
  {
    var q := e + ScrollArg + e2;
    IndexOfAfter(e, ScrollArg + e2, '&');
    assert q == e + (ScrollArg + e2);
    assert q[..|e|] == e;
    assert q[|e|..] == ScrollArg + e2;
    assert q[|e| + |ScrollArg|..] == e2;
  }

  /** Every link the formatter builds reads back as the folder and entry it was built from. */
  lemma HrefRoundTrip(t: LinkTarget)
    ensures ParseHref(Href(t)) == Some(t)
  {
    QueryRoundTrip(t);
    var s := Href(t);
    assert s == LinkPrefix + Query(t);
    assert s[|LinkPrefix|..] == Query(t);
  }

  // ---------------------------------------------------------------- file parameters

  /** A file link: tooltip class, target, optional title text, and (unescaped) display text. */
  datatype FileAnchor = FileAnchor(tooltip: bool, target: LinkTarget, title: Option<string>, text: string)

  function ClassAttr(tooltip: bool): string {
    if tooltip then "filename tooltip" else "filename"
  }

  function TitleAttr(title: Option<string>): string {
    match title
    case None => ""
    case Some(t) => " title=\"" + t + "\""
  }

  /** The markup before the link's URL: the anchor tag, its class, and the opening of `href`. */
  function AnchorOpening(tooltip: bool): string {
    "<a class=\"" + ClassAttr(tooltip) + "\" href=\""
  }

  /** The text of `s` from `start` up to the next '"': the value of an attribute opened before `start`. */
  function AttrValue(s: string, start: nat): string
    requires start <= |s|
  {
    match IndexOf(s[start..], '"')
    case None => s[start..]
    case Some(i) => s[start..start + i]
  }

  /** The markup of `a`; the display text is escaped here, the title is escaped by its builder. */
  function AnchorHtml(a: FileAnchor): string {
    AnchorOpening(a.tooltip) + (Href(a.target) + ("\"" + (TitleAttr(a.title) + (">" + (Html.Escape(a.text) + "</a>")))))
  }

  /**
   * The markup of an anchor reads back: the `href` value is the anchor's
   * target, a title attribute follows it exactly when the anchor has a title,
   * and the markup ends with the escaped display text.
   */
  lemma AnchorReadsBack(a: FileAnchor)
    ensures |AnchorOpening(a.tooltip)| + |Href(a.target)| + 1 <= |AnchorHtml(a)|
    ensures ParseHref(AttrValue(AnchorHtml(a), |AnchorOpening(a.tooltip)|)) == Some(a.target)
    ensures IsPrefix(" title=\"", AnchorHtml(a)[|AnchorOpening(a.tooltip)| + |Href(a.target)| + 1..]) <==> a.title.Some?
    ensures IsSuffix(Html.Escape(a.text) + "</a>", AnchorHtml(a))
  {
    AnchorHrefReadsBack(a);
    AnchorTitleFollows(a);
  }

  lemma AnchorHrefReadsBack(a: FileAnchor)
    ensures |AnchorOpening(a.tooltip)| <= |AnchorHtml(a)|
    ensures ParseHref(AttrValue(AnchorHtml(a), |AnchorOpening(a.tooltip)|)) == Some(a.target)
  {
    var p := AnchorOpening(a.tooltip);
    var h := Href(a.target);
    var tail := TitleAttr(a.title) + (">" + (Html.Escape(a.text) + "</a>"));
    AnchorHref(p, h, "\"" + tail);
    HrefRoundTrip(a.target);
  }

  lemma AnchorTitleFollows(a: FileAnchor)
    ensures |AnchorOpening(a.tooltip)| + |Href(a.target)| + 1 <= |AnchorHtml(a)|
    ensures IsPrefix(" title=\"", AnchorHtml(a)[|AnchorOpening(a.tooltip)| + |Href(a.target)| + 1..]) <==> a.title.Some?
    ensures IsSuffix(Html.Escape(a.text) + "</a>", AnchorHtml(a))
  {
    AnchorTitleAt(AnchorOpening(a.tooltip), Href(a.target), a.title, Html.Escape(a.text) + "</a>");
  }

  /** After the `href` value and its closing quote come the title attribute, if any, and then the tag's end. */
  lemma AnchorTitleAt(p: string, h: string, title: Option<string>, e: string)
    ensures var r := p + (h + ("\"" + (TitleAttr(title) + (">" + e))));
            |p| + |h| + 1 <= |r| && (IsPrefix(" title=\"", r[|p| + |h| + 1..]) <==> title.Some?) && IsSuffix(e, r)
  {
    AnchorTail(p, h, TitleAttr(title), e);
    AnchorTitle(title, ">" + e);
  }

  /** Where the title and the display text sit in the markup. */
  lemma AnchorTail(p: string, h: string, t: string, e: string)
    ensures var r := p + (h + ("\"" + (t + (">" + e))));
            |p| + |h| + 1 <= |r| && r[|p| + |h| + 1..] == t + (">" + e) && IsSuffix(e, r)
  {
  }

  /** The `href` value is the link up to its closing quote, which no link contains. */
  lemma AnchorHref(p: string, h: string, rest: string)
    requires Html.Inert(h) && |rest| > 0 && rest[0] == '"'
    ensures AttrValue(p + (h + rest), |p|) == h
  {
    var s := p + (h + rest);
    assert '"' !in h by {
      forall i | 0 <= i < |h| ensures h[i] != '"' {
        assert !Html.IsMarkupChar(h[i]);
      }
    }
    assert s[|p|..] == h + rest;
    IndexOfAfter(h, rest, '"');
    assert s[|p|..|p| + |h|] == h;
  }

  /** A title attribute is present exactly when the anchor has a title. */
  lemma AnchorTitle(title: Option<string>, rest: string)
    requires |rest| > 0 && rest[0] == '>'
    ensures IsPrefix(" title=\"", TitleAttr(title) + rest) <==> title.Some?
  {
    var s := TitleAttr(title) + rest;
    if title.Some? {
      assert s[..8] == " title=\"";
    } else {
      assert s[0] == '>';
    }
  }

  /** The root of a user's files in the filesystem. */
  function FilesRoot(user: string): string {
    "/" + user + "/files"
  }

  /**
   * The path asked about when deciding whether a stored path is a directory:
   * always below the user's files root, with a legacy path given the '/' it lacks.
   */
  function ViewPath(user: string, raw: string): (r: string)
    ensures Paths.StartsWithSlash(raw) ==> r == FilesRoot(user) + raw
    ensures !Paths.StartsWithSlash(raw) ==> r == FilesRoot(user) + "/" + raw
    ensures IsPrefix(FilesRoot(user) + "/", r)
  {
    var q := Paths.WithLeadingSlash(raw);
    BelowRoot(FilesRoot(user), q);
    FilesRoot(user) + q
  }

  /** Appending a path that starts with '/' to a root puts the path below the root. */
  lemma BelowRoot(root: string, q: string)
    requires Paths.StartsWithSlash(q)
    ensures IsPrefix(root + "/", root + q)
    ensures root + q == root + "/" + q[1..]
  {
    assert (root + q)[..|root| + 1] == root + "/";
    assert q == "/" + q[1..];
  }

  /** What the filesystem says about the stored path `raw`. */
  predicate IsDirectory(h: Helper, raw: string) {
    h.isDir(ViewPath(h.user, raw))
  }

  /** A legacy path and its rooted form ask the filesystem the same question. */
  lemma LegacyPathAsksSameDirectory(h: Helper, p: string)
    requires !Paths.StartsWithSlash(p)
    ensures ViewPath(h.user, "/" + p) == ViewPath(h.user, p) == FilesRoot(h.user) + "/" + p
    ensures IsDirectory(h, "/" + p) <==> IsDirectory(h, p)
  {
    assert Paths.StartsWithSlash("/" + p) && ("/" + p)[1..] == p;
  }

  /** The link a highlighted file parameter becomes. */
  function FileAnchorOf(h: Helper, raw: string, stripPath: bool): (a: FileAnchor)
    ensures a.tooltip == stripPath
    ensures a.title.Some? <==> stripPath
    ensures stripPath ==> a.title == Some(h.l(InDirKey, [Html.Escape(Paths.Dirname(Paths.Normalize(raw)))]))
    ensures a.text == if stripPath then Paths.Basename(Paths.Normalize(raw)) else Paths.Normalize(raw)
    ensures a.target.scrollTo.None? <==> IsDirectory(h, raw)
  {
    var d := Paths.Resolve(raw, IsDirectory(h, raw));
    FileAnchor(
      stripPath,
      if d.isDir then LinkTarget("/" + d.path, None) else LinkTarget("/" + d.dir, Some(d.name)),
      if stripPath then Some(h.l(InDirKey, [Html.Escape(d.dir)])) else None,
      if stripPath then d.name else d.path)
  }

  /** Where the link of a file parameter points. */
  lemma FileAnchorTarget(h: Helper, raw: string, stripPath: bool)
    ensures var path := Paths.Normalize(raw);
            FileAnchorOf(h, raw, stripPath).target
              == if IsDirectory(h, raw) then LinkTarget("/" + path, None)
                 else LinkTarget("/" + Paths.Dirname(path), Some(Paths.Basename(path)))
  {
  }

  /**
   * `t` locates the normalised path `path`: a directory link opens the
   * directory itself; any other link opens the containing folder and scrolls to
   * the entry's name, and folder plus name give back the path.
   */
  predicate Locates(t: LinkTarget, path: string, isDir: bool) {
    && (isDir ==> t == LinkTarget("/" + path, None))
    && (!isDir && Paths.NoSlash(path) ==> t == LinkTarget("/", Some(path)))
    && (!isDir && !Paths.NoSlash(path) ==>
          t.scrollTo.Some? && Paths.NoSlash(t.scrollTo.value) && t.dir + "/" + t.scrollTo.value == "/" + path)
  }

  lemma TargetLocates(path: string, isDir: bool)
    ensures Locates(if isDir then LinkTarget("/" + path, None)
                    else LinkTarget("/" + Paths.Dirname(path), Some(Paths.Basename(path))), path, isDir)
  {
    if !isDir && !Paths.NoSlash(path) {
      var d, b := Paths.Dirname(path), Paths.Basename(path);
      assert d + "/" + b == path;
      assert "/" + d + "/" + b == "/" + (d + "/" + b);
    }
  }

  /** The link of a file parameter, read back, locates the stored file or directory. */
  lemma FileLinkLocatesFile(h: Helper, raw: string, stripPath: bool)
    ensures var t := ParseHref(Href(FileAnchorOf(h, raw, stripPath).target));
            t.Some? && Locates(t.value, Paths.Normalize(raw), IsDirectory(h, raw))
  {
    var target := FileAnchorOf(h, raw, stripPath).target;
    FileAnchorTarget(h, raw, stripPath);
    HrefRoundTrip(target);
    TargetLocates(Paths.Normalize(raw), IsDirectory(h, raw));
  }

  /** One file parameter: its escaped display text, or its link when highlighting. */
  function RenderFile(h: Helper, raw: string, stripPath: bool, highlight: bool): (r: string)
    ensures !highlight && stripPath ==> r == Html.Escape(Paths.Basename(Paths.Normalize(raw)))
    ensures !highlight && !stripPath ==> r == Html.Escape(Paths.Normalize(raw))
    ensures !highlight ==> Html.Inert(r)
    ensures !highlight && stripPath ==> Paths.NoSlash(r)
    ensures highlight ==> r == AnchorHtml(FileAnchorOf(h, raw, stripPath))
  {
    var a := FileAnchorOf(h, raw, stripPath);
    if highlight then AnchorHtml(a)
    else
      Html.EscapeKeepsSlashFree(a.text);
      Html.Escape(a.text)
  }

  /**
   * The link of a highlighted file parameter, read back from its markup,
   * locates the stored file or directory.
   */
  lemma FileMarkupLocatesFile(h: Helper, raw: string, stripPath: bool)
    ensures var r := RenderFile(h, raw, stripPath, true);
            var t := ParseHref(AttrValue(r, |AnchorOpening(stripPath)|));
            t.Some? && Locates(t.value, Paths.Normalize(raw), IsDirectory(h, raw))
  {
    var a := FileAnchorOf(h, raw, stripPath);
    assert a.tooltip == stripPath;
    AnchorReadsBack(a);
    FileLinkLocatesFile(h, raw, stripPath);
    HrefRoundTrip(a.target);
    assert RenderFile(h, raw, stripPath, true) == AnchorHtml(a);
    assert ParseHref(AttrValue(AnchorHtml(a), |AnchorOpening(stripPath)|)) == Some(a.target);
  }

  /** A path stored without its leading '/' renders exactly like the one stored with it. */
  lemma LegacyPathRendersIdentically(h: Helper, p: string, stripPath: bool, highlight: bool)
    requires !Paths.StartsWithSlash(p)
    ensures RenderFile(h, "/" + p, stripPath, highlight) == RenderFile(h, p, stripPath, highlight)
  {
    Paths.LegacyPathNormalizesIdentically(p);
    LegacyPathAsksSameDirectory(h, p);
  }

  /**
   * A path stored with a trailing '/' displays like the one without it, and
   * links identically whenever the filesystem answers alike for both.
   */
  lemma TrailingSlashRendersIdentically(h: Helper, p: string, stripPath: bool, highlight: bool)
    requires !Paths.EndsWithSlash(p)
    requires highlight ==> (IsDirectory(h, p + "/") <==> IsDirectory(h, p))
    ensures RenderFile(h, p + "/", stripPath, highlight) == RenderFile(h, p, stripPath, highlight)
  {
    Paths.TrailingSlashNormalizesIdentically(p);
  }

  // ---------------------------------------------------------------- plain and user parameters

  /** Emphasis markup. */
  function Strong(s: string): string {
    "<strong>" + s + "</strong>"
  }

  predicate IsStrong(s: string) {
    |s| >= 17 && IsPrefix("<strong>", s) && IsSuffix("</strong>", s)
  }

  /** The text between the emphasis tags. */
  function StrongContent(s: string): string
    requires IsStrong(s)
  {
    s[8..|s| - 9]
  }

  lemma StrongContentOf(s: string)
    ensures IsStrong(Strong(s)) && StrongContent(Strong(s)) == s
  {
    var w := Strong(s);
    assert w[..8] == "<strong>";
    assert w[|w| - 9..] == "</strong>";
    assert w[8..|w| - 9] == s;
  }

  /** An unclassified parameter: verbatim, or emphasised with its text escaped. */
  function RenderPlain(v: string, highlight: bool): (r: string)
    ensures !highlight ==> r == v
    ensures highlight ==> IsStrong(r) && Html.Inert(StrongContent(r)) && Html.Unescape(StrongContent(r)) == v
  {
    if highlight then
      StrongContentOf(Html.Escape(v));
      Html.EscapeRoundTrip(v);
      Strong(Html.Escape(v))
    else v
  }

  /** The avatar element for an (escaped) user name. */
  function AvatarMarker(escapedUser: string): string {
    "<div class=\"avatar\" data-user=\"" + escapedUser + "\"></div>"
  }

  /** The localised placeholder for an event whose actor has no local account. */
  function RemoteUser(h: Helper): string {
    h.l(RemoteUserKey, [])
  }

  /** A user-name parameter. */
  function RenderUser(h: Helper, v: string, highlight: bool): (r: string)
    ensures v == "" ==> r == if highlight then Strong(RemoteUser(h)) else RemoteUser(h)
    ensures v != "" && highlight ==>
              var e := Html.Escape(v);
              r == AvatarMarker(e) + Strong(e) && Html.Inert(e) && Html.Unescape(e) == v
  {
    if v == "" then
      if highlight then Strong(RemoteUser(h)) else RemoteUser(h)
    else
      var e := Html.Escape(v);
      Html.EscapeRoundTrip(v);
      if highlight then AvatarMarker(e) + Strong(e) else e
  }

  // ---------------------------------------------------------------- parameter lists

  /** One parameter of declared type `t` (`None`: unclassified). */
  function RenderParam(h: Helper, v: string, t: Option<ParamType>, stripPath: bool, highlight: bool): string {
    match t
    case None => RenderPlain(v, highlight)
    case Some(File) => RenderFile(h, v, stripPath, highlight)
    case Some(Username) => RenderUser(h, v, highlight)
  }

  /**
   * What a parameter becomes by its declared type: an unclassified value is
   * kept, or emphasised when highlighting; a file shows its escaped name or
   * path, or a link that locates it; a user name that is empty is the
   * remote-user placeholder. Only files depend on path stripping.
   */
  lemma RenderParamByType(h: Helper, v: string, t: Option<ParamType>, stripPath: bool, highlight: bool)
    ensures var r := RenderParam(h, v, t, stripPath, highlight);
            && (t.None? && !highlight ==> r == v)
            && (t.None? && highlight ==> IsStrong(r) && Html.Unescape(StrongContent(r)) == v)
            && (t == Some(File) && !highlight ==>
                  Html.Unescape(r) == if stripPath then Paths.Basename(Paths.Normalize(v)) else Paths.Normalize(v))
            && (t == Some(File) && highlight ==>
                  var l := ParseHref(AttrValue(r, |AnchorOpening(stripPath)|));
                  l.Some? && Locates(l.value, Paths.Normalize(v), IsDirectory(h, v)))
            && (t == Some(Username) && v == "" ==> r == (if highlight then Strong(RemoteUser(h)) else RemoteUser(h)))
    ensures t != Some(File) ==> RenderParam(h, v, t, true, highlight) == RenderParam(h, v, t, false, highlight)
  {
    if t == Some(File) {
      if highlight {
        FileMarkupLocatesFile(h, v, stripPath);
      } else {
        Html.EscapeRoundTrip(if stripPath then Paths.Basename(Paths.Normalize(v)) else Paths.Normalize(v));
      }
    }
  }

  /** All parameters of an event, rendered position by position. */
  function PrepareParameters(h: Helper, params: seq<string>, cls: Option<Classification>,
                             stripPath: bool, highlight: bool): (r: seq<string>)
    ensures |r| == |params|
    ensures forall i :: 0 <= i < |params| ==> r[i] == RenderParam(h, params[i], TypeAt(cls, i), stripPath, highlight)
    ensures cls.None? && !highlight ==> r == params
  {
    if |params| == 0 then []
    else
      var n := |params| - 1;
      PrepareParameters(h, params[..n], cls, stripPath, highlight)
        + [RenderParam(h, params[n], TypeAt(cls, n), stripPath, highlight)]
  }

  /** `m` without the positions at or beyond `n`. */
  function Below(m: Classification, n: nat): (r: Classification)
    ensures forall k :: k in r <==> k in m && k < n
  {
    map k | k in m && k < n :: m[k]
  }

  /** Classified positions beyond the parameter list have no effect. */
  lemma BeyondLengthInert(h: Helper, params: seq<string>, m: Classification, stripPath: bool, highlight: bool)
    ensures PrepareParameters(h, params, Some(m), stripPath, highlight)
         == PrepareParameters(h, params, Some(Below(m, |params|)), stripPath, highlight)
  {
    var a := PrepareParameters(h, params, Some(m), stripPath, highlight);
    var b := PrepareParameters(h, params, Some(Below(m, |params|)), stripPath, highlight);
    forall i | 0 <= i < |params| ensures a[i] == b[i] {
      assert TypeAt(Some(m), i) == TypeAt(Some(Below(m, |params|)), i);
    }
  }

  /** Having no classification is the same as having an empty one. */
  lemma NoClassificationIsEmpty(h: Helper, params: seq<string>, stripPath: bool, highlight: bool)
    ensures PrepareParameters(h, params, None, stripPath, highlight)
         == PrepareParameters(h, params, Some(map[]), stripPath, highlight)
  {
    var a := PrepareParameters(h, params, None, stripPath, highlight);
    var b := PrepareParameters(h, params, Some(map[]), stripPath, highlight);
    assert forall i | 0 <= i < |params| :: a[i] == b[i];
  }

  // ---------------------------------------------------------------- array parameters

  /** Every position below `n` declared a file. */
  function AllFiles(n: nat): (m: Classification)
    ensures forall k: nat :: k in m <==> k < n
    ensures forall k: nat :: k in m ==> m[k] == File
  {
    if n == 0 then map[] else AllFiles(n - 1)[n - 1 := File]
  }

  /** The declared type of every item of a multi-valued parameter. */
  function ItemType(itemType: string): Option<ParamType> {
    if itemType == "file" then Some(File) else None
  }

  /** The items of a multi-valued parameter, each rendered as its declared type. */
  function RenderItems(h: Helper, items: seq<string>, itemType: string, stripPath: bool, highlight: bool): (r: seq<string>)
    ensures |r| == |items|
    ensures forall i :: 0 <= i < |items| ==> r[i] == RenderParam(h, items[i], ItemType(itemType), stripPath, highlight)
  {
    var cls := if itemType == "file" then Some(AllFiles(|items|)) else None;
    assert forall i :: 0 <= i < |items| ==> TypeAt(cls, i) == ItemType(itemType);
    PrepareParameters(h, items, cls, stripPath, highlight)
  }

  /**
   * Joins rendered items into one phrase: "" for none, the item for one, and
   * for more the locale's "%s and %s" applied to the leading items joined with
   * the locale's ", " and the last item.
   */
  function JoinParameterList(l: Translator, xs: seq<string>): (r: string)
    ensures |xs| == 0 ==> r == ""
    ensures |xs| == 1 ==> r == xs[0]
    ensures |xs| == 2 ==> r == l(AndKey, [xs[0], xs[1]])
  {
    if |xs| == 0 then ""
    else if |xs| == 1 then xs[0]
    else
      var n := |xs| - 1;
      l(AndKey, [Join(xs[..n], l(ListSeparatorKey, [])), xs[n]])
  }

  /** A multi-valued parameter as one localised phrase. */
  function PrepareArrayParameter(h: Helper, items: seq<string>, itemType: string,
                                 stripPath: bool, highlight: bool): (r: string)
    ensures |items| == 0 ==> r == ""
    ensures |items| == 1 ==> r == RenderParam(h, items[0], ItemType(itemType), stripPath, highlight)
    ensures |items| == 2 ==>
              r == h.l(AndKey, [RenderParam(h, items[0], ItemType(itemType), stripPath, highlight),
                                RenderParam(h, items[1], ItemType(itemType), stripPath, highlight)])
  {
    JoinParameterList(h.l, RenderItems(h, items, itemType, stripPath, highlight))
  }

  /** Unclassified parameters ignore path stripping. */
  lemma UnclassifiedIgnoresStripPath(h: Helper, params: seq<string>, highlight: bool)
    ensures PrepareParameters(h, params, None, true, highlight) == PrepareParameters(h, params, None, false, highlight)
  {
    var a := PrepareParameters(h, params, None, true, highlight);
    var b := PrepareParameters(h, params, None, false, highlight);
    assert forall i | 0 <= i < |params| :: a[i] == b[i];
  }

  /** Two file items with path stripping join as their base names, in the current locale. */
  lemma ArrayOfTwoFiles(h: Helper, a: string, b: string)
    ensures PrepareArrayParameter(h, [a, b], "file", true, false)
         == h.l(AndKey, [Html.Escape(Paths.Basename(Paths.Normalize(a))), Html.Escape(Paths.Basename(Paths.Normalize(b)))])
  {
    var xs := RenderItems(h, [a, b], "file", true, false);
    assert ItemType("file") == Some(File);
    assert xs[0] == RenderFile(h, a, true, false);
    assert xs[1] == RenderFile(h, b, true, false);
    assert PrepareArrayParameter(h, [a, b], "file", true, false) == JoinParameterList(h.l, xs);
  }

  /** Items of any other type join unreduced, in the current locale. */
  lemma ArrayOfTwoUntyped(h: Helper, a: string, b: string, itemType: string, stripPath: bool)
    requires itemType != "file"
    ensures PrepareArrayParameter(h, [a, b], itemType, stripPath, false) == h.l(AndKey, [a, b])
  {
  }
}
