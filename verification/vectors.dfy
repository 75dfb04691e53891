/**
 * The formatter's expected outputs as fixed by the test suite
 * (tests/parameterhelpertest.php): user "test", the English locale, an empty
 * web root, and a filesystem mock in which at most /tmp/test is a directory.
 */
module ParameterHelperVectors {
  import opened Wrappers
  import opened Activity
  import opened Translation
  import opened ParameterHelper
  import Html
  import Url
  import Paths

  /** The test suite's mock extension. */
  function MockExtension(app: string, text: string): Option<Classification> {
    if app == "app1" && text == "subject1" then Some(map[0 := File])
    else if app == "app1" && text == "subject2" then Some(map[0 := File, 1 := Username])
    else None
  }

  /** The mocked filesystem: nothing is a directory. */
  function NoDirectories(p: string): bool {
    false
  }

  /** The mocked filesystem after creating folder /tmp/test for user "test". */
  function TmpTestFolder(p: string): bool {
    p == "/test/files/tmp/test"
  }

  function TestHelper(isDir: string -> bool): Helper {
    Helper([MockExtension], isDir, English, "test")
  }

  // ---------------------------------------------------------------- building blocks

  /** Text made of unreserved characters needs neither escaping nor encoding and holds no '/'. */
  lemma UnreservedText(s: string)
    requires Url.Unreserved(s)
    ensures Html.Plain(s) && Html.Escape(s) == s && Url.Encode(s) == s && Paths.NoSlash(s)
  {
    assert Html.Plain(s) by {
      forall i | 0 <= i < |s| ensures !Html.NeedsEscape(s[i]) {
        assert Url.IsUnreserved(s[i]);
      }
    }
    Html.EscapeFixesExactlyPlain(s);
    Url.EncodeUnreserved(s);
  }

  lemma EncodeRooted(dir: string)
    requires Url.Unreserved(dir)
    ensures Url.Encode("/" + dir) == "%2F" + dir
  {
    Url.EncodeConcat("/", dir);
    Url.EncodeSlash();
    UnreservedText(dir);
  }

  lemma EncodeRootedPair(dir: string, name: string)
    requires Url.Unreserved(dir) && Url.Unreserved(name)
    ensures Url.Encode("/" + dir + "/" + name) == "%2F" + dir + "%2F" + name
  {
    Url.EncodeConcat("/" + dir, "/" + name);
    assert "/" + dir + "/" + name == ("/" + dir) + ("/" + name);
    EncodeRooted(dir);
    EncodeRooted(name);
  }

  lemma InDirEnglish(x: string)
    ensures English(InDirKey, [x]) == "in " + x
  {
    assert Sprintf("in %s", [x]) == "i" + Sprintf("n %s", [x]);
    assert Sprintf("n %s", [x]) == "n" + Sprintf(" %s", [x]);
    assert Sprintf(" %s", [x]) == " " + Sprintf("%s", [x]);
    assert Sprintf("%s", [x]) == x + Sprintf("", []);
  }

  lemma RemoteUserEnglish()
    ensures English(RemoteUserKey, []) == "\"remote user\""
  {
    SprintfNoPlaceholder(RemoteUserKey, []);
  }

  /** Reassociates a link so that its query is one piece. */
  lemma PrefixQuery(q: string, b: string)
    ensures LinkPrefix + (q + ScrollArg + b) == LinkPrefix + q + ScrollArg + b
  {
  }

  /** The folder link of a file `name` in folder `dir`. */
  lemma HrefToFile(dir: string, name: string)
    requires Url.Unreserved(dir) && Url.Unreserved(name)
    ensures Href(LinkTarget("/" + dir, Some(name))) == LinkPrefix + ("%2F" + dir) + ScrollArg + name
  {
    var t := LinkTarget("/" + dir, Some(name));
    assert Query(t) == Url.Encode("/" + dir) + ScrollArg + Url.Encode(name);
    EncodeRooted(dir);
    UnreservedText(name);
    assert Query(t) == ("%2F" + dir) + ScrollArg + name;
    assert Href(t) == LinkPrefix + Query(t);
    PrefixQuery("%2F" + dir, name);
  }

  /** The link of the directory `dir/name`. */
  lemma HrefToDirectory(dir: string, name: string)
    requires Url.Unreserved(dir) && Url.Unreserved(name)
    ensures Href(LinkTarget("/" + dir + "/" + name, None)) == LinkPrefix + ("%2F" + dir + "%2F" + name)
  {
    var t := LinkTarget("/" + dir + "/" + name, None);
    assert Query(t) == Url.Encode("/" + dir + "/" + name);
    EncodeRootedPair(dir, name);
    assert Href(t) == LinkPrefix + Query(t);
  }

  /** Regrouping the pieces of an anchor. */
  lemma Regroup(a: string, h: string, b: string, c: string, t: string, d: string, e: string, x: string, f: string)
    ensures a + (h + (b + ((c + t + d) + (e + (x + f))))) == a + h + (b + c) + t + (d + e) + x + f
  {
  }

  /** Regrouping the pieces of an anchor without a title. */
  lemma RegroupPlain(a: string, h: string, b: string, e: string, x: string, f: string)
    ensures a + (h + (b + ("" + (e + (x + f))))) == a + h + (b + e) + x + f
  {
  }

  lemma TooltipMarkup(href: string, title: string, text: string)
    ensures AnchorOpening(true) + (href + ("\"" + (TitleAttr(Some(title)) + (">" + (text + "</a>")))))
         == TooltipLink(href, title, text)
  {
    var a := AnchorOpening(true);
    assert a == "<a class=\"filename tooltip\" href=\"";
    assert "\"" + " title=\"" == "\" title=\"";
    assert "\"" + ">" == "\">";
    Regroup(a, href, "\"", " title=\"", title, "\"", ">", text, "</a>");
  }

  lemma PlainMarkup(href: string, text: string)
    ensures AnchorOpening(false) + (href + ("\"" + (TitleAttr(None) + (">" + (text + "</a>")))))
         == FilenameLink(href, text)
  {
    var a := AnchorOpening(false);
    assert a == "<a class=\"filename\" href=\"";
    assert "\"" + ">" == "\">";
    RegroupPlain(a, href, "\"", ">", text, "</a>");
  }

  lemma TooltipAnchorHtml(t: LinkTarget, title: string, text: string)
    requires Html.Plain(text)
    ensures AnchorHtml(FileAnchor(true, t, Some(title), text)) == TooltipLink(Href(t), title, text)
  {
    Html.EscapeFixesExactlyPlain(text);
    TooltipMarkup(Href(t), title, text);
  }

  lemma PlainAnchorHtml(t: LinkTarget, text: string)
    requires Html.Plain(text)
    ensures AnchorHtml(FileAnchor(false, t, None, text)) == FilenameLink(Href(t), text)
  {
    Html.EscapeFixesExactlyPlain(text);
    PlainMarkup(Href(t), text);
  }

  lemma PlainJoin(dir: string, name: string)
    requires Html.Plain(dir) && Html.Plain(name)
    ensures Html.Plain(dir + "/" + name)
  {
    forall i | 0 <= i < |dir + "/" + name| ensures !Html.NeedsEscape((dir + "/" + name)[i]) {
      if i > |dir| {
        assert (dir + "/" + name)[i] == name[i - |dir| - 1];
      }
    }
  }

  // ---------------------------------------------------------------- expected markup, as the tests spell it

  /** A stripped link: the tooltip class and a title naming the folder. */
  function TooltipLink(href: string, title: string, text: string): string {
    "<a class=\"filename tooltip\" href=\"" + href + "\" title=\"" + title + "\">" + text + "</a>"
  }

  /** An unstripped link: no tooltip and no title. */
  function FilenameLink(href: string, text: string): string {
    "<a class=\"filename\" href=\"" + href + "\">" + text + "</a>"
  }

  /** A highlighted local user: the avatar marker followed by the emphasised name. */
  function AvatarAndName(escaped: string): string {
    "<div class=\"avatar\" data-user=\"" + escaped + "\"></div>" + "<strong>" + escaped + "</strong>"
  }

  // ---------------------------------------------------------------- generic renderings

  /** A highlighted, stripped link to the file `dir/name`. */
  lemma TooltipFileLink(isDir: string -> bool, raw: string, dir: string, name: string)
    requires Url.Unreserved(dir) && Url.Unreserved(name)
    requires Paths.Normalize(raw) == dir + "/" + name
    requires !isDir(ViewPath("test", raw))
    ensures RenderFile(TestHelper(isDir), raw, true, true)
         == TooltipLink(LinkPrefix + ("%2F" + dir) + ScrollArg + name, "in " + dir, name)
  {
    var h := TestHelper(isDir);
    UnreservedText(dir);
    UnreservedText(name);
    Paths.SplitAtLastSlash(dir, name);
    FileAnchorTarget(h, raw, true);
    InDirEnglish(dir);
    var a := FileAnchorOf(h, raw, true);
    assert a == FileAnchor(true, LinkTarget("/" + dir, Some(name)), Some("in " + dir), name);
    HrefToFile(dir, name);
    TooltipAnchorHtml(a.target, "in " + dir, name);
  }

  /** A highlighted, unstripped link to the file `dir/name`. */
  lemma FullPathFileLink(isDir: string -> bool, raw: string, dir: string, name: string)
    requires Url.Unreserved(dir) && Url.Unreserved(name)
    requires Paths.Normalize(raw) == dir + "/" + name
    requires !isDir(ViewPath("test", raw))
    ensures RenderFile(TestHelper(isDir), raw, false, true)
         == FilenameLink(LinkPrefix + ("%2F" + dir) + ScrollArg + name, dir + "/" + name)
  {
    var h := TestHelper(isDir);
    UnreservedText(dir);
    UnreservedText(name);
    Paths.SplitAtLastSlash(dir, name);
    FileAnchorTarget(h, raw, false);
    var a := FileAnchorOf(h, raw, false);
    assert a == FileAnchor(false, LinkTarget("/" + dir, Some(name)), None, dir + "/" + name);
    HrefToFile(dir, name);
    PlainJoin(dir, name);
    PlainAnchorHtml(a.target, dir + "/" + name);
  }

  /** Reassociates a rooted `dir/name` path. */
  lemma RootedPair(dir: string, name: string)
    ensures "/" + (dir + "/" + name) == "/" + dir + "/" + name
  {
  }

  lemma DirectoryAnchor(isDir: string -> bool, raw: string, dir: string, name: string)
    requires Url.Unreserved(dir) && Url.Unreserved(name)
    requires Paths.Normalize(raw) == dir + "/" + name
    requires isDir(ViewPath("test", raw))
    ensures FileAnchorOf(TestHelper(isDir), raw, true)
         == FileAnchor(true, LinkTarget("/" + dir + "/" + name, None), Some("in " + dir), name)
  {
    var h := TestHelper(isDir);
    UnreservedText(dir);
    UnreservedText(name);
    Paths.SplitAtLastSlash(dir, name);
    var path := dir + "/" + name;
    assert IsDirectory(h, raw);
    FileAnchorTarget(h, raw, true);
    var a := FileAnchorOf(h, raw, true);
    assert a.target == LinkTarget("/" + path, None);
    RootedPair(dir, name);
    assert a.text == name;
    Html.EscapeFixesExactlyPlain(dir);
    InDirEnglish(dir);
    assert a.title == Some("in " + dir);
  }

  /** A highlighted, stripped link to the directory `dir/name`. */
  lemma TooltipDirectoryLink(isDir: string -> bool, raw: string, dir: string, name: string)
    requires Url.Unreserved(dir) && Url.Unreserved(name)
    requires Paths.Normalize(raw) == dir + "/" + name
    requires isDir(ViewPath("test", raw))
    ensures RenderFile(TestHelper(isDir), raw, true, true)
         == TooltipLink(LinkPrefix + ("%2F" + dir + "%2F" + name), "in " + dir, name)
  {
    DirectoryAnchor(isDir, raw, dir, name);
    var t := LinkTarget("/" + dir + "/" + name, None);
    HrefToDirectory(dir, name);
    UnreservedText(name);
    TooltipAnchorHtml(t, "in " + dir, name);
  }

  /** Without highlighting a stripped file parameter is its name and an unstripped one its path. */
  lemma UnhighlightedFile(h: Helper, raw: string, dir: string, name: string)
    requires Paths.NoSlash(name) && Html.Plain(dir) && Html.Plain(name)
    requires Paths.Normalize(raw) == dir + "/" + name
    ensures RenderFile(h, raw, true, false) == name
    ensures RenderFile(h, raw, false, false) == dir + "/" + name
  {
    Paths.SplitAtLastSlash(dir, name);
    Html.EscapeFixesExactlyPlain(name);
    PlainJoin(dir, name);
    Html.EscapeFixesExactlyPlain(dir + "/" + name);
  }

  /** Text that needs no escaping is only wrapped in emphasis. */
  lemma StrongPlain(v: string)
    requires Html.Plain(v)
    ensures RenderPlain(v, true) == "<strong>" + v + "</strong>"
  {
    Html.EscapeFixesExactlyPlain(v);
  }

  lemma AvatarUser(h: Helper, v: string, escaped: string)
    requires v != "" && Html.Escape(v) == escaped
    ensures RenderUser(h, v, true) == AvatarAndName(escaped)
  {
  }

  lemma NormalizeRooted(x: string)
    requires !Paths.StartsWithSlash(x) && !Paths.EndsWithSlash(x)
    ensures Paths.Normalize("/" + x) == x && Paths.Normalize("/" + x + "/") == x && Paths.Normalize(x) == x
  {
    assert ("/" + x)[1..] == x;
    assert ("/" + x + "/")[1..] == x + "/";
    assert (x + "/")[..|x|] == x;
  }

  /** `dir/name` with both parts unreserved and non-empty neither starts nor ends with '/'. */
  lemma UnslashedPair(dir: string, name: string)
    requires Url.Unreserved(dir) && Url.Unreserved(name) && dir != [] && name != []
    ensures !Paths.StartsWithSlash(dir + "/" + name) && !Paths.EndsWithSlash(dir + "/" + name)
  {
    assert Url.IsUnreserved(dir[0]) && Url.IsUnreserved(name[|name| - 1]);
    assert (dir + "/" + name)[0] == dir[0];
    assert (dir + "/" + name)[|dir + "/" + name| - 1] == name[|name| - 1];
  }

  lemma PlainRootedPair(dir: string, name: string)
    requires Url.Unreserved(dir) && Url.Unreserved(name)
    ensures Html.Plain("/" + dir + "/" + name)
  {
    UnreservedText(dir);
    UnreservedText(name);
    PlainJoin(dir, name);
    RootedPair(dir, name);
    var s := dir + "/" + name;
    assert Html.Plain("/" + s) by {
      forall i | 0 <= i < |"/" + s| ensures !Html.NeedsEscape(("/" + s)[i]) {
        if i > 0 {
          assert ("/" + s)[i] == s[i - 1];
        }
      }
    }
  }

  // ---------------------------------------------------------------- the paths the tests use

  /** The folder and file names of the tests' `/foo/bar.file` and `/0/bar.file`. */
  lemma FooBarNames()
    ensures Url.Unreserved("foo") && Url.Unreserved("bar.file") && Url.Unreserved("0")
    ensures "foo" + "/" + "bar.file" == "foo/bar.file" && "0" + "/" + "bar.file" == "0/bar.file"
  {
  }

  lemma FooBarNormal()
    ensures Paths.Normalize("/foo/bar.file") == "foo/bar.file"
  {
    NormalizeRooted("foo/bar.file");
    assert "/foo/bar.file" == "/" + "foo/bar.file";
  }

  lemma LegacyFooBarNormal()
    ensures Paths.Normalize("foo/bar.file") == "foo/bar.file"
  {
    NormalizeRooted("foo/bar.file");
  }

  lemma ZeroBarNormal()
    ensures Paths.Normalize("/0/bar.file") == "0/bar.file"
  {
    NormalizeRooted("0/bar.file");
    assert "/0/bar.file" == "/" + "0/bar.file";
  }

  lemma FooBarPlain()
    ensures Html.Plain("/foo/bar.file")
  {
    FooBarNames();
    PlainRootedPair("foo", "bar.file");
    assert "/foo/bar.file" == "/" + "foo" + "/" + "bar.file";
  }

  /** The link and title pieces for folder `foo`, as the expected markup spells them. */
  lemma FooBarLink()
    ensures "%2F" + "foo" == "%2Ffoo"
    ensures "in " + "foo" == "in foo"
  {
  }

  lemma SharingFolderNormal()
    ensures Paths.Normalize("/folder/trailingslash/fromsharing/") == "folder/trailingslash/fromsharing"
  {
    NormalizeRooted("folder/trailingslash/fromsharing");
    SharingFolderText();
  }

  /** The tests' shared folder, stored with both slashes. */
  lemma SharingFolderText()
    ensures "/" + "folder/trailingslash/fromsharing" + "/" == "/folder/trailingslash/fromsharing/"
  {
  }

  /** The folder and name of the tests' `/folder/trailingslash/fromsharing/`. */
  lemma SharingFolderNames()
    ensures "folder/trailingslash" + "/" + "fromsharing" == "folder/trailingslash/fromsharing"
    ensures Paths.NoSlash("fromsharing")
    ensures Html.Plain("folder/trailingslash") && Html.Plain("fromsharing")
  {
  }

  lemma TmpTestNormal()
    ensures Paths.Normalize("/tmp/test") == "tmp/test"
  {
    NormalizeRooted("tmp/test");
    assert "/tmp/test" == "/" + "tmp/test";
  }

  lemma TmpTestIsFolder()
    ensures TmpTestFolder(ViewPath("test", "/tmp/test"))
  {
    assert Paths.StartsWithSlash("/tmp/test");
    assert ViewPath("test", "/tmp/test") == FilesRoot("test") + "/tmp/test";
    assert FilesRoot("test") == "/test/files";
    assert "/test/files" + "/tmp/test" == "/test/files/tmp/test";
  }

  /** The emphasised `/foo/bar.file`, as the expected markup spells it. */
  lemma StrongFooBar()
    ensures "<strong>" + "/foo/bar.file" + "</strong>" == "<strong>/foo/bar.file</strong>"
  {
  }

  // ---------------------------------------------------------------- prepareParameters vectors

  lemma OneParameter(h: Helper, p: string, cls: Option<Classification>, stripPath: bool, highlight: bool)
    ensures PrepareParameters(h, [p], cls, stripPath, highlight) == [RenderParam(h, p, TypeAt(cls, 0), stripPath, highlight)]
  {
  }

  lemma TwoParameters(h: Helper, p: string, q: string, cls: Option<Classification>, stripPath: bool, highlight: bool)
    ensures PrepareParameters(h, [p, q], cls, stripPath, highlight)
         == [RenderParam(h, p, TypeAt(cls, 0), stripPath, highlight), RenderParam(h, q, TypeAt(cls, 1), stripPath, highlight)]
  {
  }

  /** An empty parameter list stays empty (line 65). */
  lemma NoParameters()
    ensures PrepareParameters(TestHelper(NoDirectories), [], None, false, false) == []
  {
  }

  /** Without a classified position nothing is stripped (lines 68-69). */
  lemma UnclassifiedParameters(stripPath: bool)
    ensures PrepareParameters(TestHelper(NoDirectories), ["/foo/bar.file"], Some(map[]), stripPath, false) == ["/foo/bar.file"]
  {
    OneParameter(TestHelper(NoDirectories), "/foo/bar.file", Some(map[]), stripPath, false);
  }

  /** An unclassified parameter is emphasised when highlighting (lines 70-71). */
  lemma HighlightedUnclassifiedParameters(stripPath: bool)
    ensures PrepareParameters(TestHelper(NoDirectories), ["/foo/bar.file"], Some(map[]), stripPath, true)
         == ["<strong>/foo/bar.file</strong>"]
  {
    OneParameter(TestHelper(NoDirectories), "/foo/bar.file", Some(map[]), stripPath, true);
    FooBarPlain();
    StrongPlain("/foo/bar.file");
    StrongFooBar();
  }

  /** A file parameter at position 0, rendered without highlighting. */
  lemma UnhighlightedFileParameter(h: Helper, raw: string, dir: string, name: string)
    requires Paths.NoSlash(name) && Html.Plain(dir) && Html.Plain(name)
    requires Paths.Normalize(raw) == dir + "/" + name
    ensures PrepareParameters(h, [raw], Some(map[0 := File]), true, false) == [name]
    ensures PrepareParameters(h, [raw], Some(map[0 := File]), false, false) == [dir + "/" + name]
  {
    UnhighlightedFirstFile(h, raw, dir, name, true);
    UnhighlightedFirstFile(h, raw, dir, name, false);
    OneParameter(h, raw, Some(map[0 := File]), true, false);
    OneParameter(h, raw, Some(map[0 := File]), false, false);
  }

  lemma UnhighlightedFirstFile(h: Helper, raw: string, dir: string, name: string, stripPath: bool)
    requires Paths.NoSlash(name) && Html.Plain(dir) && Html.Plain(name)
    requires Paths.Normalize(raw) == dir + "/" + name
    ensures RenderParam(h, raw, TypeAt(Some(map[0 := File]), 0), stripPath, false)
         == if stripPath then name else dir + "/" + name
  {
    assert TypeAt(Some(map[0 := File]), 0) == Some(File);
    assert RenderParam(h, raw, Some(File), stripPath, false) == RenderFile(h, raw, stripPath, false);
    UnhighlightedFile(h, raw, dir, name);
  }

  /** A stripped file parameter shows its name, a trailing '/' dropped first (lines 74-75). */
  lemma StrippedFileParameters()
    ensures PrepareParameters(TestHelper(NoDirectories), ["/foo/bar.file"], Some(map[0 := File]), true, false) == ["bar.file"]
    ensures PrepareParameters(TestHelper(NoDirectories), ["/folder/trailingslash/fromsharing/"], Some(map[0 := File]), true, false)
         == ["fromsharing"]
  {
    FooBarNames();
    FooBarNormal();
    UnreservedText("foo");
    UnreservedText("bar.file");
    UnhighlightedFileParameter(TestHelper(NoDirectories), "/foo/bar.file", "foo", "bar.file");
    SharingFolderNormal();
    SharingFolderNames();
    UnhighlightedFileParameter(TestHelper(NoDirectories), "/folder/trailingslash/fromsharing/", "folder/trailingslash", "fromsharing");
  }

  /** An unstripped file parameter shows its path without the outer slashes (lines 76-77). */
  lemma FullPathFileParameters()
    ensures PrepareParameters(TestHelper(NoDirectories), ["/foo/bar.file"], Some(map[0 := File]), false, false) == ["foo/bar.file"]
    ensures PrepareParameters(TestHelper(NoDirectories), ["/folder/trailingslash/fromsharing/"], Some(map[0 := File]), false, false)
         == ["folder/trailingslash/fromsharing"]
  {
    FooBarNames();
    FooBarNormal();
    UnreservedText("foo");
    UnreservedText("bar.file");
    UnhighlightedFileParameter(TestHelper(NoDirectories), "/foo/bar.file", "foo", "bar.file");
    SharingFolderNormal();
    SharingFolderNames();
    UnhighlightedFileParameter(TestHelper(NoDirectories), "/folder/trailingslash/fromsharing/", "folder/trailingslash", "fromsharing");
  }

  /** A highlighted, stripped file parameter at position 0 linking to a file. */
  lemma TooltipFileParameter(isDir: string -> bool, raw: string, dir: string, name: string)
    requires Url.Unreserved(dir) && Url.Unreserved(name)
    requires Paths.Normalize(raw) == dir + "/" + name
    requires !isDir(ViewPath("test", raw))
    ensures PrepareParameters(TestHelper(isDir), [raw], Some(map[0 := File]), true, true)
         == [TooltipLink(LinkPrefix + ("%2F" + dir) + ScrollArg + name, "in " + dir, name)]
  {
    var h := TestHelper(isDir);
    OneParameter(h, raw, Some(map[0 := File]), true, true);
    assert TypeAt(Some(map[0 := File]), 0) == Some(File);
    assert RenderParam(h, raw, Some(File), true, true) == RenderFile(h, raw, true, true);
    TooltipFileLink(isDir, raw, dir, name);
  }

  /** A highlighted, stripped file parameter becomes a link into its folder (lines 78-80). */
  lemma HighlightedFileParameter()
    ensures PrepareParameters(TestHelper(NoDirectories), ["/foo/bar.file"], Some(map[0 := File]), true, true)
         == [TooltipLink(LinkPrefix + "%2Ffoo" + ScrollArg + "bar.file", "in foo", "bar.file")]
  {
    FooBarNames();
    FooBarNormal();
    FooBarLink();
    TooltipFileParameter(NoDirectories, "/foo/bar.file", "foo", "bar.file");
  }

  /** A folder named "0" is still a folder (lines 81-83). */
  lemma ZeroFolderFileParameter()
    ensures PrepareParameters(TestHelper(NoDirectories), ["/0/bar.file"], Some(map[0 := File]), true, true)
         == [TooltipLink(LinkPrefix + "%2F0" + ScrollArg + "bar.file", "in 0", "bar.file")]
  {
    FooBarNames();
    ZeroBarNormal();
    assert "%2F" + "0" == "%2F0";
    assert "in " + "0" == "in 0";
    TooltipFileParameter(NoDirectories, "/0/bar.file", "0", "bar.file");
  }

  /** A parameter outside the classification is emphasised when highlighting and kept otherwise. */
  lemma UnclassifiedParameter(h: Helper, v: string, cls: Option<Classification>, i: nat, stripPath: bool)
    requires TypeAt(cls, i) == None && Html.Plain(v)
    ensures RenderParam(h, v, TypeAt(cls, i), stripPath, true) == "<strong>" + v + "</strong>"
    ensures RenderParam(h, v, TypeAt(cls, i), stripPath, false) == v
  {
    StrongPlain(v);
  }

  /** The tests' local user `UserA` and its emphasis. */
  lemma UserAName()
    ensures Url.Unreserved("UserA")
    ensures "<strong>" + "UserA" + "</strong>" == "<strong>UserA</strong>"
  {
  }

  lemma UserAPlain()
    ensures Html.Plain("UserA") && Html.Escape("UserA") == "UserA"
  {
    UserAName();
    UnreservedText("UserA");
  }

  /** A parameter list longer than the classified positions is emphasised outside them (lines 84-85). */
  lemma FilePositionBeyondParameters()
    ensures PrepareParameters(TestHelper(NoDirectories), ["/foo/bar.file"], Some(map[1 := File]), true, false) == ["/foo/bar.file"]
    ensures PrepareParameters(TestHelper(NoDirectories), ["/foo/bar.file"], Some(map[1 := File]), true, true)
         == ["<strong>/foo/bar.file</strong>"]
  {
    var h := TestHelper(NoDirectories);
    FooBarPlain();
    StrongFooBar();
    UnclassifiedParameter(h, "/foo/bar.file", Some(map[1 := File]), 0, true);
    OneParameter(h, "/foo/bar.file", Some(map[1 := File]), true, false);
    OneParameter(h, "/foo/bar.file", Some(map[1 := File]), true, true);
  }

  /** A legacy path without its leading '/' displays like the rooted one (lines 88, 92). */
  lemma LegacyUnhighlightedFileParameters()
    ensures PrepareParameters(TestHelper(NoDirectories), ["foo/bar.file"], Some(map[0 := File]), false, false) == ["foo/bar.file"]
    ensures PrepareParameters(TestHelper(NoDirectories), ["foo/bar.file"], Some(map[0 := File]), true, false) == ["bar.file"]
  {
    FooBarNames();
    LegacyFooBarNormal();
    UnreservedText("foo");
    UnreservedText("bar.file");
    UnhighlightedFileParameter(TestHelper(NoDirectories), "foo/bar.file", "foo", "bar.file");
  }

  /** A legacy path links like the rooted one, with the full path as text when not stripped (lines 89-91). */
  lemma LegacyFullPathFileParameter()
    ensures PrepareParameters(TestHelper(NoDirectories), ["foo/bar.file"], Some(map[0 := File]), false, true)
         == [FilenameLink(LinkPrefix + "%2Ffoo" + ScrollArg + "bar.file", "foo/bar.file")]
  {
    var h := TestHelper(NoDirectories);
    FooBarNames();
    LegacyFooBarNormal();
    FooBarLink();
    OneParameter(h, "foo/bar.file", Some(map[0 := File]), false, true);
    assert TypeAt(Some(map[0 := File]), 0) == Some(File);
    FullPathFileLink(NoDirectories, "foo/bar.file", "foo", "bar.file");
  }

  /** A legacy path links like the rooted one (lines 93-95). */
  lemma LegacyHighlightedFileParameter()
    ensures PrepareParameters(TestHelper(NoDirectories), ["foo/bar.file"], Some(map[0 := File]), true, true)
         == [TooltipLink(LinkPrefix + "%2Ffoo" + ScrollArg + "bar.file", "in foo", "bar.file")]
  {
    FooBarNames();
    LegacyFooBarNormal();
    FooBarLink();
    TooltipFileParameter(NoDirectories, "foo/bar.file", "foo", "bar.file");
  }

  /** A user-name parameter of a local user, highlighted. */
  lemma UserParameter(h: Helper, v: string, escaped: string, cls: Option<Classification>, i: nat, stripPath: bool)
    requires TypeAt(cls, i) == Some(Username) && v != "" && Html.Escape(v) == escaped
    ensures RenderParam(h, v, TypeAt(cls, i), stripPath, true) == AvatarAndName(escaped)
  {
    AvatarUser(h, v, escaped);
  }

  /** A file parameter, stripped, as the name alone or as a link into its folder. */
  lemma FileParameter(isDir: string -> bool, raw: string, dir: string, name: string, cls: Option<Classification>, i: nat)
    requires TypeAt(cls, i) == Some(File)
    requires Url.Unreserved(dir) && Url.Unreserved(name)
    requires Paths.Normalize(raw) == dir + "/" + name
    requires !isDir(ViewPath("test", raw))
    ensures RenderParam(TestHelper(isDir), raw, TypeAt(cls, i), true, false) == name
    ensures RenderParam(TestHelper(isDir), raw, TypeAt(cls, i), true, true)
         == TooltipLink(LinkPrefix + ("%2F" + dir) + ScrollArg + name, "in " + dir, name)
  {
    UnreservedText(dir);
    UnreservedText(name);
    UnhighlightedFile(TestHelper(isDir), raw, dir, name);
    TooltipFileLink(isDir, raw, dir, name);
  }

  /** The file position selects the second parameter (lines 98-102). */
  lemma SecondFileParameter()
    ensures PrepareParameters(TestHelper(NoDirectories), ["UserA", "/foo/bar.file"], Some(map[1 := File]), true, false)
         == ["UserA", "bar.file"]
    ensures PrepareParameters(TestHelper(NoDirectories), ["UserA", "/foo/bar.file"], Some(map[1 := File]), true, true)
         == ["<strong>UserA</strong>", TooltipLink(LinkPrefix + "%2Ffoo" + ScrollArg + "bar.file", "in foo", "bar.file")]
  {
    var h := TestHelper(NoDirectories);
    var cls := Some(map[1 := File]);
    UserAName();
    UserAPlain();
    FooBarNames();
    FooBarNormal();
    FooBarLink();
    UnclassifiedParameter(h, "UserA", cls, 0, true);
    FileParameter(NoDirectories, "/foo/bar.file", "foo", "bar.file", cls, 1);
    TwoParameters(h, "UserA", "/foo/bar.file", cls, true, false);
    TwoParameters(h, "UserA", "/foo/bar.file", cls, true, true);
  }

  /** Parameters beyond the file position are emphasised (lines 103-107). */
  lemma FilePositionBeyondList()
    ensures PrepareParameters(TestHelper(NoDirectories), ["UserA", "/foo/bar.file"], Some(map[2 := File]), true, false)
         == ["UserA", "/foo/bar.file"]
    ensures PrepareParameters(TestHelper(NoDirectories), ["UserA", "/foo/bar.file"], Some(map[2 := File]), true, true)
         == ["<strong>UserA</strong>", "<strong>/foo/bar.file</strong>"]
  {
    var h := TestHelper(NoDirectories);
    var cls := Some(map[2 := File]);
    UserAName();
    UserAPlain();
    FooBarPlain();
    StrongFooBar();
    UnclassifiedParameter(h, "UserA", cls, 0, true);
    UnclassifiedParameter(h, "/foo/bar.file", cls, 1, true);
    TwoParameters(h, "UserA", "/foo/bar.file", cls, true, false);
    TwoParameters(h, "UserA", "/foo/bar.file", cls, true, true);
  }

  /** A local user gets an avatar marker before the emphasised name (lines 108-111). */
  lemma UserParameters()
    ensures PrepareParameters(TestHelper(NoDirectories), ["UserA", "/foo/bar.file"], Some(map[0 := Username]), true, true)
         == [AvatarAndName("UserA"), "<strong>/foo/bar.file</strong>"]
  {
    var h := TestHelper(NoDirectories);
    var cls := Some(map[0 := Username]);
    UserAPlain();
    FooBarPlain();
    StrongFooBar();
    UserParameter(h, "UserA", "UserA", cls, 0, true);
    UnclassifiedParameter(h, "/foo/bar.file", cls, 1, true);
    TwoParameters(h, "UserA", "/foo/bar.file", cls, true, true);
  }

  /** Markup characters between plain runs are escaped one by one. */
  lemma EscapeAngles(a: string, b: string, c: string)
    requires Html.Plain(a) && Html.Plain(b) && Html.Plain(c)
    ensures Html.Escape(a + "<" + b + ">" + c) == a + "&lt;" + b + "&gt;" + c
  {
    Html.EscapeConcat(a + "<" + b + ">", c);
    Html.EscapeConcat(a + "<" + b, ">");
    Html.EscapeConcat(a + "<", b);
    Html.EscapeConcat(a, "<");
    Html.EscapeFixesExactlyPlain(a);
    Html.EscapeFixesExactlyPlain(b);
    Html.EscapeFixesExactlyPlain(c);
    assert Html.Escape("<") == "&lt;" + Html.Escape("");
    assert Html.Escape(">") == "&gt;" + Html.Escape("");
  }

  lemma MarkupUserEscape()
    ensures Html.Escape("U<ser>A") == "U&lt;ser&gt;A"
  {
    assert Html.Plain("U") && Html.Plain("ser") && Html.Plain("A");
    assert "U" + "<" + "ser" + ">" + "A" == "U<ser>A";
    assert "U" + "&lt;" + "ser" + "&gt;" + "A" == "U&lt;ser&gt;A";
    EscapeAngles("U", "ser", "A");
  }

  /** A user name is escaped in the avatar marker and in the emphasis (lines 112-115). */
  lemma EscapedUserParameters()
    ensures PrepareParameters(TestHelper(NoDirectories), ["U<ser>A", "/foo/bar.file"], Some(map[0 := Username]), true, true)
         == [AvatarAndName("U&lt;ser&gt;A"), "<strong>/foo/bar.file</strong>"]
  {
    var h := TestHelper(NoDirectories);
    var cls := Some(map[0 := Username]);
    MarkupUserEscape();
    FooBarPlain();
    StrongFooBar();
    UserParameter(h, "U<ser>A", "U&lt;ser&gt;A", cls, 0, true);
    UnclassifiedParameter(h, "/foo/bar.file", cls, 1, true);
    TwoParameters(h, "U<ser>A", "/foo/bar.file", cls, true, true);
  }

  /** The emphasised placeholder, as one literal. */
  lemma StrongRemoteUser()
    ensures "<strong>" + "\"remote user\"" + "</strong>" == "<strong>\"remote user\"</strong>"
  {
  }

  lemma RemoteUserIsEnglish(isDir: string -> bool)
    ensures RemoteUser(TestHelper(isDir)) == "\"remote user\""
  {
    RemoteUserEnglish();
  }

  /** An empty user name under the English translator. */
  lemma RemoteUserParameter(isDir: string -> bool, cls: Option<Classification>, i: nat, stripPath: bool)
    requires TypeAt(cls, i) == Some(Username)
    ensures RenderParam(TestHelper(isDir), "", TypeAt(cls, i), stripPath, true) == "<strong>\"remote user\"</strong>"
    ensures RenderParam(TestHelper(isDir), "", TypeAt(cls, i), stripPath, false) == "\"remote user\""
  {
    var h := TestHelper(isDir);
    UserTypedParameter(h, "", TypeAt(cls, i), stripPath);
    RemoteUserIsEnglish(isDir);
    StrongRemoteUser();
  }

  lemma UserTypedParameter(h: Helper, v: string, t: Option<ParamType>, stripPath: bool)
    requires t == Some(Username)
    ensures RenderParam(h, v, t, stripPath, true) == RenderUser(h, v, true)
    ensures RenderParam(h, v, t, stripPath, false) == RenderUser(h, v, false)
  {
  }

  /** An empty user name stands for a remote user, emphasised when highlighting (lines 116-119). */
  lemma HighlightedRemoteUserParameters()
    ensures PrepareParameters(TestHelper(NoDirectories), ["", "/foo/bar.file"], Some(map[0 := Username]), true, true)
         == ["<strong>\"remote user\"</strong>", "<strong>/foo/bar.file</strong>"]
  {
    var h := TestHelper(NoDirectories);
    var cls := Some(map[0 := Username]);
    RemoteUserParameter(NoDirectories, cls, 0, true);
    FooBarPlain();
    StrongFooBar();
    UnclassifiedParameter(h, "/foo/bar.file", cls, 1, true);
    TwoParameters(h, "", "/foo/bar.file", cls, true, true);
  }

  /** An empty user name stands for a remote user (lines 120-123). */
  lemma RemoteUserParameters()
    ensures PrepareParameters(TestHelper(NoDirectories), ["", "/foo/bar.file"], Some(map[0 := Username]), true, false)
         == ["\"remote user\"", "/foo/bar.file"]
  {
    var h := TestHelper(NoDirectories);
    var cls := Some(map[0 := Username]);
    RemoteUserParameter(NoDirectories, cls, 0, true);
    FooBarPlain();
    UnclassifiedParameter(h, "/foo/bar.file", cls, 1, true);
    TwoParameters(h, "", "/foo/bar.file", cls, true, false);
  }

  /** A user and a file together (lines 125-128). */
  lemma UserAndFileParameters()
    ensures PrepareParameters(TestHelper(NoDirectories), ["UserA", "/foo/bar.file"], Some(map[0 := Username, 1 := File]), true, true)
         == [AvatarAndName("UserA"), TooltipLink(LinkPrefix + "%2Ffoo" + ScrollArg + "bar.file", "in foo", "bar.file")]
  {
    var h := TestHelper(NoDirectories);
    var cls := Some(map[0 := Username, 1 := File]);
    UserAPlain();
    FooBarNames();
    FooBarNormal();
    FooBarLink();
    UserParameter(h, "UserA", "UserA", cls, 0, true);
    FileParameter(NoDirectories, "/foo/bar.file", "foo", "bar.file", cls, 1);
    TwoParameters(h, "UserA", "/foo/bar.file", cls, true, true);
  }

  /** A directory parameter links to the directory itself (lines 129-132). */
  lemma UserAndDirectoryParameters()
    ensures PrepareParameters(TestHelper(TmpTestFolder), ["UserA", "/tmp/test"], Some(map[0 := Username, 1 := File]), true, true)
         == [AvatarAndName("UserA"), TooltipLink(LinkPrefix + "%2Ftmp%2Ftest", "in tmp", "test")]
  {
    var h := TestHelper(TmpTestFolder);
    var cls := Some(map[0 := Username, 1 := File]);
    UserAPlain();
    UserParameter(h, "UserA", "UserA", cls, 0, true);
    TmpTestDirectoryParameter(cls);
    TwoParameters(h, "UserA", "/tmp/test", cls, true, true);
  }

  lemma TmpTestDirectoryParameter(cls: Option<Classification>)
    requires cls == Some(map[0 := Username, 1 := File])
    ensures RenderParam(TestHelper(TmpTestFolder), "/tmp/test", TypeAt(cls, 1), true, true)
         == TooltipLink(LinkPrefix + "%2Ftmp%2Ftest", "in tmp", "test")
  {
    assert Url.Unreserved("tmp") && Url.Unreserved("test");
    assert "tmp" + "/" + "test" == "tmp/test";
    assert "in " + "tmp" == "in tmp";
    assert "%2F" + "tmp" + "%2F" + "test" == "%2Ftmp%2Ftest";
    TmpTestNormal();
    TmpTestIsFolder();
    DirectoryParameter(TmpTestFolder, "/tmp/test", "tmp", "test", cls, 1);
  }

  /** A directory parameter, stripped and highlighted. */
  lemma DirectoryParameter(isDir: string -> bool, raw: string, dir: string, name: string, cls: Option<Classification>, i: nat)
    requires TypeAt(cls, i) == Some(File)
    requires Url.Unreserved(dir) && Url.Unreserved(name)
    requires Paths.Normalize(raw) == dir + "/" + name
    requires isDir(ViewPath("test", raw))
    ensures RenderParam(TestHelper(isDir), raw, TypeAt(cls, i), true, true)
         == TooltipLink(LinkPrefix + ("%2F" + dir + "%2F" + name), "in " + dir, name)
  {
    TooltipDirectoryLink(isDir, raw, dir, name);
  }

  // ---------------------------------------------------------------- prepareArrayParameter vectors

  /** An empty list is the empty phrase (line 156). */
  lemma EmptyArrayParameter()
    ensures PrepareArrayParameter(TestHelper(NoDirectories), [], "file", true, true) == ""
  {
  }

  /** The base name of a legacy `dir/name` path. */
  lemma LegacyBasename(dir: string, name: string)
    requires Url.Unreserved(dir) && Url.Unreserved(name) && dir != [] && name != []
    ensures Paths.Basename(Paths.Normalize(dir + "/" + name)) == name
    ensures Html.Escape(name) == name
  {
    UnslashedPair(dir, name);
    NormalizeRooted(dir + "/" + name);
    UnreservedText(name);
    Paths.SplitAtLastSlash(dir, name);
  }

  lemma LegacyFileNames()
    ensures Html.Escape(Paths.Basename(Paths.Normalize("A/B.txt"))) == "B.txt"
    ensures Html.Escape(Paths.Basename(Paths.Normalize("C/D.txt"))) == "D.txt"
  {
    assert "A" + "/" + "B.txt" == "A/B.txt" && "C" + "/" + "D.txt" == "C/D.txt";
    assert Paths.NoSlash("B.txt") && Paths.NoSlash("D.txt");
    assert Url.Unreserved("A") && Url.Unreserved("B.txt") && Url.Unreserved("C") && Url.Unreserved("D.txt");
    LegacyBasename("A", "B.txt");
    LegacyBasename("C", "D.txt");
  }

  /**
   * Two files join as their base names through the "%s and %s" entry of
   * whichever locale is set, the default English one or another (lines 157-158).
   */
  lemma FileArrayParameter(l: Translator)
    ensures PrepareArrayParameter(TestHelper(NoDirectories), ["A/B.txt", "C/D.txt"], "file", true, false)
         == English(AndKey, ["B.txt", "D.txt"])
    ensures PrepareArrayParameter(SetL10n(TestHelper(NoDirectories), l), ["A/B.txt", "C/D.txt"], "file", true, false)
         == l(AndKey, ["B.txt", "D.txt"])
  {
    LegacyFileNames();
    ArrayOfTwoFiles(TestHelper(NoDirectories), "A/B.txt", "C/D.txt");
    ArrayOfTwoFiles(SetL10n(TestHelper(NoDirectories), l), "A/B.txt", "C/D.txt");
  }

  /** Untyped items join as given (lines 159-160). */
  lemma UntypedArrayParameter(l: Translator)
    ensures PrepareArrayParameter(TestHelper(NoDirectories), ["A/B.txt", "C/D.txt"], "", true, false)
         == English(AndKey, ["A/B.txt", "C/D.txt"])
    ensures PrepareArrayParameter(SetL10n(TestHelper(NoDirectories), l), ["A/B.txt", "C/D.txt"], "", true, false)
         == l(AndKey, ["A/B.txt", "C/D.txt"])
  {
    ArrayOfTwoUntyped(TestHelper(NoDirectories), "A/B.txt", "C/D.txt", "", true);
    ArrayOfTwoUntyped(SetL10n(TestHelper(NoDirectories), l), "A/B.txt", "C/D.txt", "", true);
  }

  // ---------------------------------------------------------------- getSpecialParameterList vectors

  /** The mock extension's declarations are found; undeclared subjects classify nothing (lines 179-183). */
  lemma SpecialParameterLists()
    ensures GetSpecialParameterList(TestHelper(NoDirectories), "app1", "subject1") == map[0 := File]
    ensures GetSpecialParameterList(TestHelper(NoDirectories), "app1", "subject2") == map[0 := File, 1 := Username]
    ensures GetSpecialParameterList(TestHelper(NoDirectories), "app1", "") == map[]
    ensures GetSpecialParameterList(TestHelper(NoDirectories), "calendar", "shared_group") == map[]
    ensures GetSpecialParameterList(TestHelper(NoDirectories), "calendar", "") == map[]
  {
    var h := TestHelper(NoDirectories);
    assert h.extensions[0] == MockExtension;
  }
}
