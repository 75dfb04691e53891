/**
 * The formatter with the file-sharing extension registered: the parameters of
 * a sharing event render as a file and, where the subject names one, a user.
 */
module SharingActivity {
  import opened Wrappers
  import opened Activity
  import opened ParameterHelper
  import FilesSharing

  /** With only the file-sharing extension registered, classification is its table, or empty. */
  lemma ClassifierUsesSharingTable(h: Helper, app: string, text: string)
    requires h.extensions == [FilesSharing.AsExtension()]
    ensures GetSpecialParameterList(h, app, text) == FilesSharing.GetSpecialParameterList(app, text).GetOr(map[])
  {
    assert h.extensions[0](app, text) == FilesSharing.GetSpecialParameterList(app, text);
  }

  lemma UserSubjectTable(text: string)
    requires text in {"shared_user_self", "shared_with_by", "shared_link_self"}
    ensures FilesSharing.GetSpecialParameterList("files", text) == Some(map[0 := File, 1 := Username])
  {
  }

  /** Two parameters declared a file and a user render as such. */
  lemma FileThenUser(h: Helper, path: string, user: string, stripPath: bool, highlight: bool)
    ensures PrepareParameters(h, [path, user], Some(map[0 := File, 1 := Username]), stripPath, highlight)
         == [RenderFile(h, path, stripPath, highlight), RenderUser(h, user, highlight)]
  {
    var cls := Some(map[0 := File, 1 := Username]);
    assert TypeAt(cls, 0) == Some(File) && TypeAt(cls, 1) == Some(Username);
    var r := PrepareParameters(h, [path, user], cls, stripPath, highlight);
    assert r[0] == RenderParam(h, path, Some(File), stripPath, highlight);
    assert r[1] == RenderParam(h, user, Some(Username), stripPath, highlight);
  }

  /** A user share, a share with the current user, or a link share: a file, then a user. */
  lemma SharedWithUserRendering(h: Helper, text: string, path: string, user: string, stripPath: bool, highlight: bool)
    requires text in {"shared_user_self", "shared_with_by", "shared_link_self"}
    ensures PrepareParameters(h, [path, user], FilesSharing.GetSpecialParameterList("files", text), stripPath, highlight)
         == [RenderFile(h, path, stripPath, highlight), RenderUser(h, user, highlight)]
  {
    UserSubjectTable(text);
    FileThenUser(h, path, user, stripPath, highlight);
  }

  /** A parameter declared a file followed by an undeclared one: a file, then plain text. */
  lemma FileThenPlain(h: Helper, path: string, other: string, stripPath: bool, highlight: bool)
    ensures PrepareParameters(h, [path, other], Some(map[0 := File]), stripPath, highlight)
         == [RenderFile(h, path, stripPath, highlight), RenderPlain(other, highlight)]
  {
    var cls := Some(map[0 := File]);
    assert TypeAt(cls, 0) == Some(File) && TypeAt(cls, 1) == None;
    var r := PrepareParameters(h, [path, other], cls, stripPath, highlight);
    assert r[0] == RenderParam(h, path, Some(File), stripPath, highlight);
    assert r[1] == RenderParam(h, other, None, stripPath, highlight);
  }

  /** A group share: a file, then the group name as plain text. */
  lemma SharedWithGroupRendering(h: Helper, path: string, group: string, stripPath: bool, highlight: bool)
    ensures PrepareParameters(h, [path, group], FilesSharing.GetSpecialParameterList("files", "shared_group_self"), stripPath, highlight)
         == [RenderFile(h, path, stripPath, highlight), RenderPlain(group, highlight)]
  {
    assert FilesSharing.GetSpecialParameterList("files", "shared_group_self") == Some(map[0 := File]);
    FileThenPlain(h, path, group, stripPath, highlight);
  }
}
