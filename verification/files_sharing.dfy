/**
 * The file-sharing activity extension: which notification types it adds, how
 * it filters them, which subjects it translates, and how it classifies the
 * parameters of its subjects. Each PHP `false` return is `None`.
 */
module FilesSharing {
  import opened Wrappers
  import opened Activity
  import opened Translation
  import opened Strings

  /** The one notification type this extension adds. */
  const TypeShared := "shared"

  /** The one stream filter this extension understands. */
  const FilterShares := "shares"

  /** The subjects of app "files" this extension knows. */
  const KnownSubjects: set<string> := {"shared_user_self", "shared_group_self", "shared_with_by", "shared_link_self"}

  /** The types of `types` the filter keeps, or `None` when the filter is not this extension's. */
  function FilterNotificationTypes(types: seq<string>, filter: string): (r: Option<seq<string>>)
    ensures r.Some? <==> filter == FilterShares
    ensures r.Some? ==> |r.value| <= 1 && forall t :: t in r.value <==> t in types && t == TypeShared
  {
    if filter == FilterShares then Some(if TypeShared in types then [TypeShared] else [])
    else None
  }

  /** The types enabled by default for a delivery method. */
  function GetDefaultTypes(delivery: string): (r: Option<seq<string>>)
    ensures r.Some? <==> delivery == "stream" || delivery == "email"
    ensures r.Some? ==> r.value == [TypeShared]
  {
    if delivery == "stream" || delivery == "email" then Some([TypeShared]) else None
  }

  /** Whether a filter given in a query string is this extension's: exactly the filters it filters by. */
  function IsFilterValid(filter: string): (r: bool)
    ensures r <==> FilterNotificationTypes([], filter).Some?
  {
    filter == FilterShares
  }

  /** A filter is valid exactly when this extension filters by it, whatever the types offered. */
  lemma ValidFiltersAreFiltered(types: seq<string>, filter: string)
    ensures IsFilterValid(filter) <==> filter == "shares"
    ensures IsFilterValid(filter) <==> FilterNotificationTypes(types, filter).Some?
  {
  }

  /** The translation key of each known subject of app "files". */
  function SubjectTemplate(text: string): (r: Option<string>)
    ensures r.Some? <==> text in KnownSubjects
  {
    if text == "shared_user_self" then Some(UserShareTemplate)
    else if text == "shared_group_self" then Some(GroupShareTemplate)
    else if text == "shared_with_by" then Some(IncomingShareTemplate)
    else if text == "shared_link_self" then Some(LinkShareTemplate)
    else None
  }

  const UserShareTemplate := "You shared %1$s with %2$s"
  const GroupShareTemplate := "You shared %1$s with group %2$s"
  const IncomingShareTemplate := "%2$s shared %1$s with you"
  const LinkShareTemplate := "You shared %1$s via link"

  /** How a template reads: who acts first, and whether it names a group or a link. */
  predicate ActorIsSelf(t: string) { IsPrefix("You shared %1$s ", t) }
  predicate SharerFirst(t: string) { IsPrefix("%2$s shared %1$s ", t) }
  predicate NamesGroup(t: string) { IsSuffix(" group %2$s", t) }
  predicate ViaLink(t: string) { IsSuffix(" via link", t) }

  /**
   * Each known subject's template plays its part: the current user is the
   * actor of every subject but `shared_with_by`, whose sharer (the second
   * parameter) comes first; only the group share names a group, and only the
   * link share is "via link".
   */
  lemma SubjectTemplateRoles(text: string)
    requires text in KnownSubjects
    ensures var t := SubjectTemplate(text).value;
            && (ActorIsSelf(t) <==> text != "shared_with_by")
            && (SharerFirst(t) <==> text == "shared_with_by")
            && (NamesGroup(t) <==> text == "shared_group_self")
            && (ViaLink(t) <==> text == "shared_link_self")
  {
    if text == "shared_user_self" {
      UserShareRoles();
    } else if text == "shared_group_self" {
      GroupShareRoles();
    } else if text == "shared_with_by" {
      IncomingShareRoles();
    } else {
      LinkShareRoles();
    }
  }

  lemma UserShareRoles()
    ensures ActorIsSelf(UserShareTemplate) && !SharerFirst(UserShareTemplate)
    ensures !NamesGroup(UserShareTemplate) && !ViaLink(UserShareTemplate)
  {
    assert UserShareTemplate[..16] == "You shared %1$s ";
    assert UserShareTemplate[0] != "%2$s shared %1$s "[0];
    assert UserShareTemplate[|UserShareTemplate| - 10] != " group %2$s"[1];
    assert UserShareTemplate[|UserShareTemplate| - 1] != " via link"[8];
  }

  lemma GroupShareRoles()
    ensures ActorIsSelf(GroupShareTemplate) && !SharerFirst(GroupShareTemplate)
    ensures NamesGroup(GroupShareTemplate) && !ViaLink(GroupShareTemplate)
  {
    assert GroupShareTemplate[..16] == "You shared %1$s ";
    assert GroupShareTemplate[0] != "%2$s shared %1$s "[0];
    assert GroupShareTemplate[|GroupShareTemplate| - 11..] == " group %2$s";
    assert GroupShareTemplate[|GroupShareTemplate| - 1] != " via link"[8];
  }

  lemma IncomingShareRoles()
    ensures !ActorIsSelf(IncomingShareTemplate) && SharerFirst(IncomingShareTemplate)
    ensures !NamesGroup(IncomingShareTemplate) && !ViaLink(IncomingShareTemplate)
  {
    assert IncomingShareTemplate[0] != "You shared %1$s "[0];
    assert IncomingShareTemplate[..17] == "%2$s shared %1$s ";
    assert IncomingShareTemplate[|IncomingShareTemplate| - 1] != " group %2$s"[10];
    assert IncomingShareTemplate[|IncomingShareTemplate| - 1] != " via link"[8];
  }

  lemma LinkShareRoles()
    ensures ActorIsSelf(LinkShareTemplate) && !SharerFirst(LinkShareTemplate)
    ensures !NamesGroup(LinkShareTemplate) && ViaLink(LinkShareTemplate)
  {
    assert LinkShareTemplate[..16] == "You shared %1$s ";
    assert LinkShareTemplate[0] != "%2$s shared %1$s "[0];
    assert LinkShareTemplate[|LinkShareTemplate| - 1] != " group %2$s"[10];
    assert LinkShareTemplate[|LinkShareTemplate| - 9..] == " via link";
  }

  /**
   * The subject `text` of app `app` translated by `l` with `params`; `None` for
   * any other app or subject. The language code, path stripping and
   * highlighting do not change the dispatch.
   */
  function Translate(l: Translator, app: string, text: string, params: seq<string>,
                     stripPath: bool, highlightParams: bool, languageCode: string): (r: Option<string>)
    ensures r.Some? <==> app == "files" && text in KnownSubjects
    ensures r.Some? ==> r.value == l(SubjectTemplate(text).value, params)
  {
    if app != "files" then None
    else
      match SubjectTemplate(text)
      case None => None
      case Some(key) => Some(l(key, params))
  }

  /** Distinct subjects are translated through distinct keys. */
  lemma SubjectTemplatesDistinct(a: string, b: string)
    requires a in KnownSubjects && b in KnownSubjects && a != b
    ensures SubjectTemplate(a) != SubjectTemplate(b)
  {
  }

  /** The position-to-type map of a subject of app "files". */
  function GetSpecialParameterList(app: string, text: string): (r: Option<Classification>)
    ensures r.Some? <==> app == "files" && text in KnownSubjects
    ensures r.Some? ==> r.value.Keys <= {0, 1} && 0 in r.value && r.value[0] == File
    ensures r.Some? ==> (1 in r.value <==> text != "shared_group_self")
    ensures r.Some? && 1 in r.value ==> r.value[1] == Username
  {
    if app == "files" && text == "shared_group_self" then Some(map[0 := File])
    else if app == "files" && text in {"shared_user_self", "shared_with_by", "shared_link_self"} then
      Some(map[0 := File, 1 := Username])
    else None
  }

  /** This extension as the activity manager sees it when classifying parameters. */
  function AsExtension(): (e: Extension)
    ensures forall app, text :: e(app, text) == GetSpecialParameterList(app, text)
  {
    GetSpecialParameterList
  }

  /** The icon of a notification type. */
  function GetTypeIcon(t: string): (r: Option<string>)
    ensures r.Some? <==> t == TypeShared
    ensures r.Some? ==> r.value == "icon-share"
  {
    if t == TypeShared then Some("icon-share") else None
  }

  /** The extension never groups activities: no parameter index is given. */
  function GetGroupParameter(activity: map<string, string>): (r: Option<nat>)
    ensures r.None?
  {
    None
  }

  /** The extension never supplies query conditions, even for its own filter. */
  function GetQueryForFilter(filter: string): (r: Option<(string, seq<string>)>)
    ensures r.None?
  {
    None
  }

  /** Exactly the subjects whose parameters are classified are the ones translated. */
  lemma ClassifiedSubjectsAreTranslated(l: Translator, app: string, text: string, params: seq<string>,
                                        stripPath: bool, highlightParams: bool, languageCode: string)
    ensures GetSpecialParameterList(app, text).Some?
        <==> Translate(l, app, text, params, stripPath, highlightParams, languageCode).Some?
  {
  }

  /**
   * The default types all have an icon and all survive this extension's own
   * filter: the settings page never offers a type the stream cannot show.
   */
  lemma DefaultTypesAreShownAndFiltered(delivery: string)
    requires GetDefaultTypes(delivery).Some?
    ensures forall t :: t in GetDefaultTypes(delivery).value ==> GetTypeIcon(t).Some?
    ensures FilterNotificationTypes(GetDefaultTypes(delivery).value, FilterShares) == GetDefaultTypes(delivery)
  {
  }
}
