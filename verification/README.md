# Activity parameter formatting and the file-sharing extension, in Dafny

This project models two pieces of the ownCloud Activity app.

1. **The parameter formatter (`ParameterHelper`).** It turns the raw string parameters of an
   activity event into display strings, one per parameter:
   - A file path is normalised by dropping one leading and one trailing `/`.
   - It is shown as its base name or as its full path.
   - When highlighting, it becomes a link into the files app. A directory link opens the
     directory itself. Any other link opens the containing folder and scrolls to the entry.
   - A user name becomes an avatar marker and an emphasised, HTML-escaped name. The empty name
     stands for a remote user.
   - Any other parameter is kept as is, or emphasised when highlighting.

   The formatter also joins multi-valued parameters into one phrase through the locale's
   `"%s and %s"`. It looks up the position-to-type classification that the registered
   extensions declare for an (app, subject) pair.
2. **The file-sharing extension (`extension/files_sharing.php`).** These are its decision
   tables:
   - the parameter classification of the four sharing subjects;
   - the `shares` filter and its validity;
   - the default notification types per delivery method;
   - the type icon;
   - the subject-to-template dispatch of `translate`;
   - the constant "no opinion" answers of `getGroupParameter` and `getQueryForFilter`.

`ParameterHelper` is specified by its test suite, `tests/parameterhelpertest.php`. The model
satisfies every vector there, and `ParameterHelperVectors` proves each of them about the model.
Where the tests are silent, the model makes the choices listed under "## Left out".

## Layout

| file | module | contents |
|---|---|---|
| wrappers.dfy | `Wrappers` | `Option`, standing in for PHP's `false` sentinel |
| strings.dfy | `Strings` | prefix/suffix tests, `IndexOf`, `Join` |
| html.dfy | `Html` | `htmlspecialchars` for `& < > " '` and its inverse |
| url.dfy | `Url` | `urlencode` and its inverse |
| paths.dfy | `Paths` | normalisation, base name, containing folder, legacy paths |
| translation.dfy | `Translation` | the translator type; a `%s`-substituting English locale |
| activity.dfy | `Activity` | parameter types, classifications, the first-declaration-wins merge |
| parameter_helper.dfy | `ParameterHelper` | the formatter |
| files_sharing.dfy | `FilesSharing` | the file-sharing extension |
| sharing_activity.dfy | `SharingActivity` | the formatter applied to the extension's subjects |
| vectors.dfy | `ParameterHelperVectors` | the test suite's fixtures and every vector as a lemma |

The following are parameters of the model:
- the filesystem's directory test (`Helper.isDir`, asked about `/<user>/files/<path>`);
- the current translator (`Helper.l`);
- the registered extensions (`Helper.extensions`).

PHP's `false` returns are `None`.

## Model

| member | source | states |
|---|---|---|
| Activity.FirstDeclared | tests/parameterhelpertest.php:177-183 | no classification iff no extension declares one for (app, subject); otherwise the map of the first extension in registration order that declares one |
| ParameterHelper.GetSpecialParameterList | tests/parameterhelpertest.php:177-191 | the classifier answers the empty map, not `false`, when no extension declares the pair, and otherwise the first declaring extension's map |
| Html.EscapeChar | tests/parameterhelpertest.php:112-115 | the entity for a character is inert markup; it is one character long exactly when the character needs no escaping, and then it is that character |
| Html.Escape | tests/parameterhelpertest.php:112-115 | escaped text contains no markup character, and escaping never shortens text |
| Html.EscapeRoundTrip | tests/parameterhelpertest.php:112-115 | unescaping escaped text gives back the original, so `U<ser>A` and `U&lt;ser&gt;A` determine each other |
| Html.EscapeFixesExactlyPlain | tests/parameterhelpertest.php:108-111 | escaping leaves text unchanged iff no character needs escaping, iff the length is unchanged |
| Html.EscapeConcat | tests/parameterhelpertest.php:112-115 | escaping works character by character: the escape of a concatenation is the concatenation of the escapes |
| Html.EscapeKeepsSlashFree | tests/parameterhelpertest.php:74-75 | escaping adds no `/` to text that has none, so a stripped file name stays a single path component once escaped |
| Url.Encode | tests/parameterhelpertest.php:78-83 | an encoded query argument contains none of the query and attribute delimiters `& = ? # / " ' < >` |
| Url.EncodeRoundTrip | tests/parameterhelpertest.php:129-132 | decoding an encoded argument gives back the original, so `%2Ftmp%2Ftest` names exactly `/tmp/test` |
| Url.EncodeConcat | tests/parameterhelpertest.php:129-132 | encoding works character by character |
| Url.EncodeUnreserved | tests/parameterhelpertest.php:78-83 | letters, digits and `-_.` are not encoded, so `bar.file` and `0` appear verbatim |
| Url.EncodeSlash | tests/parameterhelpertest.php:78-80 | a slash is encoded as `%2F` |
| Paths.Normalize | tests/parameterhelpertest.php:74-77 | the normalised path is the stored path without at most one leading and one trailing `/`; the leading one is dropped exactly when present, and the trailing one exactly when it remains after that |
| Paths.LegacyPathNormalizesIdentically | tests/parameterhelpertest.php:88-94 | a path stored without its leading `/` normalises like the one stored with it |
| Paths.TrailingSlashNormalizesIdentically | tests/parameterhelpertest.php:75-77 | a path stored with a trailing `/` normalises like the one without it |
| Paths.LastSlash | tests/parameterhelpertest.php:78-83 | the position found holds a `/` and no `/` follows it; none is found exactly when the path has no `/` |
| Paths.Basename | tests/parameterhelpertest.php:74-75 | the base name has no `/`, ends the path, is the whole path when the path has no `/`, and otherwise is shorter than the path and directly preceded by a `/` |
| Paths.Dirname | tests/parameterhelpertest.php:78-83 | for a path with a `/`, folder, `/` and base name put back together give the path |
| Paths.LastSlashBeforeName | tests/parameterhelpertest.php:81-83 | in `dir/name` with `name` free of `/`, the last `/` is the one after `dir`, whatever `dir` is (`0` included) |
| Paths.SplitAtLastSlash | tests/parameterhelpertest.php:81-83 | `dir/name` splits into folder `dir` and base name `name`, so a folder named `0` is kept |
| Paths.Resolve | tests/parameterhelpertest.php:74-83 | the resolved path keeps a leading `/` only when the stored path began with `//`; its name has no `/` and ends the path, which is the name alone or folder, `/` and name |
| Paths.WithLeadingSlash | tests/parameterhelpertest.php:139-145 | the path asked about always starts with `/`, normalises like the stored path, and differs from it only by a prefixed `/` |
| ParameterHelper.Query | tests/parameterhelpertest.php:78-83 | the query arguments of a link are inert inside a double-quoted attribute |
| ParameterHelper.Href | tests/parameterhelpertest.php:78-83 | a files-app link is inert inside a double-quoted attribute |
| ParameterHelper.QueryRoundTrip | tests/parameterhelpertest.php:78-83 | the `dir` and `scrollto` arguments read back as the folder and entry they were built from |
| ParameterHelper.HrefRoundTrip | tests/parameterhelpertest.php:129-132 | every link the formatter builds reads back as its folder and optional scroll target |
| ParameterHelper.AnchorReadsBack | tests/parameterhelpertest.php:78-94 | the `href` value of the anchor markup, read up to its closing quote, parses back to the anchor's target; a title attribute follows it iff the anchor has a title; the markup ends with the escaped display text |
| ParameterHelper.ViewPath | tests/parameterhelpertest.php:129-145 | the path asked about is always below `/<user>/files/`: the stored path appended when it starts with `/`, otherwise appended after a `/` |
| ParameterHelper.LegacyPathAsksSameDirectory | tests/parameterhelpertest.php:88-95 | a legacy path and its rooted form ask the filesystem about the same path, so `IsDirectory` answers alike for both |
| ParameterHelper.FileAnchorOf | tests/parameterhelpertest.php:78-94 | the tooltip class and the title appear iff the path is stripped; the title is "in" the escaped folder; the text is the base name or the full normalised path; the link scrolls iff the path is not a directory |
| ParameterHelper.TargetLocates | tests/parameterhelpertest.php:78-83 | that target locates the path: folder plus scroll target give back the rooted path |
| ParameterHelper.FileLinkLocatesFile | tests/parameterhelpertest.php:78-83 | the link of any file parameter, read back, locates the file's normalised path |
| ParameterHelper.FileMarkupLocatesFile | tests/parameterhelpertest.php:78-94 | the link of a highlighted file parameter, read back from the markup, locates the stored file or directory |
| ParameterHelper.RenderFile | tests/parameterhelpertest.php:74-83 | without highlighting a file shows its HTML-escaped base name or normalised path, which is inert text, and a stripped name contains no `/`; with highlighting it is the anchor of `FileAnchorOf` |
| ParameterHelper.LegacyPathRendersIdentically | tests/parameterhelpertest.php:88-94 | a legacy path without its leading `/` renders exactly like the rooted one, in every mode |
| ParameterHelper.TrailingSlashRendersIdentically | tests/parameterhelpertest.php:75-77 | a path with a trailing `/` displays like the one without it, and links alike when the filesystem answers alike |
| ParameterHelper.StrongContentOf | tests/parameterhelpertest.php:70-71 | the text between the emphasis tags of `<strong>s</strong>` is `s` |
| ParameterHelper.RenderPlain | tests/parameterhelpertest.php:68-71 | an unclassified value is kept without highlighting; with highlighting it is emphasised escaped text that unescapes to the value |
| ParameterHelper.RenderUser | tests/parameterhelpertest.php:108-123 | the empty name is the localised remote-user placeholder, emphasised iff highlighting; a highlighted name is the avatar marker then the emphasis of one escaped string that unescapes to the name |
| ParameterHelper.RenderParamByType | tests/parameterhelpertest.php:63-133 | by declared type: an unclassified value is kept, or emphasised text that unescapes to it; a file unescapes to its name or path, or links to a target that locates it; an empty user name renders exactly as the remote-user placeholder, emphasised when highlighting; only files depend on path stripping |
| ParameterHelper.PrepareParameters | tests/parameterhelpertest.php:63-133 | one output per parameter in order, each rendered as its position's declared type; with no classification and no highlighting the parameters come back unchanged |
| ParameterHelper.BeyondLengthInert | tests/parameterhelpertest.php:103-107 | classified positions beyond the parameter list do not change the result |
| ParameterHelper.NoClassificationIsEmpty | tests/parameterhelpertest.php:65-71 | having no classification renders like having the empty one |
| ParameterHelper.UnclassifiedIgnoresStripPath | tests/parameterhelpertest.php:68-71 | without a classification path stripping changes nothing |
| ParameterHelper.AllFiles | tests/parameterhelpertest.php:157-158 | the item classification declares a file at exactly the positions of the list |
| ParameterHelper.RenderItems | tests/parameterhelpertest.php:156-160 | one rendering per item, in order, each as the declared item type (`file` or plain) |
| ParameterHelper.JoinParameterList | tests/parameterhelpertest.php:156-160 | no items give `""`, one item gives itself, two give the locale's `"%s and %s"` applied to both |
| ParameterHelper.PrepareArrayParameter | tests/parameterhelpertest.php:156-160 | the empty list is `""`; one item is its rendering; two items are the current locale's `"%s and %s"` of their renderings |
| ParameterHelper.SetL10n | tests/parameterhelpertest.php:167-171 | setting a translator replaces only the translator: extensions, filesystem and user stay as they were |
| ParameterHelper.ArrayOfTwoFiles | tests/parameterhelpertest.php:157-158 | two stripped file items join as their escaped base names in the current locale |
| ParameterHelper.ArrayOfTwoUntyped | tests/parameterhelpertest.php:159-160 | items of any other type join unreduced in the current locale |
| Translation.SprintfNoPlaceholder | tests/parameterhelpertest.php:116-123 | a key without placeholders is its own English translation |
| FilesSharing.FilterNotificationTypes | extension/files_sharing.php:60-66 | a result exists iff the filter is `shares`; it then holds at most one type and keeps `shared` iff the offered types contain it |
| FilesSharing.IsFilterValid | extension/files_sharing.php:193-195 | a filter is valid exactly when the extension filters by it |
| FilesSharing.ValidFiltersAreFiltered | extension/files_sharing.php:193-195 | a filter is valid iff it is `shares`, iff the extension filters by it |
| FilesSharing.GetDefaultTypes | extension/files_sharing.php:75-81 | default types exist iff the delivery method is `stream` or `email`, and are then exactly `[shared]` |
| FilesSharing.DefaultTypesAreShownAndFiltered | extension/files_sharing.php:60-81 | every default type has an icon and survives the extension's own filter |
| FilesSharing.SubjectTemplate | extension/files_sharing.php:100-111 | a template exists iff the subject is one of the four known ones |
| FilesSharing.SubjectTemplateRoles | extension/files_sharing.php:100-108 | the current user acts first in every template but `shared_with_by`'s, where the sharer comes first; only the group share's template names a group, and only the link share's ends "via link" |
| FilesSharing.SubjectTemplatesDistinct | extension/files_sharing.php:101-108 | distinct known subjects use distinct templates |
| FilesSharing.Translate | extension/files_sharing.php:95-112 | a translation exists iff the app is `files` and the subject is known, and is then the translator applied to that subject's template and the parameters |
| FilesSharing.GetSpecialParameterList | extension/files_sharing.php:126-139 | a classification exists iff the app is `files` and the subject is known; position 0 is always a file; position 1 is a user exactly for the three non-group subjects; no other position is classified |
| FilesSharing.ClassifiedSubjectsAreTranslated | extension/files_sharing.php:95-139 | the subjects with a classification are exactly the subjects with a translation |
| FilesSharing.GetTypeIcon | extension/files_sharing.php:148-154 | an icon exists iff the type is `shared`, and it is `icon-share` |
| FilesSharing.GetGroupParameter | extension/files_sharing.php:163-165 | no grouping parameter is ever given |
| FilesSharing.GetQueryForFilter | extension/files_sharing.php:206-208 | no query condition is ever given |
| SharingActivity.ClassifierUsesSharingTable | extension/files_sharing.php:126-139 | with only this extension registered, the formatter's classification is the extension's table, or the empty map |
| SharingActivity.SharedWithUserRendering | extension/files_sharing.php:129-134 | the parameters of a user, incoming or link share render as a file and then a user |
| SharingActivity.SharedWithGroupRendering | extension/files_sharing.php:127-128 | the parameters of a group share render as a file and then plain text |
| ParameterHelperVectors.NoParameters | tests/parameterhelpertest.php:65 | no parameters give no output |
| ParameterHelperVectors.UnclassifiedParameters | tests/parameterhelpertest.php:68-69 | an unclassified path is kept verbatim, stripped or not |
| ParameterHelperVectors.HighlightedUnclassifiedParameters | tests/parameterhelpertest.php:70-71 | an unclassified path is `<strong>/foo/bar.file</strong>` when highlighting |
| ParameterHelperVectors.StrippedFileParameters | tests/parameterhelpertest.php:74-75 | stripped files show `bar.file` and `fromsharing` |
| ParameterHelperVectors.FullPathFileParameters | tests/parameterhelpertest.php:76-77 | unstripped files show `foo/bar.file` and `folder/trailingslash/fromsharing` |
| ParameterHelperVectors.HighlightedFileParameter | tests/parameterhelpertest.php:78-80 | the tooltip link to `bar.file` in folder `foo` |
| ParameterHelperVectors.ZeroFolderFileParameter | tests/parameterhelpertest.php:81-83 | the tooltip link to `bar.file` in folder `0` |
| ParameterHelperVectors.FilePositionBeyondParameters | tests/parameterhelpertest.php:84-85 | a file position past the list leaves the parameter unclassified |
| ParameterHelperVectors.LegacyUnhighlightedFileParameters | tests/parameterhelpertest.php:88-92 | the legacy path shows `foo/bar.file` unstripped and `bar.file` stripped |
| ParameterHelperVectors.LegacyFullPathFileParameter | tests/parameterhelpertest.php:89-91 | the legacy path links like the rooted one, with the full path as text and no title |
| ParameterHelperVectors.LegacyHighlightedFileParameter | tests/parameterhelpertest.php:93-95 | the legacy path gets the same tooltip link as the rooted one |
| ParameterHelperVectors.SecondFileParameter | tests/parameterhelpertest.php:98-102 | a file at position 1 is reduced or linked while position 0 stays plain |
| ParameterHelperVectors.FilePositionBeyondList | tests/parameterhelpertest.php:103-107 | a file position past the list leaves both parameters plain |
| ParameterHelperVectors.UserParameters | tests/parameterhelpertest.php:108-111 | a local user gets the avatar marker and the emphasised name |
| ParameterHelperVectors.EscapedUserParameters | tests/parameterhelpertest.php:112-115 | `U<ser>A` appears as `U&lt;ser&gt;A` in both places |
| ParameterHelperVectors.HighlightedRemoteUserParameters | tests/parameterhelpertest.php:116-119 | the empty user is the emphasised `"remote user"` placeholder |
| ParameterHelperVectors.RemoteUserParameters | tests/parameterhelpertest.php:120-123 | the empty user is the bare placeholder without highlighting |
| ParameterHelperVectors.UserAndFileParameters | tests/parameterhelpertest.php:125-128 | a user and a file render as avatar and tooltip link |
| ParameterHelperVectors.UserAndDirectoryParameters | tests/parameterhelpertest.php:129-132 | a directory links to `%2Ftmp%2Ftest` without a scroll target and with title `in tmp` |
| ParameterHelperVectors.EmptyArrayParameter | tests/parameterhelpertest.php:156 | an empty list is the empty phrase |
| ParameterHelperVectors.FileArrayParameter | tests/parameterhelpertest.php:157-158 | two files join as `B.txt` and `D.txt` in English or in any locale set |
| ParameterHelperVectors.UntypedArrayParameter | tests/parameterhelpertest.php:159-160 | two untyped items join unreduced in English or in any locale set |
| ParameterHelperVectors.SpecialParameterLists | tests/parameterhelpertest.php:179-183 | the mock extension's two subjects classify as declared; every other pair classifies nothing |

## Left out

- The formatter's behaviour beyond its test suite: the model meets every vector of
  `tests/parameterhelpertest.php`, and the choices below are not fixed by those vectors.
- `MockExtension` is the test suite's mock extension, answering as lines 179-183 of the test
  require.
- The filesystem `View`: its `is_dir` is an uninterpreted predicate parameter.
  - It is asked about `/<user>/files` followed by the path with a leading `/`.
  - A trailing `/` is kept in that query.
  - Existence checks beyond `is_dir` are not modelled.
- The l10n catalogue: translators are uninterpreted functions from a key and arguments to a
  string. The English locale substitutes `%s` in order, which is all the vectors need. German
  is any translator. `%1$s`-style positional placeholders of the sharing templates are not
  interpreted. `getNotificationTypes` only returns translated labels and is left out for the
  same reason.
- `getNavigation` builds a route through `IURLGenerator`, a foreign call with no checkable
  logic.
- Extension registration closures, the mocks' call expectations and the `\OC::$WEBROOT` global
  are left out. The web root is the empty string, as in the tests, so every link starts with
  `/index.php/apps/files`.
- ParameterHelper.JoinParameterList: joining three or more items (leading items with the
  locale's `", "`, then `"%s and %s"` with the last) is a chosen rule. The tests fix only
  zero and two items. Truncation of long lists ("and N more") is not modelled.
- ParameterHelper.PrepareArrayParameter: highlighting renders items like single parameters. The
  tests do not fix its effect on joins.
- ParameterHelper.RenderUser: a non-empty name without highlighting renders as the escaped
  name. The tests do not fix this case, so the contract says nothing about it.
- ParameterHelper.AnchorHtml: the display text of a file link is HTML-escaped. The tests use
  only names that need no escaping.
- ParameterHelper.RenderFile: without highlighting the display text is HTML-escaped as well. The
  tests use only names that need no escaping, so they do not fix this choice.
- ParameterHelper.FileAnchorOf: a stripped link to a file at the root gets the title `in ` with
  an empty folder. The tests do not cover root files.
- Paths.Normalize: exactly one leading and one trailing `/` are dropped. Paths with doubled
  slashes keep the rest, which the tests do not exercise.
- Url.Encode: the input is taken as a sequence of code points, not of UTF-8 bytes. Characters
  below code 256 that are not unreserved become one `%XX`, and a space becomes `+`. Characters
  at or above 256 pass through. PHP's `urlencode` works on the UTF-8 bytes, so every non-ASCII
  character differs: `é` (U+00E9) becomes `%E9` here but `%C3%A9` in PHP.
- Html.Escape: only `& < > " '` are escaped, as `htmlspecialchars` with `ENT_QUOTES` does.
  Character-set validation of the input is not modelled.
- FilesSharing.FilterNotificationTypes: PHP's `array_intersect([shared], types)` keeps the key
  of `shared` in its one-element first array. The model returns the list `[shared]` or `[]`,
  because keys are not observable to the callers modelled here.
- FilesSharing.GetTypeIcon: PHP's loose `==` is modelled as string equality. Every type passed
  is a string, and `shared` is not numeric.
