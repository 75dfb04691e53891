/**
 * Parameter classification: the position-to-type maps extensions declare for a
 * (app, subject) pair, and the activity manager's first-declaration-wins merge.
 */
module Activity {
  import opened Wrappers

  /** The two special parameter types; a position without one is plain text. */
  datatype ParamType = File | Username

  /** Zero-based parameter position to special type. */
  type Classification = map<nat, ParamType>

  /** An extension's answer for (app, subject): a classification, or `None` for "no opinion". */
  type Extension = (string, string) -> Option<Classification>

  /** Asks the extensions in registration order and returns the first declared classification. */
  function FirstDeclared(exts: seq<Extension>, app: string, text: string): (r: Option<Classification>)
    ensures r.None? <==> forall i :: 0 <= i < |exts| ==> exts[i](app, text).None?
    ensures forall i ::
              (0 <= i < |exts| && exts[i](app, text).Some? && forall j :: 0 <= j < i ==> exts[j](app, text).None?)
              ==> r == exts[i](app, text)
    decreases |exts|
  {
    if |exts| == 0 then None
    else if exts[0](app, text).Some? then exts[0](app, text)
    else
      var r := FirstDeclared(exts[1..], app, text);
      assert forall i :: 1 <= i < |exts| ==> exts[i] == exts[1..][i - 1];
      r
  }
}
