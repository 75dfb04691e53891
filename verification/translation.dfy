/**
 * Locale context: a translator looks a template up by its English key and
 * substitutes positional arguments. The catalogue itself is not modelled; the
 * English translator below only substitutes `%s` in the key, which is what the
 * English locale does for the keys the formatter uses.
 */
module Translation {
  import opened Strings

  type Translator = (string, seq<string>) -> string

  /** `template` with each `%s` replaced by the next argument (a missing argument gives ""). */
  function Sprintf(template: string, args: seq<string>): string
    decreases |template|
  {
    if |template| < 2 then template
    else if template[0] == '%' && template[1] == 's' then
      (if |args| > 0 then args[0] else "") + Sprintf(template[2..], if |args| > 0 then args[1..] else [])
    else [template[0]] + Sprintf(template[1..], args)
  }

  /** The English locale: keys are English already, so only arguments are substituted. */
  function English(key: string, args: seq<string>): string {
    Sprintf(key, args)
  }

  predicate NoPercent(s: string) {
    forall i :: 0 <= i < |s| ==> s[i] != '%'
  }

  /** A template without placeholders is its own translation, whatever the arguments. */
  lemma {:induction false} SprintfNoPlaceholder(template: string, args: seq<string>)
    requires NoPercent(template)
    ensures Sprintf(template, args) == template
  {
    if |template| >= 2 {
      assert NoPercent(template[1..]) by {
        forall i | 0 <= i < |template[1..]| ensures template[1..][i] != '%' {
          assert template[1..][i] == template[i + 1];
        }
      }
      SprintfNoPlaceholder(template[1..], args);
      assert [template[0]] + template[1..] == template;
    }
  }
}
