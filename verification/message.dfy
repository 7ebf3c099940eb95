/**
 * Personalising the message body: every `{{names}}` in the template is
 * replaced by the recipient's name, or by a fixed greeting when the sheet has
 * no names.
 */
module Message {
  import opened Base
  import PyStr

  const NAMES_TOKEN: string := "{{names}}"
  const FALLBACK_NAME: string := "Amigo(a)"

  /** `str(row.get('names', 'Amigo(a)'))`. */
  function DisplayName(names: Option<string>): (r: string)
    ensures names.None? ==> r == FALLBACK_NAME
    ensures names.Some? ==> r == names.value
  {
    match names
    case None => FALLBACK_NAME
    case Some(n) => n
  }

  /**
   * `template.replace('{{names}}', name)`: the template cut at each token and
   * glued back with the name, and a template without the token as it is.
   */
  function Personalize(template: string, names: Option<string>): (r: string)
    ensures r == PyStr.Join(PyStr.Split(template, NAMES_TOKEN), DisplayName(names))
    ensures !PyStr.Occurs(template, NAMES_TOKEN) ==> r == template
  {
    PyStr.ReplaceIsSplitJoin(template, NAMES_TOKEN, DisplayName(names));
    if !PyStr.Occurs(template, NAMES_TOKEN) then
      PyStr.ReplaceAbsent(template, NAMES_TOKEN, DisplayName(names));
      PyStr.Replace(template, NAMES_TOKEN, DisplayName(names))
    else
      PyStr.Replace(template, NAMES_TOKEN, DisplayName(names))
  }

  /**
   * The body is the template cut at each token and glued back with the name;
   * a template without the token is sent as is; each token trades its nine
   * characters for the name's.
   */
  lemma PersonalizeSpec(template: string, names: Option<string>)
    ensures var r := Personalize(template, names);
      && r == PyStr.Join(PyStr.Split(template, NAMES_TOKEN), DisplayName(names))
      && (!PyStr.Occurs(template, NAMES_TOKEN) ==> r == template)
      && |r| == |template| + PyStr.Count(template, NAMES_TOKEN) * (|DisplayName(names)| - |NAMES_TOKEN|)
  {
    var name := DisplayName(names);
    PyStr.ReplaceIsSplitJoin(template, NAMES_TOKEN, name);
    PyStr.ReplaceLength(template, NAMES_TOKEN, name);
    if !PyStr.Occurs(template, NAMES_TOKEN) {
      PyStr.ReplaceAbsent(template, NAMES_TOKEN, name);
    }
  }

  /** A body that differs from its template in length contained the token. */
  lemma PersonalizedIffToken(template: string, names: Option<string>)
    requires |DisplayName(names)| != |NAMES_TOKEN|
    ensures Personalize(template, names) == template <==> !PyStr.Occurs(template, NAMES_TOKEN)
  {
    PyStr.ReplaceChangesIffOccurs(template, NAMES_TOKEN, DisplayName(names));
  }

  /** The scan steps over a character that does not start the token. */
  lemma ReplaceStep(s: string, rep: string)
    requires |s| > 0 && s[0] != '{'
    ensures PyStr.Replace(s, NAMES_TOKEN, rep) == [s[0]] + PyStr.Replace(s[1..], NAMES_TOKEN, rep)
  {
    assert !PyStr.OccursAt(s, NAMES_TOKEN, 0);
  }

  /** The token followed by the closing mark. */
  lemma TokenTail(rep: string)
    ensures PyStr.Replace(NAMES_TOKEN + "!", NAMES_TOKEN, rep) == rep + "!"
  {
    var u := NAMES_TOKEN + "!";
    assert PyStr.OccursAt(u, NAMES_TOKEN, 0);
    assert u[|NAMES_TOKEN|..] == "!";
    assert !PyStr.OccursAt("!", NAMES_TOKEN, 0);
    assert PyStr.Replace("!"[1..], NAMES_TOKEN, rep) == "";
  }

  /** A prefix that holds no opening brace is copied through untouched. */
  lemma {:induction false} SkipPrefix(p: string, s: string, rep: string)
    requires forall k :: 0 <= k < |p| ==> p[k] != '{'
    ensures PyStr.Replace(p + s, NAMES_TOKEN, rep) == p + PyStr.Replace(s, NAMES_TOKEN, rep)
    decreases |p|
  {
    if |p| > 0 {
      ReplaceStep(p + s, rep);
      assert (p + s)[1..] == p[1..] + s;
      SkipPrefix(p[1..], s, rep);
      assert [p[0]] + p[1..] == p;
    } else {
      assert p + s == s;
    }
  }

  /** The greeting of the usual template, for any name. */
  lemma GreetingExample(names: Option<string>)
    ensures Personalize("Hola " + NAMES_TOKEN + "!", names) == "Hola " + DisplayName(names) + "!"
  {
    var rep := DisplayName(names);
    TokenTail(rep);
    assert "Hola " + NAMES_TOKEN + "!" == "Hola " + (NAMES_TOKEN + "!");
    SkipPrefix("Hola ", NAMES_TOKEN + "!", rep);
  }
}
