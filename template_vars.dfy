/** Text helpers of the template-job rule: variable references and message lists. */
module TemplateVars {

  /** True when `x` is a name wrapped in braces, such as `{name}`. */
  predicate IsBraced(x: string) {
    2 <= |x| && x[0] == '{' && x[|x| - 1] == '}'
  }

  /**
   * The variable a datasource reference points at: `${x}` and `$x` both name
   * `x`; text that does not start with `$` is taken as it is.
   */
  function StripVariable(s: string): (r: string)
    ensures s == "${" + r + "}" || s == "$" + r || (r == s && (s == [] || s[0] != '$'))
    ensures 1 <= |s| && s[0] == '$' && IsBraced(s[1..]) ==> s == "${" + r + "}"
  {
    if 3 <= |s| && s[0] == '$' && s[1] == '{' && s[|s| - 1] == '}' then
      assert s == "${" + s[2..|s| - 1] + "}";
      s[2..|s| - 1]
    else if 1 <= |s| && s[0] == '$' then
      assert s == "$" + s[1..];
      s[1..]
    else
      s
  }

  /** Stripping undoes the `${x}` wrapping. */
  lemma StripBracedReference(x: string)
    ensures StripVariable("${" + x + "}") == x
  {
  }

  /** Stripping undoes the `$x` wrapping, unless `x` itself looks like `{y}`. */
  lemma StripDollarReference(x: string)
    requires !IsBraced(x)
    ensures StripVariable("$" + x) == x
  {
  }

  /** Both ways of writing a reference to `x` point at the same variable. */
  lemma StripFormsAgree(x: string)
    requires !IsBraced(x)
    ensures StripVariable("$" + x) == StripVariable("${" + x + "}")
  {
  }

  /** The alternatives `$a or $b or ...`, in the order given. */
  function JoinAlternatives(names: seq<string>): (r: string)
    ensures names == [] <==> r == []
    ensures names != [] ==> "$" + names[0] <= r
    ensures |names| == 1 ==> r == "$" + names[0]
  {
    if |names| == 0 then ""
    else if |names| == 1 then "$" + names[0]
    else "$" + names[0] + " or " + JoinAlternatives(names[1..])
  }

  /** Adding a name at the end adds ` or $name` at the end of the list. */
  lemma {:induction false} JoinAlternativesAppend(names: seq<string>, n: string)
    requires names != []
    ensures JoinAlternatives(names + [n]) == JoinAlternatives(names) + " or $" + n
  {
    if |names| == 1 {
      assert names + [n] == [names[0], n];
      assert (names + [n])[1..] == [n];
    } else {
      assert (names + [n])[1..] == names[1..] + [n];
      JoinAlternativesAppend(names[1..], n);
    }
  }
}
