/** `${KEY}` placeholder substitution (src/template.rs). The source iterates a
    `HashMap`, so its replacement order is unspecified; the model takes the
    variables as an explicit sequence of pairs and applies them in that order. */
module Template {
  import opened Wrappers
  import opened Strings

  const HostVar: string := "HOST"
  const UrlVar: string := "URL"

  /** Template variables: (key, value) pairs, applied first to last. */
  type Vars = seq<(string, string)>

  /** The literal text a key is looked for as. */
  function Placeholder(key: string): (p: string)
    ensures |p| == |key| + 3 && StartsWith(p, "${") && p[|p| - 1] == '}'
  {
    "${" + key + "}"
  }

  /** What `process_template_string` computes: each variable in turn replaces
      every occurrence of its placeholder in the text produced so far. */
  function Substitute(input: string, vars: Vars): string
    decreases |vars|
  {
    if vars == [] then input
    else Substitute(Replace(input, Placeholder(vars[0].0), vars[0].1), vars[1..])
  }

  /** The value bound to `key`, the first binding winning. */
  function Lookup(vars: Vars, key: string): Option<string>
  {
    if vars == [] then None
    else if vars[0].0 == key then Some(vars[0].1)
    else Lookup(vars[1..], key)
  }

  predicate DistinctKeys(vars: Vars)
  {
    forall i, j :: 0 <= i < j < |vars| ==> vars[i].0 != vars[j].0
  }

  method ProcessTemplateString(input: string, vars: Vars) returns (result: string)
    ensures result == Substitute(input, vars)
    ensures vars == [] ==> result == input
    ensures !Contains(input, "${") ==> result == input
  {
    result := input;
    for i := 0 to |vars|
      invariant Substitute(result, vars[i..]) == Substitute(input, vars)
    {
      var (key, value) := vars[i];
      var placeholder := Placeholder(key);
      assert vars[i..][1..] == vars[i + 1..];
      result := Replace(result, placeholder, value);
    }
    assert vars[|vars|..] == [];
    if !Contains(input, "${") {
      SubstituteWithoutPlaceholders(input, vars);
    }
  }

  /** `get_template_vars`: two distinct keys, HOST and URL. */
  function TemplateVars(host: string, url: string): (vars: Vars)
    ensures |vars| == 2 && DistinctKeys(vars)
  {
    assert HostVar[0] != UrlVar[0];
    [(HostVar, host), (UrlVar, url)]
  }

  /** HOST is bound to the host, URL to the url, and nothing else is bound. */
  lemma TemplateVarsLookup(host: string, url: string, key: string)
    ensures Lookup(TemplateVars(host, url), key)
         == (if key == HostVar then Some(host) else if key == UrlVar then Some(url) else None)
  {
    var vars := TemplateVars(host, url);
    assert vars[1..] == [(UrlVar, url)] && vars[1..][1..] == [];
    assert HostVar[0] != UrlVar[0];
    if key != HostVar {
      assert Lookup(vars, key) == Lookup(vars[1..], key);
      if key != UrlVar {
        assert Lookup(vars[1..], key) == Lookup(vars[1..][1..], key);
      }
    }
  }

  /** Text holding no `${` has no placeholder to replace, whatever the variables. */
  lemma {:induction false} SubstituteWithoutPlaceholders(input: string, vars: Vars)
    requires !Contains(input, "${")
    ensures Substitute(input, vars) == input
    decreases |vars|
  {
    if vars != [] {
      var p := Placeholder(vars[0].0);
      assert p == "${" + (vars[0].0 + "}");
      ContainsPrefixOf(input, "${", vars[0].0 + "}");
      ReplaceUnmatched(input, p, vars[0].1);
      SubstituteWithoutPlaceholders(input, vars[1..]);
    }
  }

  /** Every occurrence of a placeholder is replaced, not only the first:
      `$`-free pieces separated by the placeholder come back separated by
      the value. */
  lemma SubstituteEveryOccurrence(parts: seq<string>, key: string, value: string)
    requires |parts| > 0
    requires forall i :: 0 <= i < |parts| ==> '$' !in parts[i]
    ensures Substitute(Join(parts, Placeholder(key)), [(key, value)]) == Join(parts, value)
  {
    var p := Placeholder(key);
    forall i | 0 <= i < |parts|
      ensures !Contains(parts[i] + p[..|p| - 1], p)
    {
      NoMatchStartsInPlainPrefix(parts[i], p[..|p| - 1], p);
    }
    ReplaceEveryOccurrence(parts, p, value);
    SubstituteOne(Join(parts, p), key, value);
  }

  /** Text before the first `$` is never touched by any substitution. */
  lemma {:induction false} SubstituteKeepsPlainPrefix(a: string, x: string, vars: Vars)
    requires '$' !in a
    ensures Substitute(a + x, vars) == a + Substitute(x, vars)
    decreases |vars|
  {
    if vars != [] {
      var p := Placeholder(vars[0].0);
      assert p[0] == '$';
      ReplaceSkipsPlainPrefix(a, x, p, vars[0].1);
      SubstituteKeepsPlainPrefix(a, Replace(x, p, vars[0].1), vars[1..]);
    }
  }

  /** Text without any `$` at all is left alone by a placeholder's replacement. */
  lemma ReplacePlaceholderInPlainText(s: string, key: string, value: string)
    requires '$' !in s
    ensures Replace(s, Placeholder(key), value) == s
  {
    ContainsFirstChar(s, Placeholder(key));
    ReplaceUnmatched(s, Placeholder(key), value);
  }

  /** Replacing a placeholder that stands right after `$`-free text. */
  lemma ReplacePlaceholderAfter(a: string, key: string, x: string, value: string)
    requires '$' !in a
    ensures Replace(a + (Placeholder(key) + x), Placeholder(key), value)
         == a + (value + Replace(x, Placeholder(key), value))
  {
    var p := Placeholder(key);
    ReplaceSkipsPlainPrefix(a, p + x, p, value);
    assert (p + x)[..|p|] == p && (p + x)[|p|..] == x;
  }

  /** A placeholder is not mistaken for one whose key starts differently. */
  lemma ReplaceSkipsOtherPlaceholder(k1: string, k2: string, c: string, value: string)
    requires |k1| > 0 && |k2| > 0 && k1[0] != k2[0] && '$' !in k1
    ensures Replace(Placeholder(k1) + c, Placeholder(k2), value)
         == Placeholder(k1) + Replace(c, Placeholder(k2), value)
  {
    var s, p := Placeholder(k1) + c, Placeholder(k2);
    assert s == "${" + k1 + "}" + c;
    if |s| >= |p| {
      assert s[..|p|][2] == s[2] == k1[0];
      assert p[2] == k2[0];
      assert s[1..] == ("{" + k1 + "}") + c;
      ReplaceSkipsPlainPrefix("{" + k1 + "}", c, p, value);
    } else {
      assert Replace(c, p, value) == c;
    }
  }

  /** `$`-free text, the URL placeholder, `$`-free text: the HOST placeholder
      finds nothing to replace. */
  lemma HostMissesUrlTail(b: string, c: string, host: string)
    requires '$' !in b && '$' !in c
    ensures Replace(b + (Placeholder(UrlVar) + c), Placeholder(HostVar), host)
         == b + (Placeholder(UrlVar) + c)
  {
    var ph, pu := Placeholder(HostVar), Placeholder(UrlVar);
    assert ph[0] == '$';
    ReplaceSkipsPlainPrefix(b, pu + c, ph, host);
    ReplaceSkipsOtherPlaceholder(UrlVar, HostVar, c, host);
    ReplacePlaceholderInPlainText(c, HostVar, host);
  }

  /** One variable: a single replacement. */
  lemma SubstituteOne(t: string, key: string, value: string)
    ensures Substitute(t, [(key, value)]) == Replace(t, Placeholder(key), value)
  {
    assert [(key, value)][1..] == [];
  }

  /** Two variables: two replacements, first to last. */
  lemma SubstituteTwo(t: string, k1: string, v1: string, k2: string, v2: string)
    ensures Substitute(t, [(k1, v1), (k2, v2)])
         == Replace(Replace(t, Placeholder(k1), v1), Placeholder(k2), v2)
  {
    assert [(k1, v1), (k2, v2)][1..] == [(k2, v2)];
    SubstituteOne(Replace(t, Placeholder(k1), v1), k2, v2);
  }

  /** With only HOST bound, the URL placeholder survives verbatim. */
  lemma SubstituteHostOnly(a: string, b: string, c: string, host: string)
    requires '$' !in a && '$' !in b && '$' !in c
    ensures Substitute(a + (Placeholder(HostVar) + (b + (Placeholder(UrlVar) + c))), [(HostVar, host)])
         == a + (host + (b + (Placeholder(UrlVar) + c)))
  {
    SubstituteOne(a + (Placeholder(HostVar) + (b + (Placeholder(UrlVar) + c))), HostVar, host);
    ReplacePlaceholderAfter(a, HostVar, b + (Placeholder(UrlVar) + c), host);
    HostMissesUrlTail(b, c, host);
  }

  /** HOST applied first, then URL. */
  lemma SubstituteHostThenUrl(a: string, b: string, c: string, host: string, url: string)
    requires '$' !in a && '$' !in b && '$' !in c && '$' !in host
    ensures Substitute(a + (Placeholder(HostVar) + (b + (Placeholder(UrlVar) + c))), [(HostVar, host), (UrlVar, url)])
         == a + (host + (b + (url + c)))
  {
    var pu := Placeholder(UrlVar);
    SubstituteTwo(a + (Placeholder(HostVar) + (b + (pu + c))), HostVar, host, UrlVar, url);
    ReplacePlaceholderAfter(a, HostVar, b + (pu + c), host);
    HostMissesUrlTail(b, c, host);
    assert pu[0] == '$';
    ReplaceSkipsPlainPrefix(a, host + (b + (pu + c)), pu, url);
    ReplaceSkipsPlainPrefix(host, b + (pu + c), pu, url);
    ReplacePlaceholderAfter(b, UrlVar, c, url);
    ReplacePlaceholderInPlainText(c, UrlVar, url);
  }

  /** URL applied first, then HOST. */
  lemma SubstituteUrlThenHost(a: string, b: string, c: string, host: string, url: string)
    requires '$' !in a && '$' !in b && '$' !in c && '$' !in url
    ensures Substitute(a + (Placeholder(HostVar) + (b + (Placeholder(UrlVar) + c))), [(UrlVar, url), (HostVar, host)])
         == a + (host + (b + (url + c)))
  {
    var ph, pu := Placeholder(HostVar), Placeholder(UrlVar);
    SubstituteTwo(a + (ph + (b + (pu + c))), UrlVar, url, HostVar, host);
    assert pu[0] == '$';
    ReplaceSkipsPlainPrefix(a, ph + (b + (pu + c)), pu, url);
    ReplaceSkipsOtherPlaceholder(HostVar, UrlVar, b + (pu + c), url);
    ReplacePlaceholderAfter(b, UrlVar, c, url);
    ReplacePlaceholderInPlainText(c, UrlVar, url);
    ReplacePlaceholderAfter(a, HostVar, b + (url + c), host);
    ReplacePlaceholderInPlainText(b + (url + c), HostVar, host);
  }

  const ExampleInput: string := "this is a ${HOST}, url check ${URL}."

  /** The example template cut at its placeholders. */
  lemma ExampleInputPieces()
    ensures ExampleInput == "this is a " + (Placeholder(HostVar) + (", url check " + (Placeholder(UrlVar) + ".")))
  {
  }

  /** The source's own example with `get_template_vars`' bindings. */
  lemma ExampleResolved(host: string, url: string)
    requires '$' !in host && '$' !in url
    ensures Substitute(ExampleInput, TemplateVars(host, url))
         == "this is a " + (host + (", url check " + (url + ".")))
  {
    ExampleInputPieces();
    SubstituteHostThenUrl("this is a ", ", url check ", ".", host, url);
  }

  /** The same example with the bindings applied in the other order: the
      result does not depend on the map's iteration order. */
  lemma ExampleResolvedEitherOrder(host: string, url: string)
    requires '$' !in host && '$' !in url
    ensures Substitute(ExampleInput, [(UrlVar, url), (HostVar, host)])
         == Substitute(ExampleInput, TemplateVars(host, url))
  {
    ExampleInputPieces();
    SubstituteUrlThenHost("this is a ", ", url check ", ".", host, url);
    ExampleResolved(host, url);
  }

  /** The example with URL unbound: its placeholder is kept verbatim. */
  lemma ExampleUnknownKeyKept(host: string)
    requires '$' !in host
    ensures Substitute(ExampleInput, [(HostVar, host)])
         == "this is a " + (host + (", url check " + (Placeholder(UrlVar) + ".")))
  {
    ExampleInputPieces();
    SubstituteHostOnly("this is a ", ", url check ", ".", host);
  }
}
