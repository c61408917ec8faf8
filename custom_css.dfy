/** The `customCSS` parser of the style composer (frontend/src/utils/styleUtils.js):
    the string is split on `;`, each rule on `:`, the first two fields are
    trimmed, a rule with an empty property or value is skipped, and the property
    goes from kebab-case to camelCase. The `reduce` keeps the last value per key. */
module CustomCss {
  import opened JsValues
  import opened JsStrings

  /** `property.replace(/-([a-z])/g, g => g[1].toUpperCase())`: the regex is
      tried at each position from the left; a match consumes two characters. */
  function CamelCase(s: string): (r: string)
    ensures |r| <= |s|
    decreases |s|
  {
    if s == [] then []
    else if |s| >= 2 && s[0] == '-' && 'a' <= s[1] <= 'z' then [UpperChar(s[1])] + CamelCase(s[2..])
    else [s[0]] + CamelCase(s[1..])
  }

  /** No `-` followed by a lower-case letter: nothing left for the regex to match. */
  predicate NoKebab(s: string) {
    forall i :: 0 <= i < |s| - 1 ==> !(s[i] == '-' && 'a' <= s[i + 1] <= 'z')
  }

  /** The first character of a camel-cased string is the upper-cased letter when
      the input opens with `-` and a lower-case letter, and the input's first
      character otherwise. */
  lemma {:induction false} CamelCaseHead(s: string)
    requires s != []
    ensures CamelCase(s) != []
    ensures |s| >= 2 && s[0] == '-' && 'a' <= s[1] <= 'z' ==> CamelCase(s)[0] == UpperChar(s[1])
    ensures !(|s| >= 2 && s[0] == '-' && 'a' <= s[1] <= 'z') ==> CamelCase(s)[0] == s[0]
  {
  }

  /** The conversion splits at a `-` (or at the end): no match straddles the cut. */
  lemma {:induction false} CamelCaseAppend(a: string, t: string)
    requires t == [] || t[0] == '-'
    ensures CamelCase(a + t) == CamelCase(a) + CamelCase(t)
    decreases |a|
  {
    var s := a + t;
    if a == [] {
      assert s == t;
    } else if |a| >= 2 && a[0] == '-' && 'a' <= a[1] <= 'z' {
      assert s[0] == a[0] && s[1] == a[1];
      assert s[2..] == a[2..] + t;
      CamelCaseAppend(a[2..], t);
      var h := [UpperChar(a[1])];
      assert CamelCase(s) == h + (CamelCase(a[2..]) + CamelCase(t));
      assert CamelCase(a) == h + CamelCase(a[2..]);
      ConcatAssoc(h, CamelCase(a[2..]), CamelCase(t));
    } else {
      assert s[0] == a[0];
      assert |a| >= 2 ==> s[1] == a[1];
      assert |a| == 1 && |s| >= 2 ==> s[1] == t[0];
      assert s[1..] == a[1..] + t;
      CamelCaseAppend(a[1..], t);
      var h := [a[0]];
      assert CamelCase(s) == h + (CamelCase(a[1..]) + CamelCase(t));
      assert CamelCase(a) == h + CamelCase(a[1..]);
      ConcatAssoc(h, CamelCase(a[1..]), CamelCase(t));
    }
  }

  /** Concatenation regroups. */
  lemma ConcatAssoc(x: string, y: string, z: string)
    ensures x + (y + z) == (x + y) + z
  {
  }

  /** A `-` followed by a lower-case letter becomes that letter in upper case, and the
      text on either side is converted on its own. */
  lemma CamelCaseConvertsPair(a: string, x: char, b: string)
    requires 'a' <= x <= 'z'
    ensures CamelCase(a + ['-', x] + b) == CamelCase(a) + [UpperChar(x)] + CamelCase(b)
  {
    var t := ['-', x] + b;
    assert a + ['-', x] + b == a + t;
    CamelCaseAppend(a, t);
    assert t[0] == '-' && t[1] == x && t[2..] == b;
    assert CamelCase(t) == [UpperChar(x)] + CamelCase(b);
    ConcatAssoc(CamelCase(a), [UpperChar(x)], CamelCase(b));
  }

  /** A string without `-` has no `-x` pair. */
  lemma NoDashNoKebab(s: string)
    requires '-' !in s
    ensures NoKebab(s)
  {
  }

  /** `font-size` becomes `fontSize`. */
  lemma FontSizeCamelCased(s: string)
    requires s == "font-size"
    ensures CamelCase(s) == "fontSize"
  {
    var a, b := "font", "ize";
    assert s == a + ['-', 's'] + b;
    CamelCaseConvertsPair(a, 's', b);
    NoDashNoKebab(a);
    NoDashNoKebab(b);
    CamelCaseFixesNoKebab(a);
    CamelCaseFixesNoKebab(b);
    assert UpperChar('s') == 'S';
  }

  /** The conversion leaves no `-x` pair behind. */
  lemma {:induction false} CamelCaseRemovesKebab(s: string)
    ensures NoKebab(CamelCase(s))
    decreases |s|
  {
    if s == [] {
    } else if |s| >= 2 && s[0] == '-' && 'a' <= s[1] <= 'z' {
      CamelCaseRemovesKebab(s[2..]);
      var r := CamelCase(s);
      assert r == [UpperChar(s[1])] + CamelCase(s[2..]);
      forall i | 0 <= i < |r| - 1
        ensures !(r[i] == '-' && 'a' <= r[i + 1] <= 'z')
      {
        if i > 0 {
          assert r[i] == CamelCase(s[2..])[i - 1] && r[i + 1] == CamelCase(s[2..])[i];
        }
      }
    } else {
      CamelCaseRemovesKebab(s[1..]);
      var r := CamelCase(s);
      var t := CamelCase(s[1..]);
      assert r == [s[0]] + t;
      forall i | 0 <= i < |r| - 1
        ensures !(r[i] == '-' && 'a' <= r[i + 1] <= 'z')
      {
        if i > 0 {
          assert r[i] == t[i - 1] && r[i + 1] == t[i];
        } else if s[0] == '-' {
          CamelCaseHead(s[1..]);
        }
      }
    }
  }

  /** A string with no `-x` pair is left unchanged. */
  lemma {:induction false} CamelCaseFixesNoKebab(s: string)
    requires NoKebab(s)
    ensures CamelCase(s) == s
    decreases |s|
  {
    if s != [] {
      assert NoKebab(s[1..]) by {
        forall i | 0 <= i < |s[1..]| - 1
          ensures !(s[1..][i] == '-' && 'a' <= s[1..][i + 1] <= 'z')
        {
          assert s[1..][i] == s[i + 1] && s[1..][i + 1] == s[i + 2];
        }
      }
      CamelCaseFixesNoKebab(s[1..]);
    }
  }

  /** Converting twice is converting once. */
  lemma CamelCaseIdempotent(s: string)
    ensures CamelCase(CamelCase(s)) == CamelCase(s)
  {
    CamelCaseRemovesKebab(s);
    CamelCaseFixesNoKebab(CamelCase(s));
  }

  /** One `;`-separated rule: `const [property, value] = rule.split(':').map(s => s.trim())`,
      kept only when both are non-empty (a missing value is `undefined`). */
  function ParseRule(rule: string): Option<(string, string)> {
    var fields := Split(rule, ':');
    var property := Trim(fields[0]);
    var value := if |fields| > 1 then Trim(fields[1]) else "";
    if property != "" && value != "" then Some((CamelCase(property), value)) else None
  }

  /** The `reduce` over the parsed rules, left to right: a later rule overrides an earlier one. */
  function Collect(parsed: seq<Option<(string, string)>>): map<string, string>
    decreases |parsed|
  {
    if parsed == [] then map[]
    else
      var acc := Collect(parsed[..|parsed| - 1]);
      match parsed[|parsed| - 1]
      case None => acc
      case Some(kv) => acc[kv.0 := kv.1]
  }

  function ParseRules(rules: seq<string>): (parsed: seq<Option<(string, string)>>)
    ensures |parsed| == |rules|
    ensures forall i :: 0 <= i < |rules| ==> parsed[i] == ParseRule(rules[i])
  {
    seq(|rules|, i requires 0 <= i < |rules| => ParseRule(rules[i]))
  }

  /** `customCSS.split(';').reduce(...)`; it never fails. */
  function ParseCustomCss(css: string): map<string, string> {
    Collect(ParseRules(Split(css, ';')))
  }

  /** A rule that parses gives a trimmed, non-empty value holding no `:` and a
      camel-cased property with no `-x` pair left. */
  lemma RuleIsClean(rule: string, k: string, v: string)
    requires ParseRule(rule) == Some((k, v))
    ensures v != [] && ':' !in v && !IsWhitespace(v[0]) && !IsWhitespace(v[|v| - 1]) && NoKebab(k)
  {
    var fields := Split(rule, ':');
    assert |fields| > 1 && v == Trim(fields[1]) && k == CamelCase(Trim(fields[0]));
    SplitFieldsLackSeparator(rule, ':');
    assert ':' !in fields[1];
    TrimChars(fields[1]);
    TrimmedHasNoOuterWhitespace(fields[1]);
    CamelCaseRemovesKebab(Trim(fields[0]));
  }

  /** Every collected entry comes from some parsed rule. */
  lemma {:induction false} CollectedEntriesComeFromRules(parsed: seq<Option<(string, string)>>, k: string)
    requires k in Collect(parsed)
    ensures exists i :: 0 <= i < |parsed| && parsed[i] == Some((k, Collect(parsed)[k]))
    decreases |parsed|
  {
    var n := |parsed| - 1;
    if parsed[n] != Some((k, Collect(parsed)[k])) {
      assert k in Collect(parsed[..n]) && Collect(parsed)[k] == Collect(parsed[..n])[k];
      CollectedEntriesComeFromRules(parsed[..n], k);
      var i :| 0 <= i < n && parsed[..n][i] == Some((k, Collect(parsed[..n])[k]));
    }
  }

  /** The last rule that parses to a key gives that key's value. */
  lemma {:induction false} LastRuleWins(parsed: seq<Option<(string, string)>>, i: nat, k: string, v: string)
    requires i < |parsed| && parsed[i] == Some((k, v))
    requires forall j :: i < j < |parsed| ==> parsed[j].None? || parsed[j].value.0 != k
    ensures k in Collect(parsed) && Collect(parsed)[k] == v
    decreases |parsed|
  {
    var n := |parsed| - 1;
    if i < n {
      var init := parsed[..n];
      assert forall j :: i < j < n ==> init[j] == parsed[j];
      LastRuleWins(init, i, k, v);
    }
  }

  /** A key no rule parses to is absent. */
  lemma {:induction false} UnparsedKeyIsAbsent(parsed: seq<Option<(string, string)>>, k: string)
    requires forall j :: 0 <= j < |parsed| ==> parsed[j].None? || parsed[j].value.0 != k
    ensures k !in Collect(parsed)
    decreases |parsed|
  {
    if parsed != [] {
      var n := |parsed| - 1;
      var init := parsed[..n];
      assert forall j :: 0 <= j < n ==> init[j] == parsed[j];
      UnparsedKeyIsAbsent(init, k);
    }
  }

  /** Every character of a parsed value occurs in its rule. */
  lemma ValueCharsOccur(rule: string, k: string, v: string, c: char)
    requires ParseRule(rule) == Some((k, v)) && c in v
    ensures c in rule
  {
    var fields := Split(rule, ':');
    assert |fields| > 1 && v == Trim(fields[1]);
    TrimChars(fields[1]);
    FieldCharsOccur(rule, ':', fields[1], c);
  }

  /** Every entry of the parsed `customCSS` is clean in the sense of `RuleIsClean`
      and comes from one of its `;`-separated rules. */
  lemma ParsedEntriesAreClean(css: string, k: string)
    requires k in ParseCustomCss(css)
    ensures var v := ParseCustomCss(css)[k];
            v != [] && ':' !in v && ';' !in v && !IsWhitespace(v[0]) && !IsWhitespace(v[|v| - 1]) && NoKebab(k)
  {
    var rules := Split(css, ';');
    var parsed := ParseRules(rules);
    CollectedEntriesComeFromRules(parsed, k);
    var i :| 0 <= i < |parsed| && parsed[i] == Some((k, Collect(parsed)[k]));
    var rule := rules[i];
    var v := ParseCustomCss(css)[k];
    assert ParseRule(rule) == Some((k, v));
    RuleIsClean(rule, k, v);
    SplitFieldsLackSeparator(css, ';');
    assert ';' !in rule;
    if ';' in v {
      ValueCharsOccur(rule, k, v, ';');
    }
  }

  /** Every character of a field of a split occurs in the split string. */
  lemma {:induction false} FieldCharsOccur(s: string, sep: char, f: string, c: char)
    requires f in Split(s, sep) && c in f
    ensures c in s
    decreases |s|
  {
    if s != [] {
      var rest := Split(s[1..], sep);
      if s[0] == sep {
        assert f in rest;
        FieldCharsOccur(s[1..], sep, f, c);
      } else if f == [s[0]] + rest[0] {
        if c != s[0] {
          assert c in rest[0];
          FieldCharsOccur(s[1..], sep, rest[0], c);
        }
      } else {
        assert f in rest[1..];
        FieldCharsOccur(s[1..], sep, f, c);
      }
    }
  }

  /** Parsing one more rule appends its parse. */
  lemma ParseRulesSnoc(rules: seq<string>, rule: string)
    ensures ParseRules(rules + [rule]) == ParseRules(rules) + [ParseRule(rule)]
  {
  }

  /** The `reduce` over one more parsed rule. */
  lemma CollectSnoc(parsed: seq<Option<(string, string)>>, x: Option<(string, string)>)
    ensures Collect(parsed + [x]) == match x
                                     case None => Collect(parsed)
                                     case Some(kv) => Collect(parsed)[kv.0 := kv.1]
  {
    assert (parsed + [x])[..|parsed|] == parsed;
  }

  /** Appending one more rule after a `;` overrides just the key it parses to. */
  lemma AppendRule(css: string, rule: string)
    requires ';' !in rule
    ensures ParseCustomCss(css + ";" + rule) ==
            match ParseRule(rule)
            case None => ParseCustomCss(css)
            case Some(kv) => ParseCustomCss(css)[kv.0 := kv.1]
  {
    SplitAround(css, ';', rule);
    SplitWithoutSeparator(rule, ';');
    assert css + ";" + rule == css + [';'] + rule;
    ParseRulesSnoc(Split(css, ';'), rule);
    CollectSnoc(ParseRules(Split(css, ';')), ParseRule(rule));
  }

  /** A declaration `property:value` whose two fields trim to non-empty text parses
      to the camel-cased trimmed property and the trimmed value. */
  lemma ParseDeclaration(lhs: string, rhs: string)
    requires ':' !in lhs && ':' !in rhs
    requires Trim(lhs) != [] && Trim(rhs) != []
    ensures ParseRule(lhs + ":" + rhs) == Some((CamelCase(Trim(lhs)), Trim(rhs)))
  {
    var rule := lhs + ":" + rhs;
    assert rule == lhs + [':'] + rhs;
    SplitAround(lhs, ':', rhs);
    SplitWithoutSeparator(lhs, ':');
    SplitWithoutSeparator(rhs, ':');
    var fields := Split(rule, ':');
    assert fields == [lhs, rhs];
  }

  /** A `customCSS` holding a single rule is that rule alone. */
  lemma SingleRule(a: string)
    requires ';' !in a
    ensures ParseCustomCss(a) == Collect([ParseRule(a)])
  {
    SplitWithoutSeparator(a, ';');
    assert ParseRules([a]) == [ParseRule(a)];
  }

  lemma CollectOne(x: Option<(string, string)>)
    ensures Collect([x]) == if x.Some? then map[x.value.0 := x.value.1] else map[]
  {
    assert [x][..0] == [];
  }

  /** A trailing `;` adds an empty rule, which is skipped. */
  lemma TrailingSemicolon(css: string)
    ensures ParseCustomCss(css + ";") == ParseCustomCss(css)
  {
    FragmentWithoutColonIsIgnored("");
    AppendRule(css, "");
    assert css + ";" == css + ";" + "";
  }

  /** The empty string parses to no entries. */
  lemma EmptyCustomCss()
    ensures ParseCustomCss("") == map[]
  {
    SingleRule("");
    FragmentWithoutColonIsIgnored("");
    CollectOne(None);
  }

  /** Two declarations for different properties, each closed by `;`, give both entries. */
  lemma TwoDeclarations(a: string, b: string)
    requires ';' !in a && ';' !in b
    requires ParseRule(a).Some? && ParseRule(b).Some? && ParseRule(a).value.0 != ParseRule(b).value.0
    ensures ParseCustomCss(a + ";" + b + ";") ==
            map[ParseRule(a).value.0 := ParseRule(a).value.1, ParseRule(b).value.0 := ParseRule(b).value.1]
  {
    SingleRule(a);
    CollectOne(ParseRule(a));
    AppendRule(a, b);
    TrailingSemicolon(a + ";" + b);
  }

  /** A fragment without a colon is ignored. */
  lemma FragmentWithoutColonIsIgnored(rule: string)
    requires ':' !in rule
    ensures ParseRule(rule) == None
  {
    SplitWithoutSeparator(rule, ':');
  }
}
