/**
 * The theme helpers of the style utilities: the class names derived from a
 * theme (`generateThemeClasses`) and the CSS custom properties written onto
 * the document root (`injectThemeVariables`).
 */
module Theme {
  import opened JsValues
  import opened JsStrings

  /** The four sections of a theme; `None` is a missing (or undefined) section. */
  datatype Customizations = Customizations(
    colors: Option<Entries>,
    fonts: Option<Entries>,
    typography: Option<Entries>,
    spacing: Option<Entries>)

  /** The default parameter `{}`. */
  function NoCustomizations(): Customizations {
    Customizations(None, None, None, None)
  }

  /** `section?.[key]` */
  function Field(section: Option<Entries>, key: string): JsVal {
    match section
    case None => Undefined
    case Some(es) => Get(es, key)
  }

  /** The class for a body font: lower-cased, each whitespace run replaced by `-`. */
  function FontClass(body: string): (r: string)
    ensures StartsWith(r, "font-")
    ensures NoWhitespace(r)
  {
    var tail := CollapseWhitespace(ToLower(body), '-');
    CollapsedHasNoWhitespace(ToLower(body), '-');
    assert ("font-" + tail)[..5] == "font-";
    "font-" + tail
  }

  /** `generateThemeClasses(customizations)` */
  function ThemeClasses(c: Customizations): (r: Outcome<seq<string>>)
    ensures r.Throws? <==> Truthy(Field(c.fonts, "body")) && !Field(c.fonts, "body").Str?
    ensures r.Returns? ==> |r.value| <= 2
    ensures r.Returns? ==> ("theme-primary" in r.value <==> Truthy(Field(c.colors, "primary")))
    ensures r.Returns? ==> (|r.value| > 0 && r.value[0] == "theme-primary" <==> Truthy(Field(c.colors, "primary")))
    ensures r.Returns? && Truthy(Field(c.fonts, "body")) ==>
      |r.value| > 0 && r.value[|r.value| - 1] == FontClass(Field(c.fonts, "body").s)
    ensures r.Returns? && !Truthy(Field(c.fonts, "body")) ==>
      forall i :: 0 <= i < |r.value| ==> r.value[i] == "theme-primary"
  {
    var primary := if Truthy(Field(c.colors, "primary")) then ["theme-primary"] else [];
    var body := Field(c.fonts, "body");
    if !Truthy(body) then Returns(primary)
    else if body.Str? then
      assert FontClass(body.s)[..5] == "font-" != "theme";
      assert "theme-primary"[..5] == "theme";
      Returns(primary + [FontClass(body.s)])
    else Throws
  }

  /** A body font of words separated by whitespace gives the lower-cased words joined by `-`. */
  lemma FontClassJoinsWords(a: string, run: string, b: string)
    requires NoWhitespace(a) && NoWhitespace(b)
    requires run != [] && forall i :: 0 <= i < |run| ==> IsWhitespace(run[i])
    ensures FontClass(a + run + b) == "font-" + ToLower(a) + "-" + ToLower(b)
  {
    ToLowerConcat(a + run, b);
    ToLowerConcat(a, run);
    ToLowerKeepsWhitespace(a);
    ToLowerKeepsWhitespace(run);
    ToLowerKeepsWhitespace(b);
    var la, lr, lb := ToLower(a), ToLower(run), ToLower(b);
    assert |lb| > 0 ==> !IsWhitespace(lb[0]);
    CollapseAfterWord(la, lr, lb, '-');
    CollapseKeepsWord(lb, '-');
  }

  // ---------------------------------------------------------------- the root style

  /**
   * The text `style.setProperty(name, value)` stores: `null` is taken as the
   * empty string, and the empty string removes the property.
   */
  function CssText(value: JsVal): (r: Option<string>)
    ensures r == None <==> value == Null || ToJsString(value) == ""
    ensures r.Some? ==> r.value == ToJsString(value)
  {
    if value == Null || ToJsString(value) == "" then None else Some(ToJsString(value))
  }

  /** The custom properties after one `setProperty(name, value)`. */
  function Assign(props: map<string, string>, name: string, value: JsVal): (r: map<string, string>)
    ensures forall k :: k != name ==> (k in r <==> k in props) && (k in r ==> r[k] == props[k])
    ensures CssText(value) == None ==> name !in r
    ensures CssText(value).Some? ==> name in r && r[name] == CssText(value).value
  {
    match CssText(value)
    case None => props - {name}
    case Some(text) => props[name := text]
  }

  /** An inline style: the custom properties set on `document.documentElement.style`. */
  class RootStyle {
    var properties: map<string, string>

    constructor (initial: map<string, string>)
      ensures properties == initial
    {
      properties := initial;
    }

    /** `style.setProperty(name, value)` */
    method SetProperty(name: string, value: JsVal)
      modifies this
      ensures properties == Assign(old(properties), name, value)
    {
      match CssText(value)
      case None => properties := properties - {name};
      case Some(text) => properties := properties[name := text];
    }
  }

  // ---------------------------------------------------------------- the writes of a theme

  /** A sequence of `setProperty` calls, in order. */
  type Writes = seq<(string, JsVal)>

  /** The custom properties after the writes, one after the other. */
  function ApplyAll(props: map<string, string>, ws: Writes): map<string, string>
    decreases |ws|
  {
    if ws == [] then props
    else Assign(ApplyAll(props, ws[..|ws| - 1]), ws[|ws| - 1].0, ws[|ws| - 1].1)
  }

  /** The value of the last write to `name`, if any: the reference for what the writes leave. */
  function LastWrite(ws: Writes, name: string): Option<JsVal>
    decreases |ws|
  {
    if ws == [] then None
    else if ws[|ws| - 1].0 == name then Some(ws[|ws| - 1].1)
    else LastWrite(ws[..|ws| - 1], name)
  }

  /** The last entry for `key` in an entry list. */
  function LastEntry(es: Entries, key: string): Option<JsVal>
    decreases |es|
  {
    if es == [] then None
    else if es[|es| - 1].0 == key then Some(es[|es| - 1].1)
    else LastEntry(es[..|es| - 1], key)
  }

  /** The section a namespace of custom properties comes from. */
  datatype Namespace = Colors | Fonts | Typography | Spacing

  function Prefix(ns: Namespace): string {
    match ns
    case Colors => "--color-"
    case Fonts => "--font-"
    case Typography => "--typography-"
    case Spacing => "--spacing-"
  }

  function Section(c: Customizations, ns: Namespace): Option<Entries> {
    match ns
    case Colors => c.colors
    case Fonts => c.fonts
    case Typography => c.typography
    case Spacing => c.spacing
  }

  /** `Object.entries(section).forEach(([key, value]) => setProperty(prefix + key, value))` */
  function Prefixed(prefix: string, es: Entries): (ws: Writes)
    ensures |ws| == |es|
    ensures forall i :: 0 <= i < |es| ==> ws[i] == (prefix + es[i].0, es[i].1)
  {
    seq(|es|, i requires 0 <= i < |es| => (prefix + es[i].0, es[i].1))
  }

  /** The writes for one namespace: none when the section is missing. */
  function NamespaceWrites(c: Customizations, ns: Namespace): Writes {
    match Section(c, ns)
    case None => []
    case Some(es) => Prefixed(Prefix(ns), es)
  }

  /** Every write of `injectThemeVariables`, in the order of the source. */
  function ThemeWrites(c: Customizations): Writes {
    NamespaceWrites(c, Colors) + NamespaceWrites(c, Fonts)
      + NamespaceWrites(c, Typography) + NamespaceWrites(c, Spacing)
  }

  /** The custom properties after `injectThemeVariables(c)`. */
  function Injected(props: map<string, string>, c: Customizations): map<string, string> {
    ApplyAll(props, ThemeWrites(c))
  }

  // ---------------------------------------------------------------- the method

  /** One `forEach` over the entries of a section. */
  method InjectNamespace(root: RootStyle, prefix: string, es: Entries)
    modifies root
    ensures root.properties == ApplyAll(old(root.properties), Prefixed(prefix, es))
  {
    ghost var start := root.properties;
    var i := 0;
    while i < |es|
      invariant 0 <= i <= |es|
      invariant root.properties == ApplyAll(start, Prefixed(prefix, es[..i]))
    {
      var (key, value) := es[i];
      assert Prefixed(prefix, es[..i + 1])[..i] == Prefixed(prefix, es[..i]);
      root.SetProperty(prefix + key, value);
      i := i + 1;
    }
    assert es[..i] == es;
  }

  /** The `if (customizations.<section>)` block of one namespace. */
  method InjectSection(root: RootStyle, c: Customizations, ns: Namespace)
    modifies root
    ensures root.properties == ApplyAll(old(root.properties), NamespaceWrites(c, ns))
  {
    var section := Section(c, ns);
    if section.Some? {
      InjectNamespace(root, Prefix(ns), section.value);
    }
  }

  /** `injectThemeVariables(customizations)` on the document's root element. */
  method InjectThemeVariables(root: RootStyle, c: Customizations)
    modifies root
    ensures root.properties == Injected(old(root.properties), c)
  {
    ghost var start := root.properties;
    InjectSection(root, c, Colors);
    InjectSection(root, c, Fonts);
    InjectSection(root, c, Typography);
    InjectSection(root, c, Spacing);
    ghost var colors, fonts := NamespaceWrites(c, Colors), NamespaceWrites(c, Fonts);
    ghost var typography, spacing := NamespaceWrites(c, Typography), NamespaceWrites(c, Spacing);
    ApplyAllAppend(start, colors, fonts);
    ApplyAllAppend(start, colors + fonts, typography);
    ApplyAllAppend(start, colors + fonts + typography, spacing);
  }

  // ---------------------------------------------------------------- properties

  /** Writing `a` and then `b` is writing `a + b`. */
  lemma {:induction false} ApplyAllAppend(props: map<string, string>, a: Writes, b: Writes)
    ensures ApplyAll(props, a + b) == ApplyAll(ApplyAll(props, a), b)
    decreases |b|
  {
    if b == [] {
      assert a + b == a;
    } else {
      assert (a + b)[..|a + b| - 1] == a + b[..|b| - 1];
      ApplyAllAppend(props, a, b[..|b| - 1]);
    }
  }

  /** The last write to a property decides it; a property nobody writes keeps its value. */
  lemma {:induction false} LastWriteWins(props: map<string, string>, ws: Writes, name: string)
    ensures LastWrite(ws, name) == None ==>
      (name in ApplyAll(props, ws) <==> name in props) &&
      (name in props ==> ApplyAll(props, ws)[name] == props[name])
    ensures LastWrite(ws, name).Some? && CssText(LastWrite(ws, name).value) == None ==>
      name !in ApplyAll(props, ws)
    ensures LastWrite(ws, name).Some? && CssText(LastWrite(ws, name).value).Some? ==>
      name in ApplyAll(props, ws) &&
      ApplyAll(props, ws)[name] == CssText(LastWrite(ws, name).value).value
    decreases |ws|
  {
    if ws != [] {
      LastWriteWins(props, ws[..|ws| - 1], name);
    }
  }

  /** The last write to `name` in `a + b` is in `b` when `b` writes it at all. */
  lemma {:induction false} LastWriteAppend(a: Writes, b: Writes, name: string)
    ensures LastWrite(a + b, name) == if LastWrite(b, name).Some? then LastWrite(b, name) else LastWrite(a, name)
    decreases |b|
  {
    if b == [] {
      assert a + b == a;
    } else {
      assert (a + b)[..|a + b| - 1] == a + b[..|b| - 1];
      LastWriteAppend(a, b[..|b| - 1], name);
    }
  }

  /** Property `prefix + key` takes the last entry for `key`. */
  lemma {:induction false} LastWritePrefixed(prefix: string, es: Entries, key: string)
    ensures LastWrite(Prefixed(prefix, es), prefix + key) == LastEntry(es, key)
    decreases |es|
  {
    if es != [] {
      var ws := Prefixed(prefix, es);
      assert ws[..|ws| - 1] == Prefixed(prefix, es[..|es| - 1]);
      assert ws[|ws| - 1].0 == prefix + es[|es| - 1].0;
      assert prefix + key == prefix + es[|es| - 1].0 ==> key == (prefix + key)[|prefix|..];
      LastWritePrefixed(prefix, es[..|es| - 1], key);
    }
  }

  /** A name that does not start with the first `n` characters of the prefix is never written. */
  lemma {:induction false} OutsidePrefix(prefix: string, es: Entries, name: string, n: nat)
    requires n <= |prefix|
    requires !StartsWith(name, prefix[..n])
    ensures LastWrite(Prefixed(prefix, es), name) == None
    decreases |es|
  {
    if es != [] {
      var ws := Prefixed(prefix, es);
      assert ws[..|ws| - 1] == Prefixed(prefix, es[..|es| - 1]);
      assert (prefix + es[|es| - 1].0)[..n] == prefix[..n];
      OutsidePrefix(prefix, es[..|es| - 1], name, n);
    }
  }

  /** The namespaces are told apart by their third character. */
  lemma NamespacesDiffer(ns: Namespace, other: Namespace, key: string)
    requires ns != other
    ensures !StartsWith(Prefix(ns) + key, Prefix(other)[..3])
  {
    assert (Prefix(ns) + key)[2] == Prefix(ns)[2];
  }

  /** A namespace's writes leave the properties of another namespace alone. */
  lemma OtherNamespace(c: Customizations, ns: Namespace, other: Namespace, key: string)
    requires ns != other
    ensures LastWrite(NamespaceWrites(c, other), Prefix(ns) + key) == None
  {
    if Section(c, other).Some? {
      NamespacesDiffer(ns, other, key);
      OutsidePrefix(Prefix(other), Section(c, other).value, Prefix(ns) + key, 3);
    }
  }

  /** Property `prefix + key` of a namespace is written by that namespace's section alone. */
  lemma ThemeVariable(c: Customizations, ns: Namespace, key: string)
    ensures LastWrite(ThemeWrites(c), Prefix(ns) + key) ==
      match Section(c, ns)
      case None => None
      case Some(es) => LastEntry(es, key)
  {
    var name := Prefix(ns) + key;
    var w1, w2, w3, w4 := NamespaceWrites(c, Colors), NamespaceWrites(c, Fonts),
      NamespaceWrites(c, Typography), NamespaceWrites(c, Spacing);
    LastWriteAppend(w1 + w2 + w3, w4, name);
    LastWriteAppend(w1 + w2, w3, name);
    LastWriteAppend(w1, w2, name);
    if Section(c, ns).Some? {
      LastWritePrefixed(Prefix(ns), Section(c, ns).value, key);
    }
    forall other | other != ns
      ensures LastWrite(NamespaceWrites(c, other), name) == None
    {
      OtherNamespace(c, ns, other, key);
    }
  }

  /** After injection, `--<namespace>-<key>` holds the text of the section's last entry for `key`. */
  lemma InjectedVariable(props: map<string, string>, c: Customizations, ns: Namespace, key: string, es: Entries, v: JsVal)
    requires Section(c, ns) == Some(es) && LastEntry(es, key) == Some(v)
    ensures CssText(v).Some? ==>
      Prefix(ns) + key in Injected(props, c) && Injected(props, c)[Prefix(ns) + key] == ToJsString(v)
    ensures CssText(v) == None ==> Prefix(ns) + key !in Injected(props, c)
  {
    ThemeVariable(c, ns, key);
    LastWriteWins(props, ThemeWrites(c), Prefix(ns) + key);
  }

  /** Every name a namespace writes starts with `--`. */
  lemma NamespaceWritesDashed(c: Customizations, ns: Namespace, name: string)
    requires !StartsWith(name, "--")
    ensures LastWrite(NamespaceWrites(c, ns), name) == None
  {
    if Section(c, ns).Some? {
      assert Prefix(ns)[..2] == "--";
      OutsidePrefix(Prefix(ns), Section(c, ns).value, name, 2);
    }
  }

  /** A property whose name does not start with `--` is left as it was. */
  lemma InjectionKeepsOtherProperties(props: map<string, string>, c: Customizations, name: string)
    requires !StartsWith(name, "--")
    ensures name in Injected(props, c) <==> name in props
    ensures name in props ==> Injected(props, c)[name] == props[name]
  {
    var w1, w2, w3, w4 := NamespaceWrites(c, Colors), NamespaceWrites(c, Fonts),
      NamespaceWrites(c, Typography), NamespaceWrites(c, Spacing);
    NamespaceWritesDashed(c, Colors, name);
    NamespaceWritesDashed(c, Fonts, name);
    NamespaceWritesDashed(c, Typography, name);
    NamespaceWritesDashed(c, Spacing, name);
    LastWriteAppend(w1 + w2 + w3, w4, name);
    LastWriteAppend(w1 + w2, w3, name);
    LastWriteAppend(w1, w2, name);
    LastWriteWins(props, ThemeWrites(c), name);
  }

  /** Injecting a theme twice leaves the same properties as injecting it once. */
  lemma InjectionIsIdempotent(props: map<string, string>, c: Customizations)
    ensures Injected(Injected(props, c), c) == Injected(props, c)
  {
    var once := Injected(props, c);
    var twice := Injected(once, c);
    forall name
      ensures (name in twice <==> name in once) && (name in once ==> twice[name] == once[name])
    {
      LastWriteWins(props, ThemeWrites(c), name);
      LastWriteWins(once, ThemeWrites(c), name);
    }
  }

  /** Without customizations nothing is written and no class is produced. */
  lemma NoCustomizationsDoNothing(props: map<string, string>)
    ensures Injected(props, NoCustomizations()) == props
    ensures ThemeClasses(NoCustomizations()) == Returns([])
  {
  }
}
