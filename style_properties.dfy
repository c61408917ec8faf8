/** What the blocks of `generateComponentStyles` (frontend/src/utils/styleUtils.js)
    guarantee. Each lemma is stated for any style object the block runs on and,
    where a table is read, for any tables; the ones about the source's own
    tables take `SourceTables()`. */
module StyleProperties {
  import opened JsValues
  import opened JsStrings
  import opened StyleTokens
  import opened CustomCss
  import opened StyleComposer

  /** A table-resolved prop: nothing is written when the prop is unset (or the
      `'none'` sentinel); otherwise the style holds the table's value for a
      known token and the raw prop for any other. */
  lemma TokenResolution(tb: Tables, p: Props, t: Token, m: Styles, v: JsVal)
    requires WellFormed(Table(tb, t, Prop(p, "color")))
    ensures !TokenSet(p, t) ==> TokenStyle(tb, p, t, m) == m
    ensures var table, token := Table(tb, t, Prop(p, "color")), Prop(p, PropName(t));
            TokenSet(p, t) && (ToJsString(token), v) in table
            ==> StyleName(t) in TokenStyle(tb, p, t, m) && TokenStyle(tb, p, t, m)[StyleName(t)] == v
    ensures var table, token := Table(tb, t, Prop(p, "color")), Prop(p, PropName(t));
            TokenSet(p, t) && (forall i :: 0 <= i < |table| ==> table[i].0 != ToJsString(token))
            ==> StyleName(t) in TokenStyle(tb, p, t, m) && TokenStyle(tb, p, t, m)[StyleName(t)] == token
  {
    ResolveIsLookupWithPassThrough(Table(tb, t, Prop(p, "color")), Prop(p, PropName(t)), v);
  }

  /** `TokenResolution` for the tables the source declares, which need no
      further condition. */
  lemma SourceTokenResolution(p: Props, t: Token, m: Styles, v: JsVal)
    ensures var table, token := Table(SourceTables(), t, Prop(p, "color")), Prop(p, PropName(t));
            TokenSet(p, t) && (ToJsString(token), v) in table
            ==> TokenStyle(SourceTables(), p, t, m)[StyleName(t)] == v
    ensures var table, token := Table(SourceTables(), t, Prop(p, "color")), Prop(p, PropName(t));
            TokenSet(p, t) && (forall i :: 0 <= i < |table| ==> table[i].0 != ToJsString(token))
            ==> TokenStyle(SourceTables(), p, t, m)[StyleName(t)] == token
  {
    SourceTablesWellFormed(t, Prop(p, "color"));
    TokenResolution(SourceTables(), p, t, m, v);
  }

  /** `'none'` is a sentinel only for the shadows and the backdrop filter: for
      the padding it is a token of the table and resolves to `0`. */
  lemma NoneToken(p: Props, m: Styles)
    ensures Prop(p, "shadow") == Str("none") ==> TokenStyle(SourceTables(), p, Shadow, m) == m
    ensures Prop(p, "padding") == Str("none") ==> TokenStyle(SourceTables(), p, Padding, m)["padding"] == Str("0")
  {
  }

  /** The font family is copied unless it is unset or `'default'`; the typography
      tokens never touch it. */
  lemma FontFamily(tb: Tables, p: Props, m: Styles)
    ensures var family, r := Prop(p, "fontFamily"), FontStyles(tb, p, m);
            (Truthy(family) && family != Str("default") ==> "fontFamily" in r && r["fontFamily"] == family)
            && (!Truthy(family) || family == Str("default") ==> SameAt(r, m, "fontFamily"))
  {
  }

  /** `textAlign` wins over its alias `align`, which is used only when `textAlign` is unset. */
  lemma TextAlignFallsBack(p: Props, m: Styles)
    ensures var r := TextStyles(p, m);
            (Truthy(Prop(p, "textAlign")) ==> r["textAlign"] == Prop(p, "textAlign"))
            && (!Truthy(Prop(p, "textAlign")) && Truthy(Prop(p, "align")) ==> r["textAlign"] == Prop(p, "align"))
            && (!Truthy(Prop(p, "textAlign")) && !Truthy(Prop(p, "align")) ==> SameAt(r, m, "textAlign"))
  {
  }

  /** `a + b` starts with `a`. */
  lemma StartsWithConcat(a: string, b: string)
    ensures StartsWith(a + b, a)
  {
    assert (a + b)[..|a|] == a;
  }

  /** Appending keeps a prefix. */
  lemma StartsWithAppend(s: string, a: string, b: string)
    requires StartsWith(s, a)
    ensures StartsWith(s + b, a)
  {
    assert (s + b)[..|a|] == s[..|a|];
  }

  /** The background of each known text-gradient type starts with its CSS function. */
  lemma TextGradientCssPrefix(g: TextGradient, color: JsVal)
    ensures var kind, css := Or(g.gradientType, Str("linear")), TextGradientCss(g, color);
            (kind == Str("linear") ==> css.Some? && StartsWith(css.value, "linear-gradient("))
            && (kind == Str("radial") ==> css.Some? && StartsWith(css.value, "radial-gradient("))
            && (kind == Str("conic") ==> css.Some? && StartsWith(css.value, "conic-gradient("))
            && (kind !in {Str("linear"), Str("radial"), Str("conic")} ==> css.None?)
  {
    var angle := ToJsString(Or(g.angle, Str("45deg")));
    var colors := JoinValues(g.colors.GetOr([Or(color, Str("#3b82f6")), Str("#8b5cf6")]), ", ");
    StartsWithConcat("linear-gradient(", angle);
    StartsWithAppend("linear-gradient(" + angle, "linear-gradient(", ", ");
    StartsWithAppend("linear-gradient(" + angle + ", ", "linear-gradient(", colors);
    StartsWithAppend("linear-gradient(" + angle + ", " + colors, "linear-gradient(", ")");
    StartsWithConcat("radial-gradient(", "circle, ");
    StartsWithAppend("radial-gradient(" + "circle, ", "radial-gradient(", colors);
    StartsWithAppend("radial-gradient(" + "circle, " + colors, "radial-gradient(", ")");
    assert "radial-gradient(" + "circle, " == "radial-gradient(circle, ";
    StartsWithConcat("conic-gradient(", "from ");
    StartsWithAppend("conic-gradient(" + "from ", "conic-gradient(", angle);
    StartsWithAppend("conic-gradient(" + "from " + angle, "conic-gradient(", ", ");
    StartsWithAppend("conic-gradient(" + "from " + angle + ", ", "conic-gradient(", colors);
    StartsWithAppend("conic-gradient(" + "from " + angle + ", " + colors, "conic-gradient(", ")");
    assert "conic-gradient(" + "from " == "conic-gradient(from ";
  }

  /** An enabled text gradient always clips the background to the text and makes
      the text transparent, and writes its background when it has one (see
      `TextGradientCssPrefix`). A disabled one changes nothing. */
  lemma TextGradientClipsText(p: Props, m: Styles)
    ensures !TextGradientOn(p) ==> TextGradientStyles(p, m) == m
    ensures var r := TextGradientStyles(p, m);
            TextGradientOn(p) ==>
              r["WebkitBackgroundClip"] == Str("text") && r["WebkitTextFillColor"] == Str("transparent")
              && r["backgroundClip"] == Str("text")
    ensures var r := TextGradientStyles(p, m);
            TextGradientOn(p) ==>
              match TextGradientCss(p.textGradient.value, Prop(p, "color"))
              case Some(css) => "background" in r && r["background"] == Str(css)
              case None => SameAt(r, m, "background")
  {
  }

  /** An enabled background gradient overrides the background a text gradient
      wrote, and leaves its clipping in place. */
  lemma BackgroundGradientWins(tb: Tables, p: Props, m: Styles)
    requires TextGradientOn(p) && BackgroundGradientOn(p)
    ensures var r := ColorStyles(tb, p, TextGradientStyles(p, m));
            r["background"] == Str(BackgroundGradientCss(tb, p.backgroundGradient.value, Prop(p, "backgroundColor"), Prop(p, "color")))
            && r["WebkitTextFillColor"] == Str("transparent") && r["backgroundClip"] == Str("text")
  {
    var m1 := TextGradientStyles(p, m);
    TextGradientClipsText(p, m);
    assert SameAt(ColorStyles(tb, p, m1), m1, "WebkitTextFillColor");
    assert SameAt(ColorStyles(tb, p, m1), m1, "backgroundClip");
  }

  /** A direction the table does not list is read as `undefined` and printed
      as such, which yields an invalid gradient. */
  lemma UnknownDirection(tb: Tables, g: BackgroundGradient, backgroundColor: JsVal, color: JsVal)
    requires forall i :: 0 <= i < |tb.directions| ==> tb.directions[i].0 != ToJsString(Or(g.direction, Str("to-r")))
    ensures var colors := g.colors.GetOr([Or(backgroundColor, Str("#ffffff")), Or(color, Str("#3b82f6"))]);
            BackgroundGradientCss(tb, g, backgroundColor, color)
            == "linear-gradient(" + "undefined" + ", " + JoinValues(colors, ", ") + ")"
  {
    GetAbsent(tb.directions, ToJsString(Or(g.direction, Str("to-r"))));
  }

  /** A side padding or margin is copied as given, with no table lookup, and an unset
      one leaves its key as it was. */
  lemma SidesAreCopiedRaw(tb: Tables, p: Props, m: Styles, k: string)
    requires k in PaddingSides || k in MarginSides
    ensures Truthy(Prop(p, k)) ==> k in SpacingStyles(tb, p, m) && SpacingStyles(tb, p, m)[k] == Prop(p, k)
    ensures !Truthy(Prop(p, k)) ==> SameAt(SpacingStyles(tb, p, m), m, k)
  {
    SidesAreDisjoint(k);
    var m1 := TokenStyle(tb, p, Padding, m);
    assert SameAt(m1, m, k);
    var m2 := CopyAll(p, PaddingSides, m1);
    assert SpacingStyles(tb, p, m) == CopyAll(p, MarginSides, m2);
  }

  /** The padding and margin side names are different from each other and from `padding`. */
  lemma SidesAreDisjoint(k: string)
    requires k in PaddingSides || k in MarginSides
    ensures k != "padding" && !(k in PaddingSides && k in MarginSides)
  {
    assert |k| > 7 && (k[0] == 'p' <==> k in PaddingSides);
  }

  /** A border width other than `'none'` writes the width in pixels and a style
      and color, defaulting to a solid light grey. */
  lemma BorderDefaults(tb: Tables, p: Props, m: Styles)
    requires BorderOn(p)
    ensures var r := BorderStyles(tb, p, m);
            r["borderWidth"] == Str(ToJsString(Prop(p, "borderWidth")) + "px")
            && r["borderStyle"] == Or(Prop(p, "borderStyle"), Str("solid"))
            && r["borderColor"] == Or(Prop(p, "borderColor"), Str("#e5e7eb"))
  {
    BorderTokensKeepBox(tb, p, m);
  }

  /** Without a border width the border keys keep what the color block wrote. */
  lemma NoBorderKeepsColor(tb: Tables, p: Props, m: Styles)
    requires !BorderOn(p)
    ensures var r := BorderStyles(tb, p, m);
            SameAt(r, m, "borderWidth") && SameAt(r, m, "borderStyle") && SameAt(r, m, "borderColor")
  {
    BorderTokensKeepBox(tb, p, m);
  }

  /** The radius and the shadow do not touch the three keys of the border box. */
  lemma BorderTokensKeepBox(tb: Tables, p: Props, m: Styles)
    ensures var r, b := BorderStyles(tb, p, m), BorderBox(p, m);
            SameAt(r, b, "borderWidth") && SameAt(r, b, "borderStyle") && SameAt(r, b, "borderColor")
  {
    assert StyleName(Rounded) == "borderRadius" && StyleName(Shadow) == "boxShadow";
  }

  /** No transform is written exactly when every transform prop is unset or at
      its identity: rotation 0, scale 0 or 100 percent, axis scales 1. */
  lemma IdentityTransform(p: Props)
    ensures TransformTerms(p) == [] <==>
              (!Truthy(Prop(p, "rotate")) || Prop(p, "rotate") == Num(0.0))
              && (p.scale.None? || p.scale.value == 0.0 || p.scale.value == 100.0)
              && (!Truthy(Prop(p, "scaleX")) || Prop(p, "scaleX") == Num(1.0))
              && (!Truthy(Prop(p, "scaleY")) || Prop(p, "scaleY") == Num(1.0))
  {
    var terms := TransformTerms(p);
    assert |terms| == |RotateTerm(p)| + |ScaleTerm(p)| + |ScaleXTerm(p)| + |ScaleYTerm(p)|;
  }

  /** `scale` is a percentage: 150 gives a scale factor of 1.5. */
  lemma ScalePercentage(p: Props, term: string)
    requires p.scale == Some(150.0) && term == "scale(1.5)"
    ensures ScaleTerm(p) == [term]
  {
    assert 150.0 / 100.0 == 1.5;
    OneAndAHalf(1.5);
    assert term == "scale(" + "1.5" + ")";
  }

  /** `String(1.5)` is `1.5`. */
  lemma OneAndAHalf(x: real)
    requires x == 1.5
    ensures NumberToString(x) == "1.5"
  {
    assert x.Floor == 1 && x - 1 as real == 0.5;
    assert FractionDigits(0.5, 20) == [DigitChar(5)] + FractionDigits(0.0, 19);
  }

  /** An entry is neutral when it is unset, 0 or 100, or names no known filter. */
  predicate Neutral(e: (string, Option<real>)) {
    e.1.None? || e.1.value == 0.0 || e.1.value == 100.0
    || e.0 !in {"blur", "brightness", "contrast", "saturate", "hue-rotate", "grayscale"}
  }

  /** Neutral entries push nothing, so a filter made only of them writes no `filter`. */
  lemma {:induction false} NeutralFiltersAreSkipped(entries: seq<(string, Option<real>)>)
    requires forall i :: 0 <= i < |entries| ==> Neutral(entries[i])
    ensures FilterParts(entries) == []
    decreases |entries|
  {
    if entries != [] {
      var n := |entries| - 1;
      assert Neutral(entries[n]);
      NeutralFiltersAreSkipped(entries[..n]);
    }
  }

  /** Each entry pushes at most one part. */
  lemma {:induction false} FilterPartsBound(entries: seq<(string, Option<real>)>)
    ensures |FilterParts(entries)| <= |entries|
    decreases |entries|
  {
    if entries != [] {
      FilterPartsBound(entries[..|entries| - 1]);
    }
  }

  /** Blur, hue rotation and greyscale drop negative amounts; brightness,
      contrast and saturation keep them. */
  lemma NegativeFilters(v: real)
    requires v < 0.0
    ensures FilterPart("blur", Some(v)) == [] && FilterPart("hue-rotate", Some(v)) == []
            && FilterPart("grayscale", Some(v)) == []
    ensures FilterPart("brightness", Some(v)) == ["brightness(" + NumberToString(v) + "%)"]
    ensures FilterPart("contrast", Some(v)) == ["contrast(" + NumberToString(v) + "%)"]
    ensures FilterPart("saturate", Some(v)) == ["saturate(" + NumberToString(v) + "%)"]
  {
  }

  /** Opacity is a percentage: 100 (or unset) writes nothing, 0 is kept as a
      fully transparent 0 rather than skipped, and 50 is `0.5`. */
  lemma OpacityFraction(p: Props, m: Styles)
    ensures p.opacity.None? || p.opacity == Some(100.0) ==> OpacityStyles(p, m) == m
    ensures p.opacity == Some(0.0) ==> OpacityStyles(p, m)["opacity"] == Num(0.0)
    ensures p.opacity == Some(50.0) ==> OpacityStyles(p, m)["opacity"] == Num(0.5)
  {
  }

  /** `zIndex` is written whenever it is defined, so `zIndex: 0` is kept, while
      the other layout props are skipped when falsy. */
  lemma ZeroZIndexIsKept(p: Props, m: Styles)
    requires Prop(p, "zIndex") == Num(0.0) && Prop(p, "display") == Str("")
    ensures var r := LayoutStyles(p, m);
            "zIndex" in r && r["zIndex"] == Num(0.0) && SameAt(r, m, "display")
  {
  }

  /** Custom CSS is merged over the computed styles: a parsed key takes its
      parsed value, which is trimmed, non-empty and free of `:` and `;`. */
  lemma CustomCssOverrides(p: Props, m: Styles, css: string, k: string)
    requires Prop(p, "customCSS") == Str(css) && k in ParseCustomCss(css)
    ensures var v, r := ParseCustomCss(css)[k], CustomCssStyles(p, m);
            k in r && r[k] == Str(v) && v != [] && ':' !in v && ';' !in v
            && !IsWhitespace(v[0]) && !IsWhitespace(v[|v| - 1])
  {
    if css == "" {
      EmptyCustomCss();
    }
    ParsedEntriesAreClean(css, k);
  }

  /** Every key the custom CSS does not set is unchanged. */
  lemma CustomCssKeepsOtherKeys(p: Props, m: Styles, k: string)
    requires forall css :: Prop(p, "customCSS") == Str(css) ==> k !in ParseCustomCss(css)
    ensures SameAt(CustomCssStyles(p, m), m, k)
  {
  }

  /** The last truthy entry for a `--` key gives its value. */
  lemma {:induction false} CssVariableLastWins(entries: Entries, m: Styles, i: nat)
    requires i < |entries| && StartsWith(entries[i].0, "--") && Truthy(entries[i].1)
    requires forall j :: i < j < |entries| && entries[j].0 == entries[i].0 ==> !Truthy(entries[j].1)
    ensures var r := CssVariableStyles(entries, m);
            entries[i].0 in r && r[entries[i].0] == entries[i].1
    decreases |entries|
  {
    var n := |entries| - 1;
    if i < n {
      var init := entries[..n];
      assert forall j :: i < j < n ==> init[j] == entries[j];
      CssVariableLastWins(init, m, i);
    }
  }

  /** A key no truthy entry names keeps its value. */
  lemma {:induction false} CssVariableUntouched(entries: Entries, m: Styles, k: string)
    requires forall j :: 0 <= j < |entries| && entries[j].0 == k ==> !Truthy(entries[j].1)
    ensures SameAt(CssVariableStyles(entries, m), m, k)
    decreases |entries|
  {
    if entries != [] {
      var n := |entries| - 1;
      var init := entries[..n];
      assert forall j :: 0 <= j < n ==> init[j] == entries[j];
      CssVariableUntouched(init, m, k);
    }
  }
}
