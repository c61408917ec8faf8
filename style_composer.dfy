/** `generateComponentStyles` (frontend/src/utils/styleUtils.js): editor props
    in, a flat style object out. The specification follows the source block by
    block: each block is a function from the style object before it to the one
    after it, built from guarded assignments, and each states which keys it may
    touch. */
module StyleComposer {
  import opened JsValues
  import opened JsStrings
  import opened StyleTokens
  import opened CustomCss

  /** `props.textGradient`: the fields the composer reads. An array is always
      truthy, so `colors` is either absent or used as given. */
  datatype TextGradient = TextGradient(enabled: JsVal, gradientType: JsVal, angle: JsVal, colors: Option<seq<JsVal>>)

  /** `props.backgroundGradient` */
  datatype BackgroundGradient = BackgroundGradient(enabled: JsVal, direction: JsVal, colors: Option<seq<JsVal>>)

  /** The props bag. Scalar props are read by name from `values` (a missing name
      reads as `undefined`); the nested objects and the two props that are
      divided by 100 have their own fields. A `filters` entry is a number or
      `undefined`. */
  datatype Props = Props(
    values: map<string, JsVal>,
    textGradient: Option<TextGradient>,
    backgroundGradient: Option<BackgroundGradient>,
    scale: Option<real>,
    opacity: Option<real>,
    filters: Option<seq<(string, Option<real>)>>,
    cssVariables: Option<Entries>)

  type Styles = map<string, JsVal>

  /** `props[name]` */
  function Prop(p: Props, name: string): JsVal {
    if name in p.values then p.values[name] else Undefined
  }

  /** `if (c) styles[k] = v` */
  function SetIf(m: Styles, c: bool, k: string, v: JsVal): (r: Styles)
    ensures forall j :: j != k ==> SameAt(r, m, j)
  {
    if c then m[k := v] else m
  }

  /** Two style objects agree on key `k`. */
  predicate SameAt(a: Styles, b: Styles, k: string) {
    (k in a <==> k in b) && (k in a ==> a[k] == b[k])
  }

  /** `if (props[k]) styles[k] = props[k]` */
  function Copy(p: Props, k: string, m: Styles): (r: Styles)
    ensures Truthy(Prop(p, k)) ==> k in r && r[k] == Prop(p, k)
    ensures !Truthy(Prop(p, k)) ==> SameAt(r, m, k)
    ensures forall j :: j != k ==> SameAt(r, m, j)
  {
    SetIf(m, Truthy(Prop(p, k)), k, Prop(p, k))
  }

  /** Whether a table-resolved prop is written: it is truthy and, for the
      shadows and the backdrop filter, not `'none'`. */
  predicate TokenSet(p: Props, t: Token) {
    var v := Prop(p, PropName(t));
    Truthy(v) && !(HasNoneSentinel(t) && v == Str("none"))
  }

  /** `table[props[prop]] || props[prop]` */
  function TokenValue(tb: Tables, p: Props, t: Token): JsVal {
    Resolve(Table(tb, t, Prop(p, "color")), Prop(p, PropName(t)))
  }

  /** A table-resolved prop: `styles[name] = table[props[prop]] || props[prop]`. */
  function TokenStyle(tb: Tables, p: Props, t: Token, m: Styles): (r: Styles)
    ensures forall j :: j != StyleName(t) ==> SameAt(r, m, j)
  {
    SetIf(m, TokenSet(p, t), StyleName(t), TokenValue(tb, p, t))
  }

  /** Lines 8-73: the font family unless `'default'`, then the five typography tokens. */
  function FontStyles(tb: Tables, p: Props, m: Styles): (r: Styles)
    ensures forall k :: k !in {"fontFamily", "fontSize", "fontWeight", "lineHeight", "letterSpacing", "wordSpacing"}
                        ==> SameAt(r, m, k)
  {
    var family := Prop(p, "fontFamily");
    var m := SetIf(m, Truthy(family) && family != Str("default"), "fontFamily", family);
    assert StyleName(FontSize) == "fontSize" && StyleName(FontWeight) == "fontWeight"
        && StyleName(LineHeight) == "lineHeight" && StyleName(LetterSpacing) == "letterSpacing"
        && StyleName(WordSpacing) == "wordSpacing";
    var m := TokenStyle(tb, p, FontSize, m);
    var m := TokenStyle(tb, p, FontWeight, m);
    var m := TokenStyle(tb, p, LineHeight, m);
    var m := TokenStyle(tb, p, LetterSpacing, m);
    TokenStyle(tb, p, WordSpacing, m)
  }

  /** Lines 75-93: alignment (`textAlign || align`) and the plain text props. */
  function TextStyles(p: Props, m: Styles): (r: Styles)
    ensures forall k :: k !in {"textAlign", "textTransform", "fontStyle", "textDecoration", "writingMode"}
                        ==> SameAt(r, m, k)
  {
    var align := Or(Prop(p, "textAlign"), Prop(p, "align"));
    var m := SetIf(m, Truthy(align), "textAlign", align);
    var m := Copy(p, "textTransform", m);
    var m := Copy(p, "fontStyle", m);
    var m := Copy(p, "textDecoration", m);
    Copy(p, "writingMode", m)
  }

  /** The `background` of a text gradient; `None` for a type other than the three known ones. */
  function TextGradientCss(g: TextGradient, color: JsVal): Option<string> {
    var kind := Or(g.gradientType, Str("linear"));
    var angle := ToJsString(Or(g.angle, Str("45deg")));
    var colors := JoinValues(g.colors.GetOr([Or(color, Str("#3b82f6")), Str("#8b5cf6")]), ", ");
    if kind == Str("linear") then Some("linear-gradient(" + angle + ", " + colors + ")")
    else if kind == Str("radial") then Some("radial-gradient(circle, " + colors + ")")
    else if kind == Str("conic") then Some("conic-gradient(from " + angle + ", " + colors + ")")
    else None
  }

  /** Whether `props.textGradient?.enabled` holds. */
  predicate TextGradientOn(p: Props) {
    p.textGradient.Some? && Truthy(p.textGradient.value.enabled)
  }

  /** Lines 105-122: an enabled text gradient writes the background (for the
      three known types) and always the three clip keys; the text shadow of
      lines 95-103 is `TokenStyle(tb, p, TextShadow, m)`. */
  function TextGradientStyles(p: Props, m: Styles): (r: Styles)
    ensures forall k :: k !in {"background", "WebkitBackgroundClip", "WebkitTextFillColor", "backgroundClip"}
                        ==> SameAt(r, m, k)
  {
    if !TextGradientOn(p) then m
    else
      var css := TextGradientCss(p.textGradient.value, Prop(p, "color"));
      var m := SetIf(m, css.Some?, "background", Str(css.GetOr("")));
      m["WebkitBackgroundClip" := Str("text")]["WebkitTextFillColor" := Str("transparent")]["backgroundClip" := Str("text")]
  }

  /** The `background` of an enabled background gradient; an unknown direction
      reads as `undefined` from the direction table. */
  function BackgroundGradientCss(tb: Tables, g: BackgroundGradient, backgroundColor: JsVal, color: JsVal): string {
    var direction := Lookup(tb.directions, Or(g.direction, Str("to-r")));
    var colors := g.colors.GetOr([Or(backgroundColor, Str("#ffffff")), Or(color, Str("#3b82f6"))]);
    "linear-gradient(" + ToJsString(direction) + ", " + JoinValues(colors, ", ") + ")"
  }

  /** Whether `props.backgroundGradient?.enabled` holds. */
  predicate BackgroundGradientOn(p: Props) {
    p.backgroundGradient.Some? && Truthy(p.backgroundGradient.value.enabled)
  }

  /** Lines 126-153: the three colors, then the background gradient. */
  function ColorStyles(tb: Tables, p: Props, m: Styles): (r: Styles)
    ensures forall k :: k !in {"color", "backgroundColor", "borderColor", "background"} ==> SameAt(r, m, k)
  {
    var m := Copy(p, "color", m);
    var m := Copy(p, "backgroundColor", m);
    var m := Copy(p, "borderColor", m);
    if BackgroundGradientOn(p) then
      m["background" := Str(BackgroundGradientCss(tb, p.backgroundGradient.value, Prop(p, "backgroundColor"), Prop(p, "color")))]
    else m
  }

  /** The side props copied by the two `forEach` loops, in their order. */
  const PaddingSides: seq<string> := ["paddingTop", "paddingRight", "paddingBottom", "paddingLeft"]
  const MarginSides: seq<string> := ["marginTop", "marginRight", "marginBottom", "marginLeft"]

  /** `names.forEach(prop => { if (props[prop]) styles[prop] = props[prop] })` */
  function CopyAll(p: Props, names: seq<string>, m: Styles): (r: Styles)
    ensures forall k :: k in names && Truthy(Prop(p, k)) ==> k in r && r[k] == Prop(p, k)
    ensures forall k :: k in names && !Truthy(Prop(p, k)) ==> SameAt(r, m, k)
    ensures forall k :: k !in names ==> SameAt(r, m, k)
    decreases |names|
  {
    if names == [] then m
    else
      assert forall k :: k !in names ==> k !in names[..|names| - 1];
      Copy(p, names[|names| - 1], CopyAll(p, names[..|names| - 1], m))
  }

  /** Lines 156-179: the padding token, then the individual paddings and margins. */
  function SpacingStyles(tb: Tables, p: Props, m: Styles): (r: Styles)
    ensures forall k :: k !in {"padding"} && k !in PaddingSides && k !in MarginSides ==> SameAt(r, m, k)
  {
    CopyAll(p, MarginSides, CopyAll(p, PaddingSides, TokenStyle(tb, p, Padding, m)))
  }

  /** Whether the border block runs: `props.borderWidth && props.borderWidth !== 'none'`. */
  predicate BorderOn(p: Props) {
    Truthy(Prop(p, "borderWidth")) && Prop(p, "borderWidth") != Str("none")
  }

  /** Lines 182-186: width with a `px` suffix, style and color with their defaults. */
  function BorderBox(p: Props, m: Styles): (r: Styles)
    ensures forall k :: k !in {"borderWidth", "borderStyle", "borderColor"} ==> SameAt(r, m, k)
  {
    if BorderOn(p) then
      m["borderWidth" := Str(ToJsString(Prop(p, "borderWidth")) + "px")]
       ["borderStyle" := Or(Prop(p, "borderStyle"), Str("solid"))]
       ["borderColor" := Or(Prop(p, "borderColor"), Str("#e5e7eb"))]
    else m
  }

  /** Lines 182-212: the border box, then the radius and the box shadow. */
  function BorderStyles(tb: Tables, p: Props, m: Styles): (r: Styles)
    ensures forall k :: k !in {"borderWidth", "borderStyle", "borderColor", "borderRadius", "boxShadow"}
                        ==> SameAt(r, m, k)
  {
    assert StyleName(Rounded) == "borderRadius" && StyleName(Shadow) == "boxShadow";
    TokenStyle(tb, p, Shadow, TokenStyle(tb, p, Rounded, BorderBox(p, m)))
  }

  /** The four optional terms of the `transforms` array (lines 215-231). */
  function RotateTerm(p: Props): seq<string> {
    var rotate := Prop(p, "rotate");
    if Truthy(rotate) && rotate != Num(0.0) then ["rotate(" + ToJsString(rotate) + "deg)"] else []
  }

  function ScaleTerm(p: Props): seq<string> {
    if p.scale.Some? && p.scale.value != 0.0 && p.scale.value != 100.0
    then ["scale(" + NumberToString(p.scale.value / 100.0) + ")"] else []
  }

  function ScaleXTerm(p: Props): seq<string> {
    var scaleX := Prop(p, "scaleX");
    if Truthy(scaleX) && scaleX != Num(1.0) then ["scaleX(" + ToJsString(scaleX) + ")"] else []
  }

  function ScaleYTerm(p: Props): seq<string> {
    var scaleY := Prop(p, "scaleY");
    if Truthy(scaleY) && scaleY != Num(1.0) then ["scaleY(" + ToJsString(scaleY) + ")"] else []
  }

  /** The `transforms` array, terms in push order. */
  function TransformTerms(p: Props): seq<string> {
    RotateTerm(p) + ScaleTerm(p) + ScaleXTerm(p) + ScaleYTerm(p)
  }

  /** Lines 214-235. */
  function TransformStyles(p: Props, m: Styles): (r: Styles)
    ensures forall k :: k != "transform" ==> SameAt(r, m, k)
  {
    SetIf(m, TransformTerms(p) != [], "transform", Str(Join(TransformTerms(p), " ")))
  }

  /** The part one `filters` entry pushes (lines 242-262). */
  function FilterPart(name: string, value: Option<real>): seq<string> {
    if value.None? || value.value == 0.0 || value.value == 100.0 then []
    else
      var v := value.value;
      var n := NumberToString(v);
      if name == "blur" then (if v > 0.0 then ["blur(" + n + "px)"] else [])
      else if name == "brightness" then ["brightness(" + n + "%)"]
      else if name == "contrast" then ["contrast(" + n + "%)"]
      else if name == "saturate" then ["saturate(" + n + "%)"]
      else if name == "hue-rotate" then (if v > 0.0 then ["hue-rotate(" + n + "deg)"] else [])
      else if name == "grayscale" then (if v > 0.0 then ["grayscale(" + n + "%)"] else [])
      else []
  }

  /** The `filterParts` array after the `forEach` over the entries. */
  function FilterParts(entries: seq<(string, Option<real>)>): seq<string>
    decreases |entries|
  {
    if entries == [] then []
    else
      var last := entries[|entries| - 1];
      FilterParts(entries[..|entries| - 1]) + FilterPart(last.0, last.1)
  }

  /** Lines 238-269. */
  function FilterStyles(p: Props, m: Styles): (r: Styles)
    ensures forall k :: k != "filter" ==> SameAt(r, m, k)
  {
    match p.filters
    case None => m
    case Some(entries) => SetIf(m, FilterParts(entries) != [], "filter", Str(Join(FilterParts(entries), " ")))
  }

  /** Lines 287-301: the layout props, `zIndex` whenever it is defined; the
      backdrop filter of lines 272-284 before them is `TokenStyle(tb, p, Backdrop, m)`. */
  function LayoutStyles(p: Props, m: Styles): (r: Styles)
    ensures forall k :: k !in {"display", "position", "zIndex", "overflow"} ==> SameAt(r, m, k)
  {
    var m := Copy(p, "display", m);
    var m := Copy(p, "position", m);
    var m := SetIf(m, Prop(p, "zIndex") != Undefined, "zIndex", Prop(p, "zIndex"));
    Copy(p, "overflow", m)
  }

  /** Lines 304-306: the opacity percentage as a fraction, unless undefined or 100. */
  function OpacityStyles(p: Props, m: Styles): (r: Styles)
    ensures forall k :: k != "opacity" ==> SameAt(r, m, k)
  {
    SetIf(m, p.opacity.Some? && p.opacity.value != 100.0, "opacity", Num(p.opacity.GetOr(100.0) / 100.0))
  }

  /** Everything before the custom CSS, in source order. */
  function ComputedStyles(tb: Tables, p: Props): Styles {
    var m := FontStyles(tb, p, map[]);
    var m := TextStyles(p, m);
    var m := TokenStyle(tb, p, TextShadow, m);
    var m := TextGradientStyles(p, m);
    var m := ColorStyles(tb, p, m);
    var m := SpacingStyles(tb, p, m);
    var m := BorderStyles(tb, p, m);
    var m := TransformStyles(p, m);
    var m := FilterStyles(p, m);
    var m := TokenStyle(tb, p, Backdrop, m);
    var m := LayoutStyles(p, m);
    OpacityStyles(p, m)
  }

  /** The parsed custom CSS as style values. */
  function AsStyles(css: map<string, string>): (r: Styles)
    ensures r.Keys == css.Keys
  {
    map k | k in css :: Str(css[k])
  }

  /** Lines 309-326: a truthy string is parsed and merged with `Object.assign`;
      a truthy non-string makes `split` throw, and the `catch` leaves the
      styles as they were. */
  function CustomCssStyles(p: Props, m: Styles): Styles {
    var css := Prop(p, "customCSS");
    if Truthy(css) && css.Str? then m + AsStyles(ParseCustomCss(css.s)) else m
  }

  /** Lines 329-335: the `forEach` over the entries in order. */
  function CssVariableStyles(entries: Entries, m: Styles): (r: Styles)
    ensures forall k :: !StartsWith(k, "--") ==> SameAt(r, m, k)
    decreases |entries|
  {
    if entries == [] then m
    else
      var (k, v) := entries[|entries| - 1];
      SetIf(CssVariableStyles(entries[..|entries| - 1], m), StartsWith(k, "--") && Truthy(v), k, v)
  }

  /** The whole `styles` object. */
  function ComponentStyles(tb: Tables, p: Props): Styles {
    var m := CustomCssStyles(p, ComputedStyles(tb, p));
    match p.cssVariables
    case None => m
    case Some(entries) => CssVariableStyles(entries, m)
  }

  /* The source, block by block. Each block method performs the assignments
     of its lines in order and is proved to compute its block function. The
     two patterns the source repeats for many props are the step methods
     `CopyProp` and `ApplyToken`. */

  /** `if (props[name]) styles[name] = props[name]` */
  method CopyProp(props: Props, name: string, styles0: Styles) returns (styles: Styles)
    ensures styles == Copy(props, name, styles0)
  {
    styles := styles0;
    if Truthy(Prop(props, name)) {
      styles := styles[name := Prop(props, name)];
    }
  }

  /** `if (props[prop]) styles[name] = table[props[prop]] || props[prop]`,
      with the `'none'` guard for the shadows and the backdrop filter. */
  method ApplyToken(tb: Tables, props: Props, t: Token, styles0: Styles) returns (styles: Styles)
    ensures styles == TokenStyle(tb, props, t, styles0)
  {
    styles := styles0;
    var token := Prop(props, PropName(t));
    if Truthy(token) && !(HasNoneSentinel(t) && token == Str("none")) {
      styles := styles[StyleName(t) := TokenValue(tb, props, t)];
    }
  }

  method ApplyFonts(tb: Tables, props: Props, styles0: Styles) returns (styles: Styles)
    ensures styles == FontStyles(tb, props, styles0)
  {
    styles := styles0;
    var family := Prop(props, "fontFamily");
    if Truthy(family) && family != Str("default") {
      styles := styles["fontFamily" := family];
    }
    styles := ApplyToken(tb, props, FontSize, styles);
    styles := ApplyToken(tb, props, FontWeight, styles);
    styles := ApplyToken(tb, props, LineHeight, styles);
    styles := ApplyToken(tb, props, LetterSpacing, styles);
    styles := ApplyToken(tb, props, WordSpacing, styles);
  }

  method ApplyTextProps(props: Props, styles0: Styles) returns (styles: Styles)
    ensures styles == TextStyles(props, styles0)
  {
    styles := styles0;
    if Truthy(Prop(props, "textAlign")) || Truthy(Prop(props, "align")) {
      styles := styles["textAlign" := Or(Prop(props, "textAlign"), Prop(props, "align"))];
    }
    styles := CopyProp(props, "textTransform", styles);
    styles := CopyProp(props, "fontStyle", styles);
    styles := CopyProp(props, "textDecoration", styles);
    styles := CopyProp(props, "writingMode", styles);
  }

  method ApplyTextGradient(props: Props, styles0: Styles) returns (styles: Styles)
    ensures styles == TextGradientStyles(props, styles0)
  {
    styles := styles0;
    if props.textGradient.Some? && Truthy(props.textGradient.value.enabled) {
      var g := props.textGradient.value;
      var gradientType := Or(g.gradientType, Str("linear"));
      var angle := Or(g.angle, Str("45deg"));
      var colors := g.colors.GetOr([Or(Prop(props, "color"), Str("#3b82f6")), Str("#8b5cf6")]);
      if gradientType == Str("linear") {
        styles := styles["background" := Str("linear-gradient(" + ToJsString(angle) + ", " + JoinValues(colors, ", ") + ")")];
      } else if gradientType == Str("radial") {
        styles := styles["background" := Str("radial-gradient(circle, " + JoinValues(colors, ", ") + ")")];
      } else if gradientType == Str("conic") {
        styles := styles["background" := Str("conic-gradient(from " + ToJsString(angle) + ", " + JoinValues(colors, ", ") + ")")];
      }
      styles := styles["WebkitBackgroundClip" := Str("text")];
      styles := styles["WebkitTextFillColor" := Str("transparent")];
      styles := styles["backgroundClip" := Str("text")];
    }
  }

  method ApplyColors(tb: Tables, props: Props, styles0: Styles) returns (styles: Styles)
    ensures styles == ColorStyles(tb, props, styles0)
  {
    styles := CopyProp(props, "color", styles0);
    styles := CopyProp(props, "backgroundColor", styles);
    styles := CopyProp(props, "borderColor", styles);
    if props.backgroundGradient.Some? && Truthy(props.backgroundGradient.value.enabled) {
      var g := props.backgroundGradient.value;
      var direction := Or(g.direction, Str("to-r"));
      var colors := g.colors.GetOr([Or(Prop(props, "backgroundColor"), Str("#ffffff")), Or(Prop(props, "color"), Str("#3b82f6"))]);
      styles := styles["background" :=
        Str("linear-gradient(" + ToJsString(Lookup(tb.directions, direction)) + ", " + JoinValues(colors, ", ") + ")")];
    }
  }

  /** One of the two side loops. */
  method ApplySides(props: Props, names: seq<string>, styles0: Styles) returns (styles: Styles)
    ensures styles == CopyAll(props, names, styles0)
  {
    styles := styles0;
    for i := 0 to |names|
      invariant styles == CopyAll(props, names[..i], styles0)
    {
      var name := names[i];
      if Truthy(Prop(props, name)) {
        styles := styles[name := Prop(props, name)];
      }
      assert names[..i + 1][..i] == names[..i];
    }
    assert names[..|names|] == names;
  }

  method ApplySpacing(tb: Tables, props: Props, styles0: Styles) returns (styles: Styles)
    ensures styles == SpacingStyles(tb, props, styles0)
  {
    styles := ApplyToken(tb, props, Padding, styles0);
    styles := ApplySides(props, PaddingSides, styles);
    styles := ApplySides(props, MarginSides, styles);
  }

  method ApplyBorder(tb: Tables, props: Props, styles0: Styles) returns (styles: Styles)
    ensures styles == BorderStyles(tb, props, styles0)
  {
    styles := styles0;
    var width := Prop(props, "borderWidth");
    if Truthy(width) && width != Str("none") {
      styles := styles["borderWidth" := Str(ToJsString(width) + "px")];
      styles := styles["borderStyle" := Or(Prop(props, "borderStyle"), Str("solid"))];
      styles := styles["borderColor" := Or(Prop(props, "borderColor"), Str("#e5e7eb"))];
    }
    assert styles == BorderBox(props, styles0);
    styles := ApplyToken(tb, props, Rounded, styles);
    styles := ApplyToken(tb, props, Shadow, styles);
  }

  /** The `transforms` array of the transform block. */
  method CollectTransforms(props: Props) returns (transforms: seq<string>)
    ensures transforms == TransformTerms(props)
  {
    transforms := [];
    var rotate := Prop(props, "rotate");
    if Truthy(rotate) && rotate != Num(0.0) {
      transforms := transforms + ["rotate(" + ToJsString(rotate) + "deg)"];
    }
    assert transforms == RotateTerm(props);
    ghost var rotated := transforms;
    if props.scale.Some? && props.scale.value != 0.0 && props.scale.value != 100.0 {
      transforms := transforms + ["scale(" + NumberToString(props.scale.value / 100.0) + ")"];
    }
    assert transforms == rotated + ScaleTerm(props);
    ghost var scaled := transforms;
    var scaleX := Prop(props, "scaleX");
    if Truthy(scaleX) && scaleX != Num(1.0) {
      transforms := transforms + ["scaleX(" + ToJsString(scaleX) + ")"];
    }
    assert transforms == scaled + ScaleXTerm(props);
    ghost var scaledX := transforms;
    var scaleY := Prop(props, "scaleY");
    if Truthy(scaleY) && scaleY != Num(1.0) {
      transforms := transforms + ["scaleY(" + ToJsString(scaleY) + ")"];
    }
    assert transforms == scaledX + ScaleYTerm(props);
  }

  method ApplyTransform(props: Props, styles0: Styles) returns (styles: Styles)
    ensures styles == TransformStyles(props, styles0)
  {
    styles := styles0;
    var transforms := CollectTransforms(props);
    if |transforms| > 0 {
      styles := styles["transform" := Str(Join(transforms, " "))];
    }
  }

  /** The `filterParts` array of the filter block. */
  method CollectFilters(entries: seq<(string, Option<real>)>) returns (parts: seq<string>)
    ensures parts == FilterParts(entries)
  {
    parts := [];
    for i := 0 to |entries|
      invariant parts == FilterParts(entries[..i])
    {
      var (filter, value) := entries[i];
      if value.Some? && value.value != 0.0 && value.value != 100.0 {
        var v := value.value;
        if filter == "blur" {
          if v > 0.0 { parts := parts + ["blur(" + NumberToString(v) + "px)"]; }
        } else if filter == "brightness" {
          if v != 100.0 { parts := parts + ["brightness(" + NumberToString(v) + "%)"]; }
        } else if filter == "contrast" {
          if v != 100.0 { parts := parts + ["contrast(" + NumberToString(v) + "%)"]; }
        } else if filter == "saturate" {
          if v != 100.0 { parts := parts + ["saturate(" + NumberToString(v) + "%)"]; }
        } else if filter == "hue-rotate" {
          if v > 0.0 { parts := parts + ["hue-rotate(" + NumberToString(v) + "deg)"]; }
        } else if filter == "grayscale" {
          if v > 0.0 { parts := parts + ["grayscale(" + NumberToString(v) + "%)"]; }
        }
      }
      assert entries[..i + 1][..i] == entries[..i];
    }
    assert entries[..|entries|] == entries;
  }

  method ApplyFilters(props: Props, styles0: Styles) returns (styles: Styles)
    ensures styles == FilterStyles(props, styles0)
  {
    styles := styles0;
    if props.filters.Some? {
      var parts := CollectFilters(props.filters.value);
      if |parts| > 0 {
        styles := styles["filter" := Str(Join(parts, " "))];
      }
    }
  }

  method ApplyLayout(props: Props, styles0: Styles) returns (styles: Styles)
    ensures styles == LayoutStyles(props, styles0)
  {
    styles := CopyProp(props, "display", styles0);
    styles := CopyProp(props, "position", styles);
    if Prop(props, "zIndex") != Undefined {
      styles := styles["zIndex" := Prop(props, "zIndex")];
    }
    styles := CopyProp(props, "overflow", styles);
  }

  method ApplyOpacity(props: Props, styles0: Styles) returns (styles: Styles)
    ensures styles == OpacityStyles(props, styles0)
  {
    styles := styles0;
    if props.opacity.Some? && props.opacity.value != 100.0 {
      styles := styles["opacity" := Num(props.opacity.value / 100.0)];
    }
  }

  method ApplyCustomCss(props: Props, styles0: Styles) returns (styles: Styles)
    ensures styles == CustomCssStyles(props, styles0)
  {
    styles := styles0;
    var css := Prop(props, "customCSS");
    if Truthy(css) {
      if css.Str? {
        styles := styles + AsStyles(ParseCustomCss(css.s));
      }
    }
  }

  method ApplyCssVariables(props: Props, styles0: Styles) returns (styles: Styles)
    ensures styles == (match props.cssVariables
                       case None => styles0
                       case Some(entries) => CssVariableStyles(entries, styles0))
  {
    styles := styles0;
    if props.cssVariables.Some? {
      var entries := props.cssVariables.value;
      for i := 0 to |entries|
        invariant styles == CssVariableStyles(entries[..i], styles0)
      {
        var (key, value) := entries[i];
        if StartsWith(key, "--") && Truthy(value) {
          styles := styles[key := value];
        }
        assert entries[..i + 1][..i] == entries[..i];
      }
      assert entries[..|entries|] == entries;
    }
  }

  /** `generateComponentStyles(props)`: the blocks in source order; the class
      list is never pushed to. */
  method GenerateComponentStyles(props: Props) returns (styles: Styles, classes: seq<string>)
    ensures styles == ComponentStyles(SourceTables(), props)
    ensures classes == []
  {
    classes := [];
    var tb := SourceTables();
    styles := ApplyFonts(tb, props, map[]);
    styles := ApplyTextProps(props, styles);
    styles := ApplyToken(tb, props, TextShadow, styles);
    styles := ApplyTextGradient(props, styles);
    styles := ApplyColors(tb, props, styles);
    styles := ApplySpacing(tb, props, styles);
    styles := ApplyBorder(tb, props, styles);
    styles := ApplyTransform(props, styles);
    styles := ApplyFilters(props, styles);
    styles := ApplyToken(tb, props, Backdrop, styles);
    styles := ApplyLayout(props, styles);
    styles := ApplyOpacity(props, styles);
    styles := ApplyCustomCss(props, styles);
    styles := ApplyCssVariables(props, styles);
  }
}
