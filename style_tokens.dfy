/** The fixed token tables of the style composer (frontend/src/utils/styleUtils.js)
    and the lookup-with-pass-through every one of them is read with:
    `table[token] || token`. */
module StyleTokens {
  import opened JsValues

  /** A table is an object literal, given by its entries. */
  type TokenTable = Entries

  /** Every literal of a table is truthy, so `table[token] || token` never
      falls through on a hit. */
  predicate AllTruthy(table: TokenTable) {
    forall i :: 0 <= i < |table| ==> Truthy(table[i].1)
  }

  /** No key is listed twice. */
  predicate UniqueKeys(table: TokenTable) {
    forall i, j :: 0 <= i < j < |table| ==> table[i].0 != table[j].0
  }

  predicate WellFormed(table: TokenTable) {
    AllTruthy(table) && UniqueKeys(table)
  }

  function FontSizes(): TokenTable
  {
    [
      ("xs", Str("0.75rem")), ("sm", Str("0.875rem")), ("base", Str("1rem")),
      ("lg", Str("1.125rem")), ("xl", Str("1.25rem")), ("2xl", Str("1.5rem")),
      ("3xl", Str("1.875rem")), ("4xl", Str("2.25rem")), ("5xl", Str("3rem"))]
  }

  function FontWeights(): TokenTable
  {
    [
      ("thin", Num(100.0)), ("extralight", Num(200.0)), ("light", Num(300.0)),
      ("normal", Num(400.0)), ("medium", Num(500.0)), ("semibold", Num(600.0)),
      ("bold", Num(700.0)), ("extrabold", Num(800.0)), ("black", Num(900.0))]
  }

  function LineHeights(): TokenTable
  {
    [
      ("tight", Num(1.25)), ("snug", Num(1.375)), ("normal", Num(1.5)),
      ("relaxed", Num(1.625)), ("loose", Num(2.0))]
  }

  function LetterSpacings(): TokenTable
  {
    [
      ("tighter", Str("-0.05em")), ("tight", Str("-0.025em")), ("normal", Str("0")),
      ("wide", Str("0.025em")), ("wider", Str("0.05em")), ("widest", Str("0.1em"))]
  }

  function WordSpacings(): TokenTable
  {
    [
      ("tight", Str("-0.05em")), ("normal", Str("normal")), ("wide", Str("0.1em")),
      ("wider", Str("0.2em"))]
  }

  function Paddings(): TokenTable
  {
    [
      ("none", Str("0")), ("small", Str("0.5rem")), ("medium", Str("1rem")),
      ("large", Str("1.5rem")), ("xl", Str("2rem"))]
  }

  function Radii(): TokenTable
  {
    [
      ("none", Str("0")), ("sm", Str("0.125rem")), ("md", Str("0.375rem")),
      ("lg", Str("0.5rem")), ("xl", Str("0.75rem")), ("full", Str("9999px"))]
  }

  function BackdropFilters(): TokenTable
  {
    [
      ("blur-sm", Str("blur(4px)")), ("blur-md", Str("blur(8px)")), ("blur-lg", Str("blur(16px)")),
      ("brightness-50", Str("brightness(0.5)")), ("brightness-150", Str("brightness(1.5)")),
      ("contrast-150", Str("contrast(1.5)")), ("grayscale", Str("grayscale(100%)")),
      ("sepia", Str("sepia(100%)"))]
  }

  /** The background-gradient directions. */
  function Directions(): TokenTable
  {
    [
      ("to-r", Str("to right")), ("to-l", Str("to left")), ("to-t", Str("to top")),
      ("to-b", Str("to bottom")), ("to-tr", Str("to top right")), ("to-tl", Str("to top left")),
      ("to-br", Str("to bottom right")), ("to-bl", Str("to bottom left"))]
  }

  /** The text-shadow table without its `colored` entry. */
  function TextShadows(): TokenTable
  {
    [
      ("sm", Str("1px 1px 2px rgba(0,0,0,0.1)")),
      ("md", Str("2px 2px 4px rgba(0,0,0,0.15)")),
      ("lg", Str("4px 4px 8px rgba(0,0,0,0.2)"))]
  }

  /** The `colored` text shadow: tinted with `props.color || '#000000'` at alpha `33`. */
  function ColoredTextShadow(color: JsVal): JsVal {
    Str("2px 2px 4px " + ToJsString(Or(color, Str("#000000"))) + "33")
  }

  /** A black box shadow layer: offsets, then `rgba(0, 0, 0, alpha)`. */
  function BlackShadow(offsets: string, alpha: string): string {
    offsets + " rgba(0, 0, 0, " + alpha + ")"
  }

  /** The box-shadow table without its `colored` entry. */
  function BoxShadows(): TokenTable
  {
    [
      ("sm", Str(BlackShadow("0 1px 2px 0", "0.05"))),
      ("md", Str(BlackShadow("0 4px 6px -1px", "0.1") + ", " + BlackShadow("0 2px 4px -1px", "0.06"))),
      ("lg", Str(BlackShadow("0 10px 15px -3px", "0.1") + ", " + BlackShadow("0 4px 6px -2px", "0.05"))),
      ("xl", Str(BlackShadow("0 20px 25px -5px", "0.1") + ", " + BlackShadow("0 10px 10px -5px", "0.04"))),
      ("2xl", Str(BlackShadow("0 25px 50px -12px", "0.25"))),
      ("inner", Str(BlackShadow("inset 0 2px 4px 0", "0.06")))]
  }

  /** The `colored` box shadow: tinted with `props.color || '#3b82f6'` at alpha `33`. */
  function ColoredBoxShadow(color: JsVal): JsVal {
    Str("0 4px 6px -1px " + ToJsString(Or(color, Str("#3b82f6"))) + "33")
  }

  /** The composer's tables. The composer is stated for any tables; the ones
      the source declares are `SourceTables()`. The two shadow tables hold
      their fixed entries; the `colored` entry, which depends on the props, is
      added by `Table`. */
  datatype Tables = Tables(
    fontSizes: TokenTable, fontWeights: TokenTable, lineHeights: TokenTable,
    letterSpacings: TokenTable, wordSpacings: TokenTable, paddings: TokenTable,
    radii: TokenTable, boxShadows: TokenTable, textShadows: TokenTable,
    backdropFilters: TokenTable, directions: TokenTable)

  /** The object literals of styleUtils.js. */
  function SourceTables(): Tables {
    Tables(FontSizes(), FontWeights(), LineHeights(), LetterSpacings(), WordSpacings(),
           Paddings(), Radii(), BoxShadows(), TextShadows(), BackdropFilters(), Directions())
  }

  /** The ten properties that are resolved through a table. */
  datatype Token =
    | FontSize | FontWeight | LineHeight | LetterSpacing | WordSpacing
    | Padding | Rounded | Shadow | TextShadow | Backdrop

  /** The prop the token is read from. */
  function PropName(t: Token): string {
    match t
    case FontSize => "fontSize"
    case FontWeight => "fontWeight"
    case LineHeight => "lineHeight"
    case LetterSpacing => "letterSpacing"
    case WordSpacing => "wordSpacing"
    case Padding => "padding"
    case Rounded => "rounded"
    case Shadow => "shadow"
    case TextShadow => "textShadow"
    case Backdrop => "backdropFilter"
  }

  /** The style key the resolved value is written to. */
  function StyleName(t: Token): string {
    match t
    case FontSize => "fontSize"
    case FontWeight => "fontWeight"
    case LineHeight => "lineHeight"
    case LetterSpacing => "letterSpacing"
    case WordSpacing => "wordSpacing"
    case Padding => "padding"
    case Rounded => "borderRadius"
    case Shadow => "boxShadow"
    case TextShadow => "textShadow"
    case Backdrop => "backdropFilter"
  }

  /** The table for a token; `color` is `props.color`, used by the `colored` shadows. */
  function Table(tb: Tables, t: Token, color: JsVal): TokenTable
  {
    match t
    case FontSize => tb.fontSizes
    case FontWeight => tb.fontWeights
    case LineHeight => tb.lineHeights
    case LetterSpacing => tb.letterSpacings
    case WordSpacing => tb.wordSpacings
    case Padding => tb.paddings
    case Rounded => tb.radii
    case Shadow => tb.boxShadows + [("colored", ColoredBoxShadow(color))]
    case TextShadow => tb.textShadows + [("colored", ColoredTextShadow(color))]
    case Backdrop => tb.backdropFilters
  }

  /** Shadows and the backdrop filter treat the token `'none'` as "not set". */
  predicate HasNoneSentinel(t: Token) {
    t == Shadow || t == TextShadow || t == Backdrop
  }

  /** `table[token]`: object keys are strings, so the token is converted with `String`. */
  function Lookup(table: TokenTable, token: JsVal): JsVal {
    Get(table, ToJsString(token))
  }

  /** `table[token] || token` */
  function Resolve(table: TokenTable, token: JsVal): JsVal {
    Or(Lookup(table, token), token)
  }

  /** A token of a well-formed table resolves to the table's literal, and any
      other value passes through unchanged. */
  lemma ResolveIsLookupWithPassThrough(table: TokenTable, token: JsVal, v: JsVal)
    requires WellFormed(table)
    ensures (ToJsString(token), v) in table ==> Resolve(table, token) == v
    ensures (forall i :: 0 <= i < |table| ==> table[i].0 != ToJsString(token)) ==> Resolve(table, token) == token
  {
    var key := ToJsString(token);
    if (key, v) in table {
      GetPresent(table, key, v);
      var i :| 0 <= i < |table| && table[i] == (key, v);
      assert Truthy(table[i].1);
    }
    if forall i :: 0 <= i < |table| ==> table[i].0 != key {
      GetAbsent(table, key);
    }
  }

  /** A table stays well formed when an entry with a fresh key and a truthy value is appended. */
  lemma WellFormedSnoc(table: TokenTable, k: string, v: JsVal)
    requires WellFormed(table) && Truthy(v)
    requires forall i :: 0 <= i < |table| ==> table[i].0 != k
    ensures WellFormed(table + [(k, v)])
  {
  }

  lemma FontSizesWellFormed() ensures WellFormed(FontSizes()) {}
  lemma FontWeightsWellFormed() ensures WellFormed(FontWeights()) {}
  lemma LineHeightsWellFormed() ensures WellFormed(LineHeights()) {}
  lemma LetterSpacingsWellFormed() ensures WellFormed(LetterSpacings()) {}
  lemma WordSpacingsWellFormed() ensures WellFormed(WordSpacings()) {}
  lemma PaddingsWellFormed() ensures WellFormed(Paddings()) {}
  lemma RadiiWellFormed() ensures WellFormed(Radii()) {}
  lemma BackdropFiltersWellFormed() ensures WellFormed(BackdropFilters()) {}
  lemma DirectionsWellFormed() ensures WellFormed(Directions()) {}

  lemma BoxShadowsWellFormed(color: JsVal)
    ensures WellFormed(BoxShadows() + [("colored", ColoredBoxShadow(color))])
  {
    assert WellFormed(BoxShadows());
    WellFormedSnoc(BoxShadows(), "colored", ColoredBoxShadow(color));
  }

  lemma TextShadowsWellFormed(color: JsVal)
    ensures WellFormed(TextShadows() + [("colored", ColoredTextShadow(color))])
  {
    assert WellFormed(TextShadows());
    WellFormedSnoc(TextShadows(), "colored", ColoredTextShadow(color));
  }

  /** Every table of the source, with its `colored` entry for any color, is
      well formed, so `ResolveIsLookupWithPassThrough` applies to all of them. */
  lemma SourceTablesWellFormed(t: Token, color: JsVal)
    ensures WellFormed(Table(SourceTables(), t, color))
  {
    match t
    case FontSize => FontSizesWellFormed();
    case FontWeight => FontWeightsWellFormed();
    case LineHeight => LineHeightsWellFormed();
    case LetterSpacing => LetterSpacingsWellFormed();
    case WordSpacing => WordSpacingsWellFormed();
    case Padding => PaddingsWellFormed();
    case Rounded => RadiiWellFormed();
    case Shadow => BoxShadowsWellFormed(color);
    case TextShadow => TextShadowsWellFormed(color);
    case Backdrop => BackdropFiltersWellFormed();
  }

  /** `fontSize: '2xl'` resolves to `1.5rem`; an unknown raw value such as `'13px'` is kept. */
  lemma FontSizeExamples()
    ensures Resolve(FontSizes(), Str("2xl")) == Str("1.5rem")
    ensures Resolve(FontSizes(), Str("13px")) == Str("13px")
  {
  }
}
