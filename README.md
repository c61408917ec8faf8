# Portfolio builder: style and theme pipeline

This project models, in Dafny, the client-side styling core of a MERN portfolio
builder, and proves properties of that model:

- `generateComponentStyles` turns an editor component's props into a React style
  object. It resolves tokens through fixed tables, handles gradients, spacing,
  border, transform, filters, opacity, custom CSS and CSS variables.
  Modules `StyleTokens`, `StyleComposer`, `StyleProperties` and `CustomCss`.
- `generateThemeClasses` derives class names from a theme, and `injectThemeVariables`
  writes the theme onto the document root as custom properties. Module `Theme`.
- `GoogleFontsLoader` is the font loader: it builds the Google Fonts URLs, keeps
  the set of loaded families and the link elements it added, loads the fonts of a
  theme, clears the links and gives the fallback font stacks. Module `GoogleFonts`.
- The template registry: `getTemplate`, `getAllTemplates` and `getTemplateCategory`.
  Module `Templates`.
- The templates page's filter and sort (`filteredTemplates`). Module `TemplatesPage`.
- The font manager's category lists and its font filter. Module `FontManager`.

Shared modules:

- `JsValues` holds the JavaScript values the code handles: `undefined`, `null`,
  booleans, numbers and strings. It defines truthiness, `||`, `String(v)` and object
  entries.
- `JsStrings` holds the string operations the code uses: `trim`, `split`, `join`,
  `includes`, `startsWith`, `toLowerCase`, and `replace(/\s+/g, c)`.
- `Sequences` holds `filter` and subsequences.

The shape of each model follows the code:

- Pure code becomes functions, with lemmas about them.
- Code that updates state step by step becomes methods. Each method is proved to
  compute a specification function, and the lemmas are stated about that function.
- `generateComponentStyles` is a method that builds the style map block by block.
  Its loops run over the side props, the filters and the CSS variables.
- `injectThemeVariables` runs its loops against a `RootStyle` object whose
  `setProperty` updates the properties in place.
- The font loader is a class. Its fields are the loaded families and the link
  elements it added. Link loading completes through `OnLoad` and `OnError`, which
  take the link's index.
- The templates page sorts an array in place with an insertion sort.

The browser and the outside world are parameters of the model:

- The document root's style is an explicit `RootStyle` object.
- The template modules that `templates/index.js` imports become a `Modules` value.
  Each module is present or missing.
- The locale order used by `localeCompare` is a rank function.
- The font configuration table and the token tables are explicit values taken from
  the source's literals. They are passed as parameters where lemmas over them would
  otherwise have to unfold the literals.

## Model

| member | source | states |
|---|---|---|
| StyleTokens.ResolveIsLookupWithPassThrough | frontend/src/utils/styleUtils.js:12-25 | in a table with distinct keys and truthy literals, a listed token resolves to its literal and an unlisted value passes through unchanged |
| StyleTokens.FontSizesWellFormed | frontend/src/utils/styleUtils.js:13-23 | the font-size table has distinct keys and only truthy literals |
| StyleTokens.FontWeightsWellFormed | frontend/src/utils/styleUtils.js:28-38 | the font-weight table has distinct keys and only truthy literals |
| StyleTokens.LineHeightsWellFormed | frontend/src/utils/styleUtils.js:43-49 | the line-height table has distinct keys and only truthy literals |
| StyleTokens.LetterSpacingsWellFormed | frontend/src/utils/styleUtils.js:54-61 | the letter-spacing table has distinct keys and only truthy literals, its `'0'` included |
| StyleTokens.WordSpacingsWellFormed | frontend/src/utils/styleUtils.js:66-71 | the word-spacing table has distinct keys and only truthy literals |
| StyleTokens.PaddingsWellFormed | frontend/src/utils/styleUtils.js:157-163 | the padding table has distinct keys and only truthy literals |
| StyleTokens.RadiiWellFormed | frontend/src/utils/styleUtils.js:189-196 | the radius table has distinct keys and only truthy literals |
| StyleTokens.BackdropFiltersWellFormed | frontend/src/utils/styleUtils.js:273-282 | the backdrop-filter table has distinct keys and only truthy literals |
| StyleTokens.DirectionsWellFormed | frontend/src/utils/styleUtils.js:142-151 | the gradient-direction table has distinct keys and only truthy literals |
| StyleTokens.BoxShadowsWellFormed | frontend/src/utils/styleUtils.js:202-210 | the box-shadow table, with its `colored` entry for any color, has distinct keys and truthy literals |
| StyleTokens.TextShadowsWellFormed | frontend/src/utils/styleUtils.js:97-102 | the text-shadow table, with its `colored` entry for any color, has distinct keys and truthy literals |
| StyleTokens.SourceTablesWellFormed | frontend/src/utils/styleUtils.js:12-284 | every token table of the composer has distinct keys and truthy literals |
| StyleTokens.FontSizeExamples | frontend/src/utils/styleUtils.js:13-24 | fontSize `'2xl'` gives `'1.5rem'`; `'13px'` is kept as it is |
| StyleComposer.Copy | frontend/src/utils/styleUtils.js:79-81 | a truthy prop is written under its own name as given, with no table lookup; an unset or falsy one leaves the key as it was; no other key changes |
| StyleComposer.TokenStyle | frontend/src/utils/styleUtils.js:12-25 | a table-resolved prop writes only its own style key |
| StyleComposer.FontStyles | frontend/src/utils/styleUtils.js:7-73 | the typography block writes only fontFamily, fontSize, fontWeight, lineHeight, letterSpacing and wordSpacing |
| StyleComposer.TextStyles | frontend/src/utils/styleUtils.js:75-93 | the text block writes only textAlign, textTransform, fontStyle, textDecoration and writingMode |
| StyleComposer.TextGradientStyles | frontend/src/utils/styleUtils.js:106-123 | the text-gradient block writes only background and the three clip keys |
| StyleComposer.ColorStyles | frontend/src/utils/styleUtils.js:125-153 | the color block writes only color, backgroundColor, borderColor and background |
| StyleComposer.CopyAll | frontend/src/utils/styleUtils.js:168-179 | each named side prop that is truthy is written as given; a falsy one and every unnamed key keep their value |
| StyleComposer.SpacingStyles | frontend/src/utils/styleUtils.js:155-179 | the spacing block writes only padding and the eight side props |
| StyleComposer.BorderBox | frontend/src/utils/styleUtils.js:182-186 | the border box writes only borderWidth, borderStyle and borderColor |
| StyleComposer.BorderStyles | frontend/src/utils/styleUtils.js:181-212 | the border block writes only the border box, borderRadius and boxShadow |
| StyleComposer.TransformStyles | frontend/src/utils/styleUtils.js:214-235 | the transform block writes only `transform` |
| StyleComposer.FilterStyles | frontend/src/utils/styleUtils.js:237-269 | the filter block writes only `filter` |
| StyleComposer.LayoutStyles | frontend/src/utils/styleUtils.js:286-301 | the layout block writes only display, position, zIndex and overflow |
| StyleComposer.OpacityStyles | frontend/src/utils/styleUtils.js:303-306 | the opacity block writes only `opacity` |
| StyleComposer.AsStyles | frontend/src/utils/styleUtils.js:322 | the merged custom styles have exactly the parsed keys |
| StyleComposer.CssVariableStyles | frontend/src/utils/styleUtils.js:328-335 | the CSS-variable loop leaves every key not starting with `--` as it was |
| StyleComposer.CopyProp | frontend/src/utils/styleUtils.js:169-171 | one `if (props[k]) styles[k] = props[k]` step computes `Copy` |
| StyleComposer.ApplyToken | frontend/src/utils/styleUtils.js:12-25 | one table-resolved prop step computes `TokenStyle` |
| StyleComposer.ApplyFonts | frontend/src/utils/styleUtils.js:7-73 | the typography statements compute `FontStyles` |
| StyleComposer.ApplyTextProps | frontend/src/utils/styleUtils.js:75-93 | the text statements compute `TextStyles` |
| StyleComposer.ApplyTextGradient | frontend/src/utils/styleUtils.js:106-123 | the text-gradient statements compute `TextGradientStyles` |
| StyleComposer.ApplyColors | frontend/src/utils/styleUtils.js:125-153 | the color and background-gradient statements compute `ColorStyles` |
| StyleComposer.ApplySides | frontend/src/utils/styleUtils.js:167-179 | a side `forEach` loop computes `CopyAll` |
| StyleComposer.ApplySpacing | frontend/src/utils/styleUtils.js:155-179 | the spacing statements compute `SpacingStyles` |
| StyleComposer.ApplyBorder | frontend/src/utils/styleUtils.js:181-212 | the border, radius and shadow statements compute `BorderStyles` |
| StyleComposer.CollectTransforms | frontend/src/utils/styleUtils.js:214-231 | the pushes build the transform terms in the order rotate, scale, scaleX, scaleY |
| StyleComposer.ApplyTransform | frontend/src/utils/styleUtils.js:214-235 | the transform statements compute `TransformStyles` |
| StyleComposer.CollectFilters | frontend/src/utils/styleUtils.js:238-264 | the `forEach` over the filter entries pushes `FilterParts`, in entry order |
| StyleComposer.ApplyFilters | frontend/src/utils/styleUtils.js:237-269 | the filter statements compute `FilterStyles` |
| StyleComposer.ApplyLayout | frontend/src/utils/styleUtils.js:286-301 | the layout statements compute `LayoutStyles` |
| StyleComposer.ApplyOpacity | frontend/src/utils/styleUtils.js:303-306 | the opacity statement computes `OpacityStyles` |
| StyleComposer.ApplyCustomCss | frontend/src/utils/styleUtils.js:308-326 | the custom-CSS statement merges the parsed rules over the styles, or leaves them when `split` throws |
| StyleComposer.ApplyCssVariables | frontend/src/utils/styleUtils.js:328-335 | the CSS-variable loop computes `CssVariableStyles` |
| StyleComposer.GenerateComponentStyles | frontend/src/utils/styleUtils.js:3-338 | the whole function computes `ComponentStyles` over the source's tables, with an empty class list |
| StyleProperties.TokenResolution | frontend/src/utils/styleUtils.js:12-25 | an unset (or `'none'` sentinel) token prop writes nothing; a set one writes the table literal for a listed token and the raw prop otherwise |
| StyleProperties.SourceTokenResolution | frontend/src/utils/styleUtils.js:12-284 | the same for the source's own tables, with no condition on them |
| StyleProperties.NoneToken | frontend/src/utils/styleUtils.js:156-164 | `shadow: 'none'` writes no boxShadow; `padding: 'none'` is a token and gives `'0'` |
| StyleProperties.FontFamily | frontend/src/utils/styleUtils.js:8-10 | fontFamily is copied exactly when it is truthy and not `'default'`, and is otherwise left unchanged |
| StyleProperties.TextAlignFallsBack | frontend/src/utils/styleUtils.js:75-77 | textAlign wins; align is used only when textAlign is falsy; with neither, the key is unchanged |
| StyleProperties.TextGradientCssPrefix | frontend/src/utils/styleUtils.js:108-118 | the types linear, radial and conic give a background starting with their CSS function; any other type gives none |
| StyleProperties.TextGradientClipsText | frontend/src/utils/styleUtils.js:106-123 | a disabled gradient changes nothing; an enabled one always sets the three clip keys, and sets background exactly when its type is known |
| StyleProperties.BackgroundGradientWins | frontend/src/utils/styleUtils.js:139-153 | an enabled background gradient overwrites the text gradient's background and keeps its clip keys |
| StyleProperties.UnknownDirection | frontend/src/utils/styleUtils.js:140-152 | a direction the table lacks prints as `undefined` in the gradient |
| StyleProperties.SidesAreCopiedRaw | frontend/src/utils/styleUtils.js:155-179 | after the spacing block a truthy side padding or margin holds the prop's own value, not a `paddingMap` lookup; a falsy one leaves the key as it was |
| StyleProperties.BorderDefaults | frontend/src/utils/styleUtils.js:182-186 | with a border width set and not `'none'`: width in px, style defaulting to solid, color defaulting to `#e5e7eb` |
| StyleProperties.NoBorderKeepsColor | frontend/src/utils/styleUtils.js:182-186 | with no border width, the three border keys keep what earlier blocks wrote |
| StyleProperties.BorderTokensKeepBox | frontend/src/utils/styleUtils.js:188-212 | the radius and shadow do not touch the border box's keys |
| StyleProperties.IdentityTransform | frontend/src/utils/styleUtils.js:214-235 | there are no transform terms exactly when rotate, scale, scaleX and scaleY are each unset or at their identity |
| StyleProperties.ScalePercentage | frontend/src/utils/styleUtils.js:221-223 | scale 150 gives the term `scale(1.5)` |
| StyleProperties.NeutralFiltersAreSkipped | frontend/src/utils/styleUtils.js:241-264 | filter entries that are undefined, 0, 100 or unknown push nothing |
| StyleProperties.FilterPartsBound | frontend/src/utils/styleUtils.js:241-264 | each filter entry pushes at most one part |
| StyleProperties.NegativeFilters | frontend/src/utils/styleUtils.js:244-261 | negative blur, hue-rotate and grayscale are dropped; a negative brightness, contrast or saturate is emitted |
| StyleProperties.OpacityFraction | frontend/src/utils/styleUtils.js:304-306 | an unset opacity or 100 writes nothing; 0 gives 0 and 50 gives 0.5 |
| StyleProperties.ZeroZIndexIsKept | frontend/src/utils/styleUtils.js:287-297 | `zIndex: 0` is written, while a falsy display is not |
| StyleProperties.CustomCssOverrides | frontend/src/utils/styleUtils.js:309-322 | a key parsed from customCSS takes the parsed value over the computed one |
| StyleProperties.CustomCssKeepsOtherKeys | frontend/src/utils/styleUtils.js:309-326 | a key the custom CSS does not set is unchanged |
| StyleProperties.CssVariableLastWins | frontend/src/utils/styleUtils.js:329-335 | the last truthy entry for a `--` key gives its value |
| StyleProperties.CssVariableUntouched | frontend/src/utils/styleUtils.js:329-335 | a key that no truthy entry names keeps its value |
| CustomCss.CamelCase | frontend/src/utils/styleUtils.js:316 | kebab-to-camel conversion never lengthens the property |
| CustomCss.CamelCaseHead | frontend/src/utils/styleUtils.js:316 | a leading `-` and lower-case letter become that letter upper-cased (`-webkit` gives `Webkit`); any other first character is kept |
| CustomCss.CamelCaseAppend | frontend/src/utils/styleUtils.js:316 | the conversion of a string cut before a `-` is the conversion of each part, joined |
| CustomCss.CamelCaseConvertsPair | frontend/src/utils/styleUtils.js:316 | every `-` followed by a lower-case letter becomes that letter in upper case, with the text on either side converted on its own |
| CustomCss.FontSizeCamelCased | frontend/src/utils/styleUtils.js:316 | `font-size` becomes `fontSize` |
| CustomCss.CamelCaseRemovesKebab | frontend/src/utils/styleUtils.js:316 | no `-` followed by a lower-case letter is left |
| CustomCss.CamelCaseFixesNoKebab | frontend/src/utils/styleUtils.js:316 | a property without such a pair is unchanged |
| CustomCss.CamelCaseIdempotent | frontend/src/utils/styleUtils.js:316 | converting twice is converting once |
| CustomCss.RuleIsClean | frontend/src/utils/styleUtils.js:313-318 | a parsed rule has a camel-cased property and a non-empty, trimmed value without `:` |
| CustomCss.CollectedEntriesComeFromRules | frontend/src/utils/styleUtils.js:312-320 | every entry of the result comes from some parsed rule |
| CustomCss.LastRuleWins | frontend/src/utils/styleUtils.js:312-320 | the last rule parsing to a key gives that key's value |
| CustomCss.UnparsedKeyIsAbsent | frontend/src/utils/styleUtils.js:312-320 | a key that no rule parses to is absent |
| CustomCss.ValueCharsOccur | frontend/src/utils/styleUtils.js:313 | every character of a parsed value occurs in its rule |
| CustomCss.ParsedEntriesAreClean | frontend/src/utils/styleUtils.js:312-320 | every entry of the parsed customCSS has a clean property and value |
| CustomCss.AppendRule | frontend/src/utils/styleUtils.js:312-320 | appending `;rule` overrides just the key that rule parses to |
| CustomCss.ParseDeclaration | frontend/src/utils/styleUtils.js:313-318 | `property:value` whose fields trim to non-empty text parses to the camel-cased trimmed property and the trimmed value |
| CustomCss.SingleRule | frontend/src/utils/styleUtils.js:312 | a customCSS without `;` is a single rule |
| CustomCss.TrailingSemicolon | frontend/src/utils/styleUtils.js:312-320 | a trailing `;` changes nothing |
| CustomCss.EmptyCustomCss | frontend/src/utils/styleUtils.js:312-320 | the empty string parses to no entries |
| CustomCss.TwoDeclarations | frontend/src/utils/styleUtils.js:312-320 | two declarations for different properties give both entries |
| CustomCss.FragmentWithoutColonIsIgnored | frontend/src/utils/styleUtils.js:313-314 | a rule without `:` is skipped |
| JsStrings.TrimmedHasNoOuterWhitespace | frontend/src/utils/styleUtils.js:313 | a trimmed field has no leading or trailing whitespace, and trimming again changes nothing |
| Theme.FontClass | frontend/src/utils/styleUtils.js:350 | the font class starts with `font-` and holds no whitespace |
| Theme.ThemeClasses | frontend/src/utils/styleUtils.js:341-354 | a truthy non-string body font throws; otherwise at most two classes, `theme-primary` first exactly when the primary color is truthy, and the font class last exactly when the body font is truthy |
| Theme.FontClassJoinsWords | frontend/src/utils/styleUtils.js:350 | a body font of two words gives `font-` and the lower-cased words joined by `-` |
| Theme.Assign | frontend/src/utils/styleUtils.js:363 | one `setProperty` changes only the named property: `null` or a value whose text is empty removes it, any other value stores its `String` text |
| Theme.RootStyle.constructor | frontend/src/utils/styleUtils.js:358 | the root style starts with the given properties |
| Theme.RootStyle.SetProperty | frontend/src/utils/styleUtils.js:363 | `setProperty` updates the properties as `Assign` says |
| Theme.InjectNamespace | frontend/src/utils/styleUtils.js:362-364 | the `forEach` over a section performs its writes in order |
| Theme.InjectSection | frontend/src/utils/styleUtils.js:361-365 | a missing section writes nothing; a present one writes its entries |
| Theme.InjectThemeVariables | frontend/src/utils/styleUtils.js:357-387 | the root's properties become the result of all writes: colors, fonts, typography, spacing, in that order |
| Theme.ApplyAllAppend | frontend/src/utils/styleUtils.js:357-387 | performing two write sequences one after the other is performing their concatenation |
| Theme.LastWriteWins | frontend/src/utils/styleUtils.js:357-387 | after a write sequence, a property holds the text of its last write, or is unchanged when no write names it |
| Theme.LastWriteAppend | frontend/src/utils/styleUtils.js:357-387 | the last write in a concatenation comes from the later part when that part writes the name |
| Theme.LastWritePrefixed | frontend/src/utils/styleUtils.js:362-364 | the last write to `prefix + key` is the last entry for `key` |
| Theme.OutsidePrefix | frontend/src/utils/styleUtils.js:362-364 | a section writes no name outside its prefix |
| Theme.NamespacesDiffer | frontend/src/utils/styleUtils.js:363-384 | the four prefixes differ in their third character |
| Theme.OtherNamespace | frontend/src/utils/styleUtils.js:361-386 | one section's writes never name another section's properties |
| Theme.ThemeVariable | frontend/src/utils/styleUtils.js:357-387 | the last write to `--<section>-<key>` is the section's last entry for `key` |
| Theme.InjectedVariable | frontend/src/utils/styleUtils.js:357-387 | after injection, `--<section>-<key>` holds the text of the section's last entry for `key`, or is removed |
| Theme.NamespaceWritesDashed | frontend/src/utils/styleUtils.js:363-384 | every name a section writes starts with `--` |
| Theme.InjectionKeepsOtherProperties | frontend/src/utils/styleUtils.js:357-387 | a property whose name does not start with `--` is left as it was |
| Theme.InjectionIsIdempotent | frontend/src/utils/styleUtils.js:357-387 | injecting a theme twice leaves the same properties as injecting it once |
| Theme.NoCustomizationsDoNothing | frontend/src/utils/styleUtils.js:341-387 | the default `{}` writes nothing and gives no class |
| GoogleFonts.Find | frontend/src/utils/googleFontsLoader.js:154 | `getFontConfig()[name]` is found exactly when the table lists the name, and gives that entry |
| GoogleFonts.SourceConfigsOffer400 | frontend/src/utils/googleFontsLoader.js:19-141 | every configured family offers weight 400, the fallback weight |
| GoogleFonts.FormatFontName | frontend/src/utils/googleFontsLoader.js:144-146 | the formatted family name holds no whitespace |
| GoogleFonts.FormatJoinsWords | frontend/src/utils/googleFontsLoader.js:144-146 | two words separated by a whitespace run are joined by a single `+` |
| GoogleFonts.OpenSansFormatted | frontend/src/utils/googleFontsLoader.js:144-146 | `'Open Sans'` is formatted as `Open+Sans` |
| GoogleFonts.WeightsToLoad | frontend/src/utils/googleFontsLoader.js:161-165 | never empty; when some requested weight is offered, the offered requested weights in their order |
| GoogleFonts.WeightsToLoadExact | frontend/src/utils/googleFontsLoader.js:161-165 | the weights are the requested weights the family offers, each as often and in the order requested, and `[400]` when it offers none of them |
| GoogleFonts.RepeatedWeightKept | frontend/src/utils/googleFontsLoader.js:161 | `[400, 400]` is not deduplicated |
| GoogleFonts.NoOfferedWeightFallsBack | frontend/src/utils/googleFontsLoader.js:161-165 | when no requested weight is offered, the weights are `[400]` |
| GoogleFonts.MinOf | frontend/src/utils/googleFontsLoader.js:171 | `Math.min` of the weights is one of them and at most each |
| GoogleFonts.MaxOf | frontend/src/utils/googleFontsLoader.js:171 | `Math.max` of the weights is one of them and at least each |
| GoogleFonts.IntToStringChars | frontend/src/utils/googleFontsLoader.js:175 | a weight's text holds only digits and a sign |
| GoogleFonts.FixedWeightsSplit | frontend/src/utils/googleFontsLoader.js:174-176 | splitting a fixed-weight spec on `;` gives back each weight's text |
| GoogleFonts.VariableRangeCovers | frontend/src/utils/googleFontsLoader.js:169-172 | a variable font's spec is a `lo..hi` range of loaded weights covering all of them |
| GoogleFonts.FontUrl | frontend/src/utils/googleFontsLoader.js:167-177 | every font URL starts with `https://fonts.googleapis.com/css2?family=` |
| GoogleFonts.FontUrlFamily | frontend/src/utils/googleFontsLoader.js:172-176 | the family segment of the URL is the formatted name |
| GoogleFonts.UrlNamesHost | frontend/src/utils/googleFontsLoader.js:172-176 | every font URL contains `fonts.googleapis.com` |
| GoogleFonts.FontStack | frontend/src/utils/googleFontsLoader.js:265-282 | a listed non-empty stack is returned, and otherwise the quoted family before `sans-serif` |
| GoogleFonts.DefaultStackLeadsWithFamily | frontend/src/utils/googleFontsLoader.js:281 | an unlisted family leads its default stack, quoted |
| GoogleFonts.Request | frontend/src/utils/googleFontsLoader.js:149-198 | no link exactly for a loaded family, `'default'` or an unconfigured name; otherwise a link for the family at a Google Fonts URL |
| GoogleFonts.FontsToLoad | frontend/src/utils/googleFontsLoader.js:218-225 | the families to load are distinct, and are exactly the truthy string values other than `'default'` |
| GoogleFonts.FontLoader.constructor | frontend/src/utils/googleFontsLoader.js:4-16 | a new loader has no loaded fonts and only the empty placeholder link |
| GoogleFonts.FontLoader.LoadFont | frontend/src/utils/googleFontsLoader.js:149-198 | appends the family's link (if any) and returns a promise pending on that link, or a resolved one |
| GoogleFonts.FontLoader.LoadFonts | frontend/src/utils/googleFontsLoader.js:201-212 | starts one load per name, in order; the links grow by `Requests` |
| GoogleFonts.FontLoader.LoadFromCustomizations | frontend/src/utils/googleFontsLoader.js:215-230 | with no fonts section nothing happens; otherwise the distinct theme fonts are requested in the common weights |
| GoogleFonts.FontLoader.PreloadPopularFonts | frontend/src/utils/googleFontsLoader.js:233-244 | the six popular families are requested in weights 400, 600 and 700 |
| GoogleFonts.FontLoader.OnLoad | frontend/src/utils/googleFontsLoader.js:185-189 | a link's load adds its family to the loaded set, once |
| GoogleFonts.FontLoader.OnError | frontend/src/utils/googleFontsLoader.js:191-194 | a link's error rejects with `Failed to load font: <family>` and changes nothing |
| GoogleFonts.FontLoader.IsFontLoaded | frontend/src/utils/googleFontsLoader.js:247-249 | true exactly when the family is in the loaded set |
| GoogleFonts.FontLoader.GetLoadedFonts | frontend/src/utils/googleFontsLoader.js:252-254 | the loaded families in insertion order |
| GoogleFonts.FontLoader.ClearLoadedFonts | frontend/src/utils/googleFontsLoader.js:257-262 | empties the loaded set and removes every Google Fonts link, leaving only the placeholder |
| GoogleFonts.OnlyPlaceholderKept | frontend/src/utils/googleFontsLoader.js:257-262 | of the loader's links, only the placeholder survives the clearing selector |
| GoogleFonts.RequestsAreNotDeduplicated | frontend/src/utils/googleFontsLoader.js:149-198 | a family requested twice before its stylesheet loads gets two links |
| GoogleFonts.WeightsToLoadAreOffered | frontend/src/utils/googleFontsLoader.js:161-165 | every weight a configured family loads is offered by it |
| GoogleFonts.SkippedFamiliesAddNothing | frontend/src/utils/googleFontsLoader.js:201-204 | a list of only skipped names adds no link |
| GoogleFonts.RequestedLinks | frontend/src/utils/googleFontsLoader.js:201-204 | every link `loadFonts` adds is for one of the requested names |
| Templates.Registry | frontend/src/templates/index.js:10-19 | the registry holds at most the four uncommented ids |
| Templates.GetTemplate | frontend/src/templates/index.js:21-23 | a registered id gives its template; any other id gives modern-minimalist, `undefined` only when that module is missing too |
| Templates.CommentedOutIdsFallBack | frontend/src/templates/index.js:13-23 | a commented-out id falls back like any unknown id |
| Templates.Spread | frontend/src/templates/index.js:51-55 | an entry starts with `id`, `_id` and `slug` set to the id, then the template's own properties |
| Templates.EntryFields | frontend/src/templates/index.js:51-67 | isFree is true; price, rating, createdAt and category take their defaults by `\|\|`; rating is always truthy; every other key is from the spread |
| Templates.EntryFeatures | frontend/src/templates/index.js:61-65 | responsive defaults to true; darkMode defaults to whether the id contains `dark` or `creative`; the template's own features win |
| Templates.Listing | frontend/src/templates/index.js:46-69 | the listing has one entry per registered id of the order |
| Templates.ListingOrder | frontend/src/templates/index.js:39-69 | the listed ids keep `templateOrder` and are exactly the registered ones |
| Templates.FullListing | frontend/src/templates/index.js:39-69 | with every module present, all four templates are listed in order |
| Templates.ListedTemplatesAreFree | frontend/src/templates/index.js:58 | every listed entry has isFree true |
| Templates.DefaultRatings | frontend/src/templates/index.js:26-36 | the rating table gives 4.8 to modern-minimalist and 4.9 to creative-dark |
| Templates.Category | frontend/src/templates/index.js:72-78 | each of the five categories is returned exactly when its keyword test is the first to pass |
| Templates.CreativeByPrefix | frontend/src/templates/index.js:73-74 | an id starting with `creative` or `designer` that cannot contain `developer` or `tech` is creative |
| Templates.CreativeListedIds | frontend/src/templates/index.js:72-74 | creative-dark and designer-bio are creative |
| Templates.DeveloperFocusedCategory | frontend/src/templates/index.js:73 | developer-focused is a developer template |
| TemplatesPage.JudgeSpec | frontend/src/pages/TemplatesPage.js:140-166 | the callback throws exactly for a non-string name under a non-empty search past the category test, and keeps a template exactly when it passes all four tests |
| TemplatesPage.FilterCards | frontend/src/pages/TemplatesPage.js:140-166 | the filter throws exactly when some template's test throws, and otherwise returns the kept templates in order |
| TemplatesPage.EmptySearchNeverThrows | frontend/src/pages/TemplatesPage.js:147-149 | with an empty search box the filter never throws |
| TemplatesPage.FilteredIsSubsequence | frontend/src/pages/TemplatesPage.js:140-166 | the result is an order-preserving selection holding exactly the kept templates |
| TemplatesPage.NoFiltersKeepAll | frontend/src/pages/TemplatesPage.js:140-166 | with every filter off, all templates are listed |
| TemplatesPage.Swap | frontend/src/pages/TemplatesPage.js:171-182 | exchanges two array elements and keeps the multiset |
| TemplatesPage.Insert | frontend/src/pages/TemplatesPage.js:171-182 | one insertion step extends the sorted prefix by one element, keeping the multiset |
| TemplatesPage.SortByKey | frontend/src/pages/TemplatesPage.js:171-182 | the in-place sort leaves the array sorted by the key and a permutation of the original |
| TemplatesPage.FilteredTemplates | frontend/src/pages/TemplatesPage.js:136-185 | throws exactly when the filter throws; otherwise a permutation of the filtered templates, sorted by descending rating or by name per sortBy, and in filter order for any other sortBy |
| TemplatesPage.UnsortedIsSubsequence | frontend/src/pages/TemplatesPage.js:136-166 | without sorting, the list is an order-preserving selection of the shown templates |
| TemplatesPage.RatingOrder | frontend/src/pages/TemplatesPage.js:175 | the rating sort puts higher ratings first, a missing rating counting as 0 |
| FontManager.FilteredFonts | frontend/src/components/editor/FontManager.js:54-63 | every listed font matches the search and, outside 'all', is in the category list |
| FontManager.FilteredFontsSpec | frontend/src/components/editor/FontManager.js:54-63 | the list is an order-preserving selection; a font is on it exactly when it matches the search and is in the category ('all' accepting every font) |
| FontManager.EmptySearchListsAll | frontend/src/components/editor/FontManager.js:55-59 | 'all' with an empty search lists every available font |
| FontManager.UnknownCategoryShowsNothing | frontend/src/components/editor/FontManager.js:39-51 | a category key the lists do not define shows no font |
| FontManager.CategoryNarrowsAll | frontend/src/components/editor/FontManager.js:54-63 | a category's list is the 'all' list for the same search with the other fonts removed, so a subsequence of it |
| FontManager.SearchIgnoresCase | frontend/src/components/editor/FontManager.js:55 | the search `MERRI` finds Merriweather under 'serif' |
| FontManager.CategoryByExactName | frontend/src/components/editor/FontManager.js:39-51 | lists match whole names: Roboto Mono is monospace and not sans-serif |

## Left out

- Key order of style objects and of the root's custom properties: styles are maps, so insertion order is not modelled. `Object.entries` order is the order of the given entry list.
- Floating point: numbers are exact reals. Computed numbers (`opacity / 100`, `scale / 100`) are printed as exact decimals. JavaScript's shortest-round-trip and exponent formats are not modelled.
- `toLowerCase` and `toUpperCase` are modelled for ASCII letters only. The other characters are unchanged.
- Prototype lookups: a key such as `constructor` read from an object literal (a token table, the template registry, the category lists, `getFontConfig()`) is treated as absent.
- Nested props objects: `textGradient`, `backgroundGradient`, `filters` and `cssVariables` are modelled with the fields the code reads. Arrays inside them are lists of values joined by `join(', ')`.
- The `customizations` parameter of `generateComponentStyles` is unused by the source and is left out. So is a `null` customizations object passed to the theme helpers, which would throw.
- The DOM, Promises, `console` and the network in the font loader are not modelled. Links are a sequence of records; a load or an error arrives through `OnLoad`/`OnError` with the link's index.
- `loadFonts` swallows a rejection through `Promise.all`, and awaiting is not modelled. The outcomes say which links are pending.
- GoogleFonts.FontsToLoad: a truthy non-string font value is dropped. The source adds it to the set and then `loadFont` finds no configuration for it, so no link results in either case.
- GoogleFonts.FontStack: stated for any stack table, with the source's table given by `FontStacks`. Facts about the listed stacks themselves are not proved, because lemmas over those long literals are too costly to verify.
- StyleComposer.Props: `scale`, `opacity` and the `filters` values are numbers or unset. Other values are not modelled: `opacity: null` passes `!== undefined` and writes `opacity: 0`, and a string `scale: "100"` passes `!== 100` and gives `scale(1)`.
- Theme.CssText: the stored text is `String(value)` as given. The CSS parsing and trimming that `setProperty` applies to a custom-property value are not modelled. Leading and trailing whitespace would be trimmed, and a value that does not parse (a top-level `;` or `!`, an unbalanced bracket) would be ignored, leaving the old value. `Theme.InjectedVariable` and the lemmas built on `Assign` describe the text handed to `setProperty`.
- Font weights are integers; a non-integer weight in a request is not modelled.
- TemplatesPage.FilteredTemplates: the name sort compares by a rank function standing for `localeCompare`. A non-string name under that sort would throw, which is not modelled. The stability of the sort is not stated, though the insertion sort is stable.
- TemplatesPage.Card: ratings are numbers or missing. A non-numeric rating inside the comparator is not modelled.
- The rendering and UI state of the templates page and the font manager (modals, toasts, `useState`, `useEffect`) are outside this model, and so is building `availableFonts` from the loader.
- Templates: the contents of the template modules are parameters. The registry's values are whatever those modules export.
