/**
 * The Google Fonts loader: the configuration of the families it knows, the
 * stylesheet URL it requests for a family, the font stacks it recommends and
 * the loader object, which remembers the families whose stylesheet has loaded
 * and the `<link>` elements it has added to the document head.
 */
module GoogleFonts {
  import opened JsValues
  import opened JsStrings
  import opened Sequences

  // ---------------------------------------------------------------- configuration

  /** The weights a family offers, and whether it is served as a variable font. */
  datatype FontConfig = FontConfig(weights: seq<int>, variable: bool)

  /** A lookup table keyed by family name, in the order of its object literal. */
  type Table<V> = seq<(string, V)>

  /** `table[name]`: the entry for `name`, or nothing. */
  function Find<V>(table: Table<V>, name: string): (r: Option<V>)
    ensures r.None? <==> forall i :: 0 <= i < |table| ==> table[i].0 != name
    ensures r.Some? ==> (name, r.value) in table
    decreases |table|
  {
    if table == [] then None
    else if table[0].0 == name then Some(table[0].1)
    else Find(table[1..], name)
  }

  /** `getFontConfig()` */
  function SourceConfigs(): Table<FontConfig> {
    [ ("Inter", FontConfig([100, 200, 300, 400, 500, 600, 700, 800, 900], true)),
      ("Roboto", FontConfig([100, 300, 400, 500, 700, 900], false)),
      ("Open Sans", FontConfig([300, 400, 500, 600, 700, 800], true)),
      ("Poppins", FontConfig([100, 200, 300, 400, 500, 600, 700, 800, 900], false)),
      ("Montserrat", FontConfig([100, 200, 300, 400, 500, 600, 700, 800, 900], true)),
      ("Raleway", FontConfig([100, 200, 300, 400, 500, 600, 700, 800, 900], true)),
      ("Lato", FontConfig([100, 300, 400, 700, 900], false)),
      ("Source Sans Pro", FontConfig([200, 300, 400, 600, 700, 900], false)),
      ("Nunito Sans", FontConfig([200, 300, 400, 500, 600, 700, 800, 900], true)),
      ("DM Sans", FontConfig([400, 500, 700], true)),
      ("Space Grotesk", FontConfig([300, 400, 500, 600, 700], true)),
      ("Work Sans", FontConfig([100, 200, 300, 400, 500, 600, 700, 800, 900], true)),
      ("Playfair Display", FontConfig([400, 500, 600, 700, 800, 900], true)),
      ("Merriweather", FontConfig([300, 400, 700, 900], false)),
      ("Cormorant Garamond", FontConfig([300, 400, 500, 600, 700], false)),
      ("Crimson Text", FontConfig([400, 600, 700], false)),
      ("Libre Baskerville", FontConfig([400, 700], false)),
      ("PT Serif", FontConfig([400, 700], false)),
      ("Oswald", FontConfig([200, 300, 400, 500, 600, 700], true)),
      ("Bebas Neue", FontConfig([400], false)),
      ("Anton", FontConfig([400], false)),
      ("Righteous", FontConfig([400], false)),
      ("Fredoka One", FontConfig([400], false)),
      ("JetBrains Mono", FontConfig([100, 200, 300, 400, 500, 600, 700, 800], true)),
      ("Fira Code", FontConfig([300, 400, 500, 600, 700], true)),
      ("Source Code Pro", FontConfig([200, 300, 400, 500, 600, 700, 800, 900], true)),
      ("Roboto Mono", FontConfig([100, 200, 300, 400, 500, 600, 700], false)),
      ("IBM Plex Mono", FontConfig([100, 200, 300, 400, 500, 600, 700], false)) ]
  }

  /** Every configured family offers the regular weight 400. */
  lemma SourceConfigsOffer400()
    ensures forall i :: 0 <= i < |SourceConfigs()| ==> 400 in SourceConfigs()[i].1.weights
  {
  }

  // ---------------------------------------------------------------- the request URL

  /** `formatFontName(name)`: each whitespace run becomes `+`. */
  function FormatFontName(name: string): (r: string)
    ensures NoWhitespace(r)
  {
    CollapsedHasNoWhitespace(name, '+');
    CollapseWhitespace(name, '+')
  }

  /** Two words separated by whitespace are joined by a single `+`. */
  lemma FormatJoinsWords(a: string, run: string, b: string)
    requires NoWhitespace(a) && NoWhitespace(b)
    requires run != [] && forall i :: 0 <= i < |run| ==> IsWhitespace(run[i])
    ensures FormatFontName(a + run + b) == a + "+" + b
  {
    assert |b| > 0 ==> !IsWhitespace(b[0]);
    CollapseAfterWord(a, run, b, '+');
    CollapseKeepsWord(b, '+');
  }

  /** `'Open Sans'` is requested as `Open+Sans`. */
  lemma OpenSansFormatted(name: string)
    requires name == "Open Sans"
    ensures FormatFontName(name) == "Open+Sans"
  {
    FormatJoinsWords("Open", " ", "Sans");
    assert "Open" + " " + "Sans" == name;
  }

  /** The weights `loadFont` asks for: the requested weights the family offers, else `[400]`. */
  function WeightsToLoad(requested: seq<int>, config: FontConfig): (r: seq<int>)
    ensures r != []
    ensures (exists w :: w in requested && w in config.weights) ==>
      IsSubsequence(r, requested) && forall w :: w in r <==> w in requested && w in config.weights
  {
    var listed := Filter(requested, Offers(config));
    FilterSpec(requested, Offers(config));
    if listed == [] then [400] else listed
  }

  /** `w => config.weights.includes(w)` */
  function Offers(config: FontConfig): int -> bool {
    w => w in config.weights
  }

  /** The weights to load are exactly the offered requested weights, each as often and in
      the order requested (so `[400, 400]` stays `[400, 400]`), and `[400]` when the
      family offers none of them. */
  lemma WeightsToLoadExact(requested: seq<int>, config: FontConfig)
    ensures (exists w :: w in requested && w in config.weights) ==>
      WeightsToLoad(requested, config) == Filter(requested, Offers(config))
    ensures !(exists w :: w in requested && w in config.weights) ==> WeightsToLoad(requested, config) == [400]
  {
    var listed := Filter(requested, Offers(config));
    FilterSpec(requested, Offers(config));
    if listed != [] {
      var w := listed[0];
      assert w in listed && Offers(config)(w);
      assert w in requested && w in config.weights;
    }
  }

  /** A weight requested twice is asked for twice. */
  lemma RepeatedWeightKept(requested: seq<int>, config: FontConfig)
    requires requested == [400, 400] && 400 in config.weights
    ensures WeightsToLoad(requested, config) == [400, 400]
  {
    assert requested[1..][1..] == [];
    assert Filter(requested[1..], Offers(config)) == [400];
  }

  /** When the family offers none of the requested weights, `loadFont` falls back to `[400]`. */
  lemma NoOfferedWeightFallsBack(requested: seq<int>, config: FontConfig)
    requires forall i :: 0 <= i < |requested| ==> requested[i] !in config.weights
    ensures WeightsToLoad(requested, config) == [400]
  {
    FilterDropsAll(requested, Offers(config));
  }

  /** `Math.min(...ws)` */
  function MinOf(ws: seq<int>): (r: int)
    requires ws != []
    ensures r in ws && forall i :: 0 <= i < |ws| ==> r <= ws[i]
    decreases |ws|
  {
    if |ws| == 1 then ws[0]
    else var m := MinOf(ws[1..]); if ws[0] <= m then ws[0] else m
  }

  /** `Math.max(...ws)` */
  function MaxOf(ws: seq<int>): (r: int)
    requires ws != []
    ensures r in ws && forall i :: 0 <= i < |ws| ==> ws[i] <= r
    decreases |ws|
  {
    if |ws| == 1 then ws[0]
    else var m := MaxOf(ws[1..]); if ws[0] >= m then ws[0] else m
  }

  /** The decimal text of each weight. */
  function WeightTexts(ws: seq<int>): (r: seq<string>)
    ensures |r| == |ws|
    ensures forall i :: 0 <= i < |ws| ==> r[i] == IntToString(ws[i])
  {
    seq(|ws|, i requires 0 <= i < |ws| => IntToString(ws[i]))
  }

  /** The `wght@` axis: a `min..max` range for a variable font, else the weights joined by `;`. */
  function WeightSpec(variable: bool, ws: seq<int>): string
    requires ws != []
  {
    if variable then IntToString(MinOf(ws)) + ".." + IntToString(MaxOf(ws))
    else Join(WeightTexts(ws), ";")
  }

  /** The decimal text of an integer holds digits and a sign only. */
  lemma IntToStringChars(i: int)
    ensures forall k :: 0 <= k < |IntToString(i)| ==>
      IntToString(i)[k] == '-' || '0' <= IntToString(i)[k] <= '9'
  {
    if i < 0 {
      assert forall k :: 1 <= k < |IntToString(i)| ==> IntToString(i)[k] == NatToString(-i)[k - 1];
    }
  }

  /** A fixed-weight spec lists each weight to load, in order, separated by `;`. */
  lemma FixedWeightsSplit(ws: seq<int>)
    requires ws != []
    ensures Split(WeightSpec(false, ws), ';') == WeightTexts(ws)
  {
    var texts := WeightTexts(ws);
    forall i | 0 <= i < |texts|
      ensures ';' !in texts[i]
    {
      IntToStringChars(ws[i]);
    }
    SplitJoin(texts, ';');
  }

  /** A variable-font spec is a range that covers every weight to load. */
  lemma VariableRangeCovers(ws: seq<int>)
    requires ws != []
    ensures exists lo, hi ::
      lo in ws && hi in ws && lo <= hi
      && (forall i :: 0 <= i < |ws| ==> lo <= ws[i] <= hi)
      && WeightSpec(true, ws) == IntToString(lo) + ".." + IntToString(hi)
  {
    var lo, hi := MinOf(ws), MaxOf(ws);
    assert lo <= ws[0] <= hi;
  }

  const FontsHost: string := "fonts.googleapis.com"
  const UrlBase: string := "https://" + FontsHost + "/css2?family="

  /** The part of the URL after the family: the weight axis and `display=swap`. */
  function AxisQuery(config: FontConfig, requested: seq<int>): string {
    ":wght@" + WeightSpec(config.variable, WeightsToLoad(requested, config)) + "&display=swap"
  }

  /** The stylesheet URL `loadFont(name, requested)` builds for a configured family. */
  function FontUrl(name: string, config: FontConfig, requested: seq<int>): (url: string)
    ensures StartsWith(url, UrlBase)
  {
    var url := UrlBase + FormatFontName(name) + AxisQuery(config, requested);
    assert url[..|UrlBase|] == UrlBase;
    url
  }

  /** The family segment of the URL is the formatted name, so it holds no whitespace. */
  lemma FontUrlFamily(name: string, config: FontConfig, requested: seq<int>)
    ensures var url := FontUrl(name, config, requested);
      |UrlBase| + |FormatFontName(name)| <= |url|
      && url[|UrlBase|..|UrlBase| + |FormatFontName(name)|] == FormatFontName(name)
      && NoWhitespace(url[|UrlBase|..|UrlBase| + |FormatFontName(name)|])
  {
    var family := FormatFontName(name);
    var rest := AxisQuery(config, requested);
    assert (UrlBase + family + rest)[|UrlBase|..|UrlBase| + |family|] == family;
  }

  /** Every URL of the loader names the Google Fonts host. */
  lemma UrlNamesHost(url: string)
    requires StartsWith(url, UrlBase)
    ensures Contains(url, FontsHost)
  {
    ContainsSlice(url, 8, 28);
    assert url[8..28] == UrlBase[8..28] == FontsHost;
  }

  // ---------------------------------------------------------------- font stacks

  /** The `fontStacks` table of `getFontStack`. */
  function FontStacks(): Table<string> {
    [ ("Inter", "Inter, -apple-system, BlinkMacSystemFont, \"Segoe UI\", Roboto, sans-serif"),
      ("Roboto", "Roboto, -apple-system, BlinkMacSystemFont, \"Segoe UI\", sans-serif"),
      ("Open Sans", "\"Open Sans\", -apple-system, BlinkMacSystemFont, \"Segoe UI\", Roboto, sans-serif"),
      ("Poppins", "Poppins, -apple-system, BlinkMacSystemFont, \"Segoe UI\", Roboto, sans-serif"),
      ("Playfair Display", "\"Playfair Display\", Georgia, \"Times New Roman\", serif"),
      ("Merriweather", "Merriweather, Georgia, \"Times New Roman\", serif"),
      ("JetBrains Mono", "\"JetBrains Mono\", \"Fira Code\", Consolas, \"Liberation Mono\", Menlo, Courier, monospace") ]
  }

  /** `getFontStack(name)` over a stack table: the listed stack, else the family before `sans-serif`. */
  function FontStack(stacks: Table<string>, name: string): (r: string)
    ensures Find(stacks, name).Some? && Find(stacks, name).value != "" ==> r == Find(stacks, name).value
    ensures Find(stacks, name).None? || Find(stacks, name).value == "" ==>
      r == "\"" + name + "\", sans-serif"
  {
    var fallback := "\"" + name + "\", sans-serif";
    match Find(stacks, name)
    case Some(stack) => if stack != "" then stack else fallback
    case None => fallback
  }

  /** An unlisted family leads its default stack, quoted. */
  lemma DefaultStackLeadsWithFamily(stacks: Table<string>, name: string)
    requires Find(stacks, name).None?
    ensures StartsWith(FontStack(stacks, name), "\"" + name + "\", ")
    ensures StartsWith(FontStack(stacks, name), "\"" + name + "\"")
  {
    var r := FontStack(stacks, name);
    assert r[..|name| + 4] == "\"" + name + "\", ";
    assert r[..|name| + 2] == "\"" + name + "\"";
  }

  // ---------------------------------------------------------------- the loader

  /** A `<link rel="stylesheet">` element the loader added; `family` is the font it loads. */
  datatype Link = Link(href: string, family: Option<string>)

  /** The empty link `initializeFontLoader` adds. */
  const Placeholder: Link := Link("", None)

  /** What `loadFont` returns: a settled promise, or one that waits on the link at `index`. */
  datatype LoadOutcome = Resolved | Pending(index: nat)

  /** The link `loadFont` adds, or nothing in its three early-return cases. */
  function Request(loaded: seq<string>, configs: Table<FontConfig>, name: string, requested: seq<int>): (r: Option<Link>)
    ensures r.None? <==> name in loaded || name == "default" || Find(configs, name).None?
    ensures r.Some? ==> r.value.family == Some(name) && StartsWith(r.value.href, UrlBase)
  {
    if name in loaded || name == "default" then None
    else match Find(configs, name)
      case None => None
      case Some(config) => Some(Link(FontUrl(name, config, requested), Some(name)))
  }

  /** The links `loadFonts(names, requested)` adds, one per family not skipped, in order. */
  function Requests(loaded: seq<string>, configs: Table<FontConfig>, names: seq<string>, requested: seq<int>): seq<Link>
    decreases |names|
  {
    if names == [] then []
    else
      var last := Request(loaded, configs, names[|names| - 1], requested);
      Requests(loaded, configs, names[..|names| - 1], requested) + (if last.Some? then [last.value] else [])
  }

  /** The stylesheet links are kept by `clearLoadedFonts` unless they point at the Google Fonts host. */
  function KeptLinks(links: seq<Link>): seq<Link> {
    Filter(links, KeptOnClear)
  }

  /** A link outside the `link[href*="fonts.googleapis.com"]` selector. */
  predicate KeptOnClear(l: Link) {
    !Contains(l.href, FontsHost)
  }

  /** The values of `customizations.fonts` that name a font to load, each once, in first-seen order. */
  function FontsToLoad(values: seq<JsVal>): (r: seq<string>)
    ensures NoDuplicates(r)
    ensures forall name :: name in r <==> Str(name) in values && name != "" && name != "default"
    decreases |values|
  {
    if values == [] then []
    else
      var earlier := FontsToLoad(values[..|values| - 1]);
      var v := values[|values| - 1];
      assert values == values[..|values| - 1] + [v];
      if v.Str? && v.s != "" && v.s != "default" && v.s !in earlier then earlier + [v.s] else earlier
  }

  /** The weights `loadFromCustomizations` asks for. */
  const CommonWeights: seq<int> := [300, 400, 500, 600, 700]

  /** The families `preloadPopularFonts` requests. */
  const PopularFonts: seq<string> := ["Inter", "Roboto", "Open Sans", "Poppins", "Montserrat", "Playfair Display"]

  /** The weights `loadFont` and `loadFonts` ask for by default. */
  const DefaultWeights: seq<int> := [400]

  class FontLoader {
    /** `loadedFonts`: the families whose stylesheet has loaded, in insertion order. */
    var loaded: seq<string>
    /** The link elements this loader has added to `document.head`, in order. */
    var links: seq<Link>
    /** `getFontConfig()` */
    const configs: Table<FontConfig>

    predicate Valid()
      reads this
    {
      NoDuplicates(loaded) && LinksValid(links)
    }

    /** `new GoogleFontsLoader()`, which runs `initializeFontLoader`. */
    constructor ()
      ensures Valid()
      ensures loaded == [] && links == [Placeholder] && configs == SourceConfigs()
    {
      configs := SourceConfigs();
      loaded := [];
      links := [Placeholder];
    }

    /** `loadFont(name, requested)` */
    method LoadFont(name: string, requested: seq<int>) returns (outcome: LoadOutcome)
      requires Valid()
      modifies this
      ensures Valid()
      ensures loaded == old(loaded)
      ensures var r := Request(old(loaded), configs, name, requested);
        links == old(links) + (if r.Some? then [r.value] else [])
        && outcome == (if r.Some? then Pending(|old(links)|) else Resolved)
    {
      if name in loaded || name == "default" {
        return Resolved;
      }
      var config := Find(configs, name);
      if config.None? {
        return Resolved;
      }
      var link := Link(FontUrl(name, config.value, requested), Some(name));
      assert Request(old(loaded), configs, name, requested) == Some(link);
      LinksValidAppend(links, link);
      links := links + [link];
      outcome := Pending(|links| - 1);
    }

    /** `loadFonts(names, requested)`: one `loadFont` per name, started in order. */
    method LoadFonts(names: seq<string>, requested: seq<int>) returns (outcomes: seq<LoadOutcome>)
      requires Valid()
      modifies this
      ensures Valid()
      ensures loaded == old(loaded)
      ensures links == old(links) + Requests(old(loaded), configs, names, requested)
      ensures |outcomes| == |names|
    {
      outcomes := [];
      var i := 0;
      while i < |names|
        invariant 0 <= i <= |names| && |outcomes| == i
        invariant Valid() && loaded == old(loaded)
        invariant links == old(links) + Requests(loaded, configs, names[..i], requested)
      {
        assert names[..i + 1][..i] == names[..i];
        var outcome := LoadFont(names[i], requested);
        outcomes := outcomes + [outcome];
        i := i + 1;
      }
      assert names[..i] == names;
    }

    /** `loadFromCustomizations(customizations)`, given `customizations?.fonts`. */
    method LoadFromCustomizations(fonts: Option<Entries>)
      requires Valid()
      modifies this
      ensures Valid()
      ensures loaded == old(loaded)
      ensures fonts.None? ==> links == old(links)
      ensures fonts.Some? ==>
        links == old(links) + Requests(old(loaded), configs, FontsToLoad(Values(fonts.value)), CommonWeights)
    {
      if fonts.None? {
        return;
      }
      var values := Values(fonts.value);
      var toLoad: seq<string> := [];
      var i := 0;
      while i < |values|
        invariant 0 <= i <= |values|
        invariant toLoad == FontsToLoad(values[..i])
      {
        assert values[..i + 1][..i] == values[..i];
        var v := values[i];
        if v.Str? && v.s != "" && v.s != "default" && v.s !in toLoad {
          toLoad := toLoad + [v.s];
        }
        i := i + 1;
      }
      assert values[..i] == values;
      if |toLoad| > 0 {
        var _ := LoadFonts(toLoad, CommonWeights);
      }
    }

    /** `preloadPopularFonts()` */
    method PreloadPopularFonts()
      requires Valid()
      modifies this
      ensures Valid()
      ensures loaded == old(loaded)
      ensures links == old(links) + Requests(old(loaded), configs, PopularFonts, [400, 600, 700])
    {
      var _ := LoadFonts(PopularFonts, [400, 600, 700]);
    }

    /** The `onload` handler of the link at `index`: its family joins the loaded set. */
    method OnLoad(index: nat)
      requires Valid() && 1 <= index < |links|
      modifies this
      ensures Valid()
      ensures links == old(links)
      ensures var family := old(links)[index].family.value;
        loaded == if family in old(loaded) then old(loaded) else old(loaded) + [family]
    {
      var family := links[index].family.value;
      if family !in loaded {
        loaded := loaded + [family];
      }
    }

    /** The `onerror` handler of the link at `index`: the promise is rejected with this message. */
    method OnError(index: nat) returns (message: string)
      requires Valid() && 1 <= index < |links|
      ensures message == "Failed to load font: " + links[index].family.value
    {
      message := "Failed to load font: " + links[index].family.value;
    }

    /** `isFontLoaded(name)` */
    method IsFontLoaded(name: string) returns (b: bool)
      ensures b <==> name in loaded
    {
      b := name in loaded;
    }

    /** `getLoadedFonts()`: the loaded families, each once. */
    method GetLoadedFonts() returns (names: seq<string>)
      requires Valid()
      ensures NoDuplicates(names)
      ensures forall name :: name in names <==> name in loaded
      ensures names == loaded
    {
      names := loaded;
    }

    /** `clearLoadedFonts()`: forget every family and remove every Google Fonts link. */
    method ClearLoadedFonts()
      requires Valid()
      modifies this
      ensures Valid()
      ensures loaded == []
      ensures links == KeptLinks(old(links)) == [Placeholder]
    {
      var current := links;
      var kept: seq<Link> := [];
      var i := 0;
      while i < |current|
        invariant 0 <= i <= |current|
        invariant kept == KeptLinks(current[..i])
      {
        assert current[..i + 1] == current[..i] + [current[i]];
        KeptLinksSnoc(current[..i], current[i]);
        if !Contains(current[i].href, FontsHost) {
          kept := kept + [current[i]];
        }
        i := i + 1;
      }
      assert current[..i] == current;
      OnlyPlaceholderKept(current);
      loaded := [];
      links := kept;
    }
  }

  /** The loader's links: the placeholder first, then stylesheet links for named families. */
  predicate LinksValid(links: seq<Link>) {
    |links| >= 1 && links[0] == Placeholder
    && forall i :: 1 <= i < |links| ==> links[i].family.Some? && StartsWith(links[i].href, UrlBase)
  }

  lemma LinksValidAppend(links: seq<Link>, l: Link)
    requires LinksValid(links) && l.family.Some? && StartsWith(l.href, UrlBase)
    ensures LinksValid(links + [l])
  {
    assert forall i :: 1 <= i < |links| ==> (links + [l])[i] == links[i];
  }

  /** `Object.values(entries)` */
  function Values(es: Entries): (r: seq<JsVal>)
    ensures |r| == |es| && forall i :: 0 <= i < |es| ==> r[i] == es[i].1
  {
    seq(|es|, i requires 0 <= i < |es| => es[i].1)
  }

  lemma KeptLinksSnoc(links: seq<Link>, l: Link)
    ensures KeptLinks(links + [l]) == KeptLinks(links) + (if !Contains(l.href, FontsHost) then [l] else [])
  {
    FilterAppend(links, [l], KeptOnClear);
  }

  /** Of a valid loader's links only the placeholder survives `clearLoadedFonts`. */
  lemma {:induction false} OnlyPlaceholderKept(links: seq<Link>)
    requires |links| >= 1 && links[0] == Placeholder
    requires forall i :: 1 <= i < |links| ==> StartsWith(links[i].href, UrlBase)
    ensures KeptLinks(links) == [Placeholder]
  {
    assert !Contains(Placeholder.href, FontsHost);
    var rest := links[1..];
    forall i | 0 <= i < |rest|
      ensures Contains(rest[i].href, FontsHost)
    {
      UrlNamesHost(rest[i].href);
    }
    FilterDropsAll(rest, KeptOnClear);
  }

  // ---------------------------------------------------------------- properties

  /** `loadFonts` starts a request for a family as often as it is named: nothing deduplicates requests in flight. */
  lemma RequestsAreNotDeduplicated(loaded: seq<string>, configs: Table<FontConfig>, name: string, requested: seq<int>)
    requires Request(loaded, configs, name, requested).Some?
    ensures var l := Request(loaded, configs, name, requested).value;
      Requests(loaded, configs, [name, name], requested) == [l, l]
  {
    var l := Request(loaded, configs, name, requested).value;
    assert [name][..0] == [];
    assert Requests(loaded, configs, [name], requested) == Requests(loaded, configs, [], requested) + [l];
    assert [name, name][..1] == [name];
    assert Requests(loaded, configs, [name, name], requested) == Requests(loaded, configs, [name], requested) + [l];
  }

  /** With the source configuration every weight `loadFont` asks for is one the family offers. */
  lemma WeightsToLoadAreOffered(name: string, config: FontConfig, requested: seq<int>)
    requires Find(SourceConfigs(), name) == Some(config)
    ensures forall w :: w in WeightsToLoad(requested, config) ==> w in config.weights
  {
    SourceConfigsOffer400();
  }

  /** A family that is loaded, or `'default'`, or unknown, adds no link. */
  lemma SkippedFamiliesAddNothing(loaded: seq<string>, configs: Table<FontConfig>, names: seq<string>, requested: seq<int>)
    requires forall i :: 0 <= i < |names| ==>
      names[i] in loaded || names[i] == "default" || Find(configs, names[i]).None?
    ensures Requests(loaded, configs, names, requested) == []
  {
    if names != [] {
      SkippedFamiliesAddNothing(loaded, configs, names[..|names| - 1], requested);
    }
  }

  /** Each link added for a family is the URL of that family with the requested weights. */
  lemma {:induction false} RequestedLinks(loaded: seq<string>, configs: Table<FontConfig>, names: seq<string>, requested: seq<int>)
    ensures forall l :: l in Requests(loaded, configs, names, requested) ==>
      exists i :: 0 <= i < |names| && Request(loaded, configs, names[i], requested) == Some(l)
    decreases |names|
  {
    if names != [] {
      var init := names[..|names| - 1];
      RequestedLinks(loaded, configs, init, requested);
      forall l | l in Requests(loaded, configs, names, requested)
        ensures exists i :: 0 <= i < |names| && Request(loaded, configs, names[i], requested) == Some(l)
      {
        if l in Requests(loaded, configs, init, requested) {
          var i :| 0 <= i < |init| && Request(loaded, configs, init[i], requested) == Some(l);
          assert names[i] == init[i];
        } else {
          assert Request(loaded, configs, names[|names| - 1], requested) == Some(l);
        }
      }
    }
  }
}
