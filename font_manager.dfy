/**
 * The font manager's font list: the hard-coded category lists and the filter
 * on search term and category.
 */
module FontManager {
  import opened JsValues
  import opened JsStrings
  import opened Sequences
  import GoogleFonts

  /** One entry of `availableFonts`: a configured family and whether it is loaded. */
  datatype Font = Font(name: string, config: GoogleFonts.FontConfig, isLoaded: bool)

  /** `categorizeFonts()[category]`: the list for one of the four categories, `None` for
      any other key. */
  function CategoryList(category: string): Option<seq<string>> {
    match category
    case "sans-serif" => Some(["Inter", "Roboto", "Open Sans", "Poppins", "Montserrat", "Raleway", "Lato",
                               "Source Sans Pro", "Nunito Sans", "DM Sans", "Space Grotesk", "Work Sans"])
    case "serif" => Some(["Playfair Display", "Merriweather", "Cormorant Garamond", "Crimson Text",
                          "Libre Baskerville", "PT Serif"])
    case "display" => Some(["Oswald", "Bebas Neue", "Anton", "Righteous", "Fredoka One"])
    case "monospace" => Some(["JetBrains Mono", "Fira Code", "Source Code Pro", "Roboto Mono", "IBM Plex Mono"])
    case _ => None
  }

  /** `font.name.toLowerCase().includes(searchTerm.toLowerCase())` */
  predicate MatchesSearch(searchTerm: string, font: Font) {
    Contains(ToLower(font.name), ToLower(searchTerm))
  }

  /** `categorizedFonts[selectedCategory]?.includes(font.name)` */
  predicate InCategory(category: string, font: Font) {
    CategoryList(category).Some? && font.name in CategoryList(category).value
  }

  /** The callback of `availableFonts.filter`. */
  function Shown(searchTerm: string, category: string): Font -> bool {
    (font: Font) =>
      if category == "all" then MatchesSearch(searchTerm, font)
      else MatchesSearch(searchTerm, font) && InCategory(category, font)
  }

  /** `filteredFonts`: the fonts that match the search and the category, in their order. */
  function FilteredFonts(fonts: seq<Font>, searchTerm: string, category: string): (r: seq<Font>)
    ensures |r| <= |fonts|
    ensures forall i :: 0 <= i < |r| ==> MatchesSearch(searchTerm, r[i])
    ensures category != "all" ==> forall i :: 0 <= i < |r| ==> InCategory(category, r[i])
  {
    Filter(fonts, Shown(searchTerm, category))
  }

  /** The list is an order-preserving selection of the available fonts, and a font is on it
      exactly when it matches the search and, unless the category is 'all', is listed in that
      category. */
  lemma FilteredFontsSpec(fonts: seq<Font>, searchTerm: string, category: string)
    ensures IsSubsequence(FilteredFonts(fonts, searchTerm, category), fonts)
    ensures forall font :: font in FilteredFonts(fonts, searchTerm, category) <==>
      font in fonts && MatchesSearch(searchTerm, font) && (category == "all" || InCategory(category, font))
  {
    FilterSpec(fonts, Shown(searchTerm, category));
  }

  /** With 'all' and an empty search box, every available font is listed. */
  lemma EmptySearchListsAll(fonts: seq<Font>)
    ensures FilteredFonts(fonts, "", "all") == fonts
  {
    forall i | 0 <= i < |fonts|
      ensures Shown("", "all")(fonts[i])
    {
      ContainsEmpty(ToLower(fonts[i].name));
    }
    FilterKeepsAll(fonts, Shown("", "all"));
  }

  /** A category the lists do not define shows no fonts. */
  lemma UnknownCategoryShowsNothing(fonts: seq<Font>, searchTerm: string, category: string)
    requires category !in {"all", "sans-serif", "serif", "display", "monospace"}
    ensures FilteredFonts(fonts, searchTerm, category) == []
  {
    FilterDropsAll(fonts, Shown(searchTerm, category));
  }

  /** Choosing a category narrows the 'all' list for the same search: its list is the 'all'
      list with the fonts outside the category removed. */
  lemma CategoryNarrowsAll(fonts: seq<Font>, searchTerm: string, category: string)
    ensures FilteredFonts(fonts, searchTerm, category)
         == Filter(FilteredFonts(fonts, searchTerm, "all"), Shown(searchTerm, category))
    ensures IsSubsequence(FilteredFonts(fonts, searchTerm, category), FilteredFonts(fonts, searchTerm, "all"))
  {
    FilterNarrows(fonts, Shown(searchTerm, category), Shown(searchTerm, "all"));
    FilterSpec(FilteredFonts(fonts, searchTerm, "all"), Shown(searchTerm, category));
  }

  /** The search ignores case: "merri" finds Merriweather under 'serif'. */
  lemma SearchIgnoresCase(font: Font, searchTerm: string)
    requires font.name == "Merriweather" && searchTerm == "MERRI"
    ensures Shown(searchTerm, "serif")(font)
  {
    assert ToLower(font.name)[..5] == ToLower(searchTerm);
  }

  /** Lists are matched by the exact name: "Roboto Mono" is a monospace font, not a
      sans-serif one, though "Roboto" is. */
  lemma CategoryByExactName(font: Font)
    requires font.name == "Roboto Mono"
    ensures InCategory("monospace", font)
    ensures !InCategory("sans-serif", font)
  {
    assert CategoryList("monospace").value[3] == font.name;
  }
}
