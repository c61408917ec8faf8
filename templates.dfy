/**
 * The built-in template registry: the registered template modules, the
 * lookup with its default, the listing the templates page shows (identity
 * fields, pricing, rating, features and category added to each template) and
 * the category derived from a template id.
 */
module Templates {
  import opened JsValues
  import opened JsStrings
  import opened Sequences

  /** A JavaScript object as the registry reads it: its own scalar properties. */
  type Object = map<string, JsVal>

  /** `obj[key]`: `undefined` for a missing property. */
  function Prop(obj: Object, key: string): JsVal {
    if key in obj then obj[key] else Undefined
  }

  /**
   * A template module's export: its scalar properties (name, description,
   * price, rating, category, ...) and its `features` object (empty when it has
   * none).
   */
  datatype TemplateDef = TemplateDef(props: Object, features: Object)

  /** The template modules the registry imports; `None` is an export that is `undefined`. */
  datatype Modules = Modules(
    modernMinimalist: Option<TemplateDef>,
    creativeDark: Option<TemplateDef>,
    developerFocused: Option<TemplateDef>,
    designerBio: Option<TemplateDef>)

  /** Adds `key: def` when the module exported a template. */
  function Register(reg: map<string, TemplateDef>, key: string, def: Option<TemplateDef>): map<string, TemplateDef> {
    if def.Some? then reg[key := def.value] else reg
  }

  /** `templates`: the four registered ids (the other imports are commented out). */
  function Registry(mods: Modules): (reg: map<string, TemplateDef>)
    ensures reg.Keys <= {"modern-minimalist", "creative-dark", "developer-focused", "designer-bio"}
  {
    var reg := Register(map[], "modern-minimalist", mods.modernMinimalist);
    var reg := Register(reg, "creative-dark", mods.creativeDark);
    var reg := Register(reg, "developer-focused", mods.developerFocused);
    Register(reg, "designer-bio", mods.designerBio)
  }

  /** `getTemplate(id)`: the registered template, else the modern-minimalist one (or `undefined`). */
  function GetTemplate(mods: Modules, id: string): (r: Option<TemplateDef>)
    ensures id in Registry(mods) ==> r == Some(Registry(mods)[id])
    ensures id !in Registry(mods) && "modern-minimalist" in Registry(mods) ==>
      r == Some(Registry(mods)["modern-minimalist"])
    ensures r.Some? ==> r.value in Registry(mods).Values
    ensures r.None? <==> id !in Registry(mods) && mods.modernMinimalist.None?
  {
    var reg := Registry(mods);
    if id in reg then Some(reg[id])
    else if "modern-minimalist" in reg then Some(reg["modern-minimalist"])
    else None
  }

  /** The ids whose imports are commented out of the registry. */
  const CommentedOutIds: seq<string> :=
    ["professional-corporate", "modern-creative", "tattoo-artist", "photographer-minimal"]

  /** A commented-out id is looked up like any unknown id: it gets the default template. */
  lemma CommentedOutIdsFallBack(mods: Modules, id: string)
    requires id in CommentedOutIds
    ensures GetTemplate(mods, id) == GetTemplate(mods, "modern-minimalist")
  {
    assert id !in Registry(mods).Keys;
  }

  // ---------------------------------------------------------------- the listing

  /** `templateRatings` */
  function TemplateRatings(): Entries {
    [ ("modern-minimalist", Num(4.8)), ("creative-dark", Num(4.9)),
      ("professional-corporate", Num(4.7)), ("modern-creative", Num(5.0)),
      ("tattoo-artist", Num(4.8)), ("photographer-minimal", Num(4.9)),
      ("designer-bio", Num(5.0)), ("developer-focused", Num(4.6)), ("default", Num(4.5)) ]
  }

  /** `templateOrder` */
  const TemplateOrder: seq<string> := ["modern-minimalist", "creative-dark", "developer-focused", "designer-bio"]

  const DefaultCreatedAt: string := "2024-01-01T00:00:00.000Z"

  /** The keys the listing sets after spreading the template. */
  const ListingKeys: set<string> := {"price", "isFree", "rating", "createdAt", "category"}

  /** An entry of `getAllTemplates()`: its scalar properties and its `features` object. */
  datatype TemplateEntry = TemplateEntry(fields: Object, features: Object)

  /** The object `{id, _id: id, slug: id, ...template}` before the listing's own keys. */
  function Spread(id: string, t: TemplateDef): (m: Object)
    // identity fields are set before the template's own properties are spread over them
    ensures forall k :: k in {"id", "_id", "slug"} ==>
      k in m && m[k] == (if k in t.props then t.props[k] else Str(id))
    ensures forall k :: k in t.props && k != "features" ==> k in m && m[k] == t.props[k]
    ensures m.Keys == {"id", "_id", "slug"} + (t.props.Keys - {"features"})
  {
    var identity: Object := map["id" := Str(id), "_id" := Str(id), "slug" := Str(id)];
    identity + (t.props - {"features"})
  }

  /** The scalar properties of a listing entry. */
  function EntryFields(id: string, t: TemplateDef): (m: Object)
    ensures forall k :: k !in ListingKeys ==> (k in m <==> k in Spread(id, t)) && (k in m ==> m[k] == Spread(id, t)[k])
    ensures m.Keys == Spread(id, t).Keys + ListingKeys
    ensures m["isFree"] == Bool(true)
    ensures Truthy(Prop(t.props, "price")) ==> m["price"] == t.props["price"]
    ensures !Truthy(Prop(t.props, "price")) ==> m["price"] == Num(0.0)
    ensures Truthy(m["rating"])
    ensures Truthy(Prop(t.props, "rating")) ==> m["rating"] == t.props["rating"]
    ensures !Truthy(Prop(t.props, "rating")) ==> m["rating"] == Or(Get(TemplateRatings(), id), Num(4.5))
    ensures Truthy(Prop(t.props, "createdAt")) ==> m["createdAt"] == t.props["createdAt"]
    ensures !Truthy(Prop(t.props, "createdAt")) ==> m["createdAt"] == Str(DefaultCreatedAt)
    ensures Truthy(Prop(t.props, "category")) ==> m["category"] == t.props["category"]
    ensures !Truthy(Prop(t.props, "category")) ==> m["category"] == Str(Category(id))
  {
    Spread(id, t)
      ["price" := Or(Prop(t.props, "price"), Num(0.0))]
      ["isFree" := Bool(true)]
      ["rating" := Or(Or(Prop(t.props, "rating"), Get(TemplateRatings(), id)), Num(4.5))]
      ["createdAt" := Or(Prop(t.props, "createdAt"), Str(DefaultCreatedAt))]
      ["category" := Or(Prop(t.props, "category"), Str(Category(id)))]
  }

  /** The `features` object of a listing entry. */
  function EntryFeatures(id: string, t: TemplateDef): (m: Object)
    ensures m.Keys == {"responsive", "darkMode"} + t.features.Keys
    ensures forall k :: k in t.features ==> m[k] == t.features[k]
    ensures "responsive" !in t.features ==> m["responsive"] == Bool(true)
    ensures "darkMode" !in t.features ==>
      m["darkMode"] == Bool(Contains(id, "dark") || Contains(id, "creative"))
  {
    var dark := Or(Prop(t.features, "darkMode"), Bool(Contains(id, "dark") || Contains(id, "creative")));
    map["responsive" := Bool(true), "darkMode" := dark] + t.features
  }

  /** The entry `getAllTemplates` builds for a registered id. */
  function MakeEntry(id: string, t: TemplateDef): TemplateEntry {
    TemplateEntry(EntryFields(id, t), EntryFeatures(id, t))
  }

  /** `id in templates` as a filter test. */
  function Registered(reg: map<string, TemplateDef>): string -> bool {
    id => id in reg
  }

  /** The ids `getAllTemplates` lists: those of `ids` that are registered, in order. */
  function ListedIds(reg: map<string, TemplateDef>, ids: seq<string>): seq<string> {
    Filter(ids, Registered(reg))
  }

  /** `ids.map(...).filter(Boolean)`: one entry per registered id, in order. */
  function Listing(reg: map<string, TemplateDef>, ids: seq<string>): (r: seq<TemplateEntry>)
    ensures |r| == |ListedIds(reg, ids)|
  {
    var listed := ListedIds(reg, ids);
    assert forall i :: 0 <= i < |listed| ==> Registered(reg)(listed[i]);
    seq(|listed|, i requires 0 <= i < |listed| => MakeEntry(listed[i], reg[listed[i]]))
  }

  /** `getAllTemplates()` */
  function AllTemplates(mods: Modules): seq<TemplateEntry> {
    Listing(Registry(mods), TemplateOrder)
  }

  /** The listing follows `templateOrder`, skipping the ids with no registered template. */
  lemma ListingOrder(mods: Modules)
    ensures IsSubsequence(ListedIds(Registry(mods), TemplateOrder), TemplateOrder)
    ensures forall id :: id in ListedIds(Registry(mods), TemplateOrder) <==>
      id in TemplateOrder && id in Registry(mods)
  {
    FilterSpec(TemplateOrder, Registered(Registry(mods)));
  }

  /** With every module present, all four templates are listed, in `templateOrder`. */
  lemma FullListing(mods: Modules)
    requires mods.modernMinimalist.Some? && mods.creativeDark.Some?
    requires mods.developerFocused.Some? && mods.designerBio.Some?
    ensures ListedIds(Registry(mods), TemplateOrder) == TemplateOrder
    ensures |AllTemplates(mods)| == 4
  {
    FilterKeepsAll(TemplateOrder, Registered(Registry(mods)));
  }

  /** Every listed entry is free. */
  lemma ListedTemplatesAreFree(mods: Modules)
    ensures forall i :: 0 <= i < |AllTemplates(mods)| ==> AllTemplates(mods)[i].fields["isFree"] == Bool(true)
  {
  }

  /** The fixed ratings a listed template without its own rating gets. */
  lemma DefaultRatings()
    ensures Get(TemplateRatings(), "modern-minimalist") == Num(4.8)
    ensures Get(TemplateRatings(), "creative-dark") == Num(4.9)
    ensures Get(TemplateRatings(), "developer-focused") == Num(4.6)
    ensures Get(TemplateRatings(), "designer-bio") == Num(5.0)
  {
  }

  // ---------------------------------------------------------------- categories

  /** A template id mentions the developer category. */
  predicate DeveloperId(id: string) { Contains(id, "developer") || Contains(id, "tech") }

  predicate CreativeId(id: string) {
    Contains(id, "creative") || Contains(id, "artist") || Contains(id, "designer")
  }

  predicate PhotographyId(id: string) { Contains(id, "photographer") || Contains(id, "portfolio") }

  predicate BusinessId(id: string) {
    Contains(id, "business") || Contains(id, "corporate") || Contains(id, "professional")
  }

  /** `getTemplateCategory(id)`: the first group of keywords the id contains decides. */
  function Category(id: string): (r: string)
    ensures r == "developer" <==> DeveloperId(id)
    ensures r == "creative" <==> !DeveloperId(id) && CreativeId(id)
    ensures r == "photography" <==> !DeveloperId(id) && !CreativeId(id) && PhotographyId(id)
    ensures r == "business" <==> !DeveloperId(id) && !CreativeId(id) && !PhotographyId(id) && BusinessId(id)
    ensures r == "portfolio" <==> !DeveloperId(id) && !CreativeId(id) && !PhotographyId(id) && !BusinessId(id)
  {
    if DeveloperId(id) then "developer"
    else if CreativeId(id) then "creative"
    else if PhotographyId(id) then "photography"
    else if BusinessId(id) then "business"
    else "portfolio"
  }

  /** An id that starts with a creative keyword and has neither `l` nor `h` (so neither
      `developer` nor `tech`) is a creative template. */
  lemma CreativeByPrefix(id: string, keyword: string)
    requires keyword in ["creative", "designer"] && StartsWith(id, keyword)
    requires 'l' !in id || 'v' !in id
    requires 'h' !in id
    ensures Category(id) == "creative"
  {
    if 'l' !in id {
      NotContainedByChar(id, "developer", 'l');
    } else {
      NotContainedByChar(id, "developer", 'v');
    }
    NotContainedByChar(id, "tech", 'h');
    ContainsPrefix(id, keyword);
  }

  /** `'creative-dark'` and `'designer-bio'` are creative templates. */
  lemma CreativeListedIds(id: string)
    requires id == "creative-dark" || id == "designer-bio"
    ensures Category(id) == "creative"
  {
    if id == "creative-dark" {
      CreativeByPrefix(id, "creative");
    } else {
      CreativeByPrefix(id, "designer");
    }
  }

  /** `'developer-focused'` is a developer template. */
  lemma DeveloperFocusedCategory(id: string)
    requires id == "developer-focused"
    ensures Category(id) == "developer"
  {
    ContainsPrefix(id, "developer");
  }
}
