/**
 * The list the templates page shows: the filter on category, search term,
 * pricing and dark mode, and the in-place sort by rating or by name.
 */
module TemplatesPage {
  import opened JsValues
  import opened JsStrings
  import opened Sequences

  /** The properties of a template the page's filter and sort read. */
  datatype Card = Card(
    name: JsVal,
    category: JsVal,
    price: JsVal,
    isFree: JsVal,
    darkMode: JsVal,        // `template.features?.darkMode`
    rating: Option<real>)   // `None`: no rating

  /** The page's filter state. */
  datatype Filters = Filters(
    selectedCategory: string,
    searchTerm: string,
    pricingFilter: string,
    darkModeOnly: bool,     // `features.darkMode` is truthy
    sortBy: string)

  /** `localTemplates.length > 0 ? localTemplates : backendTemplates` */
  function AllTemplates(local: seq<Card>, backend: seq<Card>): seq<Card> {
    if |local| > 0 then local else backend
  }

  /** `template.price === 0 || template.price === 'free' || template.isFree` */
  predicate IsFree(t: Card) {
    t.price == Num(0.0) || t.price == Str("free") || Truthy(t.isFree)
  }

  /** What the filter callback does with one template. */
  datatype Verdict = Keep | Drop | Fails

  /** The filter callback, test by test in the source's order. */
  function Judge(f: Filters, t: Card): Verdict {
    if f.selectedCategory != "all" && t.category != Str(f.selectedCategory) then Drop
    else if f.searchTerm != "" && !t.name.Str? then Fails   // `toLowerCase` of a non-string
    else if f.searchTerm != "" && !Contains(ToLower(t.name.s), ToLower(f.searchTerm)) then Drop
    else if f.pricingFilter != "all" && f.pricingFilter == "free" && !IsFree(t) then Drop
    else if f.pricingFilter != "all" && f.pricingFilter == "premium" && IsFree(t) then Drop
    else if f.darkModeOnly && !Truthy(t.darkMode) then Drop
    else Keep
  }

  // The four tests, each on its own.

  predicate CategoryMatches(f: Filters, t: Card) {
    f.selectedCategory == "all" || t.category == Str(f.selectedCategory)
  }

  predicate SearchMatches(f: Filters, t: Card)
    requires f.searchTerm != "" ==> t.name.Str?
  {
    f.searchTerm == "" || Contains(ToLower(t.name.s), ToLower(f.searchTerm))
  }

  predicate PricingMatches(f: Filters, t: Card) {
    match f.pricingFilter
    case "free" => IsFree(t)
    case "premium" => !IsFree(t)
    case _ => true
  }

  predicate DarkModeMatches(f: Filters, t: Card) {
    !f.darkModeOnly || Truthy(t.darkMode)
  }

  /** A template is kept exactly when it passes all four tests, and the callback throws
      exactly when a non-empty search reaches a template whose name is not a string. */
  lemma JudgeSpec(f: Filters, t: Card)
    ensures Judge(f, t) == Fails <==> CategoryMatches(f, t) && f.searchTerm != "" && !t.name.Str?
    ensures Judge(f, t) == Keep <==>
      CategoryMatches(f, t) && (f.searchTerm != "" ==> t.name.Str?) && SearchMatches(f, t)
      && PricingMatches(f, t) && DarkModeMatches(f, t)
  {
  }

  /** `t => verdict is Keep` as a filter test. */
  function Kept(f: Filters): Card -> bool {
    (t: Card) => Judge(f, t) == Keep
  }

  /** `allTemplates.filter(callback)`: the kept templates in order, or the `TypeError` of the
      first template whose test throws. */
  function FilterCards(f: Filters, ts: seq<Card>): (r: Outcome<seq<Card>>)
    ensures r.Throws? <==> exists i :: 0 <= i < |ts| && Judge(f, ts[i]) == Fails
    ensures r.Returns? ==> r.value == Filter(ts, Kept(f))
    decreases |ts|
  {
    if ts == [] then Returns([])
    else
      var rest := FilterCards(f, ts[1..]);
      match Judge(f, ts[0])
      case Fails => Throws
      case Keep => if rest.Throws? then Throws else Returns([ts[0]] + rest.value)
      case Drop =>
        assert forall i :: 1 <= i < |ts| ==> ts[i] == ts[1..][i - 1];
        rest
  }

  /** With the search box empty the filter never throws. */
  lemma EmptySearchNeverThrows(f: Filters, ts: seq<Card>)
    requires f.searchTerm == ""
    ensures FilterCards(f, ts).Returns?
  {
  }

  /** The filtered list keeps the order of the templates it comes from, and holds exactly
      those that pass every test. */
  lemma FilteredIsSubsequence(f: Filters, ts: seq<Card>)
    requires FilterCards(f, ts).Returns?
    ensures IsSubsequence(FilterCards(f, ts).value, ts)
    ensures forall t :: t in FilterCards(f, ts).value <==> t in ts && Judge(f, t) == Keep
  {
    FilterSpec(ts, Kept(f));
  }

  /** With every filter off, the list is all the templates. */
  lemma NoFiltersKeepAll(f: Filters, ts: seq<Card>)
    requires f.selectedCategory == "all" && f.searchTerm == "" && f.pricingFilter == "all" && !f.darkModeOnly
    ensures FilterCards(f, ts) == Returns(ts)
  {
    FilterKeepsAll(ts, Kept(f));
  }

  // ---------------------------------------------------------------- sorting

  /** `(b.rating || 0) - (a.rating || 0)` sorts by this key, ascending. */
  function RatingKey(t: Card): real {
    -(t.rating.GetOr(0.0))
  }

  /** `a.name.localeCompare(b.name)` sorts by this key, ascending, for a rank the locale gives names. */
  function NameKey(rank: JsVal -> int): Card -> real {
    (t: Card) => rank(t.name) as real
  }

  predicate Sorted(s: seq<Card>, key: Card -> real) {
    forall i, j :: 0 <= i < j < |s| ==> key(s[i]) <= key(s[j])
  }

  /** Exchanges two elements of `a`. */
  method Swap(a: array<Card>, i: int, j: int)
    requires 0 <= i < j < a.Length
    modifies a
    ensures a[..] == old(a[..])[i := old(a[j])][j := old(a[i])]
    ensures multiset(a[..]) == multiset(old(a[..]))
  {
    a[i], a[j] := a[j], a[i];
  }

  /** `array.sort(comparator)` for a comparator that compares `key`: insertion sort in place. */
  method SortByKey(a: array<Card>, key: Card -> real)
    modifies a
    ensures Sorted(a[..], key)
    ensures multiset(a[..]) == multiset(old(a[..]))
  {
    var i := 0;
    while i < a.Length
      invariant 0 <= i <= a.Length
      invariant forall k, l :: 0 <= k < l < i ==> key(a[k]) <= key(a[l])
      invariant multiset(a[..]) == multiset(old(a[..]))
    {
      Insert(a, i, key);
      i := i + 1;
    }
  }

  /** Moves `a[i]` left past every larger key, so that `a[..i + 1]` is sorted; elements of
      equal key keep their order. */
  method Insert(a: array<Card>, i: nat, key: Card -> real)
    requires i < a.Length
    requires forall k, l :: 0 <= k < l < i ==> key(a[k]) <= key(a[l])
    modifies a
    ensures forall k, l :: 0 <= k < l <= i ==> key(a[k]) <= key(a[l])
    ensures multiset(a[..]) == multiset(old(a[..]))
  {
    var j := i;
    while j > 0 && key(a[j]) < key(a[j - 1])
      invariant 0 <= j <= i
      invariant forall k, l :: 0 <= k < l <= i && k != j && l != j ==> key(a[k]) <= key(a[l])
      invariant forall l :: j < l <= i ==> key(a[j]) < key(a[l])
      invariant multiset(a[..]) == multiset(old(a[..]))
    {
      Swap(a, j - 1, j);
      j := j - 1;
    }
  }

  /** The page's `filteredTemplates`. */
  method FilteredTemplates(f: Filters, local: seq<Card>, backend: seq<Card>, rank: JsVal -> int)
    returns (r: Outcome<seq<Card>>)
    ensures r.Throws? <==> FilterCards(f, AllTemplates(local, backend)).Throws?
    ensures r.Returns? ==> multiset(r.value) == multiset(FilterCards(f, AllTemplates(local, backend)).value)
    ensures r.Returns? && f.sortBy == "-rating" ==> Sorted(r.value, RatingKey)
    ensures r.Returns? && f.sortBy == "name" ==> Sorted(r.value, NameKey(rank))
    ensures r.Returns? && f.sortBy != "-rating" && f.sortBy != "name" ==>
      r.value == FilterCards(f, AllTemplates(local, backend)).value
  {
    var filtered := FilterCards(f, AllTemplates(local, backend));
    if filtered.Throws? {
      return Throws;
    }
    var ts := filtered.value;
    var a := new Card[|ts|](i requires 0 <= i < |ts| => ts[i]);
    assert a[..] == ts;
    if f.sortBy == "-rating" {
      SortByKey(a, RatingKey);
    } else if f.sortBy == "name" {
      SortByKey(a, NameKey(rank));
    }
    r := Returns(a[..]);
  }

  /** Without sorting, the page shows an order-preserving selection of its templates. */
  lemma UnsortedIsSubsequence(f: Filters, local: seq<Card>, backend: seq<Card>)
    requires FilterCards(f, AllTemplates(local, backend)).Returns?
    ensures IsSubsequence(FilterCards(f, AllTemplates(local, backend)).value, AllTemplates(local, backend))
  {
    FilteredIsSubsequence(f, AllTemplates(local, backend));
  }

  /** A sort by rating puts higher ratings first, a missing rating counting as 0. */
  lemma RatingOrder(s: seq<Card>, i: nat, j: nat)
    requires Sorted(s, RatingKey) && i < j < |s|
    ensures s[i].rating.GetOr(0.0) >= s[j].rating.GetOr(0.0)
  {
    assert RatingKey(s[i]) <= RatingKey(s[j]);
  }
}
