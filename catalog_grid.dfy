/**
 * The catalog page's search-and-category filter and what each card shows.
 * The filter is written over any list of templates; the page applies it to
 * the catalog.
 */
module CatalogGrid {
  import opened Wrappers
  import opened Strings
  import opened Catalog

  /** `hay.toLowerCase().includes(search.toLowerCase())`, with ASCII case folding. */
  predicate IncludesFolded(hay: string, search: string) {
    Contains(ToLowerAscii(hay), ToLowerAscii(search))
  }

  /** An empty search matches everything; otherwise the name, the description or some tag must contain it. */
  predicate MatchesSearch(app: AppTemplate, search: string) {
    || search == ""
    || IncludesFolded(app.name, search)
    || IncludesFolded(app.description, search)
    || exists k :: 0 <= k < |app.tags| && IncludesFolded(app.tags[k], search)
  }

  /** No category (or the empty one) matches everything; otherwise the category must be equal. */
  predicate MatchesCategory(app: AppTemplate, category: Option<string>) {
    category == None || category.value == "" || app.category == category.value
  }

  predicate Shown(app: AppTemplate, search: string, category: Option<string>) {
    MatchesSearch(app, search) && MatchesCategory(app, category)
  }

  /** `a` is `b` with some elements left out, the rest in their order. */
  predicate IsSubsequence<T(==)>(a: seq<T>, b: seq<T>) {
    a == [] || (b != [] && ((a[0] == b[0] && IsSubsequence(a[1..], b[1..])) || IsSubsequence(a, b[1..])))
  }

  /**
   * The grid's `filtered` list: exactly the templates that match, each as
   * often as in the list, in their order, with nothing added.
   */
  function FilterApps(apps: seq<AppTemplate>, search: string, category: Option<string>): (shown: seq<AppTemplate>)
    ensures forall a :: a in shown <==> a in apps && Shown(a, search, category)
    ensures forall a :: multiset(shown)[a] == if Shown(a, search, category) then multiset(apps)[a] else 0
    ensures IsSubsequence(shown, apps)
  {
    if apps == [] then []
    else
      var rest := FilterApps(apps[1..], search, category);
      assert apps == [apps[0]] + apps[1..];
      assert multiset(apps) == multiset([apps[0]]) + multiset(apps[1..]);
      assert forall a :: a in apps <==> a == apps[0] || a in apps[1..];
      if Shown(apps[0], search, category) then
        assert multiset([apps[0]] + rest) == multiset([apps[0]]) + multiset(rest);
        [apps[0]] + rest
      else rest
  }

  /** With an empty search and no category, the grid shows the whole list in order. */
  lemma {:induction false} FilterUnfiltered(apps: seq<AppTemplate>)
    ensures FilterApps(apps, "", None) == apps
  {
    if apps != [] {
      FilterUnfiltered(apps[1..]);
      assert apps == [apps[0]] + apps[1..];
    }
  }

  /** With a category chosen, every template shown has exactly that category. */
  lemma CategoryExact(apps: seq<AppTemplate>, search: string, category: string)
    requires category != ""
    ensures forall a :: a in FilterApps(apps, search, Some(category)) ==> a.category == category
  {
  }

  /** Choosing a category keeps a subsequence of what "All" shows for the same search. */
  lemma {:induction false} CategoryNarrows(apps: seq<AppTemplate>, search: string, category: string)
    ensures IsSubsequence(FilterApps(apps, search, Some(category)), FilterApps(apps, search, None))
  {
    if apps != [] {
      CategoryNarrows(apps[1..], search, category);
      var narrow := FilterApps(apps[1..], search, Some(category));
      var wide := FilterApps(apps[1..], search, None);
      if MatchesSearch(apps[0], search) {
        var w := [apps[0]] + wide;
        assert w[1..] == wide;
        if MatchesCategory(apps[0], Some(category)) {
          var n := [apps[0]] + narrow;
          assert n[1..] == narrow;
        } else {
          SubsequenceOfTail(narrow, w);
        }
      }
    }
  }

  /** A subsequence of the tail is a subsequence of the whole. */
  lemma SubsequenceOfTail<T>(a: seq<T>, b: seq<T>)
    requires b != [] && IsSubsequence(a, b[1..])
    ensures IsSubsequence(a, b)
  {
  }

  /** Searching is blind to ASCII case: a query and its lower-case form show the same templates. */
  lemma {:induction false} SearchIgnoresCase(apps: seq<AppTemplate>, search: string, category: Option<string>)
    ensures FilterApps(apps, search, category) == FilterApps(apps, ToLowerAscii(search), category)
  {
    ToLowerAsciiIdempotent(search);
    assert search == "" <==> ToLowerAscii(search) == "";
    if apps != [] {
      SearchIgnoresCase(apps[1..], search, category);
      assert Shown(apps[0], search, category) == Shown(apps[0], ToLowerAscii(search), category);
    }
  }

  /** The tags a card shows: the first three at most. */
  function ShownTags(app: AppTemplate): (tags: seq<string>)
    ensures |tags| <= 3
    ensures tags <= app.tags
    ensures |app.tags| <= 3 ==> tags == app.tags
    ensures |app.tags| > 3 ==> |tags| == 3
  {
    if |app.tags| <= 3 then app.tags else app.tags[..3]
  }

  /** One card of the grid. */
  datatype Card = Card(href: string, emoji: string, name: string, description: string,
                       categoryBadge: string, tagBadges: seq<string>)

  /** The grid under the filter bar, and whether the "No apps found" message is shown. */
  datatype GridView = GridView(cards: seq<Card>, showEmptyMessage: bool)

  const CATALOG_PATH: string := "/home/ash/catalog/"

  function CardOf(app: AppTemplate): Card {
    Card(CATALOG_PATH + app.slug, app.emoji, app.name, app.description, app.category, ShownTags(app))
  }

  function CardsOf(apps: seq<AppTemplate>): (cards: seq<Card>)
    ensures |cards| == |apps|
    ensures forall i :: 0 <= i < |apps| ==> cards[i] == CardOf(apps[i])
  {
    if apps == [] then [] else [CardOf(apps[0])] + CardsOf(apps[1..])
  }

  /**
   * The grid for a search and a category: one card per matching template,
   * in list order, linking to the template's page; the empty-state message
   * exactly when no card is shown. The page renders it over the catalog.
   */
  function RenderGrid(apps: seq<AppTemplate>, search: string, category: Option<string>): (view: GridView)
    ensures |view.cards| == |FilterApps(apps, search, category)|
    ensures view.showEmptyMessage <==> view.cards == []
    ensures forall i :: 0 <= i < |view.cards| ==>
      var app := FilterApps(apps, search, category)[i];
      view.cards[i].href == CATALOG_PATH + app.slug && view.cards[i].tagBadges == ShownTags(app)
  {
    var cards := CardsOf(FilterApps(apps, search, category));
    GridView(cards, |cards| == 0)
  }

  /**
   * The opening state (empty search, "All") shows a card for every
   * template, in order, and the empty-state message only for an empty list.
   */
  lemma UnfilteredGrid(apps: seq<AppTemplate>)
    ensures RenderGrid(apps, "", None).cards == CardsOf(apps)
    ensures RenderGrid(apps, "", None).showEmptyMessage <==> apps == []
  {
    FilterUnfiltered(apps);
  }
}
