/**
 * The category filters above the service catalogue and the blog: the list
 * of categories with an "all" entry in front, the value a tab or chip
 * reports to the page, and which tab or chip is highlighted for the page's
 * current category.
 */
module CategoryFilter {
  import opened Text

  /** A category as the filter shows it; the "all" entry has no slug. */
  datatype Category = Category(name: string, slug: Option<string>)

  const AllServices := Category("Всі послуги", None)
  const AllPosts := Category("Всі категорії", None)

  /** The tab value standing for "all" in each filter. */
  const AllServicesValue := "all-services"
  const AllPostsValue := "all-posts"

  /** A slug as JavaScript tests it: missing and empty are falsy. */
  predicate Truthy(slug: Option<string>)
  {
    slug.Some? && slug.value != ""
  }

  /**
   * The service filter's list: "all" and the fetched categories when there
   * are any, and nothing at all otherwise (`data` None is a null answer).
   */
  function ServiceCategories(data: Option<seq<Category>>): (r: seq<Category>)
    ensures r == [] <==> data.None? || data.value == []
    ensures r != [] ==> r[0] == AllServices && r[1..] == data.value
  {
    if data.Some? && |data.value| > 0 then [AllServices] + data.value else []
  }

  /** The blog filter's list: "all" always, then the fetched categories, a null answer counting as none. */
  function PostCategories(data: Option<seq<Category>>): (r: seq<Category>)
    ensures |r| >= 1 && r[0] == AllPosts
    ensures data.Some? ==> r[1..] == data.value
    ensures data.None? ==> r == [AllPosts]
  {
    [AllPosts] + if data.Some? then data.value else []
  }

  /** The service filter is drawn only with more than one entry. */
  predicate ServiceFilterShown(categories: seq<Category>)
  {
    |categories| > 1
  }

  /** The service filter appears exactly when the server sent at least one category. */
  lemma ServiceFilterShownIff(data: Option<seq<Category>>)
    ensures ServiceFilterShown(ServiceCategories(data)) <==> data.Some? && |data.value| >= 1
  {
  }

  /** What a tab reports when chosen: the "all" value becomes null, any other value is passed on. */
  function Reported(value: string, allValue: string): (r: Option<string>)
    ensures r.None? <==> value == allValue
    ensures r.Some? ==> r.value == value
  {
    if value == allValue then None else Some(value)
  }

  /** What a chip reports when clicked: its slug, except that a slug equal to the "all" value becomes null. */
  function ChipReported(slug: Option<string>, allValue: string): (r: Option<string>)
    ensures r.None? <==> slug.None? || slug.value == allValue
    ensures r.Some? ==> r == slug
  {
    if slug == Some(allValue) then None else slug
  }

  /** `slug || allValue`: the value of a tab, and of the active tab for the current slug. */
  function TabValue(slug: Option<string>, allValue: string): (r: string)
    ensures Truthy(slug) ==> r == slug.value
    ensures !Truthy(slug) ==> r == allValue
  {
    if Truthy(slug) then slug.value else allValue
  }

  /** A chip is highlighted when its slug is the current one, or for "all" when none is current. */
  predicate Highlighted(current: Option<string>, slug: Option<string>)
  {
    current == slug || (!Truthy(current) && slug.None?)
  }

  /**
   * Choosing a tab and feeding the report back as the current slug makes
   * that tab the active one: the two mappings are inverse on tab values
   * that are not empty.
   */
  lemma TabRoundTrip(value: string, allValue: string)
    requires value != ""
    ensures TabValue(Reported(value, allValue), allValue) == value
  {
  }

  /**
   * The other way round: a category's tab reports its own slug, provided the
   * slug is missing or a real one distinct from the "all" value.
   */
  lemma ReportOfTab(slug: Option<string>, allValue: string)
    requires slug.None? || (slug.value != "" && slug.value != allValue)
    ensures Reported(TabValue(slug, allValue), allValue) == slug
  {
  }

  /** A clicked chip is highlighted once the page passes its report back. */
  lemma ClickedChipHighlighted(slug: Option<string>, allValue: string)
    requires slug.None? || slug.value != allValue
    ensures Highlighted(ChipReported(slug, allValue), slug)
  {
  }

  /** The fetched categories carry distinct, non-empty slugs. */
  predicate WellFormed(data: seq<Category>)
  {
    (forall i :: 0 <= i < |data| ==> Truthy(data[i].slug)) &&
    (forall i, j :: 0 <= i < j < |data| ==> data[i].slug != data[j].slug)
  }

  /**
   * In a list of "all" followed by well-formed categories, exactly one chip
   * is highlighted when the current slug is falsy or one of the listed ones
   * (and none otherwise): "all" for a falsy slug, else the matching category.
   */
  lemma OneChipHighlighted(all: Category, data: seq<Category>, current: Option<string>, i: int, j: int)
    requires all.slug.None? && WellFormed(data)
    requires 0 <= i < |[all] + data| && 0 <= j < |[all] + data|
    requires Highlighted(current, ([all] + data)[i].slug) && Highlighted(current, ([all] + data)[j].slug)
    ensures i == j
    ensures i == 0 <==> !Truthy(current)
  {
    var list := [all] + data;
    if i > 0 {
      assert list[i] == data[i - 1];
    }
    if j > 0 {
      assert list[j] == data[j - 1];
    }
  }

  /** Some chip is always highlighted when the current slug is falsy or listed. */
  lemma SomeChipHighlighted(all: Category, data: seq<Category>, current: Option<string>)
    requires all.slug.None?
    requires !Truthy(current) || exists k :: 0 <= k < |data| && data[k].slug == current
    ensures exists i :: 0 <= i < |[all] + data| && Highlighted(current, ([all] + data)[i].slug)
  {
    var list := [all] + data;
    if !Truthy(current) {
      assert Highlighted(current, list[0].slug);
    } else {
      var k :| 0 <= k < |data| && data[k].slug == current;
      assert list[k + 1] == data[k];
      assert Highlighted(current, list[k + 1].slug);
    }
  }
}
