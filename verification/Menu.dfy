/**
  `GET /api/restaurants/:restaurant_id/menu` (Server/index.js, lines
  113-144): the restaurant's category rows and menu item rows are grouped
  into an object keyed by category id, each entry holding the category's
  name and its items reduced to name, description and price.
 */
module Menu {
  import opened Options
  import opened Http
  import opened Schema
  import Seqs

  /** An item as the menu shows it. */
  datatype ItemView = ItemView(name: string, description: string, price: string)

  datatype MenuEntry = MenuEntry(categoryName: string, items: seq<ItemView>)

  type MenuObject = map<int, MenuEntry>

  const NotFound := "No menu found for this restaurant"
  const Failed := "An error occurred while fetching the menu"

  function View(item: MenuItem): ItemView {
    ItemView(item.name, item.description, item.price)
  }

  /** `item => item.CategoryID === categoryId` */
  function InCategory(categoryId: int): MenuItem -> bool {
    (item: MenuItem) => item.categoryId == categoryId
  }

  /** `menuResults.filter(...).map(...)` for one category. */
  function ItemsOf(items: seq<MenuItem>, categoryId: int): seq<ItemView> {
    Seqs.Map(Seqs.Filter(items, InCategory(categoryId)), View)
  }

  function CategoryIds(categories: seq<Category>): set<int> {
    set c | c in categories :: c.categoryId
  }

  /** Row `i` is the last category row with id `k`: the one whose
      assignment `menu[k] = ...` survives the `forEach`. */
  predicate LastWithId(categories: seq<Category>, i: int, k: int) {
    && 0 <= i < |categories|
    && categories[i].categoryId == k
    && forall j :: i < j < |categories| ==> categories[j].categoryId != k
  }

  /** The `forEach` over the category rows, each assigning `menu[categoryId]`. */
  function GroupMenu(categories: seq<Category>, items: seq<MenuItem>): (menu: MenuObject)
    ensures menu.Keys == CategoryIds(categories)
    decreases |categories|
  {
    if |categories| == 0 then map[]
    else
      var init := categories[..|categories| - 1];
      var c := categories[|categories| - 1];
      assert categories == init + [c];
      GroupMenu(init, items)[c.categoryId := MenuEntry(c.categoryName, ItemsOf(items, c.categoryId))]
  }

  lemma LastWithIdExtends(categories: seq<Category>, c: Category, i: int, k: int)
    requires LastWithId(categories, i, k) && c.categoryId != k
    ensures LastWithId(categories + [c], i, k)
  {
    var extended := categories + [c];
    forall j | i < j < |extended|
      ensures extended[j].categoryId != k
    {
      if j < |categories| {
        assert extended[j] == categories[j];
      }
    }
  }

  /** The last category row's assignment is the one made last. */
  lemma GroupMenuUnfold(categories: seq<Category>, items: seq<MenuItem>)
    requires |categories| > 0
    ensures var c := categories[|categories| - 1];
            GroupMenu(categories, items)
            == GroupMenu(categories[..|categories| - 1], items)[c.categoryId := MenuEntry(c.categoryName, ItemsOf(items, c.categoryId))]
  {
  }

  /** The entry of the last category row's id is that row's. */
  lemma GroupMenuLast(categories: seq<Category>, items: seq<MenuItem>)
    requires |categories| > 0
    ensures var c := categories[|categories| - 1];
            && c.categoryId in GroupMenu(categories, items)
            && GroupMenu(categories, items)[c.categoryId] == MenuEntry(c.categoryName, ItemsOf(items, c.categoryId))
  {
    GroupMenuUnfold(categories, items);
  }

  /** Any other entry was already made by the earlier rows. */
  lemma GroupMenuEarlier(categories: seq<Category>, items: seq<MenuItem>, k: int)
    requires |categories| > 0 && categories[|categories| - 1].categoryId != k
    requires k in GroupMenu(categories, items)
    ensures k in GroupMenu(categories[..|categories| - 1], items)
    ensures GroupMenu(categories, items)[k] == GroupMenu(categories[..|categories| - 1], items)[k]
  {
    GroupMenuUnfold(categories, items);
  }

  /** Each entry holds exactly the item rows of its category, in row order. */
  lemma {:induction false} GroupMenuItems(categories: seq<Category>, items: seq<MenuItem>, k: int)
    requires k in GroupMenu(categories, items)
    ensures GroupMenu(categories, items)[k].items == ItemsOf(items, k)
    decreases |categories|
  {
    assert |categories| > 0;
    if categories[|categories| - 1].categoryId == k {
      GroupMenuLast(categories, items);
    } else {
      GroupMenuEarlier(categories, items, k);
      GroupMenuItems(categories[..|categories| - 1], items, k);
    }
  }

  /** Each entry is named after the last category row with its id: a
      later row with the same id replaces the earlier entry. */
  lemma {:induction false} GroupMenuNames(categories: seq<Category>, items: seq<MenuItem>, k: int)
      returns (i: int)
    requires k in GroupMenu(categories, items)
    ensures LastWithId(categories, i, k)
    ensures GroupMenu(categories, items)[k].categoryName == categories[i].categoryName
    decreases |categories|
  {
    assert |categories| > 0;
    var init := categories[..|categories| - 1];
    var c := categories[|categories| - 1];
    if c.categoryId == k {
      GroupMenuLast(categories, items);
      i := |categories| - 1;
    } else {
      GroupMenuEarlier(categories, items, k);
      i := GroupMenuNames(init, items, k);
      assert categories == init + [c];
      LastWithIdExtends(init, c, i, k);
    }
  }

  /** The grouped items of a category are exactly its rows, in row order:
      grouping a concatenation of item rows concatenates the groups. */
  lemma ItemsOfAppend(a: seq<MenuItem>, b: seq<MenuItem>, k: int)
    ensures ItemsOf(a + b, k) == ItemsOf(a, k) + ItemsOf(b, k)
  {
    Seqs.FilterAppend(a, b, InCategory(k));
    Seqs.MapAppend(Seqs.Filter(a, InCategory(k)), Seqs.Filter(b, InCategory(k)), View);
  }

  /** One item row lands in its own category and in no other. */
  lemma ItemsOfSingle(item: MenuItem, k: int)
    ensures ItemsOf([item], k) == if item.categoryId == k then [View(item)] else []
  {
    Seqs.FilterSingleton(item, InCategory(k));
  }

  /** The menu depends on the item rows only through the groups of the
      categories that exist. */
  lemma {:induction false} GroupMenuDependsOnGroups(categories: seq<Category>,
                                                    items: seq<MenuItem>, items': seq<MenuItem>)
    requires forall k :: k in CategoryIds(categories) ==> ItemsOf(items, k) == ItemsOf(items', k)
    ensures GroupMenu(categories, items) == GroupMenu(categories, items')
    decreases |categories|
  {
    if |categories| > 0 {
      var init := categories[..|categories| - 1];
      var c := categories[|categories| - 1];
      assert categories == init + [c];
      assert CategoryIds(init) <= CategoryIds(categories);
      assert c.categoryId in CategoryIds(categories);
      GroupMenuDependsOnGroups(init, items, items');
    }
  }

  function KnownCategory(categories: seq<Category>): MenuItem -> bool {
    (item: MenuItem) => item.categoryId in CategoryIds(categories)
  }

  /** Item rows whose category id names no category row do not appear:
      dropping them beforehand gives the same menu. */
  lemma GroupMenuIgnoresOrphans(categories: seq<Category>, items: seq<MenuItem>)
    ensures GroupMenu(categories, items)
         == GroupMenu(categories, Seqs.Filter(items, KnownCategory(categories)))
  {
    var known := Seqs.Filter(items, KnownCategory(categories));
    forall k | k in CategoryIds(categories)
      ensures ItemsOf(items, k) == ItemsOf(known, k)
    {
      Seqs.FilterFilter(items, InCategory(k), KnownCategory(categories));
    }
    GroupMenuDependsOnGroups(categories, items, known);
  }

  /** The reply. Either query failing is a server error; not found is
      reported only when a result set is missing altogether, so empty
      result sets give an empty menu with a normal reply. */
  function MenuReply(categories: Fetch<Option<seq<Category>>>,
                     items: Fetch<Option<seq<MenuItem>>>): (r: Reply<MenuObject>)
    ensures r.status == 500 <==> categories.FetchError? || items.FetchError?
    ensures r.status == 404 <==>
      categories.Fetched? && items.Fetched? && (categories.value.None? || items.value.None?)
    ensures r.status == 500 ==> r.body == ErrorText(Failed)
    ensures r.status == 404 ==> r.body == ErrorText(NotFound)
    ensures r.status == 200 ==>
      categories.Fetched? && categories.value.Some? && items.Fetched? && items.value.Some?
      && r.body == Json(GroupMenu(categories.value.value, items.value.value))
    ensures categories.Fetched? && categories.value.Some? && items.Fetched? && items.value.Some? ==>
      r == Reply(200, Json(GroupMenu(categories.value.value, items.value.value)))
    ensures r.status in {200, 404, 500}
    ensures categories == Fetched(Some([])) && items.Fetched? && items.value.Some? ==>
      r == Reply(200, Json(map[]))
  {
    match categories
    case FetchError => Reply(500, ErrorText(Failed))
    case Fetched(categoryRows) =>
      match items
      case FetchError => Reply(500, ErrorText(Failed))
      case Fetched(itemRows) =>
        if categoryRows.None? || itemRows.None? then Reply(404, ErrorText(NotFound))
        else Reply(200, Json(GroupMenu(categoryRows.value, itemRows.value)))
  }
}
