/** The menu store (`useMenuStore`): loads the menu rows served by the API
    and groups them into categories, in the order each category first
    appears. */
module MenuStore {
  import opened Seqs
  import Grouping

  /** One row as served by the menu API. An absent or empty `imageUrl` or
      `description` is the empty string. */
  datatype MenuRow = MenuRow(id: int, name: string, price: int, category: string,
                             imageUrl: string, description: string)

  /** An item as the menu page shows it. */
  datatype MenuEntry = MenuEntry(id: int, name: string, price: int, image: string, description: string)

  datatype Category = Category(name: string, items: seq<MenuEntry>)

  const PlaceholderImage := "/placeholder.png"
  const LoadError := "Error al cargar el menú"

  function CategoryOf(r: MenuRow): string
  {
    r.category
  }

  /** The item pushed for a row: `imageUrl || "/placeholder.png"` and
      `description || ""`. Every item has an image. */
  function Entry(r: MenuRow): (e: MenuEntry)
    ensures e.id == r.id && e.name == r.name && e.price == r.price && e.description == r.description
    ensures r.imageUrl != "" ==> e.image == r.imageUrl
    ensures e.image != ""
  {
    MenuEntry(r.id, r.name, r.price, if r.imageUrl == "" then PlaceholderImage else r.imageUrl, r.description)
  }

  /** `Array.from(categoriesMap.entries()).map(([name, items]) => ({ name, items }))`. */
  function ToCategories(groups: seq<(string, seq<MenuEntry>)>): (r: seq<Category>)
    ensures |r| == |groups|
    ensures forall k :: 0 <= k < |r| ==> r[k].name == groups[k].0 && r[k].items == groups[k].1
  {
    seq(|groups|, k requires 0 <= k < |groups| => Category(groups[k].0, groups[k].1))
  }

  /** The categories `fetchMenu` stores for the served rows. */
  function Menu(rows: seq<MenuRow>): seq<Category>
  {
    ToCategories(Grouping.GroupBy(rows, CategoryOf, Entry))
  }

  /** The items of the rows of category `c`, in row order. */
  function CategoryEntries(rows: seq<MenuRow>, c: string): seq<MenuEntry>
  {
    Grouping.Bucket(rows, CategoryOf, Entry, c)
  }

  function ItemCount(c: Category): int
  {
    |c.items|
  }

  lemma {:induction false} ItemCountIsGroupSizes(groups: seq<(string, seq<MenuEntry>)>)
    ensures SumBy(ToCategories(groups), ItemCount) == Grouping.GroupSizes(groups)
  {
    if groups != [] {
      assert ToCategories(groups)[1..] == ToCategories(groups[1..]);
      ItemCountIsGroupSizes(groups[1..]);
    }
  }

  /** The menu is a partition of the rows by category: category names are
      distinct, each category lists exactly the items of its rows in row
      order and none is empty, every row's category is present, and no item
      is lost or duplicated. */
  lemma MenuPartitionsRows(rows: seq<MenuRow>)
    ensures var m := Menu(rows);
      (forall i, j :: 0 <= i < j < |m| ==> m[i].name != m[j].name) &&
      (forall k :: 0 <= k < |m| ==> m[k].items == CategoryEntries(rows, m[k].name) && m[k].items != []) &&
      (forall i :: 0 <= i < |rows| ==> exists k :: 0 <= k < |m| && m[k].name == rows[i].category) &&
      SumBy(m, ItemCount) == |rows|
  {
    var g := Grouping.GroupBy(rows, CategoryOf, Entry);
    Grouping.GroupByKeys(rows, CategoryOf, Entry);
    Grouping.GroupByBuckets(rows, CategoryOf, Entry);
    Grouping.GroupByCount(rows, CategoryOf, Entry);
    ItemCountIsGroupSizes(g);
    var m := Menu(rows);
    forall i | 0 <= i < |rows|
      ensures exists k :: 0 <= k < |m| && m[k].name == rows[i].category
    {
      var j :| 0 <= j < |g| && g[j].0 == CategoryOf(rows[i]);
      assert m[j].name == rows[i].category;
    }
  }

  /** What `fetch("/api/menu")` produced: the served rows, a non-ok
      response, or an exception with its message (a network failure or a
      body that is not a list of rows). */
  datatype MenuResponse = Served(rows: seq<MenuRow>) | NotOk | Thrown(message: string)

  /** The `categoriesMap` loop: each row's entry is appended to its
      category's group, a new category opening a group at the end. */
  method GroupRows(rows: seq<MenuRow>) returns (groups: seq<(string, seq<MenuEntry>)>)
    ensures groups == Grouping.GroupBy(rows, CategoryOf, Entry)
  {
    groups := [];
    var i := 0;
    while i < |rows|
      invariant 0 <= i <= |rows|
      invariant groups == Grouping.GroupBy(rows[..i], CategoryOf, Entry)
    {
      assert rows[..i + 1][..i] == rows[..i];
      groups := Grouping.Place(groups, CategoryOf(rows[i]), Entry(rows[i]));
      i := i + 1;
    }
    assert rows[..|rows|] == rows;
  }

  class Store {
    var categories: seq<Category>
    var isLoading: bool
    var error: Option<string>

    constructor ()
      ensures categories == [] && !isLoading && error == None
    {
      categories, isLoading, error := [], false, None;
    }

    /** `fetchMenu`: on success the grouped categories replace the old ones;
        on failure they are kept and the error message is recorded. */
    method FetchMenu(response: MenuResponse)
      modifies this
      ensures response.Served? ==> categories == Menu(response.rows) && error == None
      ensures response.NotOk? ==> categories == old(categories) && error == Some(LoadError)
      ensures response.Thrown? ==> categories == old(categories) && error == Some(response.message)
      ensures !isLoading
    {
      isLoading, error := true, None;
      match response {
        case NotOk =>
          error, isLoading := Some(LoadError), false;
        case Thrown(message) =>
          error, isLoading := Some(message), false;
        case Served(rows) =>
          var groups := GroupRows(rows);
          categories, isLoading := ToCategories(groups), false;
      }
    }
  }
}
