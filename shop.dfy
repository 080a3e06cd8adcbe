// The pro shop page (app/shop/page.tsx): the category tabs, the search box,
// the filtered product list and the badges on each product.
module Shop {
  import opened Js

  datatype Category = Clubs | Balls | Apparel | Accessories

  /** A category tab: 'all' or one category. */
  datatype CategoryTab = AllCategories | Only(category: Category)

  /** A product; prices are in paise, an absent `isNew` or `isFeatured` is `false`. Ratings are left out. */
  datatype Product = Product(
    id: string,
    title: string,
    originalPrice: int,
    discountedPrice: int,
    discountPercentage: int,
    category: Category,
    brand: string,
    isNew: bool,
    isFeatured: bool)

  const Products: seq<Product> := [
    Product("1", "TaylorMade Stealth 2 Driver", 59999, 49999, 17, Clubs, "TaylorMade", true, true),
    Product("2", "Titleist Pro V1 Golf Balls", 4999, 3999, 20, Balls, "Titleist", false, true),
    Product("3", "Nike Dri-FIT Golf Polo", 3499, 2499, 29, Apparel, "Nike", true, false)
  ]

  /** The filter callback: the tab must match and the lower-cased title must contain the lower-cased query. */
  predicate Matches(p: Product, tab: CategoryTab, query: string) {
    (tab == AllCategories || p.category == tab.category)
    && (query == "" || Includes(ToLower(p.title), ToLower(query)))
  }

  function Keep(tab: CategoryTab, query: string): Product -> bool {
    (p: Product) => Matches(p, tab, query)
  }

  /** `filteredProducts`. */
  function FilteredProducts(products: seq<Product>, tab: CategoryTab, query: string): seq<Product> {
    Filter(products, Keep(tab, query))
  }

  /**
   * A product is listed exactly when it is in the catalogue, fits the tab and
   * its lower-cased title contains the lower-cased query (an empty query is
   * contained in every title); the listing keeps the catalogue's order.
   */
  lemma FilteredProductsSpec(products: seq<Product>, tab: CategoryTab, query: string, p: Product)
    ensures p in FilteredProducts(products, tab, query) <==>
      p in products
      && (tab == AllCategories || p.category == tab.category)
      && Includes(ToLower(p.title), ToLower(query))
    ensures IsSubsequence(FilteredProducts(products, tab, query), products)
  {
    FilterMembers(products, Keep(tab, query), p);
    FilterIsSubsequence(products, Keep(tab, query));
    if query == "" {
      assert ToLower(query) == "";
    }
  }

  /** The 'all' tab with an empty search box lists every product in order. */
  lemma {:induction false} AllWithEmptyQuery(products: seq<Product>)
    ensures FilteredProducts(products, AllCategories, "") == products
  {
    FilterKeepsAll(products, Keep(AllCategories, ""));
  }

  /** Under a category tab, every listed product is of that category. */
  lemma TabKeepsItsCategory(products: seq<Product>, c: Category, query: string)
    ensures forall p | p in FilteredProducts(products, Only(c), query) :: p.category == c
  {
    forall p | p in FilteredProducts(products, Only(c), query) ensures p.category == c {
      FilterMembers(products, Keep(Only(c), query), p);
    }
  }

  /** Lower-casing both the title and the query makes the search ignore ASCII letter case. */
  lemma SearchIgnoresCase(p: Product, tab: CategoryTab, query: string)
    ensures Matches(p, tab, query) == Matches(p.(title := ToLower(p.title)), tab, ToLower(query))
  {
    LowerIdempotent(p.title);
    LowerIdempotent(query);
    if query != "" {
      assert ToLower(query) != "";
    }
  }

  lemma LowerIdempotent(s: string)
    ensures ToLower(ToLower(s)) == ToLower(s)
  {
    assert forall i | 0 <= i < |s| :: LowerChar(LowerChar(s[i])) == LowerChar(s[i]);
  }

  /** The discount badge and the struck-through original price show only for a positive discount. */
  predicate ShowsDiscount(p: Product) { p.discountPercentage > 0 }

  predicate ShowsNewBadge(p: Product) { p.isNew }

  /** Every catalogue product is discounted; the driver and the polo carry the 'New' badge, the balls do not. */
  lemma CatalogueBadges()
    ensures forall i | 0 <= i < |Products| :: ShowsDiscount(Products[i])
    ensures ShowsNewBadge(Products[0]) && !ShowsNewBadge(Products[1]) && ShowsNewBadge(Products[2])
  {
  }

  /** The page's state: the selected tab and the search text. */
  class ShopPage {
    var selectedCategory: CategoryTab
    var searchQuery: string

    constructor ()
      ensures selectedCategory == AllCategories && searchQuery == ""
    {
      selectedCategory := AllCategories;
      searchQuery := "";
    }

    method SetCategory(tab: CategoryTab)
      modifies this
      ensures selectedCategory == tab && searchQuery == old(searchQuery)
    {
      selectedCategory := tab;
    }

    method SetSearchQuery(text: string)
      modifies this
      ensures searchQuery == text && selectedCategory == old(selectedCategory)
    {
      searchQuery := text;
    }

    function Shown(): seq<Product>
      reads this
    {
      FilteredProducts(Products, selectedCategory, searchQuery)
    }
  }
}
