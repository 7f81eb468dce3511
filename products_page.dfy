/**
 * The catalogue page (frontend/src/pages/Products.tsx): the filter inputs,
 * which send the list back to page 1, the query the debounced fetch sends,
 * the reply's defaults, the category list with its fallback, the wishlist
 * toggle and add-to-cart from the grid. The timer is represented by the
 * delay it would be set to; replies are parameters.
 */
module ProductsPage {
  import opened Wrappers
  import Seqs
  import opened Ui

  const PageSize := 12
  const SearchDelayMs := 500

  /** The categories shown when `GET /categories` fails. */
  const FallbackCategories := ["electronics", "clothing", "home", "books", "sports", "beauty", "automotive", "toys"]

  datatype ListedProduct = ListedProduct(id: int, name: string, price: real, stock: int)

  /** The parameters of `GET /products`. */
  datatype Query = Query(page: int, limit: int, search: string, sort: string, category: string)

  /** The reply's body: `products` and `totalPages` may be missing; a `totalPages` of 0 counts as missing. */
  datatype ListReply = ListThrows | ListBody(products: Option<seq<ListedProduct>>, totalPages: Option<int>)

  /** The requests of the page besides the listing. */
  datatype CartRequest = AddToCart(product: ListedProduct, quantity: int)

  /** The debounce delay: 500 ms while a search term is typed, otherwise none. */
  function FetchDelay(searchTerm: string): (ms: int)
    ensures searchTerm != "" ==> ms == SearchDelayMs
    ensures searchTerm == "" ==> ms == 0
  {
    if searchTerm != "" then SearchDelayMs else 0
  }

  function Differs(productId: int): int -> bool
  {
    (id: int) => id != productId
  }

  /** toggleWishlist: a listed id is removed (every copy), an absent one appended. */
  function ToggleWishlist(wishlist: seq<int>, productId: int): (r: seq<int>)
    ensures productId in r <==> productId !in wishlist
    ensures forall x :: x != productId ==> (x in r <==> x in wishlist)
    ensures productId !in wishlist ==> r == wishlist + [productId]
  {
    if productId in wishlist then
      var r := Seqs.Filter(wishlist, Differs(productId));
      assert productId !in r by {
        forall i | 0 <= i < |r| ensures r[i] != productId {
          assert Differs(productId)(r[i]);
        }
      }
      assert forall x :: x != productId && x in wishlist ==> x in r by {
        forall x | x != productId && x in wishlist ensures x in r {
          var i :| 0 <= i < |wishlist| && wishlist[i] == x;
          assert Differs(productId)(wishlist[i]);
        }
      }
      r
    else wishlist + [productId]
  }

  /** The wishlist stays duplicate-free. */
  lemma ToggleKeepsDistinct(wishlist: seq<int>, productId: int)
    requires Seqs.Distinct(wishlist)
    ensures Seqs.Distinct(ToggleWishlist(wishlist, productId))
  {
    if productId in wishlist {
      Seqs.FilterDistinct(wishlist, Differs(productId));
    } else {
      var r := wishlist + [productId];
      forall i, j | 0 <= i < j < |r| ensures r[i] != r[j] {
        if j == |wishlist| {
          assert r[i] == wishlist[i];
        }
      }
    }
  }

  /** Toggling twice restores membership of every id; from an unlisted id it restores the list itself. */
  lemma DoubleToggle(wishlist: seq<int>, productId: int)
    ensures forall x :: x in ToggleWishlist(ToggleWishlist(wishlist, productId), productId) <==> x in wishlist
    ensures productId !in wishlist ==> ToggleWishlist(ToggleWishlist(wishlist, productId), productId) == wishlist
  {
    if productId !in wishlist {
      var once := wishlist + [productId];
      Seqs.FilterAppend(wishlist, [productId], Differs(productId));
      Seqs.FilterAll(wishlist, Differs(productId));
      assert Seqs.Filter([productId], Differs(productId)) == [];
      assert ToggleWishlist(once, productId) == Seqs.Filter(once, Differs(productId));
    }
  }

  /** The shown page count: the reply's `totalPages`, or 1 when it is missing or 0. */
  function ShownPages(totalPages: Option<int>): (n: int)
    ensures totalPages.Some? && totalPages.value != 0 ==> n == totalPages.value
    ensures totalPages.None? || totalPages.value == 0 ==> n == 1
  {
    if totalPages.Some? && totalPages.value != 0 then totalPages.value else 1
  }

  class CataloguePage {
    var products: seq<ListedProduct>
    var loading: bool
    var searchTerm: string
    var sortBy: string
    var filterCategory: string
    var currentPage: int
    var totalPages: int
    var wishlist: seq<int>
    var categories: seq<string>

    /** The page opens on page 1 of one, sorted by name, with nothing filtered. */
    constructor()
      ensures products == [] && loading && searchTerm == "" && sortBy == "name" && filterCategory == ""
      ensures currentPage == 1 && totalPages == 1 && wishlist == [] && categories == []
    {
      products, loading := [], true;
      searchTerm, sortBy, filterCategory := "", "name", "";
      currentPage, totalPages := 1, 1;
      wishlist, categories := [], [];
    }

    /** The search box: the term changes and the list returns to page 1. */
    method SetSearch(term: string)
      modifies this`searchTerm, this`currentPage
      ensures searchTerm == term && currentPage == 1
    {
      searchTerm := term;
      currentPage := 1;
    }

    /** The category select: the filter changes and the list returns to page 1. */
    method SetCategory(category: string)
      modifies this`filterCategory, this`currentPage
      ensures filterCategory == category && currentPage == 1
    {
      filterCategory := category;
      currentPage := 1;
    }

    /** The sort select: the order changes and the list returns to page 1. */
    method SetSort(sort: string)
      modifies this`sortBy, this`currentPage
      ensures sortBy == sort && currentPage == 1
    {
      sortBy := sort;
      currentPage := 1;
    }

    /** The pagination control's `onPageChange`. */
    method PageChange(page: int)
      modifies this`currentPage
      ensures currentPage == page
    {
      currentPage := page;
    }

    /** The query fetchProducts sends: the current page, 12 per page, and the three inputs. */
    function CurrentQuery(): (q: Query)
      reads this
      ensures q.page == currentPage && q.limit == PageSize
      ensures q.search == searchTerm && q.sort == sortBy && q.category == filterCategory
    {
      Query(currentPage, PageSize, searchTerm, sortBy, filterCategory)
    }

    /**
     * fetchProducts: sends the current query; a reply replaces the list (or
     * empties it) and the page count (1 when missing or 0); an exception
     * keeps both. Loading ends either way.
     */
    method FetchProducts(reply: ListReply) returns (sent: Query)
      modifies this`products, this`totalPages, this`loading
      ensures sent == old(CurrentQuery())
      ensures reply.ListThrows? ==> products == old(products) && totalPages == old(totalPages)
      ensures reply.ListBody? ==> products == reply.products.GetOr([]) && totalPages == ShownPages(reply.totalPages)
      ensures !loading
    {
      loading := true;
      sent := CurrentQuery();
      if reply.ListBody? {
        products := if reply.products.Some? then reply.products.value else [];
        totalPages := ShownPages(reply.totalPages);
      }
      loading := false;
    }

    /** fetchCategories: the reply's category names, or the fallback list when the request fails. */
    method FetchCategories(reply: Fetch<Option<seq<string>>>)
      modifies this`categories
      ensures reply.Fetched? ==> categories == reply.data.GetOr([])
      ensures reply.FetchThrows? || reply.FetchRefused? ==> categories == FallbackCategories
    {
      if reply.Fetched? {
        categories := if reply.data.Some? then reply.data.value else [];
      } else {
        categories := FallbackCategories;
      }
    }

    /** The heart button. */
    method Toggle(productId: int)
      modifies this`wishlist
      ensures wishlist == ToggleWishlist(old(wishlist), productId)
    {
      wishlist := ToggleWishlist(wishlist, productId);
    }

    /** handleAddToCart: the grid always adds one unit. */
    method AddProductToCart(product: ListedProduct) returns (sent: CartRequest, toast: Toast)
      ensures sent == AddToCart(product, 1) && sent.quantity == 1
      ensures toast == ToastSuccess(product.name + " added to cart!")
    {
      sent := AddToCart(product, 1);
      toast := ToastSuccess(product.name + " added to cart!");
    }
  }
}
