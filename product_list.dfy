/** The product list: one page of products from the server, out-of-stock
    products marked inactive, a local delete, a search box and four paging
    buttons. */
module Products {
  import opened Wrappers
  import opened JsValue
  import opened Web
  import opened Rows

  /** The part of a successful reply the list reads: `data.products`,
      `data.page`, `data.totalPages` and `data.pageSize`. */
  datatype ProductPage = ProductPage(products: seq<Record>, page: int, totalPages: int, pageSize: int)

  /** `product.current_stock_level === 0` */
  predicate OutOfStock(p: Record) {
    StrictEq(Prop(p, "current_stock_level"), Num(0))
  }

  /** The callback of the `map`: an out-of-stock product gets `status: false`,
      any other product is returned as it is. */
  function MarkProduct(p: Record): (q: Record)
    ensures OutOfStock(p) ==> q.Keys == p.Keys + {"status"} && q["status"] == Bool(false)
    ensures OutOfStock(p) ==> forall k :: k in p && k != "status" ==> q[k] == p[k]
    ensures !OutOfStock(p) ==> q == p
  {
    if OutOfStock(p) then p["status" := Bool(false)] else p
  }

  /** `data.products.map(...)` */
  function MarkOutOfStock(products: seq<Record>): (marked: seq<Record>)
    ensures |marked| == |products|
    ensures forall i :: 0 <= i < |products| ==> marked[i] == MarkProduct(products[i])
  {
    seq(|products|, i requires 0 <= i < |products| => MarkProduct(products[i]))
  }

  /** Every product with stock 0 is shown inactive, and only `status` can
      differ from what the server sent; every other product is unchanged. */
  lemma MarkOutOfStockMeaning(products: seq<Record>, i: nat)
    requires i < |products|
    ensures OutOfStock(products[i]) ==>
      Prop(MarkOutOfStock(products)[i], "status") == Bool(false) &&
      forall k :: k != "status" ==> Prop(MarkOutOfStock(products)[i], k) == Prop(products[i], k)
    ensures !OutOfStock(products[i]) ==> MarkOutOfStock(products)[i] == products[i]
  {
  }

  /** Marking works product by product: it commutes with splitting the list, so
      the order of the products is kept. */
  lemma MarkOutOfStockAppend(a: seq<Record>, b: seq<Record>)
    ensures MarkOutOfStock(a + b) == MarkOutOfStock(a) + MarkOutOfStock(b)
  {
  }

  /** A stock of 0 sent as the string "0" is not `=== 0`: such a product keeps
      its status. */
  lemma StringZeroStockUnmarked(p: Record)
    requires Prop(p, "current_stock_level") == Str("0")
    ensures MarkProduct(p) == p
  {
  }

  /** The four paging buttons. */
  datatype NavButton = First | Previous | Next | Last

  /** The `disabled` attribute of each button. */
  predicate Disabled(b: NavButton, page: int, totalPages: int) {
    match b
    case First => page == 1
    case Previous => page == 1
    case Next => page == totalPages
    case Last => page == totalPages
  }

  /** The page a click on an enabled button asks for. */
  function Target(b: NavButton, page: int, totalPages: int): int {
    match b
    case First => 1
    case Previous => page - 1
    case Next => page + 1
    case Last => totalPages
  }

  /** A page that exists. */
  predicate InRange(page: int, totalPages: int) {
    1 <= page <= totalPages
  }

  /** From a page that exists, every enabled button leads to a page that
      exists; so the buttons alone never leave the range. */
  lemma PressKeepsRange(b: NavButton, page: int, totalPages: int)
    requires InRange(page, totalPages) && !Disabled(b, page, totalPages)
    ensures InRange(Target(b, page, totalPages), totalPages)
  {
  }

  /** On a page that exists, Previous and Next are disabled exactly when they
      would leave the range, and First and Last exactly when they would stay
      where they are. */
  lemma DisabledMeaning(b: NavButton, page: int, totalPages: int)
    requires InRange(page, totalPages)
    ensures (b == Previous || b == Next) ==>
      (Disabled(b, page, totalPages) <==> !InRange(Target(b, page, totalPages), totalPages))
    ensures (b == First || b == Last) ==>
      (Disabled(b, page, totalPages) <==> Target(b, page, totalPages) == page)
  {
  }

  /** `http://localhost:9000/products?page=${page}&query=${query}` */
  function ProductsUrl(page: int, query: string): string {
    Server + "/products?page=" + ToStr(Num(page)) + "&query=" + query
  }

  /** `http://localhost:9000/products/${id}` */
  function ProductUrl(id: Value): string {
    Server + "/products/" + ToStr(id)
  }

  /** What the page renders, in order of precedence. */
  datatype Screen = Loading | ErrorBanner(message: Value) | NoProducts | Listing

  class ProductList {
    var products: seq<Record>
    var error: Value
    var loading: bool
    /** `decoded.isAdmin`, as the token carries it. */
    var isAdmin: Value
    /** The search box (`localSearchQuery`). */
    var localSearchQuery: string
    /** `searchQueryRef.current`, which the fetch reads. */
    var searchQuery: string
    var page: int
    var totalPages: int
    var pageSize: int
    /** Every request issued, oldest first. */
    var requests: seq<Request>
    /** The route `navigate` last went to. */
    var location: Option<string>

    /** The initial state: no products, loading, not admin, page 1 of 1, 12 per page. */
    constructor ()
      ensures products == [] && error == Str("") && loading && isAdmin == Bool(false)
      ensures localSearchQuery == "" && searchQuery == ""
      ensures page == 1 && totalPages == 1 && pageSize == 12 && InRange(page, totalPages)
      ensures requests == [] && location == None
    {
      products, error, loading, isAdmin := [], Str(""), true, Bool(false);
      localSearchQuery, searchQuery := "", "";
      page, totalPages, pageSize := 1, 1, 12;
      requests, location := [], None;
    }

    /** What `fetchProducts` does with the reply: adopt the server's products,
        marked, and its paging; 401 goes to login; any other status shows an
        error. */
    method Apply(reply: Reply<ProductPage>)
      modifies this`products, this`page, this`totalPages, this`pageSize, this`error, this`location
      ensures reply.Ok() && reply.body.Some? ==>
        var d := reply.body.value;
        products == MarkOutOfStock(d.products) && page == d.page && totalPages == d.totalPages &&
        pageSize == d.pageSize && error == old(error) && location == old(location)
      ensures !(reply.Ok() && reply.body.Some?) ==>
        products == old(products) && page == old(page) && totalPages == old(totalPages) &&
        pageSize == old(pageSize)
      ensures reply.Replied? && reply.status == 401 ==> location == Some("/login") && error == old(error)
      ensures reply.Replied? && !reply.Ok() && reply.status != 401 ==>
        error == Str("Failed to fetch products") && location == old(location)
      ensures reply.Unreachable? || (reply.Ok() && reply.body.None?) ==>
        error == Str(NetworkError) && location == old(location)
    {
      if reply.Unreachable? {
        error := Str(NetworkError);
      } else if reply.Ok() {
        if reply.body.None? {
          error := Str(NetworkError);
        } else {
          var d := reply.body.value;
          products := MarkOutOfStock(d.products);
          totalPages, page, pageSize := d.totalPages, d.page, d.pageSize;
        }
      } else if reply.status == 401 {
        location := Some("/login");
      } else {
        error := Str("Failed to fetch products");
      }
    }

    /** `fetchProducts`: without a token go to login and request nothing; with
        one, take `isAdmin` from its claims (`None` when it does not decode),
        request the current page for the current query and apply the reply;
        loading ends in every case. */
    method FetchProducts(token: Option<string>, claims: Option<Claims>, reply: Reply<ProductPage>)
      modifies this`products, this`page, this`totalPages, this`pageSize, this`error, this`location,
        this`loading, this`isAdmin, this`requests
      ensures !loading
      ensures (token.None? || token.value == "") ==>
        location == Some("/login") && requests == old(requests) && products == old(products) &&
        page == old(page) && totalPages == old(totalPages) && pageSize == old(pageSize) &&
        isAdmin == old(isAdmin) && error == old(error)
      ensures token.Some? && token.value != "" && claims.None? ==>
        error == Str(NetworkError) && requests == old(requests) && products == old(products) &&
        page == old(page) && totalPages == old(totalPages) && pageSize == old(pageSize) &&
        isAdmin == old(isAdmin) && location == old(location)
      ensures token.Some? && token.value != "" && claims.Some? ==>
        isAdmin == claims.value.isAdmin &&
        requests == old(requests) + [Request(GET, ProductsUrl(old(page), searchQuery), None)]
      ensures token.Some? && token.value != "" && claims.Some? && reply.Ok() && reply.body.Some? ==>
        products == MarkOutOfStock(reply.body.value.products) && page == reply.body.value.page &&
        totalPages == reply.body.value.totalPages && pageSize == reply.body.value.pageSize &&
        error == old(error) && location == old(location)
      ensures token.Some? && token.value != "" && claims.Some? && !(reply.Ok() && reply.body.Some?) ==>
        products == old(products) && page == old(page) && totalPages == old(totalPages) &&
        pageSize == old(pageSize)
      ensures token.Some? && token.value != "" && claims.Some? && reply.Replied? && reply.status == 401 ==>
        location == Some("/login") && error == old(error)
      ensures (token.Some? && token.value != "" && claims.Some? && reply.Replied? && !reply.Ok() &&
               reply.status != 401) ==>
        error == Str("Failed to fetch products") && location == old(location)
      ensures (token.Some? && token.value != "" && claims.Some? &&
               (reply.Unreachable? || (reply.Ok() && reply.body.None?))) ==>
        error == Str(NetworkError) && location == old(location)
    {
      loading := true;
      if token.None? || token.value == "" {
        location := Some("/login");
      } else if claims.None? {
        error := Str(NetworkError);
      } else {
        isAdmin := claims.value.isAdmin;
        requests := requests + [Request(GET, ProductsUrl(page, searchQuery), None)];
        Apply(reply);
      }
      loading := false;
    }

    /** `handleDelete(id)`: send the DELETE; once it resolves, whatever the
        status, drop every product with that `_id`; if it rejects, show an error
        and keep the list. */
    method HandleDelete(id: Value, reply: Reply<Record>)
      modifies this`products, this`error, this`requests
      ensures requests == old(requests) + [Request(DELETE, ProductUrl(id), None)]
      ensures reply.Replied? ==> products == RemoveId(old(products), id) && error == old(error)
      ensures reply.Unreachable? ==> products == old(products) && error == Str("Failed to delete product.")
    {
      requests := requests + [Request(DELETE, ProductUrl(id), None)];
      if reply.Replied? {
        products := RemoveId(products, id);
      } else {
        error := Str("Failed to delete product.");
      }
    }

    /** `handleSearchChange`: the box and the query the next fetch uses both
        take the text. */
    method HandleSearchChange(value: string)
      modifies this`localSearchQuery, this`searchQuery
      ensures localSearchQuery == value && searchQuery == value
    {
      localSearchQuery, searchQuery := value, value;
    }

    /** `handlePageChange(newPage)` */
    method HandlePageChange(newPage: int)
      modifies this`page
      ensures page == newPage
    {
      page := newPage;
    }

    /** `handleFirstPage` */
    method HandleFirstPage()
      modifies this`page
      ensures page == 1
    {
      page := 1;
    }

    /** `handleLastPage` */
    method HandleLastPage()
      modifies this`page
      ensures page == totalPages
    {
      page := totalPages;
    }

    /** A click on an enabled paging button, wired as the buttons are: First
        and Last to their handlers, Previous and Next to `handlePageChange`.
        A page that exists stays one that exists. */
    method Press(b: NavButton)
      requires !Disabled(b, page, totalPages)
      modifies this`page
      ensures page == Target(b, old(page), totalPages)
      ensures InRange(old(page), totalPages) ==> InRange(page, totalPages)
    {
      if InRange(page, totalPages) {
        PressKeepsRange(b, page, totalPages);
      }
      match b
      case First => HandleFirstPage();
      case Previous => HandlePageChange(page - 1);
      case Next => HandlePageChange(page + 1);
      case Last => HandleLastPage();
    }

    /** What the page renders: loading, then the error, then the table with
        its paging buttons when there are products. */
    function Render(): (s: Screen)
      reads this`loading, this`error, this`products
      ensures s == Loading <==> loading
      ensures s.ErrorBanner? <==> !loading && Truthy(error)
      ensures s == Listing <==> !loading && !Truthy(error) && |products| > 0
      ensures s == NoProducts <==> !loading && !Truthy(error) && products == []
    {
      if loading then Loading
      else if Truthy(error) then ErrorBanner(error)
      else if |products| > 0 then Listing
      else NoProducts
    }
  }
}
