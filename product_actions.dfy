/**
 * The product thunks of actions/productActions.js: each dispatches its
 * REQUEST action, makes one HTTP call, and dispatches SUCCESS with part of
 * the body or FAIL with the server's message. `getProducts` builds its URL
 * from the search parameters.
 */
module ProductActions {
  import opened Wrappers
  import opened Text
  import opened ProductConstants

  /**
   * The arguments of `getProducts(keyword = '', currentPage = 1, price, category, rating = 0)`;
   * numbers are given in the decimal form a template literal renders, `None` is undefined.
   */
  datatype Search = Search(
    keyword: Option<string>, currentPage: Option<string>, price: Option<seq<string>>,
    category: Option<string>, rating: Option<string>)

  /** `${price[i]}` */
  function Element(xs: seq<string>, i: nat): string {
    if i < |xs| then xs[i] else "undefined"
  }

  /** The part of the URL up to the price bounds, shared by both forms. */
  function SearchPrefix(q: Search, price: seq<string>): string {
    "/api/v1/products?keyword=" + q.keyword.GetOr("") + "&page=" + q.currentPage.GetOr("1")
      + "&price[lte]=" + Element(price, 1) + "&price[gte]=" + Element(price, 0)
  }

  /** The URL `getProducts` requests; `None` when `price` is undefined and indexing it throws. */
  function ProductsUrl(q: Search): (url: Option<string>)
    ensures url.None? <==> q.price.None?
  {
    if q.price.None? then None
    else
      var prefix := SearchPrefix(q, q.price.value);
      var ratings := "&ratings[gte]=" + q.rating.GetOr("0");
      if Truthy(q.category) then Some(prefix + "&category=" + q.category.value + ratings)
      else Some(prefix + ratings)
  }

  /**
   * Without a category (undefined or empty) the URL lists the bounds upper
   * first: `price[lte]` takes `price[1]` and `price[gte]` takes `price[0]`.
   */
  lemma UrlWithoutCategory(keyword: string, page: string, lo: string, hi: string, rating: string, category: Option<string>)
    requires !Truthy(category)
    ensures ProductsUrl(Search(Some(keyword), Some(page), Some([lo, hi]), category, Some(rating)))
      == Some("/api/v1/products?keyword=" + keyword + "&page=" + page + "&price[lte]=" + hi + "&price[gte]=" + lo
              + "&ratings[gte]=" + rating)
  {
    var q := Search(Some(keyword), Some(page), Some([lo, hi]), category, Some(rating));
    var prefix := SearchPrefix(q, [lo, hi]);
    assert prefix == "/api/v1/products?keyword=" + keyword + "&page=" + page + "&price[lte]=" + hi + "&price[gte]=" + lo;
    assert ProductsUrl(q) == Some(prefix + ("&ratings[gte]=" + rating));
    assert prefix + ("&ratings[gte]=" + rating) == prefix + "&ratings[gte]=" + rating;
  }

  /** The defaults: omitted arguments behave as an empty keyword, page 1 and rating 0. */
  lemma SearchDefaults(price: Option<seq<string>>, category: Option<string>)
    ensures ProductsUrl(Search(None, None, price, category, None)) == ProductsUrl(Search(Some(""), Some("1"), price, category, Some("0")))
  {
  }

  /**
   * A truthy category inserts `&category=<category>` right before
   * `&ratings[gte]`, and the URL is otherwise the one without it.
   */
  lemma CategoryInsertedBeforeRatings(q: Search, category: string)
    requires q.price.Some? && category != ""
    ensures var without := ProductsUrl(q.(category := None)).value;
      var with := ProductsUrl(q.(category := Some(category))).value;
      exists n :: 0 <= n <= |without| && with == without[..n] + "&category=" + category + without[n..]
        && without[n..] == "&ratings[gte]=" + q.rating.GetOr("0")
  {
    var without := ProductsUrl(q.(category := None)).value;
    var prefix := SearchPrefix(q, q.price.value);
    assert SearchPrefix(q.(category := None), q.price.value) == prefix;
    assert SearchPrefix(q.(category := Some(category)), q.price.value) == prefix;
    var n := |prefix|;
    assert without[..n] == prefix && without[n..] == "&ratings[gte]=" + q.rating.GetOr("0");
  }

  /** The HTTP calls the thunks make, by method and URL (bodies and headers are not modelled). */
  datatype Call = Get(url: string) | Post(url: string) | Put(url: string)

  /** How the call ends: the response `data`, or an error with its `response` (absent when none arrived). */
  datatype Fetch = Fetched(data: Response) | Failed(response: Option<Response>)

  /** The thunks: the action creators with their arguments. */
  datatype Thunk = GetProducts(search: Search) | NewProduct | GetProductDetails(id: string) | NewReview | GetAdminProducts | ClearErrorsThunk

  /** The call each thunk makes; `None` when it throws before calling (or, for CLEAR_ERRORS, makes none). */
  function CallOf(t: Thunk): Option<Call> {
    match t
    case GetProducts(q) => if ProductsUrl(q).Some? then Some(Get(ProductsUrl(q).value)) else None
    case NewProduct => Some(Post("/api/v1/product/new"))
    case GetProductDetails(id) => Some(Get("/api/v1/product/" + id))
    case NewReview => Some(Put("/api/v1/review"))
    case GetAdminProducts => Some(Get("/api/v1/admin/products"))
    case ClearErrorsThunk => None
  }

  function RequestAction(t: Thunk): Action {
    match t
    case GetProducts(_) => AllProductsRequest
    case NewProduct => NewReviewRequest
    case GetProductDetails(_) => ProductDetailsRequest
    case NewReview => NewReviewRequest
    case GetAdminProducts => AdminProductsRequest
    case ClearErrorsThunk => ClearErrors
  }

  function SuccessAction(t: Thunk, data: Response): Action {
    match t
    case GetProducts(_) => AllProductsSuccess(data)
    case NewProduct => NewReviewSuccess(WholeBody(data))
    case GetProductDetails(_) => ProductDetailsSuccess(data.product)
    case NewReview => NewReviewSuccess(SuccessFlag(data.success))
    case GetAdminProducts => AdminProductsSuccess(data.products)
    case ClearErrorsThunk => ClearErrors
  }

  function FailAction(t: Thunk, message: Option<string>): Action {
    match t
    case GetProducts(_) => AllProductsFail(message)
    case NewProduct => NewReviewFail(message)
    case GetProductDetails(_) => ProductDetailsFail(message)
    case NewReview => NewReviewFail(message)
    case GetAdminProducts => AdminProductsFail(message)
    case ClearErrorsThunk => ClearErrors
  }

  /** What one run of a thunk does: the call it makes, the actions it dispatches, whether its promise rejects. */
  datatype Trace = Trace(call: Option<Call>, actions: seq<Action>, rejected: bool)

  /**
   * The catch block reads `error.response.data.message`; when the error has
   * no `response` (no answer arrived, or the URL could not be built) that
   * read throws and the promise rejects with only REQUEST dispatched.
   */
  function Run(t: Thunk, server: Call -> Fetch): (r: Trace)
    ensures r.call == CallOf(t)
    ensures t.ClearErrorsThunk? ==> r == Trace(None, [ClearErrors], false)
    ensures !t.ClearErrorsThunk? ==> 1 <= |r.actions| <= 2 && r.actions[0] == RequestAction(t) && (|r.actions| == 1 <==> r.rejected)
  {
    if t.ClearErrorsThunk? then Trace(None, [ClearErrors], false)
    else
      match CallOf(t)
      case None => Trace(None, [RequestAction(t)], true)
      case Some(c) =>
        match server(c)
        case Fetched(data) => Trace(Some(c), [RequestAction(t), SuccessAction(t, data)], false)
        case Failed(None) => Trace(Some(c), [RequestAction(t)], true)
        case Failed(Some(body)) => Trace(Some(c), [RequestAction(t), FailAction(t, body.message)], false)
  }

  /**
   * Every request thunk dispatches its REQUEST first and then exactly one of
   * SUCCESS (with the body's data) or FAIL (with the server's message),
   * unless its promise rejects.
   */
  lemma RequestThenOneOutcome(t: Thunk, server: Call -> Fetch)
    requires !t.ClearErrorsThunk?
    ensures var r := Run(t, server);
      && 1 <= |r.actions| <= 2 && r.actions[0] == RequestAction(t)
      && (|r.actions| == 1 <==> r.rejected)
      && (r.rejected <==> r.call.None? || server(r.call.value) == Failed(None))
    ensures var r := Run(t, server);
      r.call.Some? && server(r.call.value).Fetched? ==> r.actions == [RequestAction(t), SuccessAction(t, server(r.call.value).data)]
    ensures var r := Run(t, server);
      r.call.Some? && server(r.call.value).Failed? && server(r.call.value).response.Some? ==>
        r.actions == [RequestAction(t), FailAction(t, server(r.call.value).response.value.message)]
  {
  }

  /** `newProduct` posts to the product route but dispatches the NEW_REVIEW_* actions. */
  lemma NewProductDispatchesReviewActions(server: Call -> Fetch)
    ensures Run(NewProduct, server).call == Some(Post("/api/v1/product/new"))
    ensures Run(NewProduct, server).actions[0] == NewReviewRequest
    ensures forall a :: a in Run(NewProduct, server).actions ==> a.NewReviewRequest? || a.NewReviewSuccess? || a.NewReviewFail?
  {
  }

  /** The details thunk delivers `data.product`, the admin thunk `data.products`. */
  lemma SuccessPayloads(id: string, data: Response)
    ensures SuccessAction(GetProductDetails(id), data) == ProductDetailsSuccess(data.product)
    ensures SuccessAction(GetAdminProducts, data) == AdminProductsSuccess(data.products)
    ensures CallOf(GetProductDetails(id)) == Some(Get("/api/v1/product/" + id))
  {
  }

  /** Without a price the thunk throws before any call, and only REQUEST reaches the store. */
  lemma MissingPriceRejects(q: Search, server: Call -> Fetch)
    requires q.price.None?
    ensures Run(GetProducts(q), server) == Trace(None, [AllProductsRequest], true)
  {
  }

  /** The store's `dispatch` log and the calls made through axios. */
  class Store {
    var log: seq<Action>
    var calls: seq<Call>

    constructor ()
      ensures log == [] && calls == []
    {
      log, calls := [], [];
    }

    method Dispatch(a: Action)
      modifies this`log
      ensures log == old(log) + [a]
    {
      log := log + [a];
    }

    /** Run a thunk against `server`, appending what it dispatches to the log. */
    method Perform(t: Thunk, server: Call -> Fetch) returns (rejected: bool)
      modifies this
      ensures log == old(log) + Run(t, server).actions
      ensures calls == old(calls) + (if CallOf(t).Some? then [CallOf(t).value] else [])
      ensures rejected == Run(t, server).rejected
    {
      if t.ClearErrorsThunk? {
        Dispatch(ClearErrors);
        return false;
      }
      Dispatch(RequestAction(t));
      var call := CallOf(t);
      if call.None? {
        return true;
      }
      calls := calls + [call.value];
      var outcome := server(call.value);
      match outcome
      case Fetched(data) =>
        Dispatch(SuccessAction(t, data));
        rejected := false;
      case Failed(response) =>
        if response.None? {
          return true;
        }
        Dispatch(FailAction(t, response.value.message));
        rejected := false;
    }
  }
}
