/**
 * The request handler of the proxy function
 * (supabase/functions/printify-products/index.ts): a chain of early
 * returns over the outcomes of the two upstream calls. The network, the
 * environment and the logs are abstracted into an `Upstream` value that
 * says what each step produced.
 */
module Proxy {
  import opened Wrappers
  import opened JsArray
  import opened Catalog

  /** The four generic messages a client may see; internal details never leave the function. */
  const ConfigError := "Service configuration error"
  const FetchShopsError := "Unable to load store information"
  const FetchProductsError := "Unable to load products"
  const InternalError := "An unexpected error occurred"
  const ClientErrors: set<string> := {ConfigError, FetchShopsError, FetchProductsError, InternalError}

  datatype Shop = Shop(id: int)

  /**
   * What an upstream call produced: it threw (a network failure, a body
   * that is not JSON, or a failing read of an error response's text), it
   * answered with a status outside 200-299 whose text was read, or it
   * answered successfully with a parsed body.
   */
  datatype Fetched<T> = Threw | NotOk(status: int) | Ok(payload: T)

  /** The parsed products body: JSON `null`, or an object whose `data` field may be missing. */
  datatype ProductsPage = NullPage | Page(data: Option<seq<RawProduct>>)

  /**
   * Everything the handler observes: the API token from the environment,
   * the shops call (whose parsed body is `null` or an array), and the
   * products call for each shop id it may be made with.
   */
  datatype Upstream = Upstream(
    token: Option<string>,
    shops: Fetched<Option<seq<Shop>>>,
    productsOf: int -> Fetched<ProductsPage>)

  datatype Body = NoBody | ErrorBody(error: string) | CatalogBody(products: seq<Product>, shopId: Option<int>)

  /**
   * A response: its status, whether it carries the JSON content type next
   * to the CORS headers every response has, and its body.
   */
  datatype Response = Response(status: int, json: bool, body: Body)

  function Error(status: int, message: string): Response
  {
    Response(status, true, ErrorBody(message))
  }

  /** `!PRINTIFY_API_TOKEN`: the token is missing or empty. */
  predicate MissingToken(token: Option<string>)
  {
    token.None? || token.value == ""
  }

  /** The steps after the shop list is known: the empty check, then the products call for the first shop. */
  function FromShops(up: Upstream, shops: seq<Shop>): (r: Response)
    ensures r.json
    ensures r.body.ErrorBody? ==> r.body.error in ClientErrors
    ensures r.status == 200 <==> r.body.CatalogBody?
    ensures r.body.ErrorBody? <==> r.status != 200
  {
    if |shops| == 0 then Response(200, true, CatalogBody([], None))
    else
      var shopId := shops[0].id;
      match up.productsOf(shopId)
      case Threw => Error(500, InternalError)
      case NotOk(_) => Error(502, FetchProductsError)
      case Ok(NullPage) => Error(500, InternalError)
      case Ok(Page(data)) =>
        var raw := if data.Some? then data.value else [];
        Response(200, true, CatalogBody(Map(NormalizeProduct, raw), Some(shopId)))
  }

  /**
   * The handler as written. A `null` shops body reaches `shops.length`
   * in the log line before the `!shops` guard, so it throws and ends in
   * the internal error.
   */
  function Serve(verb: string, up: Upstream): (r: Response)
    ensures verb == "OPTIONS" ==> r == Response(200, false, NoBody)
    ensures verb != "OPTIONS" ==> r.json && !r.body.NoBody?
    ensures r.body.ErrorBody? ==> r.body.error in ClientErrors
    ensures r.body.ErrorBody? <==> r.status != 200
    ensures r.body.ErrorBody? ==> r.status == 500 || r.status == 502
  {
    if verb == "OPTIONS" then Response(200, false, NoBody)
    else if MissingToken(up.token) then Error(500, ConfigError)
    else
      match up.shops
      case Threw => Error(500, InternalError)
      case NotOk(_) => Error(502, FetchShopsError)
      case Ok(None) => Error(500, InternalError)
      case Ok(Some(shops)) => FromShops(up, shops)
  }

  /** The handler with the `!shops` guard reached: a `null` shops body is treated like an empty list. */
  function ServeGuarded(verb: string, up: Upstream): (r: Response)
    ensures up.shops != Ok(None) ==> r == Serve(verb, up)
  {
    if verb != "OPTIONS" && !MissingToken(up.token) && up.shops == Ok(None) then FromShops(up, [])
    else Serve(verb, up)
  }

  // ---------------------------------------------------------------- properties

  /** Without a token nothing is fetched: the response is the configuration error, whatever upstream would say. */
  lemma MissingTokenResponse(verb: string, up: Upstream)
    requires verb != "OPTIONS" && MissingToken(up.token)
    ensures Serve(verb, up) == Error(500, ConfigError)
  {
  }

  /** A failed shops call is a 502 whatever its status; a throwing one is the internal error. */
  lemma ShopsFailure(verb: string, up: Upstream)
    requires verb != "OPTIONS" && !MissingToken(up.token)
    ensures up.shops.NotOk? ==> Serve(verb, up) == Error(502, FetchShopsError)
    ensures up.shops.Threw? ==> Serve(verb, up) == Error(500, InternalError)
  {
  }

  /** No shops: an empty catalog with a null shop id, and the products call is never consulted. */
  lemma EmptyShops(verb: string, up: Upstream, other: int -> Fetched<ProductsPage>)
    requires verb != "OPTIONS" && !MissingToken(up.token) && up.shops == Ok(Some([]))
    ensures Serve(verb, up) == Response(200, true, CatalogBody([], None))
    ensures Serve(verb, up.(productsOf := other)) == Serve(verb, up)
  {
  }

  /** Only the first shop matters: its id selects the products call and the rest of the list is ignored. */
  lemma FirstShopOnly(verb: string, up: Upstream, first: Shop, rest: seq<Shop>, rest': seq<Shop>,
                      other: int -> Fetched<ProductsPage>)
    requires up.shops == Ok(Some([first] + rest))
    requires other(first.id) == up.productsOf(first.id)
    ensures Serve(verb, up) == Serve(verb, up.(shops := Ok(Some([first] + rest')), productsOf := other))
  {
  }

  /** A failed products call is a 502 whatever its status; a throwing one or a `null` body is the internal error. */
  lemma ProductsFailure(verb: string, up: Upstream, shops: seq<Shop>)
    requires verb != "OPTIONS" && !MissingToken(up.token) && up.shops == Ok(Some(shops)) && shops != []
    ensures up.productsOf(shops[0].id).NotOk? ==> Serve(verb, up) == Error(502, FetchProductsError)
    ensures up.productsOf(shops[0].id).Threw? ==> Serve(verb, up) == Error(500, InternalError)
    ensures up.productsOf(shops[0].id) == Ok(NullPage) ==> Serve(verb, up) == Error(500, InternalError)
  {
  }

  /**
   * Success: every raw product, in order, normalised; a missing `data`
   * field gives an empty catalog; the shop id is the first shop's.
   */
  lemma CatalogResponse(verb: string, up: Upstream, shops: seq<Shop>, data: Option<seq<RawProduct>>)
    requires verb != "OPTIONS" && !MissingToken(up.token) && up.shops == Ok(Some(shops)) && shops != []
    requires up.productsOf(shops[0].id) == Ok(Page(data))
    ensures var r := Serve(verb, up);
      && r.status == 200
      && r.body == CatalogBody(r.body.products, Some(shops[0].id))
      && (data.None? ==> r.body.products == [])
      && (data.Some? ==> |r.body.products| == |data.value|)
      && (forall i :: data.Some? && 0 <= i < |data.value| ==> r.body.products[i] == NormalizeProduct(data.value[i]))
  {
  }

  /** As written, a `null` shops body ends in the internal error, not in the empty catalog the guard was written for. */
  lemma NullShopsAsWritten(up: Upstream)
    requires !MissingToken(up.token) && up.shops == Ok(None)
    ensures Serve("GET", up) == Error(500, InternalError)
    ensures Serve("GET", up.(shops := Ok(Some([])))) == Response(200, true, CatalogBody([], None))
  {
  }

  /** With the guard reached, a `null` shops body gives the same empty catalog as an empty list. */
  lemma NullShopsGuarded(verb: string, up: Upstream)
    requires verb != "OPTIONS" && !MissingToken(up.token) && up.shops == Ok(None)
    ensures ServeGuarded(verb, up) == Response(200, true, CatalogBody([], None))
    ensures ServeGuarded(verb, up) == ServeGuarded(verb, up.(shops := Ok(Some([]))))
  {
  }
}
