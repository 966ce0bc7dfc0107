/**
  The control logic of the product viewset: which permission class each
  action gets, how `create`, `update` and `destroy` turn exceptions into
  responses, and the cache-aside read path of `list`. The query behind
  `list` and the exceptions that reach the handlers are parameters.
 */
module Views {
  import opened Wrappers

  /** A response payload, with Python's truthiness. */
  datatype Json =
    | Null
    | Bool(b: bool)
    | Number(n: int)
    | Str(s: string)
    | Array(items: seq<Json>)
    | Object(fields: map<string, Json>)

  predicate Truthy(j: Json) {
    match j
    case Null => false
    case Bool(b) => b
    case Number(n) => n != 0
    case Str(s) => s != ""
    case Array(items) => items != []
    case Object(fields) => fields != map[]
  }

  datatype Response = Response(status: nat, body: Json)

  const HTTP_200_OK := 200
  const HTTP_400_BAD_REQUEST := 400
  const HTTP_404_NOT_FOUND := 404
  const HTTP_500_INTERNAL_SERVER_ERROR := 500

  /** The body `{"detail": message}`. */
  function Detail(message: string): Json {
    Object(map["detail" := Str(message)])
  }

  // Permissions

  datatype Permission = IsAuthenticated | IsAuthenticatedOrReadOnly

  /** `get_permissions`: `IsAuthenticated` for `create`, `update` and `destroy`, read-only access otherwise. */
  function GetPermissions(action: Option<string>): (r: seq<Permission>)
    ensures |r| == 1
    ensures r[0] == IsAuthenticated <==> action in {Some("create"), Some("update"), Some("destroy")}
  {
    if action.Some? && action.value in ["create", "update", "destroy"] then [IsAuthenticated]
    else [IsAuthenticatedOrReadOnly]
  }

  const SafeMethods: set<string> := {"GET", "HEAD", "OPTIONS"}

  /** `has_permission` of the two permission classes. */
  predicate Allows(p: Permission, verb: string, authenticated: bool) {
    match p
    case IsAuthenticated => authenticated
    case IsAuthenticatedOrReadOnly => verb in SafeMethods || authenticated
  }

  predicate AllAllow(ps: seq<Permission>, verb: string, authenticated: bool) {
    forall i :: 0 <= i < |ps| ==> Allows(ps[i], verb, authenticated)
  }

  /** The action the router dispatches an HTTP method to, on the list route and on the detail route. */
  predicate Routed(action: string, verb: string) {
    || (action == "list" && verb in {"GET", "HEAD"})
    || (action == "create" && verb == "POST")
    || (action == "retrieve" && verb in {"GET", "HEAD"})
    || (action == "update" && verb == "PUT")
    || (action == "partial_update" && verb == "PATCH")
    || (action == "destroy" && verb == "DELETE")
    || (action == "metadata" && verb == "OPTIONS")
  }

  /**
    For every request the router dispatches, an anonymous caller is let
    through exactly on a safe method, and an authenticated one always: the
    read-only class that `partial_update` falls to still demands a login for
    `PATCH`.
   */
  lemma AnonymousOnlyReads(action: string, verb: string)
    requires Routed(action, verb)
    ensures AllAllow(GetPermissions(Some(action)), verb, false) <==> verb in SafeMethods
    ensures AllAllow(GetPermissions(Some(action)), verb, true)
  {
    var ps := GetPermissions(Some(action));
    assert AllAllow(ps, verb, false) <==> Allows(ps[0], verb, false);
  }

  // Exception to response mapping

  /** The exceptions that can reach the handlers; `text` is `str(e)`. */
  datatype Raised = ValueError(text: string) | NotFound(text: string) | OtherError(text: string)

  /** What the generic `create`, `update` or `destroy` did: a response, or an exception. */
  datatype Outcome = Returned(response: Response) | Raised(exception: Raised)

  const CreateFailed := "An error occurred during product creation."
  const UpdateFailedPrefix := "An error occurred during product update: "
  const DestroyFailedPrefix := "An error occurred during product deletion: "

  /** `"Product with ID {pk} not found."` */
  function NotFoundMessage(pk: string): string {
    "Product with ID " + pk + " not found."
  }

  /** `create`: a `ValueError` becomes 400 with its text; any other exception 500 with a fixed text. */
  function HandleCreate(o: Outcome): (r: Response)
    ensures o.Returned? ==> r == o.response
    ensures o.Raised? && o.exception.ValueError? ==> r == Response(HTTP_400_BAD_REQUEST, Detail(o.exception.text))
    ensures o.Raised? && !o.exception.ValueError? ==> r == Response(HTTP_500_INTERNAL_SERVER_ERROR, Detail(CreateFailed))
  {
    match o
    case Returned(response) => response
    case Raised(ValueError(text)) => Response(HTTP_400_BAD_REQUEST, Detail(text))
    case Raised(_) => Response(HTTP_500_INTERNAL_SERVER_ERROR, Detail(CreateFailed))
  }

  /** `update` and `destroy`: `NotFound` becomes 404 naming the key; any other exception 500 with its text. */
  function HandleDetailWrite(failedPrefix: string, pk: string, o: Outcome): (r: Response)
    ensures o.Returned? ==> r == o.response
    ensures o.Raised? && o.exception.NotFound? ==> r == Response(HTTP_404_NOT_FOUND, Detail(NotFoundMessage(pk)))
    ensures o.Raised? && !o.exception.NotFound? ==>
      r == Response(HTTP_500_INTERNAL_SERVER_ERROR, Detail(failedPrefix + o.exception.text))
  {
    match o
    case Returned(response) => response
    case Raised(NotFound(_)) => Response(HTTP_404_NOT_FOUND, Detail(NotFoundMessage(pk)))
    case Raised(e) => Response(HTTP_500_INTERNAL_SERVER_ERROR, Detail(failedPrefix + e.text))
  }

  /** `update`: 404 naming the key for `NotFound`; 500 echoing the text of anything else, `ValueError` included. */
  function HandleUpdate(pk: string, o: Outcome): (r: Response)
    ensures o.Returned? ==> r == o.response
    ensures o.Raised? ==> r.status == if o.exception.NotFound? then HTTP_404_NOT_FOUND else HTTP_500_INTERNAL_SERVER_ERROR
    ensures o.Raised? && o.exception.NotFound? ==> r.body == Detail("Product with ID " + pk + " not found.")
    ensures o.Raised? && !o.exception.NotFound? ==>
      r.body == Detail("An error occurred during product update: " + o.exception.text)
  {
    HandleDetailWrite(UpdateFailedPrefix, pk, o)
  }

  /** `destroy`: the same mapping as `update`, with its own text for unexpected failures. */
  function HandleDestroy(pk: string, o: Outcome): (r: Response)
    ensures o.Returned? ==> r == o.response
    ensures o.Raised? ==> r.status == if o.exception.NotFound? then HTTP_404_NOT_FOUND else HTTP_500_INTERNAL_SERVER_ERROR
    ensures o.Raised? && o.exception.NotFound? ==> r.body == Detail("Product with ID " + pk + " not found.")
    ensures o.Raised? && !o.exception.NotFound? ==>
      r.body == Detail("An error occurred during product deletion: " + o.exception.text)
  {
    HandleDetailWrite(DestroyFailedPrefix, pk, o)
  }

  /** `create` never shows the text of an unexpected exception: all of them get one response. */
  lemma CreateHidesUnexpectedErrors(e1: Raised, e2: Raised)
    requires !e1.ValueError? && !e2.ValueError?
    ensures HandleCreate(Raised(e1)) == HandleCreate(Raised(e2))
  {
  }

  /**
    `update` and `destroy` echo the text of an unexpected exception: two
    such exceptions with different texts give different responses.
   */
  lemma {:induction false} DetailWritesEchoErrors(failedPrefix: string, pk: string, e1: Raised, e2: Raised)
    requires !e1.NotFound? && !e2.NotFound? && e1.text != e2.text
    ensures HandleDetailWrite(failedPrefix, pk, Raised(e1)) != HandleDetailWrite(failedPrefix, pk, Raised(e2))
  {
    var m1, m2 := failedPrefix + e1.text, failedPrefix + e2.text;
    assert m1[|failedPrefix|..] == e1.text && m2[|failedPrefix|..] == e2.text;
    assert Detail(m1).fields["detail"] == Str(m1);
  }

  // Cache-aside list

  const ProductListKey := "product_list"
  /** `timeout=60*15`, in seconds. */
  const ProductListTimeout := 60 * 15
  const ListFailed := "An error occurred during product listing."

  /** A cache entry: the stored value and the timeout it was stored with. */
  datatype CacheEntry = CacheEntry(value: Json, timeout: int)

  type Cache = map<string, CacheEntry>

  /** The query parameters of a list request: filters, search, ordering, page. */
  datatype Request = Request(params: map<string, string>)

  /** What the generic `list` yields for a request: the serialized data, or an exception. */
  datatype ListOutcome = Listed(data: Json) | ListRaised(exception: Raised)

  /** `cache.get(key)`: `None` for a missing key. */
  function CacheGet(cache: Cache, key: string): Json {
    if key in cache then cache[key].value else Null
  }

  /** The response of one `list` call, the cache after it, and whether it ran the query. */
  datatype ListStep = ListStep(response: Response, cache: Cache, queried: bool)

  /**
    One `list` call: a truthy cached value is returned as it is; otherwise
    the query runs, and its data is stored under the fixed key and
    returned, or its failure becomes a 500 with a fixed text.
   */
  function ListCall(cache: Cache, request: Request, query: Request -> ListOutcome): (s: ListStep)
    ensures s.cache - {ProductListKey} == cache - {ProductListKey}
    ensures s.queried <==> !Truthy(CacheGet(cache, ProductListKey))
    ensures !s.queried ==> s.response == Response(HTTP_200_OK, CacheGet(cache, ProductListKey)) && s.cache == cache
    ensures s.queried && query(request).Listed? ==>
      s.response == Response(HTTP_200_OK, query(request).data)
      && s.cache == cache[ProductListKey := CacheEntry(query(request).data, ProductListTimeout)]
    ensures s.queried && query(request).ListRaised? ==>
      s.response == Response(HTTP_500_INTERNAL_SERVER_ERROR, Detail(ListFailed)) && s.cache == cache
  {
    var cached := CacheGet(cache, ProductListKey);
    if Truthy(cached) then
      ListStep(Response(HTTP_200_OK, cached), cache, false)
    else
      match query(request)
      case Listed(data) =>
        ListStep(Response(HTTP_200_OK, data), cache[ProductListKey := CacheEntry(data, ProductListTimeout)], true)
      case ListRaised(_) =>
        ListStep(Response(HTTP_500_INTERNAL_SERVER_ERROR, Detail(ListFailed)), cache, true)
  }

  /**
    After a call that stored truthy data, the next call answers with the
    same data without a query, whatever its filters, search, ordering or
    page: the key does not depend on the request.
   */
  lemma CachedListIgnoresRequest(cache: Cache, first: Request, second: Request, query: Request -> ListOutcome)
    requires ListCall(cache, first, query).queried
    requires query(first).Listed? && Truthy(query(first).data)
    ensures !ListCall(ListCall(cache, first, query).cache, second, query).queried
    ensures ListCall(ListCall(cache, first, query).cache, second, query).response == ListCall(cache, first, query).response
  {
  }

  /** Falsy data is stored but never served: the call after it queries again. */
  lemma FalsyListNotServed(cache: Cache, first: Request, second: Request, query: Request -> ListOutcome)
    requires !Truthy(CacheGet(cache, ProductListKey)) && query(first).Listed? && !Truthy(query(first).data)
    ensures ListCall(ListCall(cache, first, query).cache, second, query).queried
  {
  }

  /** A failed query leaves the cache as it was, so the next call queries again. */
  lemma FailedListRetried(cache: Cache, first: Request, second: Request, query: Request -> ListOutcome)
    requires !Truthy(CacheGet(cache, ProductListKey)) && query(first).ListRaised?
    ensures ListCall(cache, first, query).cache == cache
    ensures ListCall(ListCall(cache, first, query).cache, second, query).queried
  {
  }

  /** The process-wide cache and the query count behind `ProductViewSet.list`. */
  class ProductListView {
    var cache: Cache
    /** How many times the list query has run. */
    var queries: nat

    constructor (cache: Cache)
      ensures this.cache == cache && queries == 0
    {
      this.cache := cache;
      queries := 0;
    }

    /** `list`: read the fixed key; on a falsy value run the query and store its data for 15 minutes. */
    method List(request: Request, query: Request -> ListOutcome) returns (r: Response)
      modifies this
      ensures r == ListCall(old(cache), request, query).response
      ensures cache == ListCall(old(cache), request, query).cache
      ensures queries == old(queries) + (if ListCall(old(cache), request, query).queried then 1 else 0)
    {
      var cached := CacheGet(cache, ProductListKey);
      if Truthy(cached) {
        return Response(HTTP_200_OK, cached);
      }
      queries := queries + 1;
      var outcome := query(request);
      match outcome
      case Listed(data) =>
        cache := cache[ProductListKey := CacheEntry(data, ProductListTimeout)];
        r := Response(HTTP_200_OK, data);
      case ListRaised(_) =>
        r := Response(HTTP_500_INTERNAL_SERVER_ERROR, Detail(ListFailed));
    }
  }
}
