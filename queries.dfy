/** The first-match searches over the page's pre-fetched queries
    (`props.pageProps.$dehydratedState.queries[*].state.data`): one finds the
    product list of a category page, the other the sale record of a product
    page. */
module Queries {
  import opened PyJson

  /** The query list, reached by subscripting props, pageProps,
      $dehydratedState and queries in turn; any missing step raises. */
  function QueriesOf(j: Json): Result<Json> {
    match Subscript(j, "props")
    case Raised => Raised
    case Ok(props) =>
      match Subscript(props, "pageProps")
      case Raised => Raised
      case Ok(pageProps) =>
        match Subscript(pageProps, "$dehydratedState")
        case Raised => Raised
        case Ok(state) => Subscript(state, "queries")
  }

  /** A query's data: its `state` entry, then that entry's `data`, each
      defaulting to an empty dictionary; raises when the query or its state
      is not a dictionary. */
  function QueryData(q: Json): Result<Json> {
    match DictGet(q, "state", JObj([]))
    case Raised => Raised
    case Ok(state) => DictGet(state, "data", JObj([]))
  }

  /** The query list is read at props.pageProps.$dehydratedState.queries,
      whatever other keys each level holds: reading succeeds exactly when each
      level is a dictionary holding the next key, and then gives the value
      bound to `queries`. */
  lemma QueriesOfPath(j: Json)
    ensures QueriesOf(j).Ok? <==>
              && j.JObj? && Lookup(j.fields, "props").Some?
              && var props := Lookup(j.fields, "props").value;
                 && props.JObj? && Lookup(props.fields, "pageProps").Some?
                 && var pageProps := Lookup(props.fields, "pageProps").value;
                    && pageProps.JObj? && Lookup(pageProps.fields, "$dehydratedState").Some?
                    && var state := Lookup(pageProps.fields, "$dehydratedState").value;
                       state.JObj? && Lookup(state.fields, "queries").Some?
    ensures QueriesOf(j).Ok? ==>
              QueriesOf(j).value ==
                Lookup(Lookup(Lookup(Lookup(j.fields, "props").value.fields, "pageProps").value.fields,
                              "$dehydratedState").value.fields, "queries").value
  {
  }

  /** Reading a query's data raises exactly when the query, or the `state`
      it gives, is not a dictionary; a query without `state` has empty data. */
  lemma QueryDataCases(q: Json)
    ensures QueryData(q).Raised? <==>
              !q.JObj? || (Lookup(q.fields, "state").Some? && !Lookup(q.fields, "state").value.JObj?)
    ensures q.JObj? && Lookup(q.fields, "state").None? ==> QueryData(q) == Ok(JObj([]))
    ensures QueryData(q).Ok? && Lookup(q.fields, "state").Some? ==>
              QueryData(q).value == Get(Lookup(q.fields, "state").value.fields, "data", JObj([]))
  {
  }

  /** What a search looks for: the data holding `productCards`, or the data
      whose `saleId`, rendered by `str`, is the given one. */
  datatype Target = ProductList | SaleDetail(saleId: string)

  const ProductCardsKey: string := "productCards"

  predicate Matches(d: Json, t: Target) {
    && d.JObj?
    && match t
       case ProductList => Lookup(d.fields, ProductCardsKey).Some?
       case SaleDetail(id) => PyStr(Get(d.fields, "saleId", JNull)) == id
  }

  /** With integer sale ids on both sides, the `str` comparison matches a
      record exactly when the two ids are equal. */
  lemma IntegerSaleIdsMatchExactly(d: Json, m: int, n: int)
    requires d.JObj? && Get(d.fields, "saleId", JNull) == JInt(m)
    ensures Matches(d, SaleDetail(PyStr(JInt(n)))) <==> m == n
  {
    IntToStringInjective(m, n);
  }

  /** The loop `for q in queries: ... break` started at index k: the data of
      the first query that matches, None when no query does, and Raised when
      a query before the match raises. */
  function FirstMatchFrom(qs: seq<Json>, t: Target, k: nat): (r: Result<Option<Json>>)
    requires k <= |qs|
    ensures r.Ok? && r.value.Some? ==> Matches(r.value.value, t)
    decreases |qs| - k
  {
    if k == |qs| then Ok(None)
    else
      match QueryData(qs[k])
      case Raised => Raised
      case Ok(d) => if Matches(d, t) then Ok(Some(d)) else FirstMatchFrom(qs, t, k + 1)
  }

  function FirstMatch(qs: seq<Json>, t: Target): Result<Option<Json>> {
    FirstMatchFrom(qs, t, 0)
  }

  /** Every query before index i was looked at and passed over. */
  ghost predicate PassedOver(qs: seq<Json>, t: Target, i: nat) {
    i <= |qs| && forall j :: 0 <= j < i ==> QueryData(qs[j]).Ok? && !Matches(QueryData(qs[j]).value, t)
  }

  lemma {:induction false} StopsFrom(qs: seq<Json>, t: Target, k: nat) returns (i: nat)
    requires PassedOver(qs, t, k)
    ensures k <= i <= |qs| && PassedOver(qs, t, i)
    ensures i == |qs| ==> FirstMatchFrom(qs, t, k) == Ok(None)
    ensures i < |qs| ==>
              || (QueryData(qs[i]).Raised? && FirstMatchFrom(qs, t, k) == Raised)
              || (QueryData(qs[i]).Ok? && Matches(QueryData(qs[i]).value, t) &&
                  FirstMatchFrom(qs, t, k) == Ok(Some(QueryData(qs[i]).value)))
    decreases |qs| - k
  {
    if k == |qs| || QueryData(qs[k]).Raised? || Matches(QueryData(qs[k]).value, t) {
      i := k;
    } else {
      i := StopsFrom(qs, t, k + 1);
    }
  }

  /** The search stops at the first query that raises or matches: the data
      of that query is the result when it matches, an exception when it
      raises, and when every query is passed over the result is None. */
  lemma FirstMatchStops(qs: seq<Json>, t: Target) returns (i: nat)
    ensures i <= |qs| && PassedOver(qs, t, i)
    ensures i == |qs| ==> FirstMatch(qs, t) == Ok(None)
    ensures i < |qs| ==>
              || (QueryData(qs[i]).Raised? && FirstMatch(qs, t) == Raised)
              || (QueryData(qs[i]).Ok? && Matches(QueryData(qs[i]).value, t) &&
                  FirstMatch(qs, t) == Ok(Some(QueryData(qs[i]).value)))
  {
    i := StopsFrom(qs, t, 0);
  }

  /** The loop itself, with its early exits. */
  method FindFirst(qs: seq<Json>, t: Target) returns (r: Result<Option<Json>>)
    ensures r == FirstMatch(qs, t)
  {
    var i := 0;
    while i < |qs|
      invariant 0 <= i <= |qs|
      invariant FirstMatchFrom(qs, t, i) == FirstMatch(qs, t)
    {
      var d := QueryData(qs[i]);
      if d.Raised? {
        return Raised;
      }
      if Matches(d.value, t) {
        return Ok(Some(d.value));
      }
      i := i + 1;
    }
    return Ok(None);
  }

  /** `basic_products`: the `productCards` of the first query whose data
      holds that key, or an empty list when no query does. */
  function ProductCards(qs: seq<Json>): Result<Json> {
    match FirstMatch(qs, ProductList)
    case Raised => Raised
    case Ok(None) => Ok(JArr([]))
    case Ok(Some(d)) => Ok(Lookup(d.fields, ProductCardsKey).value)
  }

  /** The product list comes from the first query whose data is a dictionary
      holding `productCards`; with no such query it is the empty list, and a
      query before it that raises makes the whole selection raise. */
  lemma ProductCardsFromFirstQuery(qs: seq<Json>) returns (i: nat)
    ensures i <= |qs| && PassedOver(qs, ProductList, i)
    ensures i == |qs| ==> ProductCards(qs) == Ok(JArr([]))
    ensures i < |qs| ==>
              || (QueryData(qs[i]).Raised? && ProductCards(qs).Raised?)
              || (QueryData(qs[i]).Ok? && QueryData(qs[i]).value.JObj? && ProductCards(qs).Ok? &&
                  Lookup(QueryData(qs[i]).value.fields, ProductCardsKey) == Some(ProductCards(qs).value))
  {
    i := FirstMatchStops(qs, ProductList);
  }
}
