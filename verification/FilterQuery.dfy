/**
  `GET /api/restaurants/filter` (Server/index.js, lines 90-100): the
  statement and its bound parameters are built in lockstep, one clause
  and one parameter at a time.
 */
module FilterQuery {
  import opened Options
  import opened Strings
  import opened Clauses
  import opened Http
  import opened Schema

  const Base := "SELECT * FROM restaurant WHERE 1"

  /** The clause texts, up to their trailing `?`. */
  const CuisineColumn := " AND cuisine = "
  const DeliveryColumn := " AND deliveryoptions = "

  /** The fixed texts hold no `?`, so every `?` of a statement is a placeholder. */
  lemma FixedTextsUnmarked()
    ensures '?' !in Base && '?' !in CuisineColumn && '?' !in DeliveryColumn
  {
  }

  /** The text a parameter adds: its column and a `?` when it is truthy, nothing otherwise. */
  function Clause(column: string, p: Option<string>): string {
    if Present(p) then column + "?" else ""
  }

  /** Every `?` of the statement has a parameter and every parameter a `?`. */
  predicate Matched(b: Bound) {
    Count(b.sql, '?') == |b.params|
  }

  /** One `if (p) { sql += column + '?'; params.push(p); }` step. */
  function Extend(b: Bound, column: string, p: Option<string>): (r: Bound)
    requires '?' !in column
    ensures Matched(b) ==> Matched(r)
    ensures b.sql <= r.sql
    ensures r.params == b.params + (if Present(p) then [p.value] else [])
    ensures r.sql == b.sql + Clause(column, p)
    ensures !Present(p) ==> r == b
    ensures |r.sql| == |b.sql| + (if Present(p) then |column| + 1 else 0)
  {
    if Present(p) then
      CountOneAtEnd(column, '?');
      CountAppend(b.sql, column + "?", '?');
      Bound(b.sql + (column + "?"), b.params + [p.value])
    else
      b
  }

  lemma PresentValuesPair(c: Option<string>, d: Option<string>)
    ensures PresentValues([c, d])
         == (if Present(c) then [c.value] else []) + (if Present(d) then [d.value] else [])
  {
    assert [c, d][1..] == [d];
    assert [d][1..] == [];
  }

  /** The statement and parameters for a request. */
  function FilterQuery(cuisine: Option<string>, deliveryOptions: Option<string>): (b: Bound)
    ensures Matched(b)
    ensures b.params == PresentValues([cuisine, deliveryOptions])
    ensures b.sql == Base + Clause(CuisineColumn, cuisine) + Clause(DeliveryColumn, deliveryOptions)
    ensures Base <= b.sql
    ensures |b.sql| == |Base| + (if Present(cuisine) then |CuisineColumn| + 1 else 0)
                              + (if Present(deliveryOptions) then |DeliveryColumn| + 1 else 0)
  {
    FixedTextsUnmarked();
    PresentValuesPair(cuisine, deliveryOptions);
    var withCuisine := Extend(Bound(Base, []), CuisineColumn, cuisine);
    Extend(withCuisine, DeliveryColumn, deliveryOptions)
  }

  /** The statement text depends on which parameters are present, never on their values. */
  lemma FilterQueryShapeOnly(c1: Option<string>, d1: Option<string>,
                             c2: Option<string>, d2: Option<string>)
    requires Present(c1) == Present(c2) && Present(d1) == Present(d2)
    ensures FilterQuery(c1, d1).sql == FilterQuery(c2, d2).sql
  {
  }

  /** Recovers the request from a statement and its parameters. The
      parameters are the values; the statement only tells which parameter
      a lone value belongs to, and the two one-clause statements differ in
      length. */
  function Decode(b: Bound): (Option<string>, Option<string>) {
    if |b.params| == 2 then (Some(b.params[0]), Some(b.params[1]))
    else if |b.params| == 1 && |b.sql| == |Base| + |CuisineColumn| + 1 then (Some(b.params[0]), None)
    else if |b.params| == 1 then (None, Some(b.params[0]))
    else (None, None)
  }

  // The round trip, one combination of present parameters at a time.

  /** Two parameters are the two values, whatever the statement. */
  lemma DecodeBoth(b: Bound, x: string, y: string)
    requires b.params == [x, y]
    ensures Decode(b) == (Some(x), Some(y))
  {
  }

  lemma PresentValuesBoth(c: Option<string>, d: Option<string>)
    requires Present(c) && Present(d)
    ensures PresentValues([c, d]) == [c.value, d.value]
  {
    assert [c, d][1..] == [d];
    assert [d][1..] == [];
  }

  lemma RoundTripBoth(c: Option<string>, d: Option<string>)
    requires Present(c) && Present(d)
    ensures Decode(FilterQuery(c, d)) == (Normalize(c), Normalize(d))
  {
    PresentValuesBoth(c, d);
    DecodeBoth(FilterQuery(c, d), c.value, d.value);
  }

  lemma RoundTripCuisine(c: Option<string>, d: Option<string>)
    requires Present(c) && !Present(d)
    ensures Decode(FilterQuery(c, d)) == (Normalize(c), Normalize(d))
  {
    PresentValuesPair(c, d);
    assert |CuisineColumn| == 15 && |DeliveryColumn| == 23;
  }

  lemma RoundTripDelivery(c: Option<string>, d: Option<string>)
    requires !Present(c) && Present(d)
    ensures Decode(FilterQuery(c, d)) == (Normalize(c), Normalize(d))
  {
    PresentValuesPair(c, d);
    assert |CuisineColumn| == 15 && |DeliveryColumn| == 23;
  }

  lemma RoundTripNeither(c: Option<string>, d: Option<string>)
    requires !Present(c) && !Present(d)
    ensures Decode(FilterQuery(c, d)) == (Normalize(c), Normalize(d))
  {
    PresentValuesPair(c, d);
  }

  /** Nothing of the request is lost: the statement's shape and its
      parameters determine the (truthy) request parameters. */
  lemma FilterQueryRoundTrip(cuisine: Option<string>, deliveryOptions: Option<string>)
    ensures Decode(FilterQuery(cuisine, deliveryOptions)) == (Normalize(cuisine), Normalize(deliveryOptions))
  {
    if Present(cuisine) && Present(deliveryOptions) {
      RoundTripBoth(cuisine, deliveryOptions);
    } else if Present(cuisine) {
      RoundTripCuisine(cuisine, deliveryOptions);
    } else if Present(deliveryOptions) {
      RoundTripDelivery(cuisine, deliveryOptions);
    } else {
      RoundTripNeither(cuisine, deliveryOptions);
    }
  }

  const Failed := "Database error"

  /** The reply: the rows as they come, an empty result included; a failed
      query is a server error. */
  function FilterReply(results: Fetch<seq<Restaurant>>): (r: Reply<seq<Restaurant>>)
    ensures r.status == 200 <==> results.Fetched?
    ensures results.Fetched? ==> r.body == Json(results.value)
    ensures results.FetchError? ==> r == Reply(500, ErrorText(Failed))
  {
    match results
    case FetchError => Reply(500, ErrorText(Failed))
    case Fetched(rows) => Reply(200, Json(rows))
  }
}
