/**
  `GET /api/restaurants/search` (Server/index.js, lines 165-197): optional
  `keywords`, `cuisine` and `location` parameters are appended, each as
  ` AND <condition>`, to a statement that starts with `WHERE 1`; an empty
  result is reported as not found.
 */
module SearchQuery {
  import opened Options
  import opened Strings
  import opened Clauses
  import opened Http
  import opened Schema
  import Seqs

  datatype SearchRequest = SearchRequest(
    keywords: Option<string>,
    cuisine: Option<string>,
    location: Option<string>)

  const Base := "SELECT * FROM Restaurant WHERE 1"
  const NotFound := "No restaurants found matching the criteria"
  const Failed := "An error occurred while searching for restaurants"

  predicate HasCriteria(req: SearchRequest) {
    Present(req.keywords) || Present(req.cuisine) || Present(req.location)
  }

  /** The conditions the request asks for, in the order the handler tests them. */
  function SearchConditions(req: SearchRequest): (r: seq<Condition>)
    ensures InFixedOrder(r)
    ensures forall i :: 0 <= i < |r| ==> !r[i].RatingGe?
    ensures forall v :: KeywordsLike(v) in r <==> Present(req.keywords) && v == req.keywords.value
    ensures forall v :: CuisineEq(v) in r <==> Present(req.cuisine) && v == req.cuisine.value
    ensures forall v :: LocationEq(v) in r <==> Present(req.location) && v == req.location.value
    ensures |r| > 0 <==> HasCriteria(req)
  {
    WhenMembers(Present(req.keywords), KeywordsLike(req.keywords.GetOr("")));
    WhenMembers(Present(req.cuisine), CuisineEq(req.cuisine.GetOr("")));
    WhenMembers(Present(req.location), LocationEq(req.location.GetOr("")));
    When(Present(req.keywords), KeywordsLike(req.keywords.GetOr("")))
    + When(Present(req.cuisine), CuisineEq(req.cuisine.GetOr("")))
    + When(Present(req.location), LocationEq(req.location.GetOr("")))
  }

  /** One `if (p) { sql += ' AND ' + condition; }` step. */
  function AndIf(sql: string, present: bool, c: Condition): string {
    if present then sql + " AND " + Spliced(c) else sql
  }

  /** The conditions, each introduced by ` AND `. */
  function Conjoined(cs: seq<Condition>): string {
    if |cs| == 0 then "" else " AND " + Join(Seqs.Map(cs, Spliced), " AND ")
  }

  /** The conditions spliced and joined, one more at the end. */
  lemma SplicedSnoc(cs: seq<Condition>, c: Condition)
    ensures Seqs.Map(cs + [c], Spliced) == Seqs.Map(cs, Spliced) + [Spliced(c)]
  {
    Seqs.MapAppend(cs, [c], Spliced);
    assert Seqs.Map([c], Spliced) == [Spliced(c)];
  }

  /** Conjoining one more condition appends ` AND ` and that condition. */
  lemma ConjoinedSnoc(cs: seq<Condition>, c: Condition)
    ensures Conjoined(cs + [c]) == Conjoined(cs) + " AND " + Spliced(c)
  {
    SplicedSnoc(cs, c);
    if |cs| > 0 {
      JoinSnoc(Seqs.Map(cs, Spliced), Spliced(c), " AND ");
    } else {
      assert Seqs.Map(cs, Spliced) + [Spliced(c)] == [Spliced(c)];
    }
  }

  /** A step appends its condition to the conditions already conjoined. */
  lemma AndIfExtends(prefix: string, cs: seq<Condition>, present: bool, c: Condition)
    ensures AndIf(prefix + Conjoined(cs), present, c)
         == prefix + Conjoined(cs + When(present, c))
  {
    if present {
      ConjoinedSnoc(cs, c);
      assert When(present, c) == [c];
    } else {
      assert cs + When(present, c) == cs;
    }
  }

  /** The statement the handler runs: `WHERE 1` followed by the requested
      conditions, each introduced by ` AND `. */
  function SearchSql(req: SearchRequest): (sql: string)
    ensures sql == Base + Conjoined(SearchConditions(req))
    ensures Base <= sql
    ensures sql == Base <==> !HasCriteria(req)
  {
    var k := When(Present(req.keywords), KeywordsLike(req.keywords.GetOr("")));
    var c := When(Present(req.cuisine), CuisineEq(req.cuisine.GetOr("")));
    assert [] + k == k;
    AndIfExtends(Base, [], Present(req.keywords), KeywordsLike(req.keywords.GetOr("")));
    AndIfExtends(Base, k, Present(req.cuisine), CuisineEq(req.cuisine.GetOr("")));
    AndIfExtends(Base, k + c, Present(req.location), LocationEq(req.location.GetOr("")));
    assert Base + "" == Base;
    var sql := AndIf(Base, Present(req.keywords), KeywordsLike(req.keywords.GetOr("")));
    var sql := AndIf(sql, Present(req.cuisine), CuisineEq(req.cuisine.GetOr("")));
    AndIf(sql, Present(req.location), LocationEq(req.location.GetOr("")))
  }

  /** The reply: a failed query is a server error and an empty result is
      not found; anything else is returned as it is. */
  function SearchReply(results: Fetch<seq<Restaurant>>): (r: Reply<seq<Restaurant>>)
    ensures r.status == 500 <==> results.FetchError?
    ensures r.status == 404 <==> results == Fetched([])
    ensures r.status == 200 <==> results.Fetched? && results.value != []
    ensures r.status == 200 ==> r.body == Json(results.value)
    ensures r.status == 404 ==> r.body == ErrorText(NotFound)
    ensures r.status == 500 ==> r.body == ErrorText(Failed)
  {
    match results
    case FetchError => Reply(500, ErrorText(Failed))
    case Fetched(rows) =>
      if |rows| == 0 then Reply(404, ErrorText(NotFound)) else Reply(200, Json(rows))
  }
}
