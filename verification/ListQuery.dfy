/**
  `GET /api/restaurants` (Server/index.js, lines 24-73): optional `cuisine`,
  `rating` and `location` parameters become WHERE conditions, a
  comma-separated `sort` parameter becomes ORDER BY terms, and the
  statement is assembled from a fixed prefix and the two optional parts.
 */
module ListQuery {
  import opened Options
  import opened Strings
  import opened Clauses
  import opened Http
  import opened Schema
  import Seqs

  datatype ListRequest = ListRequest(
    cuisine: Option<string>,
    rating: Option<string>,
    location: Option<string>,
    sort: Option<string>)

  const Base := "SELECT * FROM Restaurant"

  predicate HasFilter(req: ListRequest) {
    Present(req.cuisine) || Present(req.rating) || Present(req.location)
  }

  /** The WHERE conditions, one per present filter parameter. */
  function Conditions(req: ListRequest): (r: seq<Condition>)
    ensures InFixedOrder(r)
    ensures forall i :: 0 <= i < |r| ==> !r[i].KeywordsLike?
    ensures forall v :: CuisineEq(v) in r <==> Present(req.cuisine) && v == req.cuisine.value
    ensures forall v :: RatingGe(v) in r <==> Present(req.rating) && v == req.rating.value
    ensures forall v :: LocationEq(v) in r <==> Present(req.location) && v == req.location.value
    ensures |r| > 0 <==> HasFilter(req)
  {
    WhenMembers(Present(req.cuisine), CuisineEq(req.cuisine.GetOr("")));
    WhenMembers(Present(req.rating), RatingGe(req.rating.GetOr("")));
    WhenMembers(Present(req.location), LocationEq(req.location.GetOr("")));
    When(Present(req.cuisine), CuisineEq(req.cuisine.GetOr("")))
    + When(Present(req.rating), RatingGe(req.rating.GetOr("")))
    + When(Present(req.location), LocationEq(req.location.GetOr("")))
  }

  // ----- sorting -----

  datatype Column = Name | Rating
  datatype Direction = Asc | Desc
  datatype SortTerm = SortTerm(column: Column, direction: Direction)

  /** The `sort` token that asks for the term. */
  function TokenOf(t: SortTerm): string {
    match t
    case SortTerm(Name, Asc) => "name_asc"
    case SortTerm(Name, Desc) => "name_desc"
    case SortTerm(Rating, Asc) => "rating_asc"
    case SortTerm(Rating, Desc) => "rating_desc"
  }

  /** The term as it appears after ORDER BY. */
  function RenderTerm(t: SortTerm): string {
    (match t.column case Name => "Name" case Rating => "Rating")
    + (match t.direction case Asc => " ASC" case Desc => " DESC")
  }

  /** The `switch` on one sort token: a term for each of the four
      recognised tokens, nothing for any other. */
  function ParseSortToken(tok: string): Option<SortTerm> {
    if tok == "name_asc" then Some(SortTerm(Name, Asc))
    else if tok == "name_desc" then Some(SortTerm(Name, Desc))
    else if tok == "rating_asc" then Some(SortTerm(Rating, Asc))
    else if tok == "rating_desc" then Some(SortTerm(Rating, Desc))
    else None
  }

  /** The token table: the four recognised tokens and their ORDER BY
      terms; any other token yields nothing. */
  lemma SortTokenTable(tok: string)
    ensures tok == "name_asc" ==> ParseSortToken(tok).Some? && RenderTerm(ParseSortToken(tok).value) == "Name ASC"
    ensures tok == "name_desc" ==> ParseSortToken(tok).Some? && RenderTerm(ParseSortToken(tok).value) == "Name DESC"
    ensures tok == "rating_asc" ==> ParseSortToken(tok).Some? && RenderTerm(ParseSortToken(tok).value) == "Rating ASC"
    ensures tok == "rating_desc" ==> ParseSortToken(tok).Some? && RenderTerm(ParseSortToken(tok).value) == "Rating DESC"
    ensures ParseSortToken(tok).Some? <==> tok in {"name_asc", "name_desc", "rating_asc", "rating_desc"}
    ensures ParseSortToken(tok).Some? ==> TokenOf(ParseSortToken(tok).value) == tok
  {
  }

  /** Every term is recognised from its own token, so the token table is a bijection. */
  lemma ParseTokenOf(t: SortTerm)
    ensures ParseSortToken(TokenOf(t)) == Some(t)
  {
  }

  predicate IsSortToken(tok: string) {
    ParseSortToken(tok).Some?
  }

  /** The `forEach` over the sort tokens: each recognised token pushes its term. */
  function SortTerms(tokens: seq<string>): (r: seq<SortTerm>)
    ensures |r| <= |tokens|
    ensures forall i :: 0 <= i < |r| ==> TokenOf(r[i]) in tokens
  {
    if |tokens| == 0 then []
    else
      (match ParseSortToken(tokens[0]) case Some(t) => [t] case None => [])
      + SortTerms(tokens[1..])
  }

  /** Tokens are processed left to right, independently of each other. */
  lemma {:induction false} SortTermsAppend(a: seq<string>, b: seq<string>)
    ensures SortTerms(a + b) == SortTerms(a) + SortTerms(b)
  {
    if |a| == 0 {
      assert a + b == b;
    } else {
      assert (a + b)[0] == a[0];
      assert (a + b)[1..] == a[1..] + b;
      SortTermsAppend(a[1..], b);
    }
  }

  /** Reading the terms back as tokens gives exactly the recognised tokens,
      in input order: one term per recognised token, none for the others. */
  lemma {:induction false} SortTermsRecoverTokens(tokens: seq<string>)
    ensures Seqs.Map(SortTerms(tokens), TokenOf) == Seqs.Filter(tokens, IsSortToken)
  {
    if |tokens| > 0 {
      SortTermsRecoverTokens(tokens[1..]);
      var head := match ParseSortToken(tokens[0]) case Some(t) => [t] case None => [];
      Seqs.MapAppend(head, SortTerms(tokens[1..]), TokenOf);
      SortTokenTable(tokens[0]);
      assert Seqs.Map(head, TokenOf) == if IsSortToken(tokens[0]) then [tokens[0]] else [];
    }
  }

  /** The ORDER BY terms of a request: the `sort` parameter split at commas. */
  function SortTermsOf(req: ListRequest): (r: seq<SortTerm>)
    ensures !Present(req.sort) ==> r == []
    ensures Present(req.sort) ==>
      Seqs.Map(r, TokenOf) == Seqs.Filter(Split(req.sort.value, ','), IsSortToken)
  {
    if Present(req.sort) then
      SortTermsRecoverTokens(Split(req.sort.value, ','));
      SortTerms(Split(req.sort.value, ','))
    else []
  }

  // ----- statement -----

  /** The conditions as the handler joins them. */
  function FilterText(req: ListRequest): string {
    Join(Seqs.Map(Conditions(req), Spliced), " AND ")
  }

  /** The terms as the handler joins them. */
  function OrderText(req: ListRequest): string {
    Join(Seqs.Map(SortTermsOf(req), RenderTerm), ", ")
  }

  /** `' WHERE ' + filters.join(' AND ')` when there are filters. */
  function WherePart(req: ListRequest): (w: string)
    ensures HasFilter(req) ==> w == " WHERE " + FilterText(req)
    ensures !HasFilter(req) ==> w == ""
  {
    if |Conditions(req)| > 0 then " WHERE " + FilterText(req) else ""
  }

  /** `` ` ORDER BY ${sortingOptions.join(', ')}` `` when there are sort terms. */
  function OrderPart(req: ListRequest): (o: string)
    ensures SortTermsOf(req) != [] ==> o == " ORDER BY " + OrderText(req)
    ensures SortTermsOf(req) == [] ==> o == ""
  {
    if |SortTermsOf(req)| > 0 then " ORDER BY " + OrderText(req) else ""
  }

  /** How the statement text is laid out, whatever the two parts hold. */
  lemma Layout(w: string, o: string, filters: string, terms: string, where: bool, order: bool)
    requires w == if where then " WHERE " + filters else ""
    requires o == if order then " ORDER BY " + terms else ""
    ensures Base <= Base + w + o
    ensures where <==> Base + " WHERE " <= Base + w + o
    ensures where ==> Base + " WHERE " + filters <= Base + w + o
    ensures order ==> EndsWith(Base + w + o, " ORDER BY " + terms)
  {
    var sql := Base + w + o;
    assert sql == (Base + w) + o;
    assert Base + w <= sql;
    assert (Base + " WHERE ")[|Base| + 1] == 'W';
    if where {
      assert Base + w == (Base + " WHERE ") + filters;
    } else if order {
      assert sql == Base + " ORDER BY " + terms;
      assert sql[|Base| + 1] == 'O';
    }
  }

  /** The SQL statement the handler runs. */
  function ListSql(req: ListRequest): (sql: string)
    ensures Base <= sql
    ensures !HasFilter(req) && SortTermsOf(req) == [] ==> sql == Base
    ensures HasFilter(req) <==> Base + " WHERE " <= sql
    ensures HasFilter(req) ==> Base + " WHERE " + FilterText(req) <= sql
    ensures SortTermsOf(req) != [] ==> EndsWith(sql, " ORDER BY " + OrderText(req))
    ensures |sql| == |Base|
      + (if HasFilter(req) then |" WHERE " + FilterText(req)| else 0)
      + (if SortTermsOf(req) != [] then |" ORDER BY " + OrderText(req)| else 0)
  {
    var w := WherePart(req);
    var o := OrderPart(req);
    Layout(w, o, FilterText(req), OrderText(req), HasFilter(req), SortTermsOf(req) != []);
    Base + w + o
  }

  const Failed := "An error occurred while fetching restaurants"

  /** The reply: the rows as they come, an empty result included; a failed
      query is a server error. */
  function ListReply(results: Fetch<seq<Restaurant>>): (r: Reply<seq<Restaurant>>)
    ensures r.status == 200 <==> results.Fetched?
    ensures results.Fetched? ==> r.body == Json(results.value)
    ensures results.FetchError? ==> r == Reply(500, ErrorText(Failed))
  {
    match results
    case FetchError => Reply(500, ErrorText(Failed))
    case Fetched(rows) => Reply(200, Json(rows))
  }
}
