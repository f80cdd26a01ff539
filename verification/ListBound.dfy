/**
  The filter values of `GET /api/restaurants` are spliced into the
  statement text (Server/index.js, lines 29-39) with nothing escaping a
  quote, so a value can carry a condition of its own. This module shows
  two different requests that reach the database as one statement, and
  gives the placeholder form of the same statement, in the style of
  `/api/restaurants/filter`, where values never reach the text.
 */
module ListBound {
  import opened Options
  import opened Strings
  import opened Clauses
  import opened ListQuery
  import Seqs

  // ----- as written -----

  /** A cuisine value that closes its own quote and adds a location condition. */
  function Smuggled(x: string, y: string): ListRequest {
    ListRequest(Some(x + "' AND Location = '" + y), None, None, None)
  }

  /** The request that asks for both conditions openly. */
  function Honest(x: string, y: string): ListRequest {
    ListRequest(Some(x), None, Some(y), None)
  }

  /** The statement is fixed by its WHERE and ORDER BY texts. */
  lemma ListSqlOfParts(r1: ListRequest, r2: ListRequest)
    requires HasFilter(r1) == HasFilter(r2) && FilterText(r1) == FilterText(r2)
    requires SortTermsOf(r1) == SortTermsOf(r2)
    ensures ListSql(r1) == ListSql(r2)
  {
  }

  /** The conditions each of the two requests asks for. */
  lemma CollisionConditions(x: string, y: string)
    requires x != "" && y != ""
    ensures Conditions(Smuggled(x, y)) == [CuisineEq(x + "' AND Location = '" + y)]
    ensures Conditions(Honest(x, y)) == [CuisineEq(x), LocationEq(y)]
  {
  }

  /** Both requests splice to the same WHERE text. */
  lemma CollisionFilterText(x: string, y: string)
    requires x != "" && y != ""
    ensures FilterText(Smuggled(x, y)) == FilterText(Honest(x, y))
  {
    CollisionConditions(x, y);
    var honest := [CuisineEq(x), LocationEq(y)];
    var one := Seqs.Map([CuisineEq(x + "' AND Location = '" + y)], Spliced);
    var two := Seqs.Map(honest, Spliced);
    assert |one| == 1 && one[0] == Spliced(CuisineEq(x + "' AND Location = '" + y));
    assert |two| == 2 && two[0] == Spliced(honest[0]) && two[1] == Spliced(honest[1]);
    assert two[1..] == [Spliced(honest[1])];
    QuoteCarriesCondition(x, y);
  }

  /** Spliced text cannot tell a value from the conditions around it: the
      two requests ask for different conditions, yet the same statement is
      run for both. */
  lemma SplicedValuesCollide(x: string, y: string)
    requires x != "" && y != ""
    ensures Conditions(Smuggled(x, y)) != Conditions(Honest(x, y))
    ensures ListSql(Smuggled(x, y)) == ListSql(Honest(x, y))
  {
    CollisionConditions(x, y);
    CollisionFilterText(x, y);
    ListSqlOfParts(Smuggled(x, y), Honest(x, y));
  }

  /** A cuisine value of the form `X' AND Location = 'Y` spells out the
      conditions on cuisine `X` and location `Y`. */
  lemma QuoteCarriesCondition(x: string, y: string)
    ensures Spliced(CuisineEq(x + "' AND Location = '" + y))
         == Spliced(CuisineEq(x)) + " AND " + Spliced(LocationEq(y))
  {
    assert "'" + " AND " + "Location = '" == "' AND Location = '";
  }

  // ----- corrected -----

  /** The placeholder texts of the conditions. */
  function Placeholders(cs: seq<Condition>): (r: seq<string>)
    requires forall i :: 0 <= i < |cs| ==> !cs[i].KeywordsLike?
    ensures |r| == |cs|
  {
    if |cs| == 0 then [] else [Placeholder(cs[0])] + Placeholders(cs[1..])
  }

  /** One `?` per condition. */
  lemma {:induction false} PlaceholdersCount(cs: seq<Condition>)
    requires forall i :: 0 <= i < |cs| ==> !cs[i].KeywordsLike?
    ensures CountAll(Placeholders(cs), '?') == |cs|
  {
    if |cs| > 0 {
      var r := Placeholders(cs);
      assert r[1..] == Placeholders(cs[1..]);
      PlaceholdersCount(cs[1..]);
    }
  }

  lemma {:induction false} PlaceholdersAppend(a: seq<Condition>, b: seq<Condition>)
    requires forall i :: 0 <= i < |a| ==> !a[i].KeywordsLike?
    requires forall i :: 0 <= i < |b| ==> !b[i].KeywordsLike?
    ensures Placeholders(a + b) == Placeholders(a) + Placeholders(b)
  {
    if |a| == 0 {
      assert a + b == b;
    } else {
      assert (a + b)[0] == a[0];
      assert (a + b)[1..] == a[1..] + b;
      PlaceholdersAppend(a[1..], b);
    }
  }

  lemma PlaceholdersWhen(present: bool, c: Condition)
    requires !c.KeywordsLike?
    ensures Placeholders(When(present, c)) == if present then [Placeholder(c)] else []
  {
    if present {
      assert When(present, c)[1..] == [];
    }
  }

  /** The fixed texts the statement is assembled from hold no `?`. */
  lemma FixedTextsUnmarked()
    ensures '?' !in Base && '?' !in " WHERE " && '?' !in " AND "
    ensures '?' !in " ORDER BY " && '?' !in ", "
  {
  }

  lemma RenderTermUnmarked(t: SortTerm)
    ensures '?' !in RenderTerm(t)
  {
  }

  /** The ORDER BY part comes from a fixed table of terms, never from a value. */
  lemma OrderPartUnmarked(req: ListRequest)
    ensures Count(OrderPart(req), '?') == 0
  {
    var terms := Seqs.Map(SortTermsOf(req), RenderTerm);
    if |terms| > 0 {
      FixedTextsUnmarked();
      forall i | 0 <= i < |terms|
        ensures '?' !in terms[i]
      {
        RenderTermUnmarked(SortTermsOf(req)[i]);
      }
      CountJoin(terms, ", ", '?');
      CountAppend(" ORDER BY ", Join(terms, ", "), '?');
    }
  }

  /** A present parameter binds its value; an absent one binds nothing. */
  lemma ValueWhen(p: Option<string>, c: Condition)
    requires ValueOf(c) == p.GetOr("")
    ensures Seqs.Map(When(Present(p), c), ValueOf) == PresentValues([p])
  {
    assert [p][1..] == [];
    if Present(p) {
      assert Seqs.Map(When(Present(p), c), ValueOf)[0] == ValueOf(c);
    }
  }

  /** The values the present filter parameters bind, in order. */
  lemma ConditionValues(req: ListRequest)
    ensures Seqs.Map(Conditions(req), ValueOf) == PresentValues([req.cuisine, req.rating, req.location])
  {
    var c := When(Present(req.cuisine), CuisineEq(req.cuisine.GetOr("")));
    var r := When(Present(req.rating), RatingGe(req.rating.GetOr("")));
    var l := When(Present(req.location), LocationEq(req.location.GetOr("")));
    Seqs.MapAppend(c + r, l, ValueOf);
    Seqs.MapAppend(c, r, ValueOf);
    ValueWhen(req.cuisine, CuisineEq(req.cuisine.GetOr("")));
    ValueWhen(req.rating, RatingGe(req.rating.GetOr("")));
    ValueWhen(req.location, LocationEq(req.location.GetOr("")));
    PresentValuesAppend([req.cuisine], [req.rating]);
    PresentValuesAppend([req.cuisine, req.rating], [req.location]);
    assert [req.cuisine] + [req.rating] == [req.cuisine, req.rating];
    assert [req.cuisine, req.rating] + [req.location] == [req.cuisine, req.rating, req.location];
  }

  /** The placeholder conditions joined by ` AND `. */
  function MarksText(req: ListRequest): string {
    Join(Placeholders(Conditions(req)), " AND ")
  }

  /** One `?` per condition in ` WHERE ` and the placeholder conditions. */
  lemma MarksCount(req: ListRequest)
    ensures Count(" WHERE " + MarksText(req), '?') == |Conditions(req)|
  {
    var cs := Conditions(req);
    FixedTextsUnmarked();
    PlaceholdersCount(cs);
    if |cs| > 0 {
      CountJoin(Placeholders(cs), " AND ", '?');
    }
    CountAppend(" WHERE ", MarksText(req), '?');
  }

  /** ` WHERE ` and the placeholder conditions, when there are filters. */
  function WhereMarks(req: ListRequest): (w: string)
    ensures Count(w, '?') == |Conditions(req)|
    ensures HasFilter(req) ==> w == " WHERE " + MarksText(req)
    ensures !HasFilter(req) ==> w == ""
  {
    if HasFilter(req) then
      MarksCount(req);
      " WHERE " + MarksText(req)
    else
      assert Conditions(req) == [];
      ""
  }

  /** The statement text with a `?` per filter. */
  function BoundSql(req: ListRequest): (sql: string)
    ensures Count(sql, '?') == |Conditions(req)|
  {
    var w := WhereMarks(req);
    var o := OrderPart(req);
    FixedTextsUnmarked();
    OrderPartUnmarked(req);
    CountAppend(Base, w, '?');
    CountAppend(Base + w, o, '?');
    Base + w + o
  }

  /** The placeholder statement is laid out as the spliced one: the same
      prefix, ` WHERE ` and the placeholder conditions when there are
      filters, and the same ORDER BY part at the end. */
  lemma BoundSqlLayout(req: ListRequest)
    ensures Base <= BoundSql(req)
    ensures HasFilter(req) <==> Base + " WHERE " <= BoundSql(req)
    ensures HasFilter(req) ==> Base + " WHERE " + MarksText(req) <= BoundSql(req)
    ensures SortTermsOf(req) != [] ==> EndsWith(BoundSql(req), " ORDER BY " + OrderText(req))
    ensures !HasFilter(req) && SortTermsOf(req) == [] ==> BoundSql(req) == Base
    ensures |BoundSql(req)| == |Base|
      + (if HasFilter(req) then |" WHERE " + MarksText(req)| else 0)
      + (if SortTermsOf(req) != [] then |" ORDER BY " + OrderText(req)| else 0)
  {
    Layout(WhereMarks(req), OrderPart(req), MarksText(req), OrderText(req),
           HasFilter(req), SortTermsOf(req) != []);
  }

  /** The statement with a `?` per filter and the values bound separately. */
  function BoundListQuery(req: ListRequest): (b: Bound)
    ensures Count(b.sql, '?') == |b.params|
    ensures b.params == PresentValues([req.cuisine, req.rating, req.location])
    ensures |b.params| == |Conditions(req)|
    ensures Base <= b.sql
    ensures HasFilter(req) <==> Base + " WHERE " <= b.sql
    ensures HasFilter(req) ==> Base + " WHERE " + MarksText(req) <= b.sql
    ensures SortTermsOf(req) != [] ==> EndsWith(b.sql, " ORDER BY " + OrderText(req))
    ensures |b.sql| == |Base|
      + (if HasFilter(req) then |" WHERE " + MarksText(req)| else 0)
      + (if SortTermsOf(req) != [] then |" ORDER BY " + OrderText(req)| else 0)
  {
    BoundSqlLayout(req);
    ConditionValues(req);
    Bound(BoundSql(req), Seqs.Map(Conditions(req), ValueOf))
  }

  /** Without filters there is nothing to bind, and the placeholder form
      runs the very statement the handler runs now. */
  lemma BoundMatchesSplicedWithoutFilters(req: ListRequest)
    requires !HasFilter(req)
    ensures BoundListQuery(req) == Bound(ListSql(req), [])
  {
  }

  /** The placeholder texts of a request's conditions, filter by filter. */
  lemma PlaceholdersOf(req: ListRequest)
    ensures Placeholders(Conditions(req))
         == (if Present(req.cuisine) then [Placeholder(CuisineEq(req.cuisine.GetOr("")))] else [])
          + (if Present(req.rating) then [Placeholder(RatingGe(req.rating.GetOr("")))] else [])
          + (if Present(req.location) then [Placeholder(LocationEq(req.location.GetOr("")))] else [])
  {
    var c := When(Present(req.cuisine), CuisineEq(req.cuisine.GetOr("")));
    var r := When(Present(req.rating), RatingGe(req.rating.GetOr("")));
    var l := When(Present(req.location), LocationEq(req.location.GetOr("")));
    PlaceholdersAppend(c + r, l);
    PlaceholdersAppend(c, r);
    PlaceholdersWhen(Present(req.cuisine), CuisineEq(req.cuisine.GetOr("")));
    PlaceholdersWhen(Present(req.rating), RatingGe(req.rating.GetOr("")));
    PlaceholdersWhen(Present(req.location), LocationEq(req.location.GetOr("")));
  }

  /** The placeholder text of a condition does not depend on its value. */
  lemma PlaceholderValueFree(c1: Condition, c2: Condition)
    requires !c1.KeywordsLike? && c1.Rank() == c2.Rank()
    ensures !c2.KeywordsLike? && Placeholder(c1) == Placeholder(c2)
  {
  }

  /** The placeholders depend on which filters are present only. */
  lemma PlaceholdersShapeOnly(r1: ListRequest, r2: ListRequest)
    requires Present(r1.cuisine) == Present(r2.cuisine)
    requires Present(r1.rating) == Present(r2.rating)
    requires Present(r1.location) == Present(r2.location)
    ensures Placeholders(Conditions(r1)) == Placeholders(Conditions(r2))
  {
    PlaceholdersOf(r1);
    PlaceholdersOf(r2);
    PlaceholderValueFree(CuisineEq(r1.cuisine.GetOr("")), CuisineEq(r2.cuisine.GetOr("")));
    PlaceholderValueFree(RatingGe(r1.rating.GetOr("")), RatingGe(r2.rating.GetOr("")));
    PlaceholderValueFree(LocationEq(r1.location.GetOr("")), LocationEq(r2.location.GetOr("")));
  }

  /** The statement text depends on which filters are present, never on their values. */
  lemma BoundListQueryShapeOnly(r1: ListRequest, r2: ListRequest)
    requires Present(r1.cuisine) == Present(r2.cuisine)
    requires Present(r1.rating) == Present(r2.rating)
    requires Present(r1.location) == Present(r2.location)
    requires r1.sort == r2.sort
    ensures BoundListQuery(r1).sql == BoundListQuery(r2).sql
  {
    PlaceholdersShapeOnly(r1, r2);
    assert OrderPart(r1) == OrderPart(r2);
  }

  /** With placeholders the two requests of the collision stay apart. */
  lemma BoundValuesStayApart(x: string, y: string)
    requires x != "" && y != ""
    ensures BoundListQuery(Smuggled(x, y)) != BoundListQuery(Honest(x, y))
  {
    assert |Conditions(Smuggled(x, y))| == 1;
    assert |Conditions(Honest(x, y))| == 2;
  }
}
