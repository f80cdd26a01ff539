/**
  The WHERE conditions the restaurant endpoints build from request
  parameters, and two ways of turning one into SQL text: with the request
  value spliced into the text (what `/api/restaurants` and
  `/api/restaurants/search` do), or with a `?` placeholder whose value
  travels separately as a bound parameter, in the style of
  `/api/restaurants/filter`.
 */
module Clauses {
  import opened Strings

  datatype Condition =
    | KeywordsLike(keywords: string)
    | CuisineEq(cuisine: string)
    | RatingGe(rating: string)
    | LocationEq(location: string)
  {
    /** Where this kind of condition sits in the order the handlers test
        their parameters: keywords, cuisine, rating, location. */
    function Rank(): nat {
      match this
      case KeywordsLike(_) => 0
      case CuisineEq(_) => 1
      case RatingGe(_) => 2
      case LocationEq(_) => 3
    }
  }

  /** The request value the condition compares against. */
  function ValueOf(c: Condition): string {
    match c
    case KeywordsLike(k) => k
    case CuisineEq(v) => v
    case RatingGe(v) => v
    case LocationEq(v) => v
  }

  /** The condition `c`, when its parameter is present. */
  function When(present: bool, c: Condition): seq<Condition> {
    if present then [c] else []
  }

  /** What `When` holds: `c` alone when present, nothing otherwise. */
  lemma WhenMembers(present: bool, c: Condition)
    ensures |When(present, c)| == if present then 1 else 0
    ensures forall x :: x in When(present, c) <==> present && x == c
  {
  }

  /** Each kind occurs at most once, and the kinds come in their fixed order. */
  predicate InFixedOrder(cs: seq<Condition>) {
    forall i, j :: 0 <= i < j < |cs| ==> cs[i].Rank() < cs[j].Rank()
  }

  /** The condition with its value spliced into the text. A quote inside the
      value ends the string literal early: nothing here escapes it. */
  function Spliced(c: Condition): string {
    match c
    case KeywordsLike(k) => "(Name LIKE '%" + k + "%' OR Description LIKE '%" + k + "%')"
    case CuisineEq(v) => "Cuisine = '" + v + "'"
    case RatingGe(v) => "Rating >= " + v
    case LocationEq(v) => "Location = '" + v + "'"
  }

  /** The column and operator of a condition, up to where its value goes. */
  function ColumnText(c: Condition): (r: string)
    requires !c.KeywordsLike?
    ensures '?' !in r
  {
    match c
    case CuisineEq(_) => "Cuisine = "
    case RatingGe(_) => "Rating >= "
    case LocationEq(_) => "Location = "
  }

  /** The condition with a placeholder instead of its value: the text
      depends on the kind only, and holds exactly one `?`. Keyword search
      is not offered with placeholders (it would bind its value twice). */
  function Placeholder(c: Condition): (r: string)
    requires !c.KeywordsLike?
    ensures Count(r, '?') == 1
  {
    CountOneAtEnd(ColumnText(c), '?');
    ColumnText(c) + "?"
  }

  /** A parameterised statement: SQL text plus the values bound to its `?`s, in order. */
  datatype Bound = Bound(sql: string, params: seq<string>)
}
