/**
  `GET /api/restaurants/sort` (Server/index.js, lines 200-225): `sortBy`
  selects one of two ORDER BY terms; any other value is rejected before a
  statement is built, and the rejection surfaces as a server error.
 */
module SortQuery {
  import opened Options
  import opened Http
  import opened Schema

  const Failed := "An error occurred while sorting restaurants"

  /** The ORDER BY term for `sortBy`, or None for the thrown "Invalid sorting criteria". */
  function OrderBy(sortBy: Option<string>): (r: Option<string>)
    ensures r == Some("rating DESC") <==> sortBy == Some("rating")
    ensures r == Some("deliveryOptions ASC") <==> sortBy == Some("deliveryOptions")
    ensures r.None? <==> sortBy != Some("rating") && sortBy != Some("deliveryOptions")
  {
    if sortBy == Some("rating") then Some("rating DESC")
    else if sortBy == Some("deliveryOptions") then Some("deliveryOptions ASC")
    else None
  }

  /** The reply, and the statements sent to the database on the way. */
  datatype SortRun = SortRun(reply: Reply<seq<Restaurant>>, queries: seq<string>)

  /** The handler, given what the database answers to each statement. */
  function SortRestaurants(sortBy: Option<string>, run: string -> Fetch<seq<Restaurant>>): (r: SortRun)
    ensures OrderBy(sortBy).None? ==> r.queries == [] && r.reply == Reply(500, ErrorText(Failed))
    ensures OrderBy(sortBy).Some? ==>
      r.queries == ["SELECT * FROM restaurant ORDER BY " + OrderBy(sortBy).value]
    ensures r.reply.status == 200 <==> OrderBy(sortBy).Some? && run(r.queries[0]).Fetched?
    ensures r.reply.status == 200 ==> r.reply.body == Json(run(r.queries[0]).value)
    ensures r.reply.status != 200 ==> r.reply == Reply(500, ErrorText(Failed))
  {
    match OrderBy(sortBy)
    case None => SortRun(Reply(500, ErrorText(Failed)), [])
    case Some(orderBy) =>
      var sql := "SELECT * FROM restaurant ORDER BY " + orderBy;
      match run(sql)
      case FetchError => SortRun(Reply(500, ErrorText(Failed)), [sql])
      case Fetched(rows) => SortRun(Reply(200, Json(rows)), [sql])
  }
}
