# Restaurant API: query building, menu grouping and login, in Dafny

A model of the logic inside the request handlers of the restaurant
discovery backend (`Server/index.js`, one Express file over a MySQL pool).
What the handlers compute is written here as pure functions over immutable
data: the SQL statements built from query parameters, the grouping of menu
rows under their categories, and the decisions of the login flow. What the
database, the password hasher and the client answer becomes an input.

- `Options`: optional request parameters and the JavaScript truthiness
  test the handlers apply to them (`undefined` and `''` are falsy).
- `Seqs`, `Strings`: `Array.prototype.filter` and `map`, and `join`,
  `split` and counting of a character, with the facts the rest relies on.
- `Schema`: the rows read from the `Restaurant`, `Categories`, `MenuItems`
  and `users` tables.
- `Http`: a database result (`Fetch`: failed, or a value) and a reply
  (status and JSON body: payload, `{ error }` or `{ message }`).
- `Clauses`: the WHERE conditions and their two renderings, with the value
  spliced into the text, or as a `?` placeholder.
- `ListQuery`: `GET /api/restaurants`: conditions, sort-token parsing, the
  statement and the reply.
- `ListBound`: the value-splicing defect of that statement, shown on a
  pair of requests, and its placeholder form.
- `FilterQuery`: `GET /api/restaurants/filter`, the statement and its bound
  parameters built in lockstep.
- `SearchQuery`: `GET /api/restaurants/search`.
- `SortQuery`: `GET /api/restaurants/sort`.
- `Menu`: `GET /api/restaurants/:restaurant_id/menu`.
- `Auth`: `POST /login`.

Two handlers decide whether anything is run at all, so they take the
database or the comparison as a function and return the reply together
with the calls they made: `SortQuery.SortRestaurants` (the database as
`string -> Fetch<...>`, and the statements it ran) and `Auth.Login` (the
user lookup and the bcrypt comparison, whose outcome is an error, a
mismatch or a match, and the calls made in order). "No query is run" is a
statement about that trace. The other handlers always run the statement
they build: their statement is a function of the request
(`ListQuery.ListSql`, `FilterQuery.FilterQuery`, `SearchQuery.SearchSql`),
and their reply (`ListReply`, `FilterReply`, `SearchReply`,
`Menu.MenuReply`) takes the database's result as a `Fetch` value, with no
trace.

Two behaviours of the code worth knowing:
- the list endpoint splices filter values into the statement text instead
  of binding them (see Findings);
- the menu handler answers 404 only when a result set is missing; two
  empty result sets give 200 with `{}` (`Menu.MenuReply`).

## Model

| member | source | states |
|---|---|---|
| Strings.Split | Server/index.js:43 | splitting at commas gives at least one piece and no piece holds a comma |
| Strings.SplitJoin | Server/index.js:43 | pieces without commas, joined with commas and split again, come back unchanged |
| Strings.JoinSplit | Server/index.js:43 | the pieces of a split, joined with the separator, rebuild the string |
| ListQuery.Conditions | Server/index.js:29-39 | conditions come in the fixed order cuisine, rating, location, each exactly when its parameter is truthy and carrying that parameter's value; there are some iff a filter parameter is truthy |
| ListQuery.SortTokenTable | Server/index.js:46-61 | the four recognised tokens give `Name ASC`, `Name DESC`, `Rating ASC`, `Rating DESC`; a term is produced iff the token is one of the four, and the term names its token |
| ListQuery.ParseTokenOf | Server/index.js:46-61 | every term is parsed back from its own token, so the token table is one-to-one |
| ListQuery.SortTerms | Server/index.js:45-62 | at most one term per token, and every term comes from a token of the input |
| ListQuery.SortTermsAppend | Server/index.js:45-62 | tokens are handled left to right and independently: the terms of a concatenation are the concatenated terms |
| ListQuery.SortTermsRecoverTokens | Server/index.js:45-62 | reading the terms back as tokens gives exactly the recognised tokens in input order: one term each, none for unknown tokens |
| ListQuery.SortTermsOf | Server/index.js:42-63 | no terms without a truthy `sort`; otherwise the terms are the recognised comma-separated tokens, in order |
| ListQuery.ListSql | Server/index.js:65-73 | the statement starts with `SELECT * FROM Restaurant`; it is exactly that without filters and terms; ` WHERE ` follows iff there is a filter, then the conditions joined by ` AND `; ` ORDER BY ` and the joined terms end it when there are terms; its length is the sum of those parts |
| ListQuery.ListReply | Server/index.js:75-81 | 200 with the rows (an empty result included) iff the query succeeds, otherwise 500 with the fixed error text |
| ListBound.SplicedValuesCollide | Server/index.js:29-39 | a cuisine value `x' AND Location = 'y` and the request for cuisine `x` and location `y` ask for different conditions but run the same statement |
| ListBound.QuoteCarriesCondition | Server/index.js:30-38 | a quote inside a spliced cuisine value closes the literal, so the value can spell out a further condition |
| ListBound.BoundSqlLayout | Server/index.js:65-73 | the placeholder statement keeps the spliced one's layout: the same prefix, ` WHERE ` and the placeholder conditions iff there is a filter, the same ORDER BY part at the end, and a length that is the sum of those parts |
| ListBound.BoundListQuery | Server/index.js:29-73 | the placeholder form of the statement: as many `?` as bound values, the values being the truthy filters in order; the prefix, ` WHERE ` with one placeholder condition per filter, and the ORDER BY terms of the handler's statement, with the length of those parts |
| ListBound.BoundMatchesSplicedWithoutFilters | Server/index.js:29-73 | without a truthy filter the placeholder form binds nothing and runs exactly the statement the handler runs |
| ListBound.ConditionValues | Server/index.js:29-39 | in the placeholder form the bound values are the truthy filter parameters, cuisine, rating, location, in that order |
| ListBound.WhereMarks | Server/index.js:29-39 | the WHERE part of the placeholder form holds one `?` per condition, and is empty iff no filter is truthy |
| ListBound.PlaceholdersShapeOnly | Server/index.js:29-39 | the placeholder conditions depend on which filters are present, never on their values |
| ListBound.BoundListQueryShapeOnly | Server/index.js:29-73 | in the placeholder form the text depends on which filters are present, never on their values |
| ListBound.BoundValuesStayApart | Server/index.js:29-39 | in the placeholder form the two colliding requests give different statements |
| Clauses.Placeholder | Server/index.js:29-39 | in the corrected list statement, a condition written with a placeholder holds exactly one `?` |
| FilterQuery.Extend | Server/index.js:93-100 | one step keeps the `?` count equal to the parameter count, appends the column and `?` iff the value is truthy, and pushes exactly that value |
| FilterQuery.FilterQuery | Server/index.js:90-100 | the statement is the base query, then ` AND cuisine = ?` iff `cuisine` is truthy, then ` AND deliveryoptions = ?` iff `deliveryoptions` is truthy; the parameters are the truthy `cuisine` then `deliveryoptions`, so each `?` binds its own column's value; the `?` count equals the parameter count |
| FilterQuery.FilterQueryShapeOnly | Server/index.js:90-100 | the text depends on which parameters are present, never on their values |
| FilterQuery.FilterQueryRoundTrip | Server/index.js:90-100 | the text and the parameters together give back both truthy parameters, so nothing of the request is lost |
| FilterQuery.FilterReply | Server/index.js:103-108 | 200 with the rows iff the query succeeds, otherwise 500 with `Database error` |
| SearchQuery.SearchConditions | Server/index.js:173-183 | conditions in the order keywords, cuisine, location, each exactly when its parameter is truthy, with its value; some iff any criterion is truthy |
| SearchQuery.AndIfExtends | Server/index.js:173-183 | each conditional step appends ` AND ` and its condition to the conditions already there |
| SearchQuery.SearchSql | Server/index.js:171-183 | the statement is `WHERE 1` followed by each requested condition introduced by ` AND `; it is the bare prefix iff no criterion is given |
| SearchQuery.SearchReply | Server/index.js:186-196 | 500 iff the query fails, 404 iff it returns no rows, 200 with the rows otherwise |
| SortQuery.OrderBy | Server/index.js:204-212 | `rating` gives `rating DESC`, `deliveryOptions` gives `deliveryOptions ASC`, and every other value (absent included) is rejected |
| SortQuery.SortRestaurants | Server/index.js:203-224 | a rejected `sortBy` runs no statement and answers 500; an accepted one runs exactly `SELECT * FROM restaurant ORDER BY` its term; 200 with the rows iff accepted and the query succeeds, otherwise 500 |
| Menu.GroupMenu | Server/index.js:126-137 | the menu's keys are exactly the category ids of the category rows (none for no rows) |
| Menu.GroupMenuItems | Server/index.js:127-136 | each entry's items are exactly the item rows of that category, in row order, reduced to name, description and price |
| Menu.GroupMenuNames | Server/index.js:127-136 | each entry is named after the last category row with its id, since later assignments replace earlier ones |
| Menu.ItemsOfAppend | Server/index.js:131-135 | grouping concatenated item rows concatenates the groups, so row order is kept |
| Menu.ItemsOfSingle | Server/index.js:131-135 | one item row lands in its own category's group and in no other |
| Menu.GroupMenuDependsOnGroups | Server/index.js:126-137 | the menu depends on the item rows only through the groups of existing categories |
| Menu.GroupMenuIgnoresOrphans | Server/index.js:126-137 | item rows whose category id matches no category row do not appear: dropping them first gives the same menu |
| Menu.MenuReply | Server/index.js:118-143 | 500 iff either query fails; 404 iff both succeed and a result set is missing; when both result sets are there, exactly 200 with the grouped menu, so empty categories give `{}`; no other status |
| Auth.AfterCompare | Server/index.js:303-314 | a comparison error answers 500, a mismatch 401 with the shared message, and a match 200 with a token claiming the row's id and email, expiring in 1h |
| Auth.AfterLookup | Server/index.js:291-316 | a lookup error answers 500 and no user 401, neither comparing; otherwise the password is compared once with the first row's hash |
| Auth.Login | Server/index.js:283-317 | 400 iff email or password is missing, and then no call is made; otherwise the lookup of that email comes first; a lookup error gives 500 `Database error` and no row gives 401, each after the lookup alone; with a row, exactly one comparison against its hash follows, a mismatch giving 401 and a comparison error 500 `Authentication error`; 200 iff the credentials are given, a user is found and the password matches; the token's claims come from the stored row; 401 always carries `Invalid email or password`; 500 carries one of the two failure messages |
| Auth.UnknownAndWrongPasswordAlike | Server/index.js:297-311 | an unknown email and a wrong password for a known one get the same 401 reply |
| Auth.TokenNamesStoredUser | Server/index.js:301-314 | on success the calls are the lookup then one comparison, and the token names the stored user |

## Left out

- Express setup, route registration and `app.listen`: framework plumbing.
- The MySQL pool and running statements: every result is an input, and
  row contents and row order are whatever the database returns.
- bcrypt hashing and comparison: the comparison is an input function.
- JWT signing and its secret: the token is modelled as its claims and its
  expiry, not as the signed string.
- `sendConfirmationEmail` and the whole `POST /register` handler: not part
  of this model.
- The single-row lookups (`/reviews`, `/details`, `/:restaurant_id`): one
  parameterised query and an empty-result check each, not part of this model.
- The login handler passes a callback to a promise-based pool: runtime
  behaviour, so the model follows the callbacks as written.
- Array- or object-valued query parameters (`?cuisine=a&cuisine=b`):
  parameters are optional strings.
- The login body fields (`email` and `password` from the JSON body) are
  likewise modelled as optional strings: non-string JSON values (numbers,
  booleans, `null`, objects), which JavaScript's truthiness test would
  treat as falsy or truthy in their own way, are not modelled.
- The key order of the menu object in the JSON reply: the menu is a map.
- The menu handler does not run the item query when the category query
  fails; the reply is the same either way, so the model does not trace it.
- SearchQuery.SearchSql: splices values exactly as the list endpoint does;
  no placeholder form is given for it, and no claim of safety is made.
- Statement execution results such as ordering by the ORDER BY terms: the
  database's work, not the handlers'.

## Findings

| source | as written | input that shows it | evidently intended | confidence | as-written member | corrected member |
|---|---|---|---|---|---|---|
| Server/index.js:29-39 | filter values are placed between quotes in the statement text with no escaping | `cuisine = a' AND Location = 'b` against `cuisine = a`, `location = b` | each value is bound as a parameter, as `/api/restaurants/filter` does, so a value never changes the conditions | high; not executed | ListBound.SplicedValuesCollide | ListBound.BoundListQuery |
