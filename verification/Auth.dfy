/**
  `POST /login` (Server/index.js, lines 283-317): both credentials must be
  given before the user is looked up; the stored hash is then compared with
  the password, and a match yields a token whose claims are taken from the
  stored user row. The database lookup and the hash comparison are given to
  the model as functions; signing the token is not modelled, only the
  claims and the expiry it is signed with.
 */
module Auth {
  import opened Options
  import opened Http
  import opened Schema

  /** What the hash comparison reports: an error, or whether the password matches. */
  datatype CompareOutcome = CompareFailed | Mismatch | Match

  /** `{ userId: user.id, email: user.email }` */
  datatype Claims = Claims(userId: int, email: string)

  datatype Token = Token(claims: Claims, expiresIn: string)

  const Expiry := "1h"

  const MissingFields := "email and password are required"
  const DatabaseError := "Database error"
  const InvalidCredentials := "Invalid email or password"
  const AuthenticationError := "Authentication error"

  /** A call the handler makes to something outside it. */
  datatype Call = Lookup(email: string) | Compare(password: string, hash: string)

  /** The reply, and the outside calls made on the way, in order. */
  datatype LoginRun = LoginRun(reply: Reply<Token>, calls: seq<Call>)

  /** The comparison callback. */
  function AfterCompare(user: User, outcome: CompareOutcome): (r: Reply<Token>)
    ensures r.status == 200 <==> outcome == Match
    ensures outcome == Match ==> r.body == Json(Token(Claims(user.id, user.email), Expiry))
    ensures outcome == Mismatch ==> r == Reply(401, MessageText(InvalidCredentials))
    ensures outcome == CompareFailed ==> r == Reply(500, MessageText(AuthenticationError))
  {
    match outcome
    case CompareFailed => Reply(500, MessageText(AuthenticationError))
    case Mismatch => Reply(401, MessageText(InvalidCredentials))
    case Match => Reply(200, Json(Token(Claims(user.id, user.email), Expiry)))
  }

  /** The lookup callback: the first row found is the user. */
  function AfterLookup(password: string, found: Fetch<seq<User>>,
                       compare: (string, string) -> CompareOutcome): (r: LoginRun)
    ensures found.FetchError? ==> r == LoginRun(Reply(500, MessageText(DatabaseError)), [])
    ensures found == Fetched([]) ==> r == LoginRun(Reply(401, MessageText(InvalidCredentials)), [])
    ensures found.Fetched? && found.value != [] ==>
      var user := found.value[0];
      r.calls == [Compare(password, user.passwordHash)]
      && r.reply == AfterCompare(user, compare(password, user.passwordHash))
  {
    match found
    case FetchError => LoginRun(Reply(500, MessageText(DatabaseError)), [])
    case Fetched(rows) =>
      if |rows| == 0 then LoginRun(Reply(401, MessageText(InvalidCredentials)), [])
      else
        var user := rows[0];
        LoginRun(AfterCompare(user, compare(password, user.passwordHash)),
                 [Compare(password, user.passwordHash)])
  }

  /** The login succeeds exactly when both credentials are given, the
      lookup returns a row, and the password matches that row's hash. */
  predicate Authenticated(email: Option<string>, password: Option<string>,
                          lookup: string -> Fetch<seq<User>>,
                          compare: (string, string) -> CompareOutcome)
  {
    && Present(email) && Present(password)
    && lookup(email.value).Fetched? && lookup(email.value).value != []
    && compare(password.value, lookup(email.value).value[0].passwordHash) == Match
  }

  /** The handler. */
  function Login(email: Option<string>, password: Option<string>,
                 lookup: string -> Fetch<seq<User>>,
                 compare: (string, string) -> CompareOutcome): (r: LoginRun)
    ensures !Present(email) || !Present(password) ==>
      r == LoginRun(Reply(400, MessageText(MissingFields)), [])
    ensures Present(email) && Present(password) ==>
      |r.calls| >= 1 && r.calls[0] == Lookup(email.value)
    ensures r.reply.status == 200 <==> Authenticated(email, password, lookup, compare)
    ensures r.reply.status == 200 ==>
      var user := lookup(email.value).value[0];
      r.reply.body == Json(Token(Claims(user.id, user.email), Expiry))
    ensures r.reply.status in {200, 400, 401, 500}
    ensures r.reply.status == 400 <==> !Present(email) || !Present(password)
    ensures Present(email) && Present(password) && lookup(email.value).FetchError? ==>
      r == LoginRun(Reply(500, MessageText(DatabaseError)), [Lookup(email.value)])
    ensures Present(email) && Present(password) && lookup(email.value) == Fetched([]) ==>
      r == LoginRun(Reply(401, MessageText(InvalidCredentials)), [Lookup(email.value)])
    ensures Present(email) && Present(password) && lookup(email.value).Fetched? && lookup(email.value).value != [] ==>
      var hash := lookup(email.value).value[0].passwordHash;
      && r.calls == [Lookup(email.value), Compare(password.value, hash)]
      && (compare(password.value, hash) == Mismatch ==> r.reply == Reply(401, MessageText(InvalidCredentials)))
      && (compare(password.value, hash) == CompareFailed ==> r.reply == Reply(500, MessageText(AuthenticationError)))
    ensures r.reply.status == 401 ==> r.reply.body == MessageText(InvalidCredentials)
    ensures r.reply.status == 500 ==>
      r.reply.body == MessageText(DatabaseError) || r.reply.body == MessageText(AuthenticationError)
  {
    if !Present(email) || !Present(password) then
      LoginRun(Reply(400, MessageText(MissingFields)), [])
    else
      var after := AfterLookup(password.value, lookup(email.value), compare);
      LoginRun(after.reply, [Lookup(email.value)] + after.calls)
  }

  /** An unknown email and a wrong password for a known one get the same
      reply, so a caller cannot tell which accounts exist. */
  lemma UnknownAndWrongPasswordAlike(email: string, password: string,
                                     lookup: string -> Fetch<seq<User>>,
                                     lookup': string -> Fetch<seq<User>>,
                                     compare: (string, string) -> CompareOutcome)
    requires email != "" && password != ""
    requires lookup(email) == Fetched([])
    requires lookup'(email).Fetched? && lookup'(email).value != []
    requires compare(password, lookup'(email).value[0].passwordHash) == Mismatch
    ensures Login(Some(email), Some(password), lookup, compare).reply
         == Login(Some(email), Some(password), lookup', compare).reply
         == Reply(401, MessageText(InvalidCredentials))
  {
  }

  /** The token is issued for the stored account, so its email claim is
      the stored one, whatever spelling was looked up. */
  lemma TokenNamesStoredUser(email: string, password: string, user: User,
                             lookup: string -> Fetch<seq<User>>,
                             compare: (string, string) -> CompareOutcome)
    requires email != "" && password != ""
    requires lookup(email) == Fetched([user])
    requires compare(password, user.passwordHash) == Match
    ensures Login(Some(email), Some(password), lookup, compare)
         == LoginRun(Reply(200, Json(Token(Claims(user.id, user.email), Expiry))),
                     [Lookup(email), Compare(password, user.passwordHash)])
  {
  }
}
