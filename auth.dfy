/** The user store of routes/auth.py: credential checking, token claims,
    resolving a token back to a user, and registration. Password hashing,
    token signing and the partner service are outside the model: the hash
    check is the parameter `verify`, a new hash is an input, a decoded token
    is an input (None when decoding fails), and each partner call is reduced
    to its status code and the access token it returned. */
module Auth {
  import opened Http
  import Search

  /** A stored user record. */
  datatype User = User(id: int, username: string, passwordHash: string, isAdmin: bool, integrasiToken: Option<string>)

  /** The registration form. */
  datatype UserIn = UserIn(username: string, password: string)

  /** The claim set inside a bearer token. A token decoded from outside may
      lack either claim. */
  datatype Claims = Claims(sub: Option<string>, id: Option<int>)

  /** The body `POST /token` returns; the token itself is the encoding of
      `claims`. */
  datatype TokenResponse = TokenResponse(claims: Claims, tokenType: string)

  /** The one username that registers as an admin. */
  const AdminUsername := "jazmy"

  const InvalidCredentials := "Invalid username or password"
  const InvalidUser := "Invalid user"
  const InvalidToken := "Invalid token"
  const PartnerRegisterFailed := "Error registering user with your friend's API."
  const PartnerTokenFailed := "Error obtaining token from your friend's API."

  /** The user's name matches and the password verifies against the stored hash. */
  predicate Verifies(u: User, username: string, password: string, verify: (string, string) -> bool)
  {
    u.username == username && verify(password, u.passwordHash)
  }

  /** `authenticate_user`: the first user, in list order, whose name matches
      and whose hash verifies the password; None when no user qualifies. */
  function Authenticate(users: seq<User>, username: string, password: string,
                        verify: (string, string) -> bool): (r: Option<User>)
    ensures r.None? <==> forall k :: 0 <= k < |users| ==> !Verifies(users[k], username, password, verify)
    ensures r.Some? ==>
      exists k :: 0 <= k < |users| && users[k] == r.value
        && Verifies(users[k], username, password, verify)
        && forall j :: 0 <= j < k ==> !Verifies(users[j], username, password, verify)
  {
    match Search.FirstIndex(users, (u: User) => Verifies(u, username, password, verify))
    case None => None
    case Some(k) => Some(users[k])
  }

  /** `generate_token`: 401 when authentication fails, otherwise the claims
      `{sub: username, id: user.id}` of the authenticated user and the token
      type "bearer". */
  function GenerateToken(users: seq<User>, username: string, password: string,
                         verify: (string, string) -> bool): (r: Result<TokenResponse>)
    ensures r.Err? <==> forall k :: 0 <= k < |users| ==> !Verifies(users[k], username, password, verify)
    ensures r.Err? ==> r.error == Unauthorized(InvalidCredentials)
    ensures r.Ok? ==> r.value.tokenType == "bearer" && r.value.claims.sub == Some(username)
    ensures r.Ok? ==>
      exists k :: 0 <= k < |users| && Verifies(users[k], username, password, verify)
        && r.value.claims.id == Some(users[k].id)
    ensures r.Ok? ==>
      r.value.claims == Claims(Some(username), Some(Authenticate(users, username, password, verify).value.id))
  {
    match Authenticate(users, username, password, verify)
    case None => Err(Unauthorized(InvalidCredentials))
    case Some(u) => Ok(TokenResponse(Claims(Some(u.username), Some(u.id)), "bearer"))
  }

  /** The user lookup of `get_current_user`: 401 "Invalid token" when the
      token does not decode; otherwise the first user whose id equals the
      `id` claim, and 401 "Invalid user" when there is none. */
  function CurrentUser(users: seq<User>, decoded: Option<Claims>): (r: Result<User>)
    ensures decoded.None? ==> r == Err(Unauthorized(InvalidToken))
    ensures decoded.Some? ==>
      (r.Err? <==> forall k :: 0 <= k < |users| ==> Some(users[k].id) != decoded.value.id)
    ensures decoded.Some? && r.Err? ==> r.error == Unauthorized(InvalidUser)
    ensures r.Ok? ==> decoded.Some? && decoded.value.id == Some(r.value.id)
    ensures r.Ok? ==>
      exists k :: 0 <= k < |users| && users[k] == r.value
        && forall j :: 0 <= j < k ==> users[j].id != r.value.id
  {
    match decoded
    case None => Err(Unauthorized(InvalidToken))
    case Some(claims) =>
      match Search.FirstIndex(users, (u: User) => Some(u.id) == claims.id)
      case None => Err(Unauthorized(InvalidUser))
      case Some(k) => Ok(users[k])
  }

  /** `get_current_user` as written. The `except jwt.JWTError` clause names an
      attribute the PyJWT module does not have, so any exception leaving the
      `try` block, a failed decode as well as the "Invalid user" 401 raised
      inside it, turns into an AttributeError: a 500. */
  function CurrentUserAsWritten(users: seq<User>, decoded: Option<Claims>): (r: Result<User>)
    ensures r.Ok? ==> r == CurrentUser(users, decoded)
    ensures r.Err? <==> CurrentUser(users, decoded).Err?
    ensures r.Err? ==> r.error == ServerError && CurrentUser(users, decoded).error.Status() == 401
  {
    match decoded
    case None => Err(ServerError)
    case Some(claims) =>
      match Search.FirstIndex(users, (u: User) => Some(u.id) == claims.id)
      case None => Err(ServerError)
      case Some(k) => Ok(users[k])
  }

  /** A concrete instance: an undecodable token against an empty user list. */
  lemma UndecodableTokenAsWritten()
    ensures CurrentUserAsWritten([], None) == Err(ServerError)
    ensures CurrentUser([], None) == Err(Unauthorized(InvalidToken))
  {
  }

  /** No two users share an id. */
  ghost predicate UniqueIds(users: seq<User>)
  {
    forall i, j :: 0 <= i < j < |users| ==> users[i].id != users[j].id
  }

  /** User ids are 1..N by position, as registration assigns them. */
  ghost predicate IdsDense(users: seq<User>)
  {
    forall i :: 0 <= i < |users| ==> users[i].id == i + 1
  }

  lemma DenseIdsUnique(users: seq<User>)
    requires IdsDense(users)
    ensures UniqueIds(users)
  {
  }

  /** A token issued for a user resolves back to that same user, as long as
      no two users share an id. */
  lemma IssuedTokenResolves(users: seq<User>, username: string, password: string,
                             verify: (string, string) -> bool)
    requires UniqueIds(users)
    requires GenerateToken(users, username, password, verify).Ok?
    ensures Authenticate(users, username, password, verify).Some?
    ensures CurrentUser(users, Some(GenerateToken(users, username, password, verify).value.claims))
         == Ok(Authenticate(users, username, password, verify).value)
  {
  }

  /** The record `register_user_and_friends` appends for a store of `count`
      users, or the partner's error. A failed partner call passes its status
      code through; nothing about the existing users, not even a duplicate
      name, stops a registration. */
  function NewUser(count: nat, input: UserIn, passwordHash: string,
                   registerStatus: int, tokenStatus: int, partnerToken: Option<string>): (r: Result<User>)
    ensures r.Ok? <==> registerStatus == 200 && tokenStatus == 200
    ensures registerStatus != 200 ==> r == Err(Upstream(registerStatus, PartnerRegisterFailed))
    ensures registerStatus == 200 && tokenStatus != 200 ==> r == Err(Upstream(tokenStatus, PartnerTokenFailed))
    ensures r.Err? ==> r.error.Status() != 200
    ensures r.Ok? ==> r.value.id == count + 1
    ensures r.Ok? ==> (r.value.isAdmin <==> input.username == AdminUsername)
    ensures r.Ok? ==>
      r.value.username == input.username && r.value.passwordHash == passwordHash
        && r.value.integrasiToken == partnerToken
  {
    var userId := count + 1;
    var isAdmin := input.username == AdminUsername;
    if registerStatus != 200 then Err(Upstream(registerStatus, PartnerRegisterFailed))
    else if tokenStatus != 200 then Err(Upstream(tokenStatus, PartnerTokenFailed))
    else Ok(User(userId, input.username, passwordHash, isAdmin, partnerToken))
  }

  /** The module-level `users_data` list. */
  class UserStore {
    var users: seq<User>

    constructor (initial: seq<User>)
      ensures users == initial
    {
      users := initial;
    }

    /** `POST /register`: append the new user at the end, or, when a partner
        call fails, change nothing. */
    method Register(input: UserIn, passwordHash: string, registerStatus: int, tokenStatus: int,
                    partnerToken: Option<string>) returns (r: Result<User>)
      modifies this
      ensures r == NewUser(|old(users)|, input, passwordHash, registerStatus, tokenStatus, partnerToken)
      ensures r.Ok? ==> users == old(users) + [r.value]
      ensures r.Err? ==> users == old(users)
      ensures r.Ok? && IdsDense(old(users)) ==> IdsDense(users)
    {
      r := NewUser(|users|, input, passwordHash, registerStatus, tokenStatus, partnerToken);
      if r.Ok? {
        users := users + [r.value];
      }
    }
  }
}
