/** Authentication helpers of the client: a two-key session cache in the
    browser's local storage, and the wrappers around the account backend
    (register, login, current user, password reset). The backend's answers
    are inputs; each wrapper also returns the requests it issued, in order. */
module Auth {
  import opened Common

  const TokenKey := "qr_auth_token"
  const UserKey := "qr_user"

  const RegisterFailed := "Erreur lors de l'inscription"
  const LoginFailed := "Erreur lors de la connexion"
  const NoToken := "Pas de token d'authentification"
  const CurrentUserFailed := "Erreur lors de la récupération de l'utilisateur"
  const ForgotPasswordFailed := "Erreur lors de la demande de réinitialisation"
  const ResetPasswordFailed := "Erreur lors de la réinitialisation du mot de passe"

  datatype User = User(
    id: string,
    email: string,
    firstName: string,
    lastName: string,
    emailVerified: bool,
    oauthProvider: Option<string>,
    createdAt: string
  )

  datatype RegisterData = RegisterData(email: string, firstName: string, lastName: string, password: string)

  datatype LoginData = LoginData(email: string, password: string)

  datatype TokenResponse = TokenResponse(accessToken: string, tokenType: string)

  /** What a successful login hands back: the token and the profile. */
  datatype Session = Session(token: string, user: User)

  /** The requests the wrappers send to the account backend. */
  datatype Request =
    | RegisterRequest(data: RegisterData)
    | LoginRequest(credentials: LoginData)
    | CurrentUserRequest(token: string)
    | ForgotPasswordRequest(email: string)
    | ResetPasswordRequest(resetToken: string, newPassword: string)

  /** The browser's local storage: a string-to-string dictionary updated in place. */
  class LocalStorage {
    var items: map<string, string>

    constructor (initial: map<string, string>)
      ensures items == initial
    {
      items := initial;
    }

    method GetItem(key: string) returns (v: Option<string>)
      ensures v.Some? <==> key in items
      ensures v.Some? ==> v.value == items[key]
    {
      v := if key in items then Some(items[key]) else None;
    }

    method SetItem(key: string, value: string)
      modifies this
      ensures items == old(items)[key := value]
    {
      items := items[key := value];
    }

    method RemoveItem(key: string)
      modifies this
      ensures items == old(items) - {key}
    {
      items := items - {key};
    }
  }

  /** The stored token, if the token key is present. */
  function StoredToken(items: map<string, string>): (t: Option<string>)
    ensures t.Some? <==> TokenKey in items
    ensures t.Some? ==> t.value == items[TokenKey]
  {
    if TokenKey in items then Some(items[TokenKey]) else None
  }

  /** `isAuthenticated` on a storage snapshot: a token is stored and it is not "". */
  function Authenticated(items: map<string, string>): (b: bool)
    ensures b <==> TokenKey in items && items[TokenKey] != ""
  {
    Truthy(StoredToken(items))
  }

  /** `getUser` on a storage snapshot, with `parse` standing for `JSON.parse`
      (None when it throws). */
  function StoredUser(items: map<string, string>, parse: string -> Option<User>): (u: Option<User>)
    ensures UserKey !in items || items[UserKey] == "" ==> u.None?
    ensures UserKey in items && items[UserKey] != "" ==> u == parse(items[UserKey])
  {
    if UserKey in items && items[UserKey] != "" then parse(items[UserKey]) else None
  }

  /** The storage after `removeToken` / `logout`: both keys gone, nothing else touched. */
  function Cleared(items: map<string, string>): (r: map<string, string>)
    ensures TokenKey !in r && UserKey !in r
    ensures forall k :: k != TokenKey && k != UserKey ==> (k in r <==> k in items)
    ensures forall k :: k in r ==> r[k] == items[k]
  {
    items - {TokenKey, UserKey}
  }

  method SetToken(storage: LocalStorage, token: string)
    modifies storage
    ensures storage.items == old(storage.items)[TokenKey := token]
  {
    storage.SetItem(TokenKey, token);
  }

  method GetToken(storage: LocalStorage) returns (t: Option<string>)
    ensures t == StoredToken(storage.items)
  {
    t := storage.GetItem(TokenKey);
  }

  method RemoveToken(storage: LocalStorage)
    modifies storage
    ensures storage.items == Cleared(old(storage.items))
  {
    storage.RemoveItem(TokenKey);
    storage.RemoveItem(UserKey);
  }

  /** `setUser`, with `serialize` standing for `JSON.stringify`. */
  method SetUser(storage: LocalStorage, user: User, serialize: User -> string)
    modifies storage
    ensures storage.items == old(storage.items)[UserKey := serialize(user)]
  {
    storage.SetItem(UserKey, serialize(user));
  }

  method GetUser(storage: LocalStorage, parse: string -> Option<User>) returns (u: Option<User>)
    ensures u == StoredUser(storage.items, parse)
  {
    var userStr := storage.GetItem(UserKey);
    if !Truthy(userStr) {
      return None;
    }
    u := parse(userStr.value);
  }

  method IsAuthenticated(storage: LocalStorage) returns (b: bool)
    ensures b == Authenticated(storage.items)
  {
    var t := GetToken(storage);
    b := Truthy(t);
  }

  method Logout(storage: LocalStorage)
    modifies storage
    ensures storage.items == Cleared(old(storage.items))
    ensures !Authenticated(storage.items)
  {
    RemoveToken(storage);
  }

  /** Writing the token never disturbs the cached profile, and writing the
      profile never changes whether the user counts as authenticated. */
  lemma WritesAreIndependent(items: map<string, string>, token: string, userStr: string,
                             parse: string -> Option<User>)
    ensures StoredUser(items[TokenKey := token], parse) == StoredUser(items, parse)
    ensures Authenticated(items[UserKey := userStr]) == Authenticated(items)
    ensures Authenticated(items[TokenKey := token]) <==> token != ""
  {
  }

  /** A profile written by `setUser` is read back by `getUser`, provided the
      parser inverts the serializer on it. After `logout` nothing is read back. */
  lemma UserRoundTrip(items: map<string, string>, user: User,
                      serialize: User -> string, parse: string -> Option<User>)
    requires serialize(user) != "" && parse(serialize(user)) == Some(user)
    ensures StoredUser(items[UserKey := serialize(user)], parse) == Some(user)
    ensures StoredUser(Cleared(items[UserKey := serialize(user)]), parse).None?
    ensures !Authenticated(Cleared(items))
  {
  }

  /** `register`: one request; its answer decides the outcome. */
  method Register(data: RegisterData, reply: Reply<User>) returns (r: Result<User, string>, sent: seq<Request>)
    ensures sent == [RegisterRequest(data)]
    ensures r.Success? <==> reply.IsOk()
    ensures r.Success? ==> r.value == reply.body
    ensures reply.Answered? && !reply.ok ==> r == Failure(DetailOr(reply.detail, RegisterFailed))
    ensures reply.Rejected? ==> r == Failure(reply.message)
  {
    sent := [RegisterRequest(data)];
    r := CheckReply(reply, RegisterFailed);
  }

  /** `getCurrentUser`: the explicit token when it is non-empty, else the
      stored one; with neither, it fails before any request. A failed answer
      yields a fixed message: the backend's detail is not consulted. */
  method GetCurrentUser(storage: LocalStorage, token: Option<string>, reply: Reply<User>)
    returns (r: Result<User, string>, sent: seq<Request>)
    ensures Truthy(token) ==> sent == [CurrentUserRequest(token.value)]
    ensures !Truthy(token) && Authenticated(storage.items) ==>
              sent == [CurrentUserRequest(storage.items[TokenKey])]
    ensures !Truthy(token) && !Authenticated(storage.items) ==> sent == [] && r == Failure(NoToken)
    ensures sent != [] ==> r == (match reply
                                 case Rejected(m) => Failure(m)
                                 case Answered(ok, _, body) => if ok then Success(body) else Failure(CurrentUserFailed))
  {
    var authToken := token;
    if !Truthy(token) {
      authToken := GetToken(storage);
    }
    if !Truthy(authToken) {
      return Failure(NoToken), [];
    }
    sent := [CurrentUserRequest(authToken.value)];
    match reply
    case Rejected(m) =>
      r := Failure(m);
    case Answered(ok, _, body) =>
      r := if ok then Success(body) else Failure(CurrentUserFailed);
  }

  /** `login`: exchange the credentials for a token, then fetch the profile
      with that token. Nothing is written to storage (no modifies clause). */
  method Login(storage: LocalStorage, credentials: LoginData, tokenReply: Reply<TokenResponse>, userReply: Reply<User>)
    returns (r: Result<Session, string>, sent: seq<Request>)
    ensures |sent| >= 1 && sent[0] == LoginRequest(credentials)
    ensures !tokenReply.IsOk() ==> sent == [LoginRequest(credentials)]
    ensures !tokenReply.IsOk() ==> r == Failure(CheckReply(tokenReply, LoginFailed).error)
    ensures tokenReply.IsOk() && tokenReply.body.accessToken != "" ==>
              sent == [LoginRequest(credentials), CurrentUserRequest(tokenReply.body.accessToken)]
    ensures tokenReply.IsOk() && tokenReply.body.accessToken == "" && Authenticated(storage.items) ==>
              sent == [LoginRequest(credentials), CurrentUserRequest(storage.items[TokenKey])]
    ensures tokenReply.IsOk() && tokenReply.body.accessToken == "" && !Authenticated(storage.items) ==>
              sent == [LoginRequest(credentials)] && r == Failure(NoToken)
    ensures r.Success? ==> tokenReply.IsOk() && userReply.IsOk() && |sent| == 2
    ensures r.Success? ==> r.value == Session(tokenReply.body.accessToken, userReply.body)
    ensures tokenReply.IsOk() && |sent| == 2 && userReply.IsOk() ==> r.Success?
    ensures tokenReply.IsOk() && |sent| == 2 && !userReply.IsOk() ==>
              r == Failure(if userReply.Rejected? then userReply.message else CurrentUserFailed)
  {
    sent := [LoginRequest(credentials)];
    var step1 := CheckReply(tokenReply, LoginFailed);
    if step1.Failure? {
      return Failure(step1.error), sent;
    }
    var accessToken := step1.value.accessToken;
    var user, more := GetCurrentUser(storage, Some(accessToken), userReply);
    sent := sent + more;
    if user.Failure? {
      return Failure(user.error), sent;
    }
    r := Success(Session(accessToken, user.value));
  }

  method ForgotPassword(email: string, reply: Reply<()>) returns (r: Result<(), string>, sent: seq<Request>)
    ensures sent == [ForgotPasswordRequest(email)]
    ensures r.Success? <==> reply.IsOk()
    ensures reply.Answered? && !reply.ok ==> r == Failure(DetailOr(reply.detail, ForgotPasswordFailed))
    ensures reply.Rejected? ==> r == Failure(reply.message)
  {
    sent := [ForgotPasswordRequest(email)];
    r := CheckReply(reply, ForgotPasswordFailed);
  }

  method ResetPassword(resetToken: string, newPassword: string, reply: Reply<()>)
    returns (r: Result<(), string>, sent: seq<Request>)
    ensures sent == [ResetPasswordRequest(resetToken, newPassword)]
    ensures r.Success? <==> reply.IsOk()
    ensures reply.Answered? && !reply.ok ==> r == Failure(DetailOr(reply.detail, ResetPasswordFailed))
    ensures reply.Rejected? ==> r == Failure(reply.message)
  {
    sent := [ResetPasswordRequest(resetToken, newPassword)];
    r := CheckReply(reply, ResetPasswordFailed);
  }
}
