/**
 * The authentication rules of the API server: the `users` collection with
 * `register` and `login`, the access-token claims, and the decisions of
 * `get_current_user`.  Password hashing (bcrypt) and token signing (JWT)
 * are foreign code: the salted hash arrives as an input, and `encode` /
 * `decode` are parameters; `decode` answers `None` for every `JWTError`
 * (bad signature, malformed token, expired `exp`).  Times are whole seconds.
 */
module ServerAuth {
  import opened Wrappers

  /** `ACCESS_TOKEN_EXPIRE_MINUTES` when the environment does not set it. */
  const DefaultExpireMinutes := 43200
  const DefaultRole := "contractor"

  const EmailTaken := "Email already registered"
  const BadLogin := "Invalid email or password"
  const BadCredentials := "Could not validate credentials"

  /** An `HTTPException`: status code and detail. */
  datatype HttpError = HttpError(status: int, detail: string)

  /** The body of `POST /auth/register`; an absent role takes the default. */
  datatype UserCreate = UserCreate(email: string, password: string, fullName: string,
                                   companyName: Option<string>, role: Option<string>)

  /** A document of the `users` collection. */
  datatype UserDoc = UserDoc(id: string, email: string, fullName: string, companyName: Option<string>,
                             role: string, isActive: bool, kycVerified: bool, createdAt: int,
                             hashedPassword: Option<string>)

  /** The `User` model sent to clients: a stored document without its password hash. */
  datatype User = User(id: string, email: string, fullName: string, companyName: Option<string>,
                       role: string, isActive: bool, kycVerified: bool, createdAt: int)

  /** The claims of an access token: subject and expiry (section 4.1 of RFC 7519). */
  datatype Claims = Claims(sub: Option<string>, exp: int)

  /** The `Token` response: the signed token, its type and the user. */
  datatype Token = Token(accessToken: string, tokenType: string, user: User)

  function PublicUser(d: UserDoc): (u: User)
    ensures u.id == d.id && u.email == d.email && u.role == d.role && u.createdAt == d.createdAt
  {
    User(d.id, d.email, d.fullName, d.companyName, d.role, d.isActive, d.kycVerified, d.createdAt)
  }

  /** `find_one({"email": email})`: the first document with that email, if any. */
  function FindByEmail(docs: seq<UserDoc>, email: string): (r: Option<UserDoc>)
    ensures r.None? <==> forall i | 0 <= i < |docs| :: docs[i].email != email
    ensures r.Some? ==> r.value.email == email
    ensures r.Some? ==> exists i | 0 <= i < |docs| :: docs[i] == r.value && forall j | 0 <= j < i :: docs[j].email != email
  {
    if docs == [] then None
    else if docs[0].email == email then Some(docs[0])
    else
      var r := FindByEmail(docs[1..], email);
      assert forall i | 0 <= i < |docs| - 1 :: docs[1..][i] == docs[i + 1];
      r
  }

  /** `find_one({"id": id})`: the first document with that id, if any. */
  function FindById(docs: seq<UserDoc>, id: string): (r: Option<UserDoc>)
    ensures r.None? <==> forall i | 0 <= i < |docs| :: docs[i].id != id
    ensures r.Some? ==> r.value in docs && r.value.id == id
  {
    if docs == [] then None
    else if docs[0].id == id then Some(docs[0])
    else
      var r := FindById(docs[1..], id);
      assert forall i | 0 <= i < |docs| - 1 :: docs[1..][i] == docs[i + 1];
      r
  }

  /** `create_access_token({"sub": id})`: the subject plus an expiry `minutes` after `now`. */
  function AccessClaims(id: string, now: int, minutes: int): (c: Claims)
    ensures c.sub == Some(id)
    ensures minutes > 0 ==> c.exp > now
    ensures minutes == DefaultExpireMinutes ==> c.exp == now + 30 * 24 * 60 * 60
  {
    Claims(Some(id), now + minutes * 60)
  }

  /** The document `register` stores: a fresh id, active, not KYC-verified, with the hash. */
  function NewUserDoc(req: UserCreate, hashed: string, newId: string, now: int): (d: UserDoc)
    ensures d.id == newId && d.email == req.email && d.hashedPassword == Some(hashed)
    ensures d.role == (if req.role.Some? then req.role.value else DefaultRole)
    ensures d.isActive && !d.kycVerified
  {
    UserDoc(newId, req.email, req.fullName, req.companyName, req.role.GetOr(DefaultRole),
            true, false, now, Some(hashed))
  }

  /** No two documents share an email. */
  ghost predicate UniqueEmails(docs: seq<UserDoc>) {
    forall i, j | 0 <= i < j < |docs| :: docs[i].email != docs[j].email
  }

  /** No two documents share an id (ids are fresh UUIDs). */
  ghost predicate UniqueIds(docs: seq<UserDoc>) {
    forall i, j | 0 <= i < j < |docs| :: docs[i].id != docs[j].id
  }

  /**
   * `login`: an unknown email and a wrong password fail alike; otherwise a
   * token for the stored user, who is returned without the hash.
   */
  function Login(docs: seq<UserDoc>, email: string, password: string, verify: (string, string) -> bool,
                 encode: Claims -> string, now: int, minutes: int): (r: Result<Token, HttpError>)
    ensures r.Err? <==> (FindByEmail(docs, email).None? ||
                         !verify(password, FindByEmail(docs, email).value.hashedPassword.GetOr("")))
    ensures r.Err? ==> r.error == HttpError(401, BadLogin)
    ensures r.Ok? ==> (r.value.user == PublicUser(FindByEmail(docs, email).value) &&
                       r.value.user.email == email && r.value.tokenType == "bearer" &&
                       r.value.accessToken == encode(AccessClaims(r.value.user.id, now, minutes)))
  {
    var found := FindByEmail(docs, email);
    if found.None? || !verify(password, found.value.hashedPassword.GetOr("")) then
      Err(HttpError(401, BadLogin))
    else
      var user := PublicUser(found.value);
      Ok(Token(encode(AccessClaims(user.id, now, minutes)), "bearer", user))
  }

  /**
   * `get_current_user`: the bearer token must decode, carry a subject, and
   * name a stored user; every failure is the same 401.
   */
  function CurrentUser(docs: seq<UserDoc>, token: string, decode: string -> Option<Claims>): (r: Result<User, HttpError>)
    ensures r.Ok? <==> (decode(token).Some? && decode(token).value.sub.Some? &&
                        exists i | 0 <= i < |docs| :: docs[i].id == decode(token).value.sub.value)
    ensures r.Err? ==> r.error == HttpError(401, BadCredentials)
    ensures r.Ok? ==> (r.value.id == decode(token).value.sub.value &&
                       exists d | d in docs :: r.value == PublicUser(d))
  {
    var claims := decode(token);
    if claims.None? || claims.value.sub.None? then Err(HttpError(401, BadCredentials))
    else
      var found := FindById(docs, claims.value.sub.value);
      if found.None? then Err(HttpError(401, BadCredentials)) else Ok(PublicUser(found.value))
  }

  /** The `users` collection. */
  class UserStore {
    var docs: seq<UserDoc>

    constructor()
      ensures docs == []
    {
      docs := [];
    }

    /**
     * `register`: refuses a known email and changes nothing; otherwise
     * inserts exactly one document and answers with a token for it.
     */
    method Register(req: UserCreate, hashed: string, newId: string, now: int, minutes: int,
                    encode: Claims -> string) returns (r: Result<Token, HttpError>)
      modifies this
      ensures FindByEmail(old(docs), req.email).Some? ==>
        r == Err(HttpError(400, EmailTaken)) && docs == old(docs)
      ensures FindByEmail(old(docs), req.email).None? ==>
        docs == old(docs) + [NewUserDoc(req, hashed, newId, now)] &&
        r == Ok(Token(encode(AccessClaims(newId, now, minutes)), "bearer", PublicUser(NewUserDoc(req, hashed, newId, now))))
      ensures UniqueEmails(old(docs)) ==> UniqueEmails(docs)
      ensures UniqueIds(old(docs)) && (forall i | 0 <= i < |old(docs)| :: old(docs)[i].id != newId) ==> UniqueIds(docs)
    {
      var existing := FindByEmail(docs, req.email);
      if existing.Some? {
        r := Err(HttpError(400, EmailTaken));
        return;
      }
      var doc := NewUserDoc(req, hashed, newId, now);
      docs := docs + [doc];
      var user := PublicUser(doc);
      r := Ok(Token(encode(AccessClaims(user.id, now, minutes)), "bearer", user));
    }
  }

  /** A registration followed by a login with the same password succeeds, as the new user. */
  lemma RegisterThenLogin(docs: seq<UserDoc>, req: UserCreate, hashed: string, newId: string, created: int,
                          verify: (string, string) -> bool, encode: Claims -> string, now: int, minutes: int)
    requires FindByEmail(docs, req.email).None?
    requires verify(req.password, hashed)
    ensures var r := Login(docs + [NewUserDoc(req, hashed, newId, created)], req.email, req.password, verify, encode, now, minutes);
      r.Ok? && r.value.user == PublicUser(NewUserDoc(req, hashed, newId, created))
  {
    var d := NewUserDoc(req, hashed, newId, created);
    var all := docs + [d];
    var found := FindByEmail(all, req.email);
    assert all[|docs|] == d;
    assert found.Some?;
    var i :| 0 <= i < |all| && all[i] == found.value && found.value.email == req.email;
    assert i == |docs|;
  }

  /** Once registered, an email is taken: a second registration with it is refused. */
  lemma RegisteredEmailIsTaken(docs: seq<UserDoc>, d: UserDoc)
    ensures FindByEmail(docs + [d], d.email).Some?
  {
    assert (docs + [d])[|docs|] == d;
  }

  /**
   * A login token is accepted by `get_current_user` and names the user who
   * logged in, provided decoding inverts encoding for its claims.
   */
  lemma LoginTokenIdentifiesUser(docs: seq<UserDoc>, email: string, password: string,
                                 verify: (string, string) -> bool, encode: Claims -> string,
                                 decode: string -> Option<Claims>, now: int, minutes: int)
    requires UniqueIds(docs)
    requires Login(docs, email, password, verify, encode, now, minutes).Ok?
    requires var c := AccessClaims(Login(docs, email, password, verify, encode, now, minutes).value.user.id, now, minutes);
      decode(encode(c)) == Some(c)
    ensures var t := Login(docs, email, password, verify, encode, now, minutes).value;
      CurrentUser(docs, t.accessToken, decode) == Ok(t.user)
  {
    var t := Login(docs, email, password, verify, encode, now, minutes).value;
    var d := FindByEmail(docs, email).value;
    assert d in docs;
    var u := CurrentUser(docs, t.accessToken, decode);
    assert u.Ok?;
    var e := FindById(docs, d.id).value;
    var i :| 0 <= i < |docs| && docs[i] == d;
    var j :| 0 <= j < |docs| && docs[j] == e;
    assert i == j;
  }
}
