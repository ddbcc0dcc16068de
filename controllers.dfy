/** The authentication controller: signup, login, user lookup and the bearer
    tokens login issues. bcrypt and the JWT library are opaque collaborators. */
module Controllers {
  import opened Errors
  import opened Models
  import Directory

  /** The random bytes bcrypt salts a hash with. */
  type Salt = seq<bv8>

  /** The claims newToken signs: the user's id and printed role. The registered
      claims (expiry and the like) are left empty by the source. */
  datatype UserClaims = UserClaims(userId: Uuid, role: string)

  /** HMAC-SHA-512, the signing method newToken asks for. */
  const HS512: string := "HS512"

  /** The literal key used both to sign and to verify tokens. */
  const Secret: string := "secret"

  const ErrUserNotFound: Error := Error("user not found")
  const ErrMismatch: Error := Error("username or password does not match")

  /** The opaque collaborators, each given exactly what the code passes to it:
      - hash: bcrypt.GenerateFromPassword(password) under a salt;
      - compare: bcrypt.CompareHashAndPassword(hash, password), nil on a match;
      - sign: SignedString of a token with the given method and claims, under a key;
      - parse: ParseWithClaims(token) with a key function returning the key,
        giving the token's Valid flag and the reported error. */
  datatype Crypto = Crypto(
    hash: (string, Salt) -> (string, Option<Error>),
    compare: (string, string) -> Option<Error>,
    sign: (string, UserClaims, string) -> (string, Option<Error>),
    parse: (string, string) -> (bool, Option<Error>))

  /** The collaborators a controller operation invoked, in order. */
  datatype Step = NewId | Hash | Persist | Lookup | Compare | Sign

  /** The claims a token for `user` carries. */
  function ClaimsOf(user: User): (claims: UserClaims)
    ensures claims.userId == user.id
    ensures user.role != Unknown ==> RoleFromString(claims.role) == (user.role, None)
  {
    UserClaims(user.id, user.role.String())
  }

  /** newToken: an HS512 token over the user's claims, signed with `secret`;
      an empty token and the signer's error when signing fails. */
  function NewToken(crypto: Crypto, user: User, secret: string): (res: (string, Option<Error>))
    ensures res.1 == crypto.sign(HS512, ClaimsOf(user), secret).1
    ensures res.0 == if res.1.None? then crypto.sign(HS512, ClaimsOf(user), secret).0 else ""
  {
    var (signed, err) := crypto.sign(HS512, ClaimsOf(user), secret);
    if err.Some? then ("", err) else (signed, err)
  }

  /** IsValidToken: verifies under the literal key; an error reported by the
      parser always means invalid. */
  function IsValidToken(crypto: Crypto, accessToken: string): (valid: bool)
    ensures valid <==> crypto.parse(accessToken, Secret) == (true, None)
    ensures crypto.parse(accessToken, Secret).1.Some? ==> !valid
  {
    var (parsedValid, err) := crypto.parse(accessToken, Secret);
    if err.Some? then false else parsedValid
  }

  /** The JWT library's own promise: a token it signed with HS512 under a key
      parses as valid under that key. */
  ghost predicate VerifierAcceptsOwnSignatures(crypto: Crypto) {
    forall c: UserClaims, key: string {:trigger crypto.sign(HS512, c, key)} ::
      crypto.sign(HS512, c, key).1.None? ==> crypto.parse(crypto.sign(HS512, c, key).0, key) == (true, None)
  }

  /** Signer and verifier use the same key, so a token newToken issued for
      login is accepted by IsValidToken. */
  lemma IssuedTokenIsValid(crypto: Crypto, user: User)
    requires VerifierAcceptsOwnSignatures(crypto)
    ensures NewToken(crypto, user, Secret).1.None? ==> IsValidToken(crypto, NewToken(crypto, user, Secret).0)
  {
    var _ := crypto.sign(HS512, ClaimsOf(user), Secret);
  }

  /** FindUser: a pass-through of the store's lookup. */
  function FindUser(rows: seq<Directory.Row>, id: Uuid): (res: (User, Option<Error>))
    ensures res == Directory.FindUser(rows, id)
    ensures res.1.Some? ==> res.0 == ZeroUser
    ensures res.1.None? ==> res.0.id == id
  {
    var (user, err) := Directory.FindUser(rows, id);
    if err.Some? then (ZeroUser, err) else (user, None)
  }

  /** The outcome of Login against the rows `rows`: the token, the error and
      the collaborators invoked. */
  datatype LoginOutcome = LoginOutcome(token: string, err: Option<Error>, steps: seq<Step>)

  /** Login as a function of the stored rows. */
  function LoginResult(rows: seq<Directory.Row>, crypto: Crypto, username: string, password: string): (out: LoginOutcome)
    ensures 1 <= |out.steps| && out.steps <= [Lookup, Compare, Sign]
    ensures |out.steps| < 3 ==> out.err.Some?
    ensures out.err.Some? ==> out.token == ""
    ensures out.err.Some? && |out.steps| == 3 ==> out.err == NewToken(crypto, Directory.FindUserAndPasswordByUsername(rows, username).0, Secret).1
  {
    var (user, hashed, lookupErr) := Directory.FindUserAndPasswordByUsername(rows, username);
    if lookupErr.Some? then LoginOutcome("", Some(ErrUserNotFound), [Lookup])
    else if crypto.compare(hashed, password).Some? then LoginOutcome("", Some(ErrMismatch), [Lookup, Compare])
    else
      var (token, err) := NewToken(crypto, user, Secret);
      LoginOutcome(token, err, [Lookup, Compare, Sign])
  }

  /** A failed lookup, whether no row carries the username or its stored role
      does not parse, ends Login with "user not found", an empty token and no
      comparison or signing. */
  lemma LoginStopsWhenLookupFails(rows: seq<Directory.Row>, crypto: Crypto, username: string, password: string)
    requires Directory.FindUserAndPasswordByUsername(rows, username).2.Some?
    ensures LoginResult(rows, crypto, username, password) == LoginOutcome("", Some(ErrUserNotFound), [Lookup])
  {
  }

  /** A rejected password ends Login with the mismatch error, an empty token and
      no signing. */
  lemma LoginStopsWhenCompareFails(rows: seq<Directory.Row>, crypto: Crypto, username: string, password: string)
    requires Directory.FindUserAndPasswordByUsername(rows, username).2.None?
    requires crypto.compare(Directory.FindUserAndPasswordByUsername(rows, username).1, password).Some?
    ensures LoginResult(rows, crypto, username, password) == LoginOutcome("", Some(ErrMismatch), [Lookup, Compare])
  {
  }

  /** A successful Login returns an HS512 token under the literal key over the
      stored user's id and role. */
  lemma LoginSignsStoredUser(rows: seq<Directory.Row>, crypto: Crypto, username: string, password: string)
    requires LoginResult(rows, crypto, username, password).err.None?
    ensures var (user, _, _) := Directory.FindUserAndPasswordByUsername(rows, username);
            && user.username == username && user.role != Unknown
            && LoginResult(rows, crypto, username, password)
               == LoginOutcome(crypto.sign(HS512, UserClaims(user.id, user.role.String()), Secret).0, None,
                               [Lookup, Compare, Sign])
  {
  }

  /** bcrypt's own promise: a password matches a hash successfully made from it. */
  ghost predicate HashMatchesItsPassword(crypto: Crypto) {
    forall password: string, salt: Salt {:trigger crypto.hash(password, salt)} ::
      crypto.hash(password, salt).1.None? ==> crypto.compare(crypto.hash(password, salt).0, password).None?
  }

  /** bcrypt's behaviour on failure: GenerateFromPassword (for instance on a
      password over 72 bytes) gives an empty hash, and CompareHashAndPassword
      rejects an empty hash whatever the password. */
  ghost predicate FailedHashIsRejected(crypto: Crypto) {
    && (forall password: string, salt: Salt {:trigger crypto.hash(password, salt)} ::
          crypto.hash(password, salt).1.Some? ==> crypto.hash(password, salt).0 == "")
    && (forall password: string {:trigger crypto.compare("", password)} :: crypto.compare("", password).Some?)
  }

  /** A user who signed up with `password` under a named role and then logs in
      with it gets a token that IsValidToken accepts, carrying the new id and
      the role. */
  lemma {:induction false} SignupThenLogin(rows: seq<Directory.Row>, crypto: Crypto, user: User,
                                          password: string, id: Uuid, salt: Salt)
    requires HashMatchesItsPassword(crypto) && VerifierAcceptsOwnSignatures(crypto)
    requires crypto.hash(password, salt).1.None?
    requires user.role != Unknown
    requires Directory.CreateUserError(rows, user.(id := id)).None?
    requires crypto.sign(HS512, UserClaims(id, user.role.String()), Secret).1.None?
    ensures var rows' := rows + [Directory.RowOf(user.(id := id), crypto.hash(password, salt).0)];
            var out := LoginResult(rows', crypto, user.username, password);
            && out.err.None?
            && out.token == crypto.sign(HS512, UserClaims(id, user.role.String()), Secret).0
            && IsValidToken(crypto, out.token)
  {
    var created := user.(id := id);
    var hashed := crypto.hash(password, salt).0;
    Directory.CreatedUserIsFoundByUsername(rows, created, hashed);
    assert crypto.compare(hashed, password).None?;
    IssuedTokenIsValid(crypto, created);
  }

  /** Signup discards a hashing error and stores the empty hash it got, so the
      user exists but every later login with that password fails with the
      mismatch error, before any signing. */
  lemma {:induction false} FailedHashSignupCannotLogin(rows: seq<Directory.Row>, crypto: Crypto, user: User,
                                                      password: string, id: Uuid, salt: Salt)
    requires FailedHashIsRejected(crypto)
    requires crypto.hash(password, salt).1.Some?
    requires user.role != Unknown
    requires Directory.CreateUserError(rows, user.(id := id)).None?
    ensures var rows' := rows + [Directory.RowOf(user.(id := id), crypto.hash(password, salt).0)];
            && Directory.FindUserAndPasswordByUsername(rows', user.username).2.None?
            && LoginResult(rows', crypto, user.username, password) == LoginOutcome("", Some(ErrMismatch), [Lookup, Compare])
  {
    var created := user.(id := id);
    var hashed := crypto.hash(password, salt).0;
    assert hashed == "";
    Directory.CreatedUserIsFoundByUsername(rows, created, hashed);
    assert crypto.compare("", password).Some?;
  }

  /** Signup: gives the user a fresh id, hashes the password (discarding any
      hashing error), persists the user with that hash, and returns the user
      with its new id whether or not the store reported an error. */
  method Signup(db: Directory.Database, crypto: Crypto, user: User, password: string, freshId: Uuid, salt: Salt)
    returns (created: User, err: Option<Error>, steps: seq<Step>)
    requires db.Valid()
    modifies db
    ensures db.Valid()
    ensures created == user.(id := freshId)
    ensures err == Directory.CreateUserError(old(db.rows), created)
    ensures db.rows == if err.None? then old(db.rows) + [Directory.RowOf(created, crypto.hash(password, salt).0)]
                       else old(db.rows)
    ensures steps == [NewId, Hash, Persist]
  {
    created := user;
    created := created.(id := freshId);
    steps := [NewId];
    var (hashed, _) := crypto.hash(password, salt);
    steps := steps + [Hash];
    err := db.CreateUser(created, hashed);
    steps := steps + [Persist];
    if err.Some? {
      return created, err, steps;
    }
    return created, None, steps;
  }

  /** Login: looks the user up, compares the password with the stored hash and
      signs a token, stopping at the first failure. */
  method Login(db: Directory.Database, crypto: Crypto, username: string, password: string)
    returns (token: string, err: Option<Error>, steps: seq<Step>)
    ensures LoginOutcome(token, err, steps) == LoginResult(db.rows, crypto, username, password)
    ensures err.Some? ==> token == ""
    ensures Sign in steps <==> steps == [Lookup, Compare, Sign]
  {
    var (user, hashed, lookupErr) := Directory.FindUserAndPasswordByUsername(db.rows, username);
    steps := [Lookup];
    if lookupErr.Some? {
      return "", Some(ErrUserNotFound), steps;
    }
    var compareErr := crypto.compare(hashed, password);
    steps := steps + [Compare];
    if compareErr.Some? {
      return "", Some(ErrMismatch), steps;
    }
    var (signed, signErr) := NewToken(crypto, user, Secret);
    steps := steps + [Sign];
    if signErr.Some? {
      return "", signErr, steps;
    }
    return signed, None, steps;
  }
}
