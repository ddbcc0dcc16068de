/** What a client receives: the reply net/http makes of the calls each
    handler, middleware and route chain makes, and the rows stored afterwards. */
module Replies {
  import opened Errors
  import opened Models
  import opened Adapters
  import opened Http
  import opened Routing
  import Directory
  import Controllers
  import opened Server

  /** The headers http.Error leaves on the reply. */
  const PlainText: map<string, string> := map[ContentType := TextPlain, "X-Content-Type-Options" := "nosniff"]

  /** The header of a JSON reply. */
  const JsonHeader: map<string, string> := map[ContentType := ApplicationJson]

  /** The reply http.Error produces on a fresh response. */
  function ErrorReply(message: string, code: int): Reply {
    Reply(code, PlainText, message + "\n")
  }

  /** http.Error alone on a fresh response. */
  lemma ErrorSent(message: string, code: int)
    ensures Sent(ErrorCalls(message, code)) == ErrorReply(message, code)
  {
    SentError(message, code, []);
    assert ErrorCalls(message, code) + [] == ErrorCalls(message, code);
  }

  // ----------------------------------------------------------------- version

  /** The version reply: 500 with the store's message when the lookup fails,
      500 with the marshaller's when the version does not marshal, and 200 with
      the marshalled version otherwise. */
  lemma VersionReplies(env: Env)
    ensures env.version.1.Some? ==> Sent(VersionCalls(env)) == ErrorReply(env.version.1.value.message, 500)
    ensures var marshalled := env.json.marshal(VersionBody(env.version.0));
            env.version.1.None? && marshalled.1.Some? ==> Sent(VersionCalls(env)) == ErrorReply(marshalled.1.value.message, 500)
    ensures var marshalled := env.json.marshal(VersionBody(env.version.0));
            env.version.1.None? && marshalled.1.None? ==> Sent(VersionCalls(env)) == Reply(200, JsonHeader, marshalled.0)
  {
    var (version, err) := env.version;
    var (body, marshalErr) := env.json.marshal(VersionBody(version));
    if err.Some? {
      ErrorSent(err.value.message, 500);
    } else if marshalErr.Some? {
      ErrorSent(marshalErr.value.message, 500);
    } else {
      SentJson(body);
    }
  }

  // ------------------------------------------------------------------ signup

  /** A body that does not decode: 500 with the decoder's message, nothing stored. */
  lemma SignupUndecodable(rows: seq<Directory.Row>, env: Env, e: Entropy, r: Request)
    requires env.json.decodeSignup(r.body).1.Some?
    ensures Sent(SignupEffect(rows, env, e, r).calls)
            == ErrorReply(env.json.decodeSignup(r.body).1.value.message, 500)
    ensures SignupEffect(rows, env, e, r).rows == rows
  {
    ErrorSent(env.json.decodeSignup(r.body).1.value.message, 500);
  }

  /** A role other than "member" and "admin": 400 naming the role, nothing stored. */
  lemma SignupUnknownRole(rows: seq<Directory.Row>, env: Env, e: Entropy, r: Request)
    requires env.json.decodeSignup(r.body).1.None?
    requires env.json.decodeSignup(r.body).0.role !in {"member", "admin"}
    ensures Sent(SignupEffect(rows, env, e, r).calls)
            == ErrorReply("unknown role: " + env.json.decodeSignup(r.body).0.role, 400)
    ensures SignupEffect(rows, env, e, r).rows == rows
  {
    var req := env.json.decodeSignup(r.body).0;
    assert RoleFromString(req.role).1 == Some(Error("unknown role: " + req.role));
    ErrorSent("unknown role: " + req.role, 400);
  }

  /** A fresh id or a username already stored: 500 with the store's message,
      nothing stored. */
  lemma SignupDuplicate(rows: seq<Directory.Row>, env: Env, e: Entropy, r: Request, i: nat)
    requires env.json.decodeSignup(r.body).1.None?
    requires env.json.decodeSignup(r.body).0.role in {"member", "admin"}
    requires i < |rows|
    requires rows[i].id == e.newId || rows[i].username == env.json.decodeSignup(r.body).0.username
    ensures Sent(SignupEffect(rows, env, e, r).calls) == ErrorReply(Directory.ErrDuplicateKey.message, 500)
    ensures SignupEffect(rows, env, e, r).rows == rows
  {
    var req := env.json.decodeSignup(r.body).0;
    var created := ToUserInternal(req).0.(id := e.newId);
    assert Directory.CreateUserError(rows, created).Some?;
    ErrorSent(Directory.ErrDuplicateKey.message, 500);
  }

  /** A new user under a named role: the row with the fresh id, the username,
      the hash of the password and the role is stored, the user can be found by
      that id, and the reply is 200 with the marshalled user. */
  lemma SignupCreated(rows: seq<Directory.Row>, env: Env, e: Entropy, r: Request)
    requires env.json.decodeSignup(r.body).1.None?
    requires env.json.decodeSignup(r.body).0.role in {"member", "admin"}
    requires forall i :: 0 <= i < |rows| ==>
               rows[i].id != e.newId && rows[i].username != env.json.decodeSignup(r.body).0.username
    requires var req := env.json.decodeSignup(r.body).0;
             env.json.marshal(UserBody(UserResponse(e.newId, req.username, req.role))).1.None?
    ensures var req := env.json.decodeSignup(r.body).0;
            var rows' := rows + [Directory.Row(e.newId, req.username, env.crypto.hash(req.password, e.salt).0, req.role)];
            && SignupEffect(rows, env, e, r).rows == rows'
            && Sent(SignupEffect(rows, env, e, r).calls)
               == Reply(200, JsonHeader, env.json.marshal(UserBody(UserResponse(e.newId, req.username, req.role))).0)
            && Controllers.FindUser(rows', e.newId).1.None?
            && ToUserResponse(Controllers.FindUser(rows', e.newId).0) == UserResponse(e.newId, req.username, req.role)
  {
    var req := env.json.decodeSignup(r.body).0;
    var created := ToUserInternal(req).0.(id := e.newId);
    var hashed := env.crypto.hash(req.password, e.salt).0;
    assert Directory.RowOf(created, hashed) == Directory.Row(e.newId, req.username, hashed, req.role);
    Directory.CreatedUserIsFoundById(rows, created, hashed);
    SentJson(env.json.marshal(UserBody(UserResponse(e.newId, req.username, req.role))).0);
  }


  /** A stored user whose reply does not marshal: the row stays stored, yet
      the client gets 500 with the marshaller's message. */
  lemma SignupStoredButMarshalFails(rows: seq<Directory.Row>, env: Env, e: Entropy, r: Request)
    requires env.json.decodeSignup(r.body).1.None?
    requires env.json.decodeSignup(r.body).0.role in {"member", "admin"}
    requires forall i :: 0 <= i < |rows| ==>
               rows[i].id != e.newId && rows[i].username != env.json.decodeSignup(r.body).0.username
    requires var req := env.json.decodeSignup(r.body).0;
             env.json.marshal(UserBody(UserResponse(e.newId, req.username, req.role))).1.Some?
    ensures var req := env.json.decodeSignup(r.body).0;
            && SignupEffect(rows, env, e, r).rows
               == rows + [Directory.Row(e.newId, req.username, env.crypto.hash(req.password, e.salt).0, req.role)]
            && Sent(SignupEffect(rows, env, e, r).calls)
               == ErrorReply(env.json.marshal(UserBody(UserResponse(e.newId, req.username, req.role))).1.value.message, 500)
  {
    var req := env.json.decodeSignup(r.body).0;
    var created := ToUserInternal(req).0.(id := e.newId);
    var hashed := env.crypto.hash(req.password, e.salt).0;
    assert Directory.RowOf(created, hashed) == Directory.Row(e.newId, req.username, hashed, req.role);
    ErrorSent(env.json.marshal(UserBody(UserResponse(e.newId, req.username, req.role))).1.value.message, 500);
  }

  /** Every signup reply is 200, 400 or 500: 400 exactly when the body decodes
      but names an unknown role, and 200 exactly when, besides, the row is
      inserted and the user marshals, and then one row was appended; the
      store either keeps its rows or gains exactly one after them. */
  lemma SignupStatus(rows: seq<Directory.Row>, env: Env, e: Entropy, r: Request)
    ensures Sent(SignupEffect(rows, env, e, r).calls).status in {200, 400, 500}
    ensures var (req, decodeErr) := env.json.decodeSignup(r.body);
            Sent(SignupEffect(rows, env, e, r).calls).status == 400
            <==> decodeErr.None? && req.role !in {"member", "admin"}
    ensures var rows' := SignupEffect(rows, env, e, r).rows;
            rows' == rows || (|rows'| == |rows| + 1 && rows'[..|rows|] == rows)
    ensures Sent(SignupEffect(rows, env, e, r).calls).status == 200 ==> |SignupEffect(rows, env, e, r).rows| == |rows| + 1
    ensures var (req, decodeErr) := env.json.decodeSignup(r.body);
            var created := ToUserInternal(req).0.(id := e.newId);
            Sent(SignupEffect(rows, env, e, r).calls).status == 200
            <==> && decodeErr.None? && req.role in {"member", "admin"}
                 && Directory.CreateUserError(rows, created).None?
                 && env.json.marshal(UserBody(ToUserResponse(created))).1.None?
  {
    var (req, decodeErr) := env.json.decodeSignup(r.body);
    if decodeErr.Some? {
      ErrorSent(decodeErr.value.message, 500);
    } else {
      var (user, roleErr) := ToUserInternal(req);
      if roleErr.Some? {
        ErrorSent(roleErr.value.message, 400);
      } else {
        var created := user.(id := e.newId);
        var createErr := Directory.CreateUserError(rows, created);
        if createErr.Some? {
          ErrorSent(createErr.value.message, 500);
        } else {
          var rows' := rows + [Directory.RowOf(created, env.crypto.hash(req.password, e.salt).0)];
          assert rows'[..|rows|] == rows;
          var (body, marshalErr) := env.json.marshal(UserBody(ToUserResponse(created)));
          if marshalErr.Some? {
            ErrorSent(marshalErr.value.message, 500);
          } else {
            SentJson(body);
          }
        }
      }
    }
  }

  // ------------------------------------------------------------------- login

  /** A failed lookup, for an unknown username or a stored role that does not
      parse: 500 with "user not found". */
  lemma LoginUnknownUser(rows: seq<Directory.Row>, env: Env, r: Request)
    requires env.json.decodeLogin(r.body).1.None?
    requires Directory.FindUserAndPasswordByUsername(rows, env.json.decodeLogin(r.body).0.username).2.Some?
    ensures Sent(LoginCalls(rows, env, r)) == ErrorReply("user not found", 500)
  {
    var req := env.json.decodeLogin(r.body).0;
    Controllers.LoginStopsWhenLookupFails(rows, env.crypto, req.username, req.password);
    ErrorSent("user not found", 500);
  }

  /** A password the stored hash rejects: 500 with the mismatch message, so the
      two login failures share the status but not the body. */
  lemma LoginWrongPassword(rows: seq<Directory.Row>, env: Env, r: Request)
    requires env.json.decodeLogin(r.body).1.None?
    requires var req := env.json.decodeLogin(r.body).0;
             var (_, hashed, err) := Directory.FindUserAndPasswordByUsername(rows, req.username);
             err.None? && env.crypto.compare(hashed, req.password).Some?
    ensures Sent(LoginCalls(rows, env, r)) == ErrorReply("username or password does not match", 500)
    ensures Sent(LoginCalls(rows, env, r)).status == ErrorReply("user not found", 500).status
    ensures Sent(LoginCalls(rows, env, r)).body != ErrorReply("user not found", 500).body
  {
    var req := env.json.decodeLogin(r.body).0;
    Controllers.LoginStopsWhenCompareFails(rows, env.crypto, req.username, req.password);
    ErrorSent("username or password does not match", 500);
    assert ("username or password does not match" + "\n")[4] != ("user not found" + "\n")[4];
  }

  /** A successful login: 200 with the marshalled token, and a bearer header
      carrying that token passes Authentication. */
  lemma LoginIssuesUsableToken(rows: seq<Directory.Row>, env: Env, r: Request, next: Request)
    requires Controllers.VerifierAcceptsOwnSignatures(env.crypto)
    requires env.json.decodeLogin(r.body).1.None?
    requires var req := env.json.decodeLogin(r.body).0;
             Controllers.LoginResult(rows, env.crypto, req.username, req.password).err.None?
    requires var req := env.json.decodeLogin(r.body).0;
             var token := Controllers.LoginResult(rows, env.crypto, req.username, req.password).token;
             && env.json.marshal(TokenBody(token)).1.None?
             && HeaderGet(next, "Authorization") == BearerSchema + token
    ensures var req := env.json.decodeLogin(r.body).0;
            var token := Controllers.LoginResult(rows, env.crypto, req.username, req.password).token;
            && Sent(LoginCalls(rows, env, r)) == Reply(200, JsonHeader, env.json.marshal(TokenBody(token)).0)
            && AuthVerdict(next, env.crypto) == Pass
  {
    var req := env.json.decodeLogin(r.body).0;
    var token := Controllers.LoginResult(rows, env.crypto, req.username, req.password).token;
    var user := Directory.FindUserAndPasswordByUsername(rows, req.username).0;
    Controllers.IssuedTokenIsValid(env.crypto, user);
    SentJson(env.json.marshal(TokenBody(token)).0);
    assert (BearerSchema + token)[..|BearerSchema|] == BearerSchema;
    assert (BearerSchema + token)[|BearerSchema|..] == token;
  }


  /** A body that does not decode: 500 with the decoder's message. */
  lemma LoginUndecodable(rows: seq<Directory.Row>, env: Env, r: Request)
    requires env.json.decodeLogin(r.body).1.Some?
    ensures Sent(LoginCalls(rows, env, r)) == ErrorReply(env.json.decodeLogin(r.body).1.value.message, 500)
  {
    ErrorSent(env.json.decodeLogin(r.body).1.value.message, 500);
  }

  /** A matching password whose token cannot be signed: 500 with the signer's
      message. */
  lemma LoginSigningFails(rows: seq<Directory.Row>, env: Env, r: Request)
    requires env.json.decodeLogin(r.body).1.None?
    requires var req := env.json.decodeLogin(r.body).0;
             var (user, hashed, err) := Directory.FindUserAndPasswordByUsername(rows, req.username);
             && err.None? && env.crypto.compare(hashed, req.password).None?
             && env.crypto.sign(Controllers.HS512, Controllers.ClaimsOf(user), Controllers.Secret).1.Some?
    ensures var req := env.json.decodeLogin(r.body).0;
            var user := Directory.FindUserAndPasswordByUsername(rows, req.username).0;
            Sent(LoginCalls(rows, env, r))
            == ErrorReply(env.crypto.sign(Controllers.HS512, Controllers.ClaimsOf(user), Controllers.Secret).1.value.message, 500)
  {
    var req := env.json.decodeLogin(r.body).0;
    var user := Directory.FindUserAndPasswordByUsername(rows, req.username).0;
    ErrorSent(env.crypto.sign(Controllers.HS512, Controllers.ClaimsOf(user), Controllers.Secret).1.value.message, 500);
  }

  /** An issued token that does not marshal: 500 with the marshaller's message. */
  lemma LoginMarshalFails(rows: seq<Directory.Row>, env: Env, r: Request)
    requires env.json.decodeLogin(r.body).1.None?
    requires var req := env.json.decodeLogin(r.body).0;
             var out := Controllers.LoginResult(rows, env.crypto, req.username, req.password);
             out.err.None? && env.json.marshal(TokenBody(out.token)).1.Some?
    ensures var req := env.json.decodeLogin(r.body).0;
            var out := Controllers.LoginResult(rows, env.crypto, req.username, req.password);
            Sent(LoginCalls(rows, env, r)) == ErrorReply(env.json.marshal(TokenBody(out.token)).1.value.message, 500)
  {
    var req := env.json.decodeLogin(r.body).0;
    var out := Controllers.LoginResult(rows, env.crypto, req.username, req.password);
    ErrorSent(env.json.marshal(TokenBody(out.token)).1.value.message, 500);
  }

  /** Every login reply is 200 or 500, and 200 exactly when the body decodes,
      Login issues a token and the token marshals. */
  lemma LoginStatus(rows: seq<Directory.Row>, env: Env, r: Request)
    ensures Sent(LoginCalls(rows, env, r)).status in {200, 500}
    ensures var (req, decodeErr) := env.json.decodeLogin(r.body);
            var out := Controllers.LoginResult(rows, env.crypto, req.username, req.password);
            Sent(LoginCalls(rows, env, r)).status == 200
            <==> decodeErr.None? && out.err.None? && env.json.marshal(TokenBody(out.token)).1.None?
  {
    var (req, decodeErr) := env.json.decodeLogin(r.body);
    if decodeErr.Some? {
      ErrorSent(decodeErr.value.message, 500);
    } else {
      var out := Controllers.LoginResult(rows, env.crypto, req.username, req.password);
      if out.err.Some? {
        ErrorSent(out.err.value.message, 500);
      } else {
        var (body, marshalErr) := env.json.marshal(TokenBody(out.token));
        if marshalErr.Some? {
          ErrorSent(marshalErr.value.message, 500);
        } else {
          SentJson(body);
        }
      }
    }
  }

  // --------------------------------------------------------------- find user

  /** An id no row carries: 500 with the store's "no rows" message. */
  lemma FindUserMissing(rows: seq<Directory.Row>, env: Env, r: Request)
    requires forall i :: 0 <= i < |rows| ==> rows[i].id != env.parseUuid(PathVar(r, "id")).0
    ensures Sent(FindUserCalls(rows, env, r)) == ErrorReply(Directory.ErrNoRows.message, 500)
  {
    ErrorSent(Directory.ErrNoRows.message, 500);
  }

  /** A stored user: 200 with the marshalled user, whose role names the stored role. */
  lemma FindUserFound(rows: seq<Directory.Row>, env: Env, r: Request)
    requires Controllers.FindUser(rows, env.parseUuid(PathVar(r, "id")).0).1.None?
    requires env.json.marshal(UserBody(ToUserResponse(Controllers.FindUser(rows, env.parseUuid(PathVar(r, "id")).0).0))).1.None?
    ensures var user := Controllers.FindUser(rows, env.parseUuid(PathVar(r, "id")).0).0;
            && Sent(FindUserCalls(rows, env, r)) == Reply(200, JsonHeader, env.json.marshal(UserBody(ToUserResponse(user))).0)
            && user.id == env.parseUuid(PathVar(r, "id")).0
            && user.role != Unknown
  {
    var user := Controllers.FindUser(rows, env.parseUuid(PathVar(r, "id")).0).0;
    SentJson(env.json.marshal(UserBody(ToUserResponse(user))).0);
  }


  /** The first row with the id stores a role other than "member" and "admin":
      500 naming that role. */
  lemma FindUserStoredRoleUnknown(rows: seq<Directory.Row>, env: Env, r: Request, i: nat)
    requires i < |rows| && rows[i].id == env.parseUuid(PathVar(r, "id")).0
    requires forall j :: 0 <= j < i ==> rows[j].id != env.parseUuid(PathVar(r, "id")).0
    requires rows[i].role !in {"member", "admin"}
    ensures Sent(FindUserCalls(rows, env, r)) == ErrorReply("unknown role: " + rows[i].role, 500)
  {
    var id := env.parseUuid(PathVar(r, "id")).0;
    assert Directory.Find(rows, (row: Directory.Row) => row.id == id) == i;
    assert RoleFromString(rows[i].role).1 == Some(Error("unknown role: " + rows[i].role));
    ErrorSent("unknown role: " + rows[i].role, 500);
  }

  /** A stored user that does not marshal: 500 with the marshaller's message. */
  lemma FindUserMarshalFails(rows: seq<Directory.Row>, env: Env, r: Request)
    requires Controllers.FindUser(rows, env.parseUuid(PathVar(r, "id")).0).1.None?
    requires env.json.marshal(UserBody(ToUserResponse(Controllers.FindUser(rows, env.parseUuid(PathVar(r, "id")).0).0))).1.Some?
    ensures var user := Controllers.FindUser(rows, env.parseUuid(PathVar(r, "id")).0).0;
            Sent(FindUserCalls(rows, env, r)) == ErrorReply(env.json.marshal(UserBody(ToUserResponse(user))).1.value.message, 500)
  {
    var user := Controllers.FindUser(rows, env.parseUuid(PathVar(r, "id")).0).0;
    ErrorSent(env.json.marshal(UserBody(ToUserResponse(user))).1.value.message, 500);
  }

  /** Every find-user reply is 200 or 500, and 200 exactly when the lookup
      succeeds and the user marshals. */
  lemma FindUserStatus(rows: seq<Directory.Row>, env: Env, r: Request)
    ensures Sent(FindUserCalls(rows, env, r)).status in {200, 500}
    ensures var (user, err) := Controllers.FindUser(rows, env.parseUuid(PathVar(r, "id")).0);
            Sent(FindUserCalls(rows, env, r)).status == 200
            <==> err.None? && env.json.marshal(UserBody(ToUserResponse(user))).1.None?
  {
    var (user, err) := Controllers.FindUser(rows, env.parseUuid(PathVar(r, "id")).0);
    if err.Some? {
      ErrorSent(err.value.message, 500);
    } else {
      var (body, marshalErr) := env.json.marshal(UserBody(ToUserResponse(user)));
      if marshalErr.Some? {
        ErrorSent(marshalErr.value.message, 500);
      } else {
        SentJson(body);
      }
    }
  }

  // -------------------------------------------------------------------- work

  /** A decoded work request: 202 with the pending reply. */
  lemma WorkAccepted(env: Env, r: Request)
    requires env.json.decodeWork(r.body).1.None?
    requires env.json.marshal(WorkBody(WorkResponse(env.json.decodeWork(r.body).0.id, "", "pending"))).1.None?
    ensures Sent(WorkCalls(env, r))
            == Reply(202, JsonHeader, env.json.marshal(WorkBody(WorkResponse(env.json.decodeWork(r.body).0.id, "", "pending"))).0)
  {
    var body := env.json.marshal(WorkBody(WorkResponse(env.json.decodeWork(r.body).0.id, "", "pending"))).0;
    var calls := AcceptedCalls(body);
    assert WorkCalls(env, r) == [] + calls == calls;
    var t2 := [Write(body)];
    var tail := [WriteHeader(202)] + t2;
    assert calls[1..] == tail && tail[1..] == t2 && t2[1..] == [];
    assert BodyOf(t2) == body;
    assert CommittedStatus(tail) == Some(202) && BodyOf(tail) == body;
    assert SentHeader(JsonHeader, tail) == JsonHeader;
    var empty: map<string, string> := map[];
    assert ApplyHeader(empty, calls[0]) == JsonHeader;
    assert CommittedStatus(calls) == Some(202) && BodyOf(calls) == body;
    assert SentHeader(empty, calls) == JsonHeader;
  }

  /** An undecodable work request: the handler reports 500 but goes on, so the
      client gets 500 with the error text followed by the pending JSON, and the
      202 is written after the status is already fixed. */
  lemma WorkDecodeErrorFallsThrough(env: Env, r: Request)
    requires env.json.decodeWork(r.body).1.Some?
    requires env.json.marshal(WorkBody(WorkResponse(env.json.decodeWork(r.body).0.id, "", "pending"))).1.None?
    ensures var message := env.json.decodeWork(r.body).1.value.message;
            var body := env.json.marshal(WorkBody(WorkResponse(env.json.decodeWork(r.body).0.id, "", "pending"))).0;
            Sent(WorkCalls(env, r)) == Reply(500, PlainText, message + "\n" + body)
    ensures WriteHeader(202) in WorkCalls(env, r)
  {
    var message := env.json.decodeWork(r.body).1.value.message;
    var body := env.json.marshal(WorkBody(WorkResponse(env.json.decodeWork(r.body).0.id, "", "pending"))).0;
    var rest := AcceptedCalls(body);
    assert WorkCalls(env, r) == ErrorCalls(message, 500) + rest;
    SentError(message, 500, rest);
    var t2 := [Write(body)];
    var tail := [WriteHeader(202)] + t2;
    assert rest[1..] == tail && tail[1..] == t2 && t2[1..] == [];
    assert BodyOf(t2) == body && BodyOf(tail) == body;
    assert BodyOf(rest) == body;
    assert WorkCalls(env, r)[|ErrorCalls(message, 500)| + 1] == WriteHeader(202);
  }


  /** A pending reply that does not marshal: 500 with the marshaller's message,
      after the decoder's when decoding failed as well. */
  lemma WorkMarshalFails(env: Env, r: Request)
    requires env.json.marshal(WorkBody(WorkResponse(env.json.decodeWork(r.body).0.id, "", "pending"))).1.Some?
    ensures var message := env.json.marshal(WorkBody(WorkResponse(env.json.decodeWork(r.body).0.id, "", "pending"))).1.value.message;
            env.json.decodeWork(r.body).1.None? ==> Sent(WorkCalls(env, r)) == ErrorReply(message, 500)
    ensures var message := env.json.marshal(WorkBody(WorkResponse(env.json.decodeWork(r.body).0.id, "", "pending"))).1.value.message;
            var decodeErr := env.json.decodeWork(r.body).1;
            decodeErr.Some? ==> Sent(WorkCalls(env, r)) == Reply(500, PlainText, decodeErr.value.message + "\n" + message + "\n")
  {
    var message := env.json.marshal(WorkBody(WorkResponse(env.json.decodeWork(r.body).0.id, "", "pending"))).1.value.message;
    var decodeErr := env.json.decodeWork(r.body).1;
    if decodeErr.None? {
      assert WorkCalls(env, r) == [] + ErrorCalls(message, 500) == ErrorCalls(message, 500);
      ErrorSent(message, 500);
    } else {
      var rest := ErrorCalls(message, 500);
      SentError(decodeErr.value.message, 500, rest);
      ErrorSent(message, 500);
    }
  }

  /** Every work reply is 202 or 500, and 202 exactly when the body decodes and
      the pending reply marshals. */
  lemma WorkStatus(env: Env, r: Request)
    ensures Sent(WorkCalls(env, r)).status in {202, 500}
    ensures var (req, decodeErr) := env.json.decodeWork(r.body);
            Sent(WorkCalls(env, r)).status == 202
            <==> decodeErr.None? && env.json.marshal(WorkBody(WorkResponse(req.id, "", "pending"))).1.None?
  {
    var (req, decodeErr) := env.json.decodeWork(r.body);
    var (body, marshalErr) := env.json.marshal(WorkBody(WorkResponse(req.id, "", "pending")));
    if decodeErr.Some? {
      var rest := if marshalErr.Some? then ErrorCalls(marshalErr.value.message, 500) else AcceptedCalls(body);
      SentError(decodeErr.value.message, 500, rest);
    } else if marshalErr.Some? {
      WorkMarshalFails(env, r);
    } else {
      WorkAccepted(env, r);
    }
  }

  // ---------------------------------------------------------- authentication

  /** What Authentication writes on each verdict: nothing when it passes or when
      there is no bearer token, the 403 JSON reply when the token is refused. */
  lemma AuthenticationReplies(r: Request, env: Env)
    ensures AuthVerdict(r, env.crypto) != Forbid ==> AuthCalls(r, env) == []
    ensures AuthVerdict(r, env.crypto) == Forbid && env.json.marshal(ErrorMap(map["error" := "forbidden"])).1.None?
            ==> Sent(AuthCalls(r, env)) == Reply(403, JsonHeader, env.json.marshal(ErrorMap(map["error" := "forbidden"])).0)
    ensures AuthVerdict(r, env.crypto) == Forbid && env.json.marshal(ErrorMap(map["error" := "forbidden"])).1.Some?
            ==> Sent(AuthCalls(r, env)) == ErrorReply(env.json.marshal(ErrorMap(map["error" := "forbidden"])).1.value.message, 500)
  {
    var (body, err) := env.json.marshal(ErrorMap(map["error" := "forbidden"]));
    if AuthVerdict(r, env.crypto) == Forbid {
      if err.Some? {
        ErrorSent(err.value.message, 500);
      } else {
        var calls := AuthCalls(r, env);
        var t2 := [Write(body)];
        var tail := [WriteHeader(403)] + t2;
        assert calls[1..] == tail && tail[1..] == t2 && t2[1..] == [];
        assert BodyOf(t2) == body;
        assert CommittedStatus(tail) == Some(403) && BodyOf(tail) == body;
        assert SentHeader(JsonHeader, tail) == JsonHeader;
      }
    }
  }

  // ----------------------------------------------------------------- routes

  /** The chain of a route: its handler alone runs when no Authentication
      refuses, and Authentication's own reply is all when it does; either way
      only the handler touches the store. */
  lemma {:induction false} RouteEffect(route: Route, rows: seq<Directory.Row>, env: Env, e: Entropy, r: Request)
    ensures Authentication !in route.middlewares || AuthVerdict(r, env.crypto) == Pass
            ==> ChainEffect(Chain(route), rows, env, e, r) == HandlerEffect(route.handler, rows, env, e, r)
    ensures Authentication in route.middlewares && AuthVerdict(r, env.crypto) != Pass
            ==> ChainEffect(Chain(route), rows, env, e, r) == Effect(AuthCalls(r, env), rows)
    decreases |route.middlewares|
  {
    var chain := Chain(route);
    if route.middlewares == [] {
      assert chain == [Handle(route.handler)];
      ChainEffectAtHandler(chain, rows, env, e, r);
      var first := HandlerEffect(route.handler, rows, env, e, r);
      assert chain[1..] == [];
      assert first.calls + [] == first.calls;
    } else {
      var rest := route.(middlewares := route.middlewares[1..]);
      assert chain[1..] == Chain(rest);
      ChainEffectAtMiddleware(chain, rows, env, e, r);
      RouteEffect(rest, rows, env, e, r);
      assert route.middlewares == [route.middlewares[0]] + rest.middlewares;
    }
  }

  /** The handler of a route is invoked exactly when no Authentication in its
      chain refuses the request. */
  lemma {:induction false} HandlerReached(route: Route, r: Request, crypto: Controllers.Crypto)
    ensures Invoked(Handle(route.handler)) in Trace(Chain(route), r, crypto)
            <==> Authentication !in route.middlewares || AuthVerdict(r, crypto) == Pass
    decreases |route.middlewares|
  {
    var chain := Chain(route);
    if route.middlewares == [] {
      assert chain == [Handle(route.handler)];
      assert chain[1..] == [];
      assert Trace(chain, r, crypto) == [Invoked(Handle(route.handler))];
    } else {
      var rest := route.(middlewares := route.middlewares[1..]);
      assert chain[1..] == Chain(rest);
      HandlerReached(rest, r, crypto);
      assert route.middlewares == [route.middlewares[0]] + rest.middlewares;
    }
  }

  /** The "work" route without a bearer token: nothing runs past
      Authentication, nothing is written, so net/http sends an empty 200. */
  lemma WorkRouteWithoutBearer(rows: seq<Directory.Row>, env: Env, e: Entropy, r: Request)
    requires AuthVerdict(r, env.crypto) == Ignore
    ensures Sent(ChainEffect(Chain(Routes[4]), rows, env, e, r).calls) == Reply(200, map[], "")
    ensures ChainEffect(Chain(Routes[4]), rows, env, e, r).rows == rows
    ensures Trace(Chain(Routes[4]), r, env.crypto)
            == [Invoked(Mw(Logging)), Printed(LoggingLine), Invoked(Mw(Authentication))]
  {
    RouteEffect(Routes[4], rows, env, e, r);
    WorkChain();
  }

  /** The "work" route with a refused token: the 403 JSON reply, and neither
      AsJson nor the handler runs. */
  lemma WorkRouteForbidden(rows: seq<Directory.Row>, env: Env, e: Entropy, r: Request)
    requires AuthVerdict(r, env.crypto) == Forbid
    requires env.json.marshal(ErrorMap(map["error" := "forbidden"])).1.None?
    ensures Sent(ChainEffect(Chain(Routes[4]), rows, env, e, r).calls)
            == Reply(403, JsonHeader, env.json.marshal(ErrorMap(map["error" := "forbidden"])).0)
    ensures ChainEffect(Chain(Routes[4]), rows, env, e, r).rows == rows
    ensures Trace(Chain(Routes[4]), r, env.crypto)
            == [Invoked(Mw(Logging)), Printed(LoggingLine), Invoked(Mw(Authentication))]
  {
    RouteEffect(Routes[4], rows, env, e, r);
    AuthenticationReplies(r, env);
    WorkChain();
  }

  /** The "work" route with a valid token: every link runs in declaration
      order, AsJson prints after the handler returns, and the reply is the
      handler's. */
  lemma WorkRouteAuthorized(rows: seq<Directory.Row>, env: Env, e: Entropy, r: Request)
    requires AuthVerdict(r, env.crypto) == Pass
    ensures ChainEffect(Chain(Routes[4]), rows, env, e, r) == Effect(WorkCalls(env, r), rows)
    ensures Trace(Chain(Routes[4]), r, env.crypto)
            == [Invoked(Mw(Logging)), Printed(LoggingLine), Invoked(Mw(Authentication)), Invoked(Mw(AsJson)),
                Invoked(Handle(Work)), Printed(AsJsonLine)]
  {
    RouteEffect(Routes[4], rows, env, e, r);
    WorkChain();
    var chain := Chain(Routes[4]);
    var c1, c2, c3 := chain[1..], chain[2..], chain[3..];
    assert c1[1..] == c2 && c2[1..] == c3 && c3[1..] == [];
    assert Trace(c3, r, env.crypto) == [Invoked(Handle(Work))];
    assert Trace(c2, r, env.crypto) == [Invoked(Mw(AsJson)), Invoked(Handle(Work)), Printed(AsJsonLine)];
  }

  /** Routes without middlewares: the reply and the rows are the handler's. */
  lemma PlainRouteEffect(i: nat, rows: seq<Directory.Row>, env: Env, e: Entropy, r: Request)
    requires i < 4
    ensures ChainEffect(Chain(Routes[i]), rows, env, e, r) == HandlerEffect(Routes[i].handler, rows, env, e, r)
    ensures Trace(Chain(Routes[i]), r, env.crypto) == [Invoked(Handle(Routes[i].handler))]
  {
    RouteEffect(Routes[i], rows, env, e, r);
    PlainRoutesDispatchDirectly();
  }
}
