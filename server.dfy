/** The inbound HTTP side: the handlers, the middlewares and the walk of a
    route's negroni chain. JSON coding, uuid.Parse and the store's version
    lookup are opaque collaborators, passed in as an environment. */
module Server {
  import opened Errors
  import opened Models
  import opened Adapters
  import opened Http
  import opened Routing
  import Directory
  import Controllers

  datatype LoginRequest = LoginRequest(username: string, password: string)
  datatype WorkRequest = WorkRequest(id: Uuid, description: string)
  datatype WorkResponse = WorkResponse(id: Uuid, description: string, status: string)

  /** The values the handlers and middlewares marshal. */
  datatype Payload =
    | VersionBody(version: string)
    | UserBody(user: UserResponse)
    | TokenBody(token: string)
    | WorkBody(work: WorkResponse)
    | ErrorMap(fields: map<string, string>)

  /** encoding/json: a decoder per request type, giving the (possibly partly
      filled) value and the decoding error, and the marshaller. */
  datatype Json = Json(
    decodeSignup: string -> (SignupRequest, Option<Error>),
    decodeLogin: string -> (LoginRequest, Option<Error>),
    decodeWork: string -> (WorkRequest, Option<Error>),
    marshal: Payload -> (string, Option<Error>))

  /** The collaborators of the pipeline: bcrypt and JWT, JSON, uuid.Parse, and
      the store's answer to FindVersion. */
  datatype Env = Env(crypto: Controllers.Crypto, json: Json, parseUuid: string -> (Uuid, Option<Error>),
                     version: (string, Option<Error>))

  /** The randomness one request may draw: uuid.New and bcrypt's salt. */
  datatype Entropy = Entropy(newId: Uuid, salt: Controllers.Salt)

  /** What serving does: the calls made on the writer and the rows stored afterwards. */
  datatype Effect = Effect(calls: seq<WriterCall>, rows: seq<Directory.Row>)

  /** A JSON success reply: the content type, then the body (status 200). */
  function JsonCalls(body: string): seq<WriterCall> {
    [SetHeader(ContentType, ApplicationJson), Write(body)]
  }

  /** The reply of JsonCalls on a fresh response. */
  lemma SentJson(body: string)
    ensures Sent(JsonCalls(body)) == Reply(200, map[ContentType := ApplicationJson], body)
  {
    var calls := JsonCalls(body);
    var tail := [Write(body)];
    assert calls[1..] == tail && tail[1..] == [];
    assert CommittedStatus(tail) == Some(200) && BodyOf(tail) == body;
    assert SentHeader(map[ContentType := ApplicationJson], tail) == map[ContentType := ApplicationJson];
  }

  // ---------------------------------------------------------------- handlers

  /** VersionHandler. */
  function VersionCalls(env: Env): seq<WriterCall> {
    var (version, err) := env.version;
    if err.Some? then ErrorCalls(err.value.message, 500)
    else
      var (body, marshalErr) := env.json.marshal(VersionBody(version));
      if marshalErr.Some? then ErrorCalls(marshalErr.value.message, 500) else JsonCalls(body)
  }

  /** SignupHandler: decode, validate the role, sign up, marshal. */
  function SignupEffect(rows: seq<Directory.Row>, env: Env, e: Entropy, r: Request): Effect {
    var (req, decodeErr) := env.json.decodeSignup(r.body);
    if decodeErr.Some? then Effect(ErrorCalls(decodeErr.value.message, 500), rows)
    else
      var (user, roleErr) := ToUserInternal(req);
      if roleErr.Some? then Effect(ErrorCalls(roleErr.value.message, 400), rows)
      else
        var created := user.(id := e.newId);
        var createErr := Directory.CreateUserError(rows, created);
        if createErr.Some? then Effect(ErrorCalls(createErr.value.message, 500), rows)
        else
          var rows' := rows + [Directory.RowOf(created, env.crypto.hash(req.password, e.salt).0)];
          var (body, marshalErr) := env.json.marshal(UserBody(ToUserResponse(created)));
          if marshalErr.Some? then Effect(ErrorCalls(marshalErr.value.message, 500), rows')
          else Effect(JsonCalls(body), rows')
  }

  /** LoginHandler: decode, log in, marshal the token. */
  function LoginCalls(rows: seq<Directory.Row>, env: Env, r: Request): seq<WriterCall> {
    var (req, decodeErr) := env.json.decodeLogin(r.body);
    if decodeErr.Some? then ErrorCalls(decodeErr.value.message, 500)
    else
      var out := Controllers.LoginResult(rows, env.crypto, req.username, req.password);
      if out.err.Some? then ErrorCalls(out.err.value.message, 500)
      else
        var (body, marshalErr) := env.json.marshal(TokenBody(out.token));
        if marshalErr.Some? then ErrorCalls(marshalErr.value.message, 500) else JsonCalls(body)
  }

  /** mux.Vars(r)[name]: "" when the variable is absent. */
  function PathVar(r: Request, name: string): string {
    if name in r.vars then r.vars[name] else ""
  }

  /** FindUserHandler: parse the id (its error ignored), look up, marshal. */
  function FindUserCalls(rows: seq<Directory.Row>, env: Env, r: Request): seq<WriterCall> {
    var (id, _) := env.parseUuid(PathVar(r, "id"));
    var (user, err) := Controllers.FindUser(rows, id);
    if err.Some? then ErrorCalls(err.value.message, 500)
    else
      var (body, marshalErr) := env.json.marshal(UserBody(ToUserResponse(user)));
      if marshalErr.Some? then ErrorCalls(marshalErr.value.message, 500) else JsonCalls(body)
  }

  /** The pending-work reply: content type, 202, body. */
  function AcceptedCalls(body: string): seq<WriterCall> {
    [SetHeader(ContentType, ApplicationJson), WriteHeader(202), Write(body)]
  }

  /** WorkHandler as written: a decoding error is reported with http.Error but
      the handler does not return, so it goes on to process the work and to
      write the pending reply. ProcessWork only logs and so changes nothing. */
  function WorkCalls(env: Env, r: Request): seq<WriterCall> {
    var (req, decodeErr) := env.json.decodeWork(r.body);
    var reported := if decodeErr.Some? then ErrorCalls(decodeErr.value.message, 500) else [];
    var (body, marshalErr) := env.json.marshal(WorkBody(WorkResponse(req.id, "", "pending")));
    if marshalErr.Some? then reported + ErrorCalls(marshalErr.value.message, 500)
    else reported + AcceptedCalls(body)
  }

  /** The effect of one handler. */
  function HandlerEffect(h: Handler, rows: seq<Directory.Row>, env: Env, e: Entropy, r: Request): (eff: Effect)
    ensures |rows| <= |eff.rows| && eff.rows[..|rows|] == rows
  {
    match h
    case Version => Effect(VersionCalls(env), rows)
    case Signup => SignupEffect(rows, env, e, r)
    case Login => Effect(LoginCalls(rows, env, r), rows)
    case FindUser => Effect(FindUserCalls(rows, env, r), rows)
    case Work => Effect(WorkCalls(env, r), rows)
  }

  method VersionHandler(w: ResponseWriter, env: Env)
    modifies w
    ensures w.calls == old(w.calls) + VersionCalls(env)
  {
    var (version, err) := env.version;
    if err.Some? {
      WriteError(w, err.value.message, 500);
      return;
    }
    var (body, marshalErr) := env.json.marshal(VersionBody(version));
    if marshalErr.Some? {
      WriteError(w, marshalErr.value.message, 500);
      return;
    }
    w.SetHeader(ContentType, ApplicationJson);
    w.Write(body);
  }

  method SignupHandler(w: ResponseWriter, r: Request, db: Directory.Database, env: Env, e: Entropy)
    requires db.Valid()
    modifies w, db
    ensures db.Valid()
    ensures w.calls == old(w.calls) + SignupEffect(old(db.rows), env, e, r).calls
    ensures db.rows == SignupEffect(old(db.rows), env, e, r).rows
  {
    var (req, decodeErr) := env.json.decodeSignup(r.body);
    if decodeErr.Some? {
      WriteError(w, decodeErr.value.message, 500);
      return;
    }
    var (user, roleErr) := ToUserInternal(req);
    if roleErr.Some? {
      WriteError(w, roleErr.value.message, 400);
      return;
    }
    var created, signupErr, _ := Controllers.Signup(db, env.crypto, user, req.password, e.newId, e.salt);
    if signupErr.Some? {
      WriteError(w, signupErr.value.message, 500);
      return;
    }
    var (body, marshalErr) := env.json.marshal(UserBody(ToUserResponse(created)));
    if marshalErr.Some? {
      WriteError(w, marshalErr.value.message, 500);
      return;
    }
    w.SetHeader(ContentType, ApplicationJson);
    w.Write(body);
  }

  method LoginHandler(w: ResponseWriter, r: Request, db: Directory.Database, env: Env)
    modifies w
    ensures w.calls == old(w.calls) + LoginCalls(db.rows, env, r)
  {
    var (req, decodeErr) := env.json.decodeLogin(r.body);
    if decodeErr.Some? {
      WriteError(w, decodeErr.value.message, 500);
      return;
    }
    var token, loginErr, _ := Controllers.Login(db, env.crypto, req.username, req.password);
    if loginErr.Some? {
      WriteError(w, loginErr.value.message, 500);
      return;
    }
    var (body, marshalErr) := env.json.marshal(TokenBody(token));
    if marshalErr.Some? {
      WriteError(w, marshalErr.value.message, 500);
      return;
    }
    w.SetHeader(ContentType, ApplicationJson);
    w.Write(body);
  }

  method FindUserHandler(w: ResponseWriter, r: Request, db: Directory.Database, env: Env)
    modifies w
    ensures w.calls == old(w.calls) + FindUserCalls(db.rows, env, r)
  {
    var (id, _) := env.parseUuid(PathVar(r, "id"));
    var (user, err) := Controllers.FindUser(db.rows, id);
    if err.Some? {
      WriteError(w, err.value.message, 500);
      return;
    }
    var (body, marshalErr) := env.json.marshal(UserBody(ToUserResponse(user)));
    if marshalErr.Some? {
      WriteError(w, marshalErr.value.message, 500);
      return;
    }
    w.SetHeader(ContentType, ApplicationJson);
    w.Write(body);
  }

  method WorkHandler(w: ResponseWriter, r: Request, env: Env)
    modifies w
    ensures w.calls == old(w.calls) + WorkCalls(env, r)
  {
    var (req, decodeErr) := env.json.decodeWork(r.body);
    if decodeErr.Some? {
      WriteError(w, decodeErr.value.message, 500);
    }
    var (body, marshalErr) := env.json.marshal(WorkBody(WorkResponse(req.id, "", "pending")));
    if marshalErr.Some? {
      WriteError(w, marshalErr.value.message, 500);
      return;
    }
    w.SetHeader(ContentType, ApplicationJson);
    w.WriteHeader(202);
    w.Write(body);
  }

  /** Runs the handler a chain ends with. */
  method RunHandler(h: Handler, w: ResponseWriter, r: Request, db: Directory.Database, env: Env, e: Entropy)
    requires db.Valid()
    modifies w, db
    ensures db.Valid()
    ensures w.calls == old(w.calls) + HandlerEffect(h, old(db.rows), env, e, r).calls
    ensures db.rows == HandlerEffect(h, old(db.rows), env, e, r).rows
  {
    match h
    case Version => VersionHandler(w, env);
    case Signup => SignupHandler(w, r, db, env, e);
    case Login => LoginHandler(w, r, db, env);
    case FindUser => FindUserHandler(w, r, db, env);
    case Work => WorkHandler(w, r, env);
  }

  // ------------------------------------------------------------- middlewares

  const BearerSchema: string := "Bearer "

  /** The bearer token of an Authorization header: the header with exactly the
      "Bearer " prefix removed, when it starts with that exact, case-sensitive
      prefix. */
  function BearerToken(authHeader: string): (token: Option<string>)
    ensures token.Some? <==> |BearerSchema| <= |authHeader| && authHeader[..|BearerSchema|] == BearerSchema
    ensures token.Some? ==> BearerSchema + token.value == authHeader && |token.value| == |authHeader| - 7
  {
    if |BearerSchema| <= |authHeader| && authHeader[..|BearerSchema|] == BearerSchema
    then Some(authHeader[|BearerSchema|..])
    else None
  }

  /** What Authentication decides: continue, refuse with 403, or do nothing. */
  datatype Verdict = Pass | Forbid | Ignore

  /** The verdict follows the Authorization header: Ignore exactly when it
      lacks the exact "Bearer " prefix, Pass exactly when it has it and the
      rest is a valid token. */
  function AuthVerdict(r: Request, crypto: Controllers.Crypto): (v: Verdict)
    ensures var h := HeaderGet(r, "Authorization");
            v == Ignore <==> !(|h| >= 7 && h[..7] == "Bearer ")
    ensures var h := HeaderGet(r, "Authorization");
            v == Pass <==> |h| >= 7 && h[..7] == "Bearer " && Controllers.IsValidToken(crypto, h[7..])
  {
    match BearerToken(HeaderGet(r, "Authorization"))
    case None => Ignore
    case Some(token) => if Controllers.IsValidToken(crypto, token) then Pass else Forbid
  }

  /** The calls Authentication makes itself: the forbidden reply when it
      refuses, nothing otherwise. */
  function AuthCalls(r: Request, env: Env): (calls: seq<WriterCall>)
    ensures calls == [] <==> AuthVerdict(r, env.crypto) != Forbid
    ensures calls != [] ==> (WriteHeader(403) in calls <==> env.json.marshal(ErrorMap(map["error" := "forbidden"])).1.None?)
  {
    if AuthVerdict(r, env.crypto) != Forbid then []
    else
      var (body, err) := env.json.marshal(ErrorMap(map["error" := "forbidden"]));
      if err.Some? then ErrorCalls(err.value.message, 500)
      else [SetHeader(ContentType, ApplicationJson), WriteHeader(403), Write(body)]
  }

  /** Authentication: calls next exactly when the bearer token is valid. */
  method Authenticate(w: ResponseWriter, r: Request, env: Env) returns (callNext: bool)
    modifies w
    ensures callNext <==> AuthVerdict(r, env.crypto) == Pass
    ensures w.calls == old(w.calls) + AuthCalls(r, env)
  {
    var authHeader := HeaderGet(r, "Authorization");
    callNext := false;
    if |BearerSchema| <= |authHeader| && authHeader[..|BearerSchema|] == BearerSchema {
      var token := authHeader[|BearerSchema|..];
      var valid := Controllers.IsValidToken(env.crypto, token);
      if valid {
        callNext := true;
      } else {
        var (body, err) := env.json.marshal(ErrorMap(map["error" := "forbidden"]));
        if err.Some? {
          WriteError(w, err.value.message, 500);
          return;
        }
        w.SetHeader(ContentType, ApplicationJson);
        w.WriteHeader(403);
        w.Write(body);
      }
    }
  }

  // ----------------------------------------------------------- the chain walk

  /** What a walk records: each link as it is invoked, and the lines the
      middlewares print. */
  datatype Event = Invoked(link: Link) | Printed(line: string)

  const LoggingLine: string := "Logged, calling next"
  const AsJsonLine: string := "AsJson, calling next"

  /** The events of walking `chain`: Logging prints and then calls next, AsJson
      calls next and then prints, Authentication calls next only on Pass, and
      a wrapped handler runs and then calls next. */
  function Trace(chain: seq<Link>, r: Request, crypto: Controllers.Crypto): (events: seq<Event>)
    ensures chain != [] ==> events != [] && events[0] == Invoked(chain[0])
    decreases |chain|
  {
    if chain == [] then []
    else
      match chain[0]
      case Mw(Logging) => [Invoked(chain[0]), Printed(LoggingLine)] + Trace(chain[1..], r, crypto)
      case Mw(AsJson) => [Invoked(chain[0])] + Trace(chain[1..], r, crypto) + [Printed(AsJsonLine)]
      case Mw(Authentication) =>
        [Invoked(chain[0])] + (if AuthVerdict(r, crypto) == Pass then Trace(chain[1..], r, crypto) else [])
      case Handle(_) => [Invoked(chain[0])] + Trace(chain[1..], r, crypto)
  }

  /** A walk invokes only links of its chain. */
  lemma {:induction false} TraceInvokesChainLinks(chain: seq<Link>, r: Request, crypto: Controllers.Crypto)
    ensures forall ev :: ev in Trace(chain, r, crypto) && ev.Invoked? ==> ev.link in chain
    decreases |chain|
  {
    if chain != [] {
      TraceInvokesChainLinks(chain[1..], r, crypto);
      assert forall l :: l in chain[1..] ==> l in chain;
    }
  }

  /** What walking `chain` does to the response and the store. */
  function ChainEffect(chain: seq<Link>, rows: seq<Directory.Row>, env: Env, e: Entropy, r: Request): (eff: Effect)
    ensures |rows| <= |eff.rows| && eff.rows[..|rows|] == rows
    decreases |chain|, 1
  {
    if chain == [] then Effect([], rows)
    else
      match chain[0]
      case Mw(Authentication) =>
        if AuthVerdict(r, env.crypto) == Pass then ChainEffect(chain[1..], rows, env, e, r)
        else Effect(AuthCalls(r, env), rows)
      case Mw(_) => ChainEffect(chain[1..], rows, env, e, r)
      case Handle(h) => HandlerThenRest(h, chain[1..], rows, env, e, r)
  }

  /** A wrapped handler followed by the links after it: the handler runs, then
      the rest of the chain runs on the rows it leaves. */
  function HandlerThenRest(h: Handler, rest: seq<Link>, rows: seq<Directory.Row>, env: Env, e: Entropy, r: Request): (eff: Effect)
    ensures |rows| <= |eff.rows| && eff.rows[..|rows|] == rows
    decreases |rest| + 1, 0
  {
    var first := HandlerEffect(h, rows, env, e, r);
    var after := ChainEffect(rest, first.rows, env, e, r);
    Effect(first.calls + after.calls, after.rows)
  }

  /** One step of ChainEffect at a middleware. */
  lemma ChainEffectAtMiddleware(chain: seq<Link>, rows: seq<Directory.Row>, env: Env, e: Entropy, r: Request)
    requires chain != [] && chain[0].Mw?
    ensures ChainEffect(chain, rows, env, e, r)
            == if chain[0].middleware == Authentication && AuthVerdict(r, env.crypto) != Pass
               then Effect(AuthCalls(r, env), rows)
               else ChainEffect(chain[1..], rows, env, e, r)
  {
  }

  /** One step of ChainEffect at a handler. */
  lemma ChainEffectAtHandler(chain: seq<Link>, rows: seq<Directory.Row>, env: Env, e: Entropy, r: Request)
    requires chain != [] && chain[0].Handle?
    ensures var first := HandlerEffect(chain[0].handler, rows, env, e, r);
            var rest := ChainEffect(chain[1..], first.rows, env, e, r);
            ChainEffect(chain, rows, env, e, r) == Effect(first.calls + rest.calls, rest.rows)
  {
    assert ChainEffect(chain, rows, env, e, r) == HandlerThenRest(chain[0].handler, chain[1..], rows, env, e, r);
  }

  /** The negroni walk over the links still to run: each link decides whether
      the rest runs; past the last link, negroni's terminal link does nothing. */
  method Walk(links: seq<Link>, w: ResponseWriter, r: Request, db: Directory.Database, env: Env, e: Entropy)
    returns (events: seq<Event>)
    requires db.Valid()
    modifies w, db
    decreases |links|, 1
    ensures db.Valid()
    ensures events == Trace(links, r, env.crypto)
    ensures w.calls == old(w.calls) + ChainEffect(links, old(db.rows), env, e, r).calls
    ensures db.rows == ChainEffect(links, old(db.rows), env, e, r).rows
  {
    if links == [] {
      return [];
    }
    if links[0] == Mw(Authentication) {
      events := WalkAuthentication(links, w, r, db, env, e);
    } else if links[0].Mw? {
      events := WalkMiddleware(links, w, r, db, env, e);
    } else {
      events := WalkHandler(links, w, r, db, env, e);
    }
  }

  /** A Logging or AsJson link: either always calls next, Logging printing
      before and AsJson after. */
  method WalkMiddleware(links: seq<Link>, w: ResponseWriter, r: Request, db: Directory.Database, env: Env, e: Entropy)
    returns (events: seq<Event>)
    requires links != [] && links[0].Mw? && links[0].middleware != Authentication
    requires db.Valid()
    modifies w, db
    decreases |links|, 0
    ensures db.Valid()
    ensures events == Trace(links, r, env.crypto)
    ensures w.calls == old(w.calls) + ChainEffect(links, old(db.rows), env, e, r).calls
    ensures db.rows == ChainEffect(links, old(db.rows), env, e, r).rows
  {
    ChainEffectAtMiddleware(links, db.rows, env, e, r);
    var link := links[0];
    var rest := Walk(links[1..], w, r, db, env, e);
    if link == Mw(Logging) {
      events := [Invoked(link), Printed(LoggingLine)] + rest;
    } else {
      events := [Invoked(link)] + rest + [Printed(AsJsonLine)];
    }
  }

  /** An Authentication link: calls next only when it lets the request pass. */
  method WalkAuthentication(links: seq<Link>, w: ResponseWriter, r: Request, db: Directory.Database, env: Env, e: Entropy)
    returns (events: seq<Event>)
    requires links != [] && links[0] == Mw(Authentication)
    requires db.Valid()
    modifies w, db
    decreases |links|, 0
    ensures db.Valid()
    ensures events == Trace(links, r, env.crypto)
    ensures w.calls == old(w.calls) + ChainEffect(links, old(db.rows), env, e, r).calls
    ensures db.rows == ChainEffect(links, old(db.rows), env, e, r).rows
  {
    ChainEffectAtMiddleware(links, db.rows, env, e, r);
    var link := links[0];
    ghost var before := w.calls;
    var callNext := Authenticate(w, r, env);
    if callNext {
      assert w.calls == before;
      var rest := Walk(links[1..], w, r, db, env, e);
      events := [Invoked(link)] + rest;
    } else {
      events := [Invoked(link)];
    }
  }

  /** A handler link: negroni's wrapper runs the handler, then calls next. */
  method WalkHandler(links: seq<Link>, w: ResponseWriter, r: Request, db: Directory.Database, env: Env, e: Entropy)
    returns (events: seq<Event>)
    requires links != [] && links[0].Handle?
    requires db.Valid()
    modifies w, db
    decreases |links|, 0
    ensures db.Valid()
    ensures events == Trace(links, r, env.crypto)
    ensures w.calls == old(w.calls) + ChainEffect(links, old(db.rows), env, e, r).calls
    ensures db.rows == ChainEffect(links, old(db.rows), env, e, r).rows
  {
    ChainEffectAtHandler(links, db.rows, env, e, r);
    var link := links[0];
    RunHandler(link.handler, w, r, db, env, e);
    var rest := Walk(links[1..], w, r, db, env, e);
    events := [Invoked(link)] + rest;
  }

  /** ServeHTTP for a registered route: walks its chain on a fresh response. */
  method Serve(entry: Entry, r: Request, db: Directory.Database, env: Env, e: Entropy)
    returns (reply: Reply, events: seq<Event>)
    requires db.Valid()
    modifies db
    ensures db.Valid()
    ensures events == Trace(entry.chain, r, env.crypto)
    ensures reply == Sent(ChainEffect(entry.chain, old(db.rows), env, e, r).calls)
    ensures db.rows == ChainEffect(entry.chain, old(db.rows), env, e, r).rows
  {
    ghost var effect := ChainEffect(entry.chain, db.rows, env, e, r);
    var w := new ResponseWriter();
    events := Walk(entry.chain, w, r, db, env, e);
    assert w.calls == [] + effect.calls;
    assert w.calls == effect.calls;
    reply := Sent(w.calls);
  }
}
