# go-template user service, modelled in Dafny

This project models the decision logic of a small Go web service. The
service signs users up, logs them in with a JWT, looks users up by id and
accepts "work" requests behind a bearer-token middleware. The model covers:

- **Roles** (`Models`): the closed role enumeration `Member`/`Admin`, plus the
  `Unknown` sentinel. It includes the exact-match parser `RoleFromString` and
  the slug printer `Role.String`.
- **Adapters** (`Adapters`): the mappings between the wire format and the user
  model, `ToUserInternal` and `ToUserResponse`.
- **User store** (`Directory`): an in-memory stand-in for the Postgres store.
  It holds the three operations the controller calls (`CreateUser`,
  `FindUser`, `FindUserAndPasswordByUsername`) over a table of rows.
  `Database` is a class whose `rows` field the insert extends.
- **Controllers** (`Controllers`):
  - `Signup`: fresh id, then hash, then persist.
  - `Login`: lookup, then compare, then sign.
  - `FindUser`, `newToken` and `IsValidToken`.
  - bcrypt and the HS512 JWT signer and verifier are opaque functions. They
    are handed exactly the key and the claims the code passes.
- **HTTP layer** (`Http`): the parts of net/http the handlers touch. The
  `ResponseWriter` is a class recording every call made on it. Its status,
  header map and body are views of that record that follow Go's commit rules:
  - the first `WriteHeader` or `Write` fixes the status;
  - that commit also fixes the header map that goes out;
  - a later `WriteHeader` is ignored;
  - when nothing was written, the reply is an empty 200.

  `http.Error` is `WriteError`.
- **Pipeline** (`Routing`, `Server`):
  - the five handlers and the three middlewares (`Logging`, `Authentication`,
    `AsJson`);
  - the route table, and `NewRouter`'s composition of each route's negroni
    chain: middlewares in declaration order, then the handler;
  - the walk of a chain (`Walk`, `Serve`). Each link decides whether `next`
    runs.

  Each handler method is proved against a function giving the calls it makes
  (`SignupEffect`, `LoginCalls`, ...). The walk is proved against `Trace`,
  the invoked links and printed lines, and `ChainEffect`, the calls made and
  the rows stored.
- **Replies** (`Replies`): what the client receives, stated as lemmas over
  `Sent`. For each handler one lemma bounds the status over all inputs and
  says exactly when it succeeds; one lemma per failure point and success path
  gives the whole reply.

Opaque collaborators are function-valued fields of datatypes passed in as
parameters:

- `Crypto`: bcrypt hash and compare, JWT sign and parse.
- `Json`: the request decoders and `json.Marshal`.
- `Env`: `uuid.Parse` and the store's version lookup.

`uuid.New` and bcrypt's salt arrive as per-request `Entropy`. Go's `(value,
error)` results are tuples whose error is an `Option<Error>`, with `None`
standing for `nil`.

Behaviours of the code worth knowing, each modelled as written:

- **No bearer token.** A request with no `Authorization` header, or one
  lacking the exact `"Bearer "` prefix, is neither rejected nor let through.
  `Authentication` writes nothing and does not call `next`, so `AsJson` and
  the handler never run. net/http then sends an empty 200
  (`Replies.WorkRouteWithoutBearer`).
- **Login failures.** An unknown username and a wrong password both give status
  500. The bodies differ ("user not found" and "username or password does not
  match"), so the two failures are told apart by the body alone
  (`Replies.LoginWrongPassword`).
- **Decode error in `WorkHandler`.** Nothing returns after the decode error is
  reported, so the handler goes on and writes the pending reply. Under net/http
  the 500 from `http.Error` has already committed. The client gets 500, with the
  error text followed by the pending JSON, and the later `WriteHeader(202)` is
  superfluous (`Replies.WorkDecodeErrorFallsThrough`). The model keeps this
  behaviour as written.
- **Wire types.** internal/wire/user.go:5-12 declares only a
  `CreateUserRequest` with a name and a `UserResponse` with an id and a name.
  The code uses more than that:
  - `wire.SignupRequest` (username, password, role) and `wire.LoginRequest`
    (username, password), decoded by the handlers;
  - `wire.LoginResponse` (the token, internal/diplomat/inbound/http_server.go:98)
    and `wire.VersionResponse` (the version, internal/adapters/version.go:8);
  - a role in `UserResponse` (internal/adapters/user.go:18).

  `ToUserInternal` is declared over `wire.CreateUserRequest`
  (internal/adapters/user.go:8), yet SignupHandler passes it a
  `wire.SignupRequest` (internal/diplomat/inbound/http_server.go:56), and it
  calls `models.FromString` (internal/adapters/user.go:9). The model takes
  `ToUserInternal` over the signup request, defines the records with the
  fields the code reads and writes, and calls `RoleFromString`, the only role
  parser in internal/models/role.go. The login and version responses appear
  only as the `TokenBody` and `VersionBody` payloads given to the marshaller.
- **Store interface.** The controllers reach the store through `c.Db`, typed
  by the interface at internal/components/database.go:8-12, whose
  `CreateUser` takes only the user and which has no
  `FindUserAndPasswordByUsername`; internal/controllers/user.go:19 and :28 do
  not match it. The model follows the methods of `PgDatabase`
  (internal/diplomat/outbound/database.go), which the calls do match.

## Model

| member | source | states |
|---|---|---|
| Models.RoleFromString | internal/models/role.go:19-27 | succeeds exactly on the slugs of the named roles ("member", "admin"), returning a named role whose slug is the input; any other string, "" included, gives `Unknown` with the error "unknown role: " + s |
| Models.RoleRoundTrip | internal/models/role.go:9-24 | parsing the slug of `Member` or `Admin` gives that role back with no error |
| Models.RoleStringInjective | internal/models/role.go:13-17 | the three constants have pairwise different slugs |
| Models.Role.String | internal/models/role.go:9-17 | the printed slug is empty exactly for `Unknown` |
| Adapters.ToUserInternal | internal/adapters/user.go:9-15 | the error is the role parser's; on error the zero user; on success a nil id, the request's username and a named role whose slug is the request's role |
| Adapters.ToUserResponse | internal/adapters/user.go:17-19 | copies the id, puts the username into `name`; a named role's printed name parses back to that role, `Unknown` prints as "" |
| Adapters.SignupRequestRoundTrip | internal/adapters/user.go:9-19 | a request accepted by ToUserInternal comes back from ToUserResponse with the same username and role name |
| Directory.Find | internal/diplomat/outbound/database.go:65 | the index of the first row satisfying the condition, -1 exactly when none does |
| Directory.FindUser | internal/diplomat/outbound/database.go:61-76 | "no rows" exactly when no row has the id; on any error the zero user; on success the id asked for, a stored username and a named role matching the stored role name |
| Directory.FindUserAndPasswordByUsername | internal/diplomat/outbound/database.go:78-97 | "no rows" exactly when no row has the username; on any error the zero user and an empty hash; on success the stored id, hash and named role for that username |
| Directory.CreateUserError | internal/diplomat/outbound/database.go:47-51 | the insert is refused, with the duplicate-key error, exactly when the id or the username is already stored |
| Directory.CreatedUserIsFoundById | internal/diplomat/outbound/database.go:36-76 | a user inserted under a named role is found again by its id, unchanged |
| Directory.CreatedUserIsFoundByUsername | internal/diplomat/outbound/database.go:36-97 | a user inserted under a named role is found again by username, together with the stored hash |
| Directory.StoredRowIsFoundById | internal/diplomat/outbound/database.go:61-76 | in a store that keeps ids unique, every row under a named role is the one its id finds, wherever it stands |
| Directory.StoredRowIsFoundByUsername | internal/diplomat/outbound/database.go:78-97 | in a store that keeps usernames unique, every row under a named role is the one its username finds, with its id and hash |
| Directory.Database.constructor | internal/diplomat/outbound/database.go:99-100 | the store NewDatabase opens, as an empty users table, which trivially has no two rows sharing an id or a username |
| Directory.Database.CreateUser | internal/diplomat/outbound/database.go:36-59 | appends exactly the user's row (id, username, hash, role name) unless CreateUserError refuses it, in which case nothing changes; no two rows share an id or a username |
| Controllers.NewToken | internal/controllers/user.go:66-80 | an HS512 token over the user's id and role slug, signed with the key given; an empty token and the signer's error when signing fails |
| Controllers.ClaimsOf | internal/controllers/user.go:60-71 | the claims carry the user's id, and for a named role a slug that parses back to that role |
| Controllers.IsValidToken | internal/controllers/user.go:82-90 | valid exactly when parsing under the literal key "secret" reports a valid token and no error; any parse error means invalid |
| Controllers.IssuedTokenIsValid | internal/controllers/user.go:66-90 | signer and verifier use the same key, so a token newToken issues for login is accepted by IsValidToken |
| Controllers.FindUser | internal/controllers/user.go:49-56 | passes the store's user through on success; the zero user and the store's error on failure |
| Controllers.LoginStopsWhenLookupFails | internal/controllers/user.go:28-32 | any failed lookup, an unknown username or a stored role that does not parse, ends Login with "user not found", an empty token, and no comparison or signing |
| Controllers.LoginStopsWhenCompareFails | internal/controllers/user.go:34-38 | a rejected password ends Login with "username or password does not match", an empty token, and no signing |
| Controllers.LoginSignsStoredUser | internal/controllers/user.go:40-46 | a successful Login returns the HS512 token under "secret" over the stored user's id and role slug |
| Controllers.SignupThenLogin | internal/controllers/user.go:13-46 | a user who signs up under a named role, with a password bcrypt hashed successfully, and then logs in with the same password gets a token carrying the new id and the role, and IsValidToken accepts it |
| Controllers.FailedHashSignupCannotLogin | internal/controllers/user.go:13-38 | when bcrypt fails and Signup stores the empty hash it was given, and the empty hash rejects every password, the new user is found by username but Login stops at the comparison with the mismatch error |
| Controllers.Signup | internal/controllers/user.go:13-25 | replaces the user's id with the fresh one and hashes the password, discarding a hashing error; persists exactly that user with the hash; returns the user with the new id on both paths, plus the store's error on failure |
| Controllers.Login | internal/controllers/user.go:27-47 | runs lookup, compare and sign in that order, stopping at the first failure; on error the token is empty; signing happens only after both a lookup and a comparison |
| Controllers.LoginResult | internal/controllers/user.go:27-47 | the collaborators invoked are a non-empty prefix of lookup, compare, sign; stopping before signing means an error; on error the token is empty; an error after signing is the signer's |
| Http.CommittedStatusAppend | internal/diplomat/inbound/http_server.go:139-154 | once a call has committed, later calls do not change the status |
| Http.HeaderAfterAppend | internal/diplomat/inbound/http_server.go:40 | header edits compose in order |
| Http.SentHeaderAppend | internal/diplomat/inbound/http_server.go:40-42 | the header that goes out is the map as it stood at the first commit |
| Http.BodyOfAppend | internal/diplomat/inbound/http_server.go:42 | the body is every Write's data, in order |
| Http.SentAfterCommit | internal/diplomat/inbound/http_server.go:139-154 | after a commit, later calls only append to the body |
| Http.SentError | internal/diplomat/inbound/http_server.go:28 | http.Error first on a response fixes the reply: its code, the plain-text and nosniff headers, and its message plus a newline first in the body, whatever follows |
| Http.ResponseWriter.constructor | internal/diplomat/inbound/http_server.go:23 | a response with no calls recorded |
| Http.ResponseWriter.SetHeader | internal/diplomat/inbound/http_server.go:40 | records the call and sets the key in the header map; status and body unchanged; after the commit the header sent is unchanged |
| Http.ResponseWriter.DelHeader | internal/diplomat/inbound/http_server.go:28 | records the call and removes the key; status and body unchanged |
| Http.ResponseWriter.WriteHeader | internal/diplomat/inbound/http_server.go:153 | the first commit fixes the status and the header sent with it; a later call changes neither |
| Http.ResponseWriter.Write | internal/diplomat/inbound/http_server.go:42 | commits with 200 when nothing committed yet, and appends the data to the body |
| Http.ViewsAppend | internal/diplomat/inbound/http_server.go:40-42 | the status, header and body of a record extended by more calls, in terms of the two parts |
| Http.WriteError | internal/diplomat/inbound/http_server.go:28 | makes exactly http.Error's calls: drop Content-Length, set the plain-text content type and nosniff, write the code, then the message and a newline |
| Routing.Chain | internal/diplomat/inbound/http_server.go:241-250 | a route's chain is its middlewares in declaration order followed by its handler |
| Routing.NewRouter | internal/diplomat/inbound/http_server.go:238-254 | registers every route, in table order, under its name, method and path, with its chain |
| Routing.WorkChain | internal/diplomat/inbound/http_server.go:227-233 | the "work" route runs Logging, Authentication, AsJson, then WorkHandler |
| Routing.PlainRoutesDispatchDirectly | internal/diplomat/inbound/http_server.go:222-226 | the four routes without middlewares dispatch straight to their handler |
| Server.SentJson | internal/diplomat/inbound/http_server.go:76-78 | setting the JSON content type and writing a body sends 200, that header and that body |
| Server.VersionHandler | internal/diplomat/inbound/http_server.go:23-43 | makes exactly the calls VersionCalls gives: 500 on a lookup or marshal error, the JSON reply otherwise |
| Server.SignupHandler | internal/diplomat/inbound/http_server.go:45-79 | makes exactly the calls of SignupEffect and leaves the rows SignupEffect gives |
| Server.LoginHandler | internal/diplomat/inbound/http_server.go:81-107 | makes exactly the calls of LoginCalls |
| Server.FindUserHandler | internal/diplomat/inbound/http_server.go:109-133 | makes exactly the calls of FindUserCalls, with the uuid.Parse error ignored |
| Server.WorkHandler | internal/diplomat/inbound/http_server.go:135-155 | makes exactly the calls of WorkCalls, including the fall-through after a decode error |
| Server.RunHandler | internal/diplomat/inbound/http_server.go:216-220 | runs the route's handler: its calls and rows are HandlerEffect's |
| Server.HandlerEffect | internal/diplomat/inbound/http_server.go:23-155 | no handler removes or rewrites a stored row: the rows before it stay a prefix of the rows after it |
| Server.BearerToken | internal/diplomat/inbound/http_server.go:173-178 | a token exactly when the header starts with the exact, case-sensitive "Bearer "; the token is the header minus those 7 characters |
| Server.AuthVerdict | internal/diplomat/inbound/http_server.go:173-182 | Ignore exactly when the header lacks the exact "Bearer " prefix; Pass exactly when it has it and the rest of the header is a valid token |
| Server.AuthCalls | internal/diplomat/inbound/http_server.go:181-193 | Authentication writes nothing exactly when it does not refuse; when it refuses, the 403 is written exactly when the error map marshals |
| Server.Authenticate | internal/diplomat/inbound/http_server.go:172-195 | calls next exactly when the bearer token is valid; its own calls are AuthCalls |
| Server.ChainEffectAtMiddleware | internal/diplomat/inbound/http_server.go:167-200 | a middleware at the head of a chain leaves the effect to the rest of the chain, except a refusing Authentication, whose own calls are then all |
| Server.ChainEffectAtHandler | internal/diplomat/inbound/http_server.go:216-220 | a handler at the head runs, and then the rest of the chain runs on the rows it leaves |
| Server.Trace | internal/diplomat/inbound/http_server.go:161-200 | walking a non-empty chain first invokes its first link |
| Server.TraceInvokesChainLinks | internal/diplomat/inbound/http_server.go:161-200 | a walk invokes only links of its own chain |
| Server.ChainEffect | internal/diplomat/inbound/http_server.go:161-220 | walking a chain only appends to the store: the rows it starts from stay a prefix of the rows it leaves |
| Server.Walk | internal/diplomat/inbound/http_server.go:161-200 | walking the links still to run records Trace's events, makes ChainEffect's calls and leaves ChainEffect's rows, dispatching on the first link |
| Server.WalkMiddleware | internal/diplomat/inbound/http_server.go:167-200 | Logging prints and then calls next; AsJson calls next and then prints |
| Server.WalkAuthentication | internal/diplomat/inbound/http_server.go:172-195 | Authentication runs the rest of the chain only on a valid token; otherwise its own calls are all the walk makes |
| Server.WalkHandler | internal/diplomat/inbound/http_server.go:216-220 | runs the handler, then calls next |
| Server.Serve | internal/diplomat/inbound/http_server.go:247-250 | serving a route on a fresh response sends Sent of ChainEffect's calls and stores ChainEffect's rows |
| Replies.ErrorSent | internal/diplomat/inbound/http_server.go:28 | http.Error alone sends its code, the plain-text headers and the message with a newline |
| Replies.VersionReplies | internal/diplomat/inbound/http_server.go:23-43 | 500 with the store's message when the version lookup fails, 500 with the marshaller's when the version does not marshal, 200 with the JSON version otherwise |
| Replies.SignupUndecodable | internal/diplomat/inbound/http_server.go:49-54 | an undecodable signup body gives 500 with the decoder's message, and nothing is stored |
| Replies.SignupUnknownRole | internal/diplomat/inbound/http_server.go:56-60 | a role other than "member" and "admin" gives 400 with "unknown role: " and the role, and nothing is stored |
| Replies.SignupDuplicate | internal/diplomat/inbound/http_server.go:62-66 | a taken id or username gives 500 with the duplicate-key message, and nothing is stored |
| Replies.SignupCreated | internal/diplomat/inbound/http_server.go:45-79 | a new user is stored with the fresh id, the username, the password's hash and the role; it can be found by that id; the reply is 200 with the marshalled user |
| Replies.SignupStoredButMarshalFails | internal/diplomat/inbound/http_server.go:62-74 | a stored user whose reply does not marshal stays stored, while the client gets 500 with the marshaller's message |
| Replies.SignupStatus | internal/diplomat/inbound/http_server.go:45-79 | the status is 200, 400 or 500; 400 exactly when the body decodes but names an unknown role; 200 exactly when the body decodes, names a known role, the insert is accepted and the user marshals, and then one row was appended; the store keeps its rows or gains exactly one after them |
| Replies.LoginUndecodable | internal/diplomat/inbound/http_server.go:84-90 | an undecodable login body gives 500 with the decoder's message |
| Replies.LoginUnknownUser | internal/diplomat/inbound/http_server.go:92-96 | any failed lookup, an unknown username or a stored role that does not parse, gives 500 with "user not found" |
| Replies.LoginWrongPassword | internal/diplomat/inbound/http_server.go:92-96 | a rejected password gives 500 with the mismatch message: the same status as an unknown user, a different body |
| Replies.LoginSigningFails | internal/diplomat/inbound/http_server.go:92-96 | a matching password whose token cannot be signed gives 500 with the signer's message |
| Replies.LoginMarshalFails | internal/diplomat/inbound/http_server.go:98-102 | an issued token that does not marshal gives 500 with the marshaller's message |
| Replies.LoginStatus | internal/diplomat/inbound/http_server.go:81-107 | the status is 200 or 500, and 200 exactly when the body decodes, Login issues a token and the token marshals |
| Replies.LoginIssuesUsableToken | internal/diplomat/inbound/http_server.go:92-106 | a successful login replies 200 with the token, and any later request whose Authorization header is "Bearer " followed by that token passes Authentication, whatever other headers it carries |
| Replies.FindUserMissing | internal/diplomat/inbound/http_server.go:114-120 | an id no row carries gives 500 with the store's "no rows" message |
| Replies.FindUserFound | internal/diplomat/inbound/http_server.go:114-132 | a stored user gives 200 with the marshalled user, carrying the id asked for and a named role |
| Replies.FindUserStoredRoleUnknown | internal/diplomat/inbound/http_server.go:116-120 | when the first row with the id stores a role other than "member" and "admin", the reply is 500 naming that role |
| Replies.FindUserMarshalFails | internal/diplomat/inbound/http_server.go:122-128 | a found user that does not marshal gives 500 with the marshaller's message |
| Replies.FindUserStatus | internal/diplomat/inbound/http_server.go:109-133 | the status is 200 or 500, and 200 exactly when the lookup succeeds and the user marshals |
| Replies.WorkAccepted | internal/diplomat/inbound/http_server.go:146-154 | a decoded work request gives 202 with the pending JSON reply |
| Replies.WorkDecodeErrorFallsThrough | internal/diplomat/inbound/http_server.go:139-154 | an undecodable work request gives 500, with the error text followed by the pending JSON, and the 202 is still written |
| Replies.WorkMarshalFails | internal/diplomat/inbound/http_server.go:138-150 | a pending reply that does not marshal gives 500 with the marshaller's message, after the decoder's when decoding failed as well |
| Replies.WorkStatus | internal/diplomat/inbound/http_server.go:135-155 | the status is 202 or 500, and 202 exactly when the body decodes and the pending reply marshals |
| Replies.AuthenticationReplies | internal/diplomat/inbound/http_server.go:177-195 | Authentication writes nothing on a valid token or a missing bearer prefix; a refused token gives 403 with the JSON content type and the marshalled error, or 500 when marshalling fails |
| Replies.RouteEffect | internal/diplomat/inbound/http_server.go:222-250 | for any route, the effect of its chain is its handler's when no Authentication refuses, and Authentication's own calls, with the rows untouched, when one does |
| Replies.HandlerReached | internal/diplomat/inbound/http_server.go:172-250 | a route's handler is invoked exactly when no Authentication in its chain refuses the request |
| Replies.WorkRouteWithoutBearer | internal/diplomat/inbound/http_server.go:172-233 | on "work" without a bearer token, only Logging and Authentication run, nothing is stored, and the client gets an empty 200 |
| Replies.WorkRouteForbidden | internal/diplomat/inbound/http_server.go:183-233 | on "work" with a refused token, the client gets the 403 JSON reply, nothing is stored, and neither AsJson nor WorkHandler runs |
| Replies.WorkRouteAuthorized | internal/diplomat/inbound/http_server.go:167-233 | on "work" with a valid token, every link runs in declaration order, AsJson prints after the handler returns, and the effect is WorkHandler's |
| Replies.PlainRouteEffect | internal/diplomat/inbound/http_server.go:222-226 | on the four routes without middlewares, the reply and the rows are the handler's, and only the handler is invoked |

## Left out

- The insides of bcrypt, JWT encoding, HMAC-SHA-512, `json` coding, `uuid.New` and `uuid.Parse`: foreign libraries, passed in as opaque functions. Three of their promises are stated as hypotheses where a lemma needs them: a hash successfully made from a password matches that password (`Controllers.HashMatchesItsPassword`), a failed hash is empty and the empty hash matches no password (`Controllers.FailedHashIsRejected`), and a signed token verifies under its key (`Controllers.VerifierAcceptsOwnSignatures`).
- The JWT library's algorithm check and claim validation: folded into the opaque parser's answer.
- gorilla/mux path matching, `StrictSlash` and method matching: the model takes requests with their route and path variables already resolved.
- negroni's internals beyond the walk of the chain, and net/http's header canonicalisation and content sniffing. A reply's header is the map the handler chain leaves: the headers the server adds to every response (`Date`, and `Content-Length` for a short body, so the empty 200 goes out with `Content-Length: 0`) are not modelled.
- The SQL statements, transactions, connection pool, migrations and `os.Exit` of internal/diplomat/outbound/database.go: replaced by an in-memory table.
- Directory.CreateUserError: refuses an insert only for a taken id or username. The store's other failures (a connection or transaction error, a role name missing from the roles table) are not modelled. The duplicate-key message is shortened to its fixed part: pgx reports `ERROR: duplicate key value violates unique constraint "<name>" (SQLSTATE 23505)`, with the constraint's name and the SQL state.
- Directory.FindUser: reads back the role name the insert stored. The query at internal/diplomat/outbound/database.go:65 selects a `role` column of `users`, while the insert at :47 writes only `role_id`; against the real schema that lookup fails or reads a column the insert never fills. The model reads the stored role name, as the by-username lookup does through its join on `roles`.
- Directory.Database.Valid: no two rows share an id or a username. It stands for the unique constraints of the users table, which the insert is refused on and which Directory.StoredRowIsFoundById and Directory.StoredRowIsFoundByUsername rely on.
- Controllers.SignupThenLogin: holds only when bcrypt hashed the password. bcrypt refuses passwords longer than 72 bytes; Signup then discards the error and stores the empty hash. Controllers.FailedHashSignupCannotLogin states what follows, under the hypothesis that the empty hash rejects every password.
- The stdout lines of `Logging` and `AsJson`: recorded only as `Printed` events in the trace. The handlers' log lines and the controller's error logging are not modelled.
- `controllers.GetVersion` and the version store lookup: one opaque value in `Env`.
- `controllers.ProcessWork`: it only logs, so the work handler's model does not call it.
- `NewHttpServer`'s lifecycle hooks, the listening goroutine and the fx wiring: concurrency and bootstrap.
- Go's integer widths do not matter here: the core does no arithmetic, and status codes are plain integers.
