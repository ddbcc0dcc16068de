/** The route table and how the router composes each route's chain: its
    middlewares in declaration order, then its handler. */
module Routing {

  datatype Middleware = Logging | Authentication | AsJson

  datatype Handler = Version | Signup | Login | FindUser | Work

  /** One link of a negroni chain: a middleware, or the route's handler wrapped
      as the last middleware. */
  datatype Link = Mw(middleware: Middleware) | Handle(handler: Handler)

  datatype Route = Route(name: string, verb: string, path: string, handler: Handler, middlewares: seq<Middleware>)

  /** The route table. */
  const Routes: seq<Route> := [
    Route("version", "GET", "/version", Version, []),
    Route("signup", "POST", "/signup", Signup, []),
    Route("login", "POST", "/login", Login, []),
    Route("find user", "GET", "/user/{id}", FindUser, []),
    Route("work", "POST", "/work", Work, [Logging, Authentication, AsJson])
  ]

  /** A registered route: name, HTTP method, path pattern and the chain serving it. */
  datatype Entry = Entry(name: string, verb: string, path: string, chain: seq<Link>)

  /** negroni.New(mws...) followed by UseHandler(handler): the middlewares in
      declaration order, the handler last. */
  function Chain(route: Route): (links: seq<Link>)
    ensures |links| == |route.middlewares| + 1
    ensures forall i :: 0 <= i < |route.middlewares| ==> links[i] == Mw(route.middlewares[i])
    ensures links[|route.middlewares|] == Handle(route.handler)
  {
    seq(|route.middlewares|, i requires 0 <= i < |route.middlewares| => Mw(route.middlewares[i]))
      + [Handle(route.handler)]
  }

  /** NewRouter: registers every route, in table order, with its chain. */
  method NewRouter(routes: seq<Route>) returns (router: seq<Entry>)
    ensures |router| == |routes|
    ensures forall i :: 0 <= i < |routes| ==>
              router[i] == Entry(routes[i].name, routes[i].verb, routes[i].path, Chain(routes[i]))
  {
    router := [];
    for i := 0 to |routes|
      invariant |router| == i
      invariant forall j :: 0 <= j < i ==>
                  router[j] == Entry(routes[j].name, routes[j].verb, routes[j].path, Chain(routes[j]))
    {
      var route := routes[i];
      var mws: seq<Link> := [];
      for j := 0 to |route.middlewares|
        invariant |mws| == j
        invariant forall t :: 0 <= t < j ==> mws[t] == Mw(route.middlewares[t])
      {
        mws := mws + [Mw(route.middlewares[j])];
      }
      var n := mws + [Handle(route.handler)];
      assert n == Chain(route);
      router := router + [Entry(route.name, route.verb, route.path, n)];
    }
  }

  /** The "work" route runs Logging, Authentication, AsJson, then its handler. */
  lemma WorkChain()
    ensures Routes[4].name == "work"
    ensures Chain(Routes[4]) == [Mw(Logging), Mw(Authentication), Mw(AsJson), Handle(Work)]
  {
  }

  /** Routes without middlewares dispatch straight to their handler. */
  lemma PlainRoutesDispatchDirectly()
    ensures forall i :: 0 <= i < 4 ==> Chain(Routes[i]) == [Handle(Routes[i].handler)]
  {
  }
}
