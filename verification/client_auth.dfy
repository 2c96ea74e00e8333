/** The session script the served client uses (client/auth.js): profile
    updates routed to the API and mirrored into the cache, and the mock
    login that registers through the API. `fetch` is not modelled: what the
    server answers is a parameter. */
module ClientAuth {
  import opened Wrappers
  import opened Wire
  import opened SessionStore

  /** What the client learns from the server after sending a request: the
      response was not ok, or it was and the user object that came back. */
  datatype Answer = NotOk | Fetched(latest: Session)

  /** What a call does: how it ends, the API request it sends (if any), and
      the session store afterwards. */
  datatype Effect = Effect(outcome: Outcome, request: Option<Request>, store: Store)

  // ---------------------------------------------------------------------
  // updateUser
  // ---------------------------------------------------------------------

  datatype Endpoint = VehicleEndpoint | PhoneEndpoint | StatusEndpoint

  /** The endpoint and method an update is sent with. A present
      `vehicleNumber` wins over `phoneNumber`, which wins over the status
      keys; `null` in the routed field turns PUT into DELETE. None: no
      endpoint applies and the update stays in the browser. */
  function Route(updates: Object): (r: Option<(Endpoint, Method)>)
    ensures r.Some? <==>
              || "vehicleNumber" in updates || "phoneNumber" in updates
              || "statusKey" in updates || "statusMessage" in updates
    ensures "vehicleNumber" in updates ==> r.Some? && r.value.0 == VehicleEndpoint
    ensures "vehicleNumber" !in updates && "phoneNumber" in updates ==>
              r.Some? && r.value.0 == PhoneEndpoint
    ensures "vehicleNumber" !in updates && "phoneNumber" !in updates && r.Some? ==>
              r.value.0 == StatusEndpoint
    ensures r.Some? ==> (r.value.1 == Put || r.value.1 == Delete)
    ensures r.Some? ==>
              (r.value.1 == Delete <==>
                 || (r.value.0 == VehicleEndpoint && updates["vehicleNumber"] == Null)
                 || (r.value.0 == PhoneEndpoint && updates["phoneNumber"] == Null))
  {
    if "vehicleNumber" in updates then
      Some((VehicleEndpoint, if updates["vehicleNumber"] == Null then Delete else Put))
    else if "phoneNumber" in updates then
      Some((PhoneEndpoint, if updates["phoneNumber"] == Null then Delete else Put))
    else if "statusKey" in updates || "statusMessage" in updates then
      Some((StatusEndpoint, Put))
    else
      None
  }

  /** The resource of an endpoint for the user `email`. */
  function EndpointPath(endpoint: Endpoint, email: string): Path {
    match endpoint
    case VehicleEndpoint => VehiclePath(email)
    case PhoneEndpoint => PhonePath(email)
    case StatusEndpoint => StatusPath(email)
  }

  /** The request an update sends for the cached user `current`: the
      routed endpoint under the user's `email` (interpolated into the URL
      as is), with the whole update as JSON body. */
  function UpdateRequest(current: Session, updates: Object): (req: Option<Request>)
    ensures req.Some? <==> Route(updates).Some?
    ensures req.Some? ==> req.value.body == updates
    ensures req.Some? ==>
              && req.value.verb == Route(updates).value.1
              && req.value.path == EndpointPath(Route(updates).value.0, Interpolate(Field(current, "email")))
  {
    match Route(updates)
    case None => None
    case Some((endpoint, verb)) =>
      Some(Request(verb, EndpointPath(endpoint, Interpolate(Field(current, "email"))), updates))
  }

  /** `updateUser`. Without a session nothing happens. A routed update is
      sent; a not-ok answer throws before the cache is touched, an ok one
      replaces the cache with the user fetched afterwards. An update with
      no endpoint is merged into the cache without any request. */
  function UpdateUser(store: Store, updates: Object, answer: Answer): (eff: Effect)
    ensures store.None? ==> eff == Effect(Undefined, None, None)
    ensures store.Some? && Route(updates).None? ==>
              && eff.request.None?
              && eff.store == Some(Merge(store.value, updates))
              && eff.outcome == Returned(Merge(store.value, updates))
    ensures store.Some? && Route(updates).Some? ==>
              && eff.request.Some?
              && eff.request.value.body == updates
              && eff.request.value.verb == Route(updates).value.1
              && eff.request.value.path ==
                   EndpointPath(Route(updates).value.0, Interpolate(Field(store.value, "email")))
              && (answer.NotOk? ==> eff.outcome == Thrown("Update failed") && eff.store == store)
              && (answer.Fetched? ==>
                    eff.outcome == Returned(answer.latest) && eff.store == Some(answer.latest))
  {
    match store
    case None => Effect(Undefined, None, None)
    case Some(current) =>
      var req := UpdateRequest(current, updates);
      if req.None? then
        var merged := Merge(current, updates);
        Effect(Returned(merged), None, Some(merged))
      else
        match answer
        case NotOk => Effect(Thrown("Update failed"), req, store)
        case Fetched(latest) => Effect(Returned(latest), req, Some(latest))
  }

  /** Whatever the server answers, an update that reaches the server never
      merges locally: the cache afterwards is the old one or the server's. */
  lemma RoutedUpdateNeverMerges(store: Store, updates: Object, answer: Answer)
    requires store.Some? && Route(updates).Some?
    ensures var eff := UpdateUser(store, updates, answer);
            eff.store == store || (answer.Fetched? && eff.store == Some(answer.latest))
  {
  }

  // ---------------------------------------------------------------------
  // login
  // ---------------------------------------------------------------------

  const MockUsers: map<string, Object> := map[
    "google" := map["name" := Str("Google User"), "email" := Str("google@example.com"),
                    "provider" := Str("Google"), "avatar" := Null],
    "apple" := map["name" := Str("Apple User"), "email" := Str("user@icloud.com"),
                   "provider" := Str("Apple"), "avatar" := Null],
    "naver" := map["name" := Str("네이버 회원"), "email" := Str("naver@example.com"),
                   "provider" := Str("Naver"), "avatar" := Null],
    "kakao" := map["name" := Str("카카오 회원"), "email" := Str("kakao@example.com"),
                   "provider" := Str("Kakao"), "avatar" := Null]
  ]

  /** The property names every plain object inherits from
      `Object.prototype` (ECMAScript 2015 and later, Annex B included). */
  const ObjectPrototypeNames: set<string> := {
    "constructor", "hasOwnProperty", "isPrototypeOf", "propertyIsEnumerable",
    "toLocaleString", "toString", "valueOf", "__proto__",
    "__defineGetter__", "__defineSetter__", "__lookupGetter__", "__lookupSetter__"
  }

  /** What `this.mockUsers[provider]` finds: an own mock user, a member
      inherited from `Object.prototype` (a function, or the prototype itself
      for `__proto__`; all truthy), or `undefined`. */
  datatype Lookup = Own(user: Object) | Inherited | Missing

  function LookupMock(provider: string): (l: Lookup)
    ensures l.Own? <==> provider in MockUsers
    ensures l.Own? ==> l.user == MockUsers[provider]
    ensures l.Missing? <==> provider !in MockUsers && provider !in ObjectPrototypeNames
  {
    if provider in MockUsers then Own(MockUsers[provider])
    else if provider in ObjectPrototypeNames then Inherited
    else Missing
  }

  /** The body the server parses from `JSON.stringify(mockUser)`. An
      inherited member serialises to `undefined` (a function) or `{}` (the
      prototype): either way the server sees no fields. */
  function LoginBody(l: Lookup): Object
    requires !l.Missing?
  {
    if l.Own? then l.user else map[]
  }

  /** The POST to the login endpoint and what follows from its answer. */
  function SendLogin(store: Store, body: Object, answer: Answer): (eff: Effect)
    ensures eff.request == Some(Request(Post, LoginPath, body))
    ensures answer.NotOk? ==> eff.outcome == Thrown("API Login failed") && eff.store == store
    ensures answer.Fetched? ==>
              eff.outcome == Returned(answer.latest) && eff.store == Some(answer.latest)
  {
    var req := Some(Request(Post, LoginPath, body));
    match answer
    case NotOk => Effect(Thrown("API Login failed"), req, store)
    case Fetched(user) => Effect(Returned(user), req, Some(user))
  }

  /** `login(provider)` as written: the mock user is looked up with an
      ordinary property read, so only a name that is neither a mock
      provider nor an inherited member is refused before the API call. */
  function Login(store: Store, provider: string, answer: Answer): (eff: Effect)
    ensures LookupMock(provider).Missing? ==>
              eff == Effect(Thrown("Login failed: Unknown provider"), None, store)
    ensures provider in MockUsers ==>
              eff.request == Some(Request(Post, LoginPath, MockUsers[provider]))
    ensures LookupMock(provider).Inherited? ==> eff.request == Some(Request(Post, LoginPath, map[]))
    ensures !LookupMock(provider).Missing? ==>
              && eff.request == Some(Request(Post, LoginPath, LoginBody(LookupMock(provider))))
              && (answer.NotOk? ==> eff.outcome == Thrown("API Login failed") && eff.store == store)
              && (answer.Fetched? ==> eff.store == Some(answer.latest) && eff.outcome == Returned(answer.latest))
  {
    var found := LookupMock(provider);
    if found.Missing? then
      Effect(Thrown("Login failed: Unknown provider"), None, store)
    else
      SendLogin(store, LoginBody(found), answer)
  }

  /** A provider name that is not a mock provider, `toString`, still gets
      past the unknown-provider check and is posted to the API with an
      empty body. */
  lemma LoginInheritedNameReachesApi(store: Store, answer: Answer)
    ensures "toString" !in MockUsers
    ensures Login(store, "toString", answer).request == Some(Request(Post, LoginPath, map[]))
  {
  }

  /** `login` with the lookup restricted to the mock table's own keys, as
      the unknown-provider check intends: every name outside the table is
      refused before any request, and the four providers behave as in
      `Login`. */
  function LoginOwnProviders(store: Store, provider: string, answer: Answer): (eff: Effect)
    ensures provider !in MockUsers ==>
              eff == Effect(Thrown("Login failed: Unknown provider"), None, store)
    ensures provider in MockUsers ==>
              && eff.request == Some(Request(Post, LoginPath, MockUsers[provider]))
              && (answer.NotOk? ==> eff.outcome == Thrown("API Login failed") && eff.store == store)
              && (answer.Fetched? ==> eff.store == Some(answer.latest) && eff.outcome == Returned(answer.latest))
  {
    if provider in MockUsers then SendLogin(store, MockUsers[provider], answer)
    else Effect(Thrown("Login failed: Unknown provider"), None, store)
  }

  /** The corrected login differs from the written one only on inherited
      names. */
  lemma LoginOwnProvidersAgrees(store: Store, provider: string, answer: Answer)
    requires provider !in ObjectPrototypeNames
    ensures LoginOwnProviders(store, provider, answer) == Login(store, provider, answer)
  {
  }
}
