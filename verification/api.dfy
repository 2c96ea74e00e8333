/** The client and the server together: the server's route table, the
    JSON of a row, and what a routed profile update does to both the
    table and the browser's cache. */
module Api {
  import opened Wrappers
  import opened Wire
  import opened ProfileStore
  import opened SessionStore
  import ClientAuth

  /** The route table: the handler a method and path reach, with the
      table it leaves. None: no route matches (the framework's own 404). */
  function Serve(db: Db, req: Request, now: Timestamp): (out: Option<(Reply, Db)>)
    ensures out.Some? && req.path.LoginPath? ==> out.value == Login(db, req.body, now)
    ensures out.Some? && !req.path.LoginPath? && req.path.email !in db ==>
              out.value == (NotFound, db)
    ensures req.verb == Get && req.path.UserPath? ==> out == Some(GetUser(db, req.path.email))
    ensures req.verb == Put && req.path.VehiclePath? ==>
              out == Some(PutVehicle(db, req.path.email, req.body))
    ensures req.verb == Delete && req.path.VehiclePath? ==>
              out == Some(DeleteVehicle(db, req.path.email))
    ensures req.verb == Put && req.path.PhonePath? ==>
              out == Some(PutPhone(db, req.path.email, req.body))
    ensures req.verb == Delete && req.path.PhonePath? ==>
              out == Some(DeletePhone(db, req.path.email))
    ensures req.verb == Put && req.path.StatusPath? ==>
              out == Some(PutStatus(db, req.path.email, req.body))
    ensures out.Some? && WellFormed(db) ==> WellFormed(out.value.1)
    ensures out.None? <==>
              !(|| (req.verb == Post && req.path.LoginPath?)
                || (req.verb == Get && req.path.UserPath?)
                || (req.verb in {Put, Delete} && (req.path.VehiclePath? || req.path.PhonePath?))
                || (req.verb == Put && req.path.StatusPath?))
  {
    match (req.verb, req.path)
    case (Post, LoginPath) => Some(Login(db, req.body, now))
    case (Get, UserPath(e)) => Some(GetUser(db, e))
    case (Put, VehiclePath(e)) => Some(PutVehicle(db, e, req.body))
    case (Delete, VehiclePath(e)) => Some(DeleteVehicle(db, e))
    case (Put, PhonePath(e)) => Some(PutPhone(db, e, req.body))
    case (Delete, PhonePath(e)) => Some(DeletePhone(db, e))
    case (Put, StatusPath(e)) => Some(PutStatus(db, e, req.body))
    case _ => None
  }

  /** The key a column has in the JSON of a row. */
  function ColumnName(c: Column): string {
    match c
    case Email => "email"
    case Name => "name"
    case Provider => "provider"
    case Avatar => "avatar"
    case VehicleNumber => "vehicleNumber"
    case PhoneNumber => "phoneNumber"
    case StatusKey => "statusKey"
    case StatusMessage => "statusMessage"
    case LoginTime => "loginTime"
  }

  /** `res.json(user)`: the row as a JSON object, one key per column. */
  function RowJson(u: User): (o: Object)
    ensures forall c: Column :: ColumnName(c) in o && o[ColumnName(c)] == Read(u, c)
  {
    map[
      "email" := Str(u.email), "name" := Str(u.name), "provider" := Str(u.provider),
      "avatar" := u.avatar, "vehicleNumber" := u.vehicleNumber,
      "phoneNumber" := u.phoneNumber, "statusKey" := u.statusKey,
      "statusMessage" := u.statusMessage, "loginTime" := Str(u.loginTime)]
  }

  /** The JSON body of a reply: the row, or `{ error }`. */
  function ReplyJson(r: Reply): Object {
    if r.Ok? then RowJson(r.user) else map["error" := Str(r.Message())]
  }

  /** One exchange of `updateUser` with the server: send the request; if
      the reply is ok, fetch the user `email` again and hand its JSON back. */
  function Exchange(db: Db, req: Request, email: string, now: Timestamp): (out: (ClientAuth.Answer, Db))
    ensures out.0.Fetched? <==> Serve(db, req, now).Some? && Serve(db, req, now).value.0.Ok?
    ensures out.1 == if Serve(db, req, now).Some? then Serve(db, req, now).value.1 else db
    ensures out.0.Fetched? && email in out.1 ==> out.0.latest == RowJson(out.1[email])
  {
    match Serve(db, req, now)
    case None => (ClientAuth.NotOk, db)
    case Some((reply, db')) =>
      if reply.Status() == 200 then (ClientAuth.Fetched(ReplyJson(GetUser(db', email).0)), db')
      else (ClientAuth.NotOk, db')
  }

  /** After a routed update of a user the server knows, the browser's
      cache is exactly the server's row for that user, as JSON. */
  lemma CacheFollowsServer(db: Db, session: Session, e: string, updates: Object, now: Timestamp)
    requires Field(session, "email") == Some(Str(e)) && e in db
    requires ClientAuth.Route(updates).Some?
    ensures var req := ClientAuth.UpdateRequest(session, updates).value;
            var (answer, db') := Exchange(db, req, e, now);
            && e in db'
            && ClientAuth.UpdateUser(Some(session), updates, answer).store == Some(RowJson(db'[e]))
  {
  }

  /** A vehicle update reaches the cache through the server: the cached
      `vehicleNumber` is the value sent, and `null` clears it. */
  lemma VehicleUpdateRoundTrip(db: Db, session: Session, e: string, updates: Object, now: Timestamp)
    requires Field(session, "email") == Some(Str(e)) && e in db
    requires "vehicleNumber" in updates
    ensures var req := ClientAuth.UpdateRequest(session, updates).value;
            var (answer, db') := Exchange(db, req, e, now);
            var cache := ClientAuth.UpdateUser(Some(session), updates, answer).store;
            && cache.Some?
            && "vehicleNumber" in cache.value
            && cache.value["vehicleNumber"] == updates["vehicleNumber"]
  {
    var req := ClientAuth.UpdateRequest(session, updates).value;
    CacheFollowsServer(db, session, e, updates, now);
    var db' := Exchange(db, req, e, now).1;
    assert ColumnName(VehicleNumber) == "vehicleNumber";
    assert RowJson(db'[e])[ColumnName(VehicleNumber)] == Read(db'[e], VehicleNumber);
  }

  /** A phone update (without a vehicle field) reaches the cache through
      the server the same way. */
  lemma PhoneUpdateRoundTrip(db: Db, session: Session, e: string, updates: Object, now: Timestamp)
    requires Field(session, "email") == Some(Str(e)) && e in db
    requires "vehicleNumber" !in updates && "phoneNumber" in updates
    ensures var req := ClientAuth.UpdateRequest(session, updates).value;
            var (answer, db') := Exchange(db, req, e, now);
            var cache := ClientAuth.UpdateUser(Some(session), updates, answer).store;
            && cache.Some?
            && "phoneNumber" in cache.value
            && cache.value["phoneNumber"] == updates["phoneNumber"]
  {
    var req := ClientAuth.UpdateRequest(session, updates).value;
    CacheFollowsServer(db, session, e, updates, now);
    var db' := Exchange(db, req, e, now).1;
    assert ColumnName(PhoneNumber) == "phoneNumber";
    assert RowJson(db'[e])[ColumnName(PhoneNumber)] == Read(db'[e], PhoneNumber);
  }

  /** `{ statusMessage: "" }` sent from the browser: the cache ends with an
      empty message and the status key the server already had. */
  lemma EmptyStatusMessageRoundTrip(db: Db, session: Session, e: string, now: Timestamp)
    requires Field(session, "email") == Some(Str(e)) && e in db
    ensures var updates := map["statusMessage" := Str("")];
            var req := ClientAuth.UpdateRequest(session, updates).value;
            var (answer, db') := Exchange(db, req, e, now);
            var cache := ClientAuth.UpdateUser(Some(session), updates, answer).store;
            && cache.Some?
            && "statusMessage" in cache.value && "statusKey" in cache.value
            && cache.value["statusMessage"] == Str("")
            && cache.value["statusKey"] == db[e].statusKey
  {
    var updates := map["statusMessage" := Str("")];
    var req := ClientAuth.UpdateRequest(session, updates).value;
    CacheFollowsServer(db, session, e, updates, now);
    var db' := Exchange(db, req, e, now).1;
    assert ColumnName(StatusMessage) == "statusMessage";
    assert ColumnName(StatusKey) == "statusKey";
    assert RowJson(db'[e])[ColumnName(StatusMessage)] == Read(db'[e], StatusMessage);
    assert RowJson(db'[e])[ColumnName(StatusKey)] == Read(db'[e], StatusKey);
  }
}
