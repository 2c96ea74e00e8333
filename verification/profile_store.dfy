/** The profile service (server/index.js): one table of user rows keyed by
    email, and one pure transition per HTTP handler. A handler takes the
    table and the parsed request and returns the reply together with the
    table after the handler's single save. */
module ProfileStore {
  import opened Wrappers
  import opened Wire

  /** The text of a clock reading. The server reads the clock at login;
      here the reading is a parameter. */
  type Timestamp = string

  /** One row of the `User` table. `email`, `name` and `provider` are
      declared NOT NULL; the other columns hold a string or NULL. */
  datatype User = User(
    email: string,
    name: string,
    provider: string,
    avatar: Value,
    vehicleNumber: Value,
    phoneNumber: Value,
    statusKey: Value,
    statusMessage: Value,
    loginTime: Timestamp)

  /** The table: at most one row per email, found by its email. */
  type Db = map<string, User>

  /** Every row sits under its own email, and no row has an empty email. */
  predicate WellFormed(db: Db) {
    forall e | e in db :: e != "" && db[e].email == e
  }

  /** The columns of a row, for saying which ones a handler writes. */
  datatype Column =
    | Email | Name | Provider | Avatar | VehicleNumber | PhoneNumber
    | StatusKey | StatusMessage | LoginTime

  /** The value a column holds, as it appears in the JSON of the row. */
  function Read(u: User, c: Column): Value {
    match c
    case Email => Str(u.email)
    case Name => Str(u.name)
    case Provider => Str(u.provider)
    case Avatar => u.avatar
    case VehicleNumber => u.vehicleNumber
    case PhoneNumber => u.phoneNumber
    case StatusKey => u.statusKey
    case StatusMessage => u.statusMessage
    case LoginTime => Str(u.loginTime)
  }

  /** `after` agrees with `before` on every column outside `written`. */
  predicate SameExcept(before: User, after: User, written: set<Column>) {
    forall c: Column | c !in written :: Read(after, c) == Read(before, c)
  }

  /** Every row other than the one under `email` is as it was. */
  predicate OthersUnchanged(db: Db, db': Db, email: string) {
    forall k | k in db && k != email :: k in db' && db'[k] == db[k]
  }

  /** The replies: the full row, or an error status with its message. */
  datatype Reply = Ok(user: User) | BadRequest | NotFound | InternalError {
    function Status(): int {
      match this
      case Ok(_) => 200
      case BadRequest => 400
      case NotFound => 404
      case InternalError => 500
    }

    function Message(): string
      requires !Ok?
    {
      match this
      case BadRequest => "Email is required"
      case NotFound => "User not found"
      case InternalError => "Internal server error"
    }
  }

  /** A body field assigned to a nullable column: `undefined` is written as
      NULL, like `null`. */
  function ColumnValue(f: Option<Value>): (v: Value)
    ensures f.Some? ==> v == f.value
    ensures f.None? ==> v == Null
  {
    f.GetOr(Null)
  }

  /** The value a fresh row takes in `statusKey`: the column default. */
  const DefaultStatusKey: Value := Str("available")

  // ---------------------------------------------------------------------
  // POST /api/auth/login: find-or-create
  // ---------------------------------------------------------------------

  /** Login. A falsy `email` is refused with 400. An unknown email gets a
      fresh row with the column defaults; a known one has `name`, `avatar`
      and `loginTime` overwritten. A save that would leave a NOT NULL column
      (`name`, or `provider` on creation) missing or null fails validation:
      the handler answers 500 and nothing is written. */
  function Login(db: Db, body: Object, now: Timestamp): (out: (Reply, Db))
    ensures !Truthy(Field(body, "email")) ==> out == (BadRequest, db)
    ensures Truthy(Field(body, "email")) ==>
      var e := Field(body, "email").value.s;
      var name := Field(body, "name");
      && OthersUnchanged(db, out.1, e)
      && (out.0.Ok? <==> !out.0.InternalError?)
      && (out.0.InternalError? <==> !IsString(name) || (e !in db && !IsString(Field(body, "provider"))))
      && (out.0.InternalError? ==> out.1 == db)
      && (out.0.Ok? ==>
            && out.1.Keys == db.Keys + {e}
            && e in out.1 && out.0.user == out.1[e]
            && Read(out.1[e], Name) == name.value
            && out.1[e].avatar == ColumnValue(Field(body, "avatar"))
            && out.1[e].loginTime == now)
      && (out.0.Ok? && e !in db ==>
            && Read(out.1[e], Provider) == Field(body, "provider").value
            && out.1[e].vehicleNumber == Null
            && out.1[e].phoneNumber == Null
            && out.1[e].statusKey == DefaultStatusKey
            && out.1[e].statusMessage == Null)
      && (out.0.Ok? && e in db ==>
            && SameExcept(db[e], out.1[e], {Name, Avatar, LoginTime}))
    ensures out.0.Ok? || out.0.BadRequest? || out.0.InternalError?
    ensures WellFormed(db) ==> WellFormed(out.1)
  {
    var email := Field(body, "email");
    if !Truthy(email) then
      (BadRequest, db)
    else
      var e := email.value.s;
      var name := Field(body, "name");
      var avatar := ColumnValue(Field(body, "avatar"));
      if e in db then
        if !IsString(name) then
          (InternalError, db)
        else
          var u := db[e].(name := name.value.s, avatar := avatar, loginTime := now);
          (Ok(u), db[e := u])
      else
        var provider := Field(body, "provider");
        if !IsString(name) || !IsString(provider) then
          (InternalError, db)
        else
          var u := User(e, name.value.s, provider.value.s, avatar,
                        Null, Null, DefaultStatusKey, Null, now);
          (Ok(u), db[e := u])
  }

  // ---------------------------------------------------------------------
  // GET /api/user/:email
  // ---------------------------------------------------------------------

  function GetUser(db: Db, email: string): (out: (Reply, Db))
    ensures out.1 == db
    ensures out.0.Ok? <==> email in db
    ensures out.0.Ok? ==> out.0.user == db[email]
    ensures !out.0.Ok? ==> out.0 == NotFound
  {
    if email in db then (Ok(db[email]), db) else (NotFound, db)
  }

  // ---------------------------------------------------------------------
  // Writing one nullable column of an existing row
  // ---------------------------------------------------------------------

  /** Load the row under `email`, write `v` into `column`, save, reply
      with the saved row; 404 and no write when there is no row. */
  function WriteColumn(db: Db, email: string, column: Column, v: Value): (out: (Reply, Db))
    requires column in {Avatar, VehicleNumber, PhoneNumber, StatusKey, StatusMessage}
    ensures email !in db ==> out == (NotFound, db)
    ensures email in db ==>
      && out.0.Ok?
      && out.1.Keys == db.Keys
      && out.0.user == out.1[email]
      && Read(out.1[email], column) == v
      && SameExcept(db[email], out.1[email], {column})
      && OthersUnchanged(db, out.1, email)
    ensures WellFormed(db) ==> WellFormed(out.1)
  {
    if email !in db then
      (NotFound, db)
    else
      var u := db[email];
      var u' := match column
        case Avatar => u.(avatar := v)
        case VehicleNumber => u.(vehicleNumber := v)
        case PhoneNumber => u.(phoneNumber := v)
        case StatusKey => u.(statusKey := v)
        case StatusMessage => u.(statusMessage := v);
      (Ok(u'), db[email := u'])
  }

  /** PUT /api/user/:email/vehicle: stores `body.vehicleNumber` as given;
      the server checks no format. */
  function PutVehicle(db: Db, email: string, body: Object): (out: (Reply, Db))
    ensures email !in db ==> out == (NotFound, db)
    ensures email in db ==>
      && out.0.Ok? && out.1.Keys == db.Keys && out.0.user == out.1[email]
      && out.1[email].vehicleNumber == ColumnValue(Field(body, "vehicleNumber"))
      && SameExcept(db[email], out.1[email], {VehicleNumber})
      && OthersUnchanged(db, out.1, email)
    ensures WellFormed(db) ==> WellFormed(out.1)
  {
    WriteColumn(db, email, VehicleNumber, ColumnValue(Field(body, "vehicleNumber")))
  }

  /** DELETE /api/user/:email/vehicle: sets `vehicleNumber` to NULL. */
  function DeleteVehicle(db: Db, email: string): (out: (Reply, Db))
    ensures email !in db ==> out == (NotFound, db)
    ensures email in db ==>
      && out.0.Ok? && out.1.Keys == db.Keys && out.0.user == out.1[email]
      && out.1[email].vehicleNumber == Null
      && SameExcept(db[email], out.1[email], {VehicleNumber})
      && OthersUnchanged(db, out.1, email)
    ensures WellFormed(db) ==> WellFormed(out.1)
  {
    WriteColumn(db, email, VehicleNumber, Null)
  }

  /** PUT /api/user/:email/phone: stores `body.phoneNumber` as given. */
  function PutPhone(db: Db, email: string, body: Object): (out: (Reply, Db))
    ensures email !in db ==> out == (NotFound, db)
    ensures email in db ==>
      && out.0.Ok? && out.1.Keys == db.Keys && out.0.user == out.1[email]
      && out.1[email].phoneNumber == ColumnValue(Field(body, "phoneNumber"))
      && SameExcept(db[email], out.1[email], {PhoneNumber})
      && OthersUnchanged(db, out.1, email)
    ensures WellFormed(db) ==> WellFormed(out.1)
  {
    WriteColumn(db, email, PhoneNumber, ColumnValue(Field(body, "phoneNumber")))
  }

  /** DELETE /api/user/:email/phone: sets `phoneNumber` to NULL. */
  function DeletePhone(db: Db, email: string): (out: (Reply, Db))
    ensures email !in db ==> out == (NotFound, db)
    ensures email in db ==>
      && out.0.Ok? && out.1.Keys == db.Keys && out.0.user == out.1[email]
      && out.1[email].phoneNumber == Null
      && SameExcept(db[email], out.1[email], {PhoneNumber})
      && OthersUnchanged(db, out.1, email)
    ensures WellFormed(db) ==> WellFormed(out.1)
  {
    WriteColumn(db, email, PhoneNumber, Null)
  }

  // ---------------------------------------------------------------------
  // PUT /api/user/:email/status
  // ---------------------------------------------------------------------

  /** Status update. `statusKey` is written only when the request's key is
      truthy (a non-empty string), so the key can never be cleared;
      `statusMessage` is written whenever the field is present, so `""`
      and `null` clear it. */
  function PutStatus(db: Db, email: string, body: Object): (out: (Reply, Db))
    ensures email !in db ==> out == (NotFound, db)
    ensures email in db ==>
      var key, msg := Field(body, "statusKey"), Field(body, "statusMessage");
      && out.0.Ok? && out.1.Keys == db.Keys && out.0.user == out.1[email]
      && (Truthy(key) ==> out.1[email].statusKey == key.value)
      && (!Truthy(key) ==> out.1[email].statusKey == db[email].statusKey)
      && (msg.Some? ==> out.1[email].statusMessage == msg.value)
      && (msg.None? ==> out.1[email].statusMessage == db[email].statusMessage)
      && SameExcept(db[email], out.1[email], {StatusKey, StatusMessage})
      && OthersUnchanged(db, out.1, email)
    ensures WellFormed(db) ==> WellFormed(out.1)
  {
    var key, msg := Field(body, "statusKey"), Field(body, "statusMessage");
    if email !in db then
      (NotFound, db)
    else
      var u := db[email];
      var u1 := if Truthy(key) then u.(statusKey := key.value) else u;
      var u2 := if msg.Some? then u1.(statusMessage := msg.value) else u1;
      (Ok(u2), db[email := u2])
  }

  // ---------------------------------------------------------------------
  // Properties relating several requests
  // ---------------------------------------------------------------------

  /** A stored vehicle number is what a following GET returns. */
  lemma PutVehicleThenGet(db: Db, email: string, body: Object)
    requires email in db
    ensures var reply := GetUser(PutVehicle(db, email, body).1, email).0;
            reply.Ok? && reply.user.vehicleNumber == ColumnValue(Field(body, "vehicleNumber"))
  {
  }

  /** A stored phone number is what a following GET returns. */
  lemma PutPhoneThenGet(db: Db, email: string, body: Object)
    requires email in db
    ensures var reply := GetUser(PutPhone(db, email, body).1, email).0;
            reply.Ok? && reply.user.phoneNumber == ColumnValue(Field(body, "phoneNumber"))
  {
  }

  /** Deleting twice is deleting once: same reply, same table. */
  lemma DeleteIdempotent(db: Db, email: string)
    ensures DeleteVehicle(DeleteVehicle(db, email).1, email) == DeleteVehicle(db, email)
    ensures DeletePhone(DeletePhone(db, email).1, email) == DeletePhone(db, email)
  {
    if email in db {
      var db1 := DeleteVehicle(db, email).1;
      assert db1[email := db1[email].(vehicleNumber := Null)] == db1;
      var db2 := DeletePhone(db, email).1;
      assert db2[email := db2[email].(phoneNumber := Null)] == db2;
    }
  }

  /** A second login with the same email keeps what the user registered:
      vehicle, phone and status survive; only name, avatar and the login
      time are refreshed. */
  lemma LoginKeepsRegistration(db: Db, body: Object, now: Timestamp)
    requires Truthy(Field(body, "email")) && Field(body, "email").value.s in db
    requires IsString(Field(body, "name"))
    ensures var e := Field(body, "email").value.s;
            var (reply, db') := Login(db, body, now);
            && reply.Ok?
            && db'[e].vehicleNumber == db[e].vehicleNumber
            && db'[e].phoneNumber == db[e].phoneNumber
            && db'[e].statusKey == db[e].statusKey
            && db'[e].statusMessage == db[e].statusMessage
            && db'[e].provider == db[e].provider
            && db'[e].loginTime == now
  {
    var e := Field(body, "email").value.s;
    var db' := Login(db, body, now).1;
    assert Read(db'[e], VehicleNumber) == Read(db[e], VehicleNumber);
    assert Read(db'[e], PhoneNumber) == Read(db[e], PhoneNumber);
    assert Read(db'[e], StatusKey) == Read(db[e], StatusKey);
    assert Read(db'[e], StatusMessage) == Read(db[e], StatusMessage);
    assert Read(db'[e], Provider) == Read(db[e], Provider);
  }

  /** `{ statusMessage: "" }` alone clears the message and keeps the key. */
  lemma EmptyMessageClearsOnlyMessage(db: Db, email: string)
    requires email in db
    ensures var db' := PutStatus(db, email, map["statusMessage" := Str("")]).1;
            db'[email].statusMessage == Str("") && db'[email].statusKey == db[email].statusKey
  {
  }

  /** `{ statusKey: "" }` cannot clear the key. */
  lemma EmptyKeyKeepsKey(db: Db, email: string)
    requires email in db
    ensures var db' := PutStatus(db, email, map["statusKey" := Str("")]).1;
            db' == db
  {
    var u := db[email];
    var db' := PutStatus(db, email, map["statusKey" := Str("")]).1;
    assert db'[email] == u;
  }
}
