/** The REST handlers for users, tokens and checks (lib/handlers.js), over
    the record store of `RecordStore`. Each handler is the decision tree of
    its callback chain, written as a function from the request and the
    records to the response and the records afterwards; the store's
    failures come from the `Faults` value. The clock, the random token and
    check ids and the password hash are the `Env` the request is served in.
    The user delete, whose callbacks count down a loop, is also written as a
    method over a `Store` and proved against its function. */
module Handlers {
  import opened Json
  import opened Fields
  import opened RecordStore
  import Config

  /** A parsed request: the lower-cased method, the JSON payload, the query
      string and the headers. */
  datatype Request = Request(
    httpMethod: string,
    payload: map<string, Json>,
    query: map<string, Json>,
    headers: map<string, Json>)

  /** The messages the handlers send in an error body. */
  datatype Message =
    | MissingRequiredFields | UserNotCreated | HashFailed | PhoneTaken | RecordNotFound
    | MissingToken | InvalidPhone | UserNotUpdated | NoSuchUser | NothingToUpdate
    | MissingField | ChecksNotRemoved | UserNotDeleted | UserNotFound
    | TokenNotCreated | WrongPassword | LoginUserNotFound | InvalidId | ExpiryNotUpdated
    | TokenExpired | TokenNotFound | MissingTokenField | TokenNotDeleted
    | UserNotLinked | CheckNotCreated | TooManyChecks | InvalidToken | InvalidCheckInputs
    | CheckNotUpdated | NoSuchCheck | OwnerNotUpdated | CheckNotListed | OwnerNotFound
    | CheckNotDeleted | CheckNotFound | MissingValidId

  /** The text of each message, as the handlers spell it. */
  function MessageText(m: Message): string
  {
    match m
    case MissingRequiredFields => "Missing required fields."
    case UserNotCreated => "A user"
    case HashFailed => "Could not hash the password."
    case PhoneTaken => "A user with that phone number already exists."
    case RecordNotFound => "Record not found."
    case MissingToken => "Missing required token in header."
    case InvalidPhone => "Missing phone number or invalid data."
    case UserNotUpdated => "Could not update the user"
    case NoSuchUser => "The specified user does not exist"
    case NothingToUpdate => "Missing fields to update."
    case MissingField => "Missing required field"
    case ChecksNotRemoved => "Failed to remove all users checks"
    case UserNotDeleted => "Could not delete the specified user"
    case UserNotFound => "Could not find the specified user."
    case TokenNotCreated => "Could not create new token"
    case WrongPassword => "Password is invalid."
    case LoginUserNotFound => "Could not find the user."
    case InvalidId => "Missing fields or invalid data."
    case ExpiryNotUpdated => "Cannot update token expiration."
    case TokenExpired => "Token is expired"
    case TokenNotFound => "Could not find the specified token."
    case MissingTokenField => "Missing required field."
    case TokenNotDeleted => "Could not delete the specified token."
    case UserNotLinked => "Could not update the user with the new check id."
    case CheckNotCreated => "Could not create new check."
    case TooManyChecks => "User exceed max number of checks."
    case InvalidToken => "Invalid token."
    case InvalidCheckInputs => "Misssing required inputs, or inputs are invalid."
    case CheckNotUpdated => "Could not update the check."
    case NoSuchCheck => "Check id does not exist"
    case OwnerNotUpdated => "Could not update the user."
    case CheckNotListed => "Could not find the check on the user's object, so could not remove it."
    case OwnerNotFound => "Could not find the user who created the check, so could not remove the check from the list of checks on their user object."
    case CheckNotDeleted => "Could not delete the check data."
    case CheckNotFound => "The check ID specified could not be found"
    case MissingValidId => "Missing valid id"
  }

  /** A response body: none, an error object `{'Error': text}`, or data. */
  datatype Body = Empty | Failure(error: Message) | Data(value: Json)

  /** The JSON a body is sent as (`undefined` for none). */
  function BodyJson(b: Body): Option<Json>
  {
    match b
    case Empty => None
    case Failure(m) => Some(JObj(map["Error" := JStr(MessageText(m))]))
    case Data(v) => Some(v)
  }

  datatype Response = Response(status: int, body: Body)

  /** What a handler does: the response it calls back with (`None` when a
      `TypeError` is thrown inside a store callback, so that no response is
      ever sent), and the records afterwards. */
  datatype Handled = Handled(response: Option<Response>, records: Records)

  /** The clock (`Date.now()`), the id `createRandomString(20)` yields, the
      password hash (`None` stands for `false`, in and out) and the selected
      configuration. */
  datatype Env = Env(
    now: nat,
    newId: string,
    hash: Option<string> -> Option<string>,
    config: Config.Environment)

  /** One hour in milliseconds: the lifetime of a token. */
  const HourMs: nat := 1000 * 60 * 60

  const AcceptableMethods: seq<string> := ["post", "get", "put", "delete"]

  function Field(m: map<string, Json>, k: string): Option<Json>
  {
    if k in m then Some(m[k]) else None
  }

  function Payload(req: Request, k: string): Option<Json>
  {
    Field(req.payload, k)
  }

  function Query(req: Request, k: string): Option<Json>
  {
    Field(req.query, k)
  }

  function Reply(status: int, body: Body, records: Records): Handled
  {
    Handled(Some(Response(status, body)), records)
  }

  function Status(h: Handled): int
  {
    if h.response.Some? then h.response.value.status else 0
  }

  /** `typeof(data.headers.token) == 'string' ? data.headers.token : false`,
      as the name of the record it is then used to read: `false` becomes the
      id "false". */
  function TokenId(req: Request): string
  {
    var t := Field(req.headers, "token");
    if t.Some? && t.value.JStr? then t.value.s else "false"
  }

  /** A record read that succeeded and gave a truthy value: `!err && data`. */
  predicate Found(v: Option<Json>)
  {
    v.Some? && Truthy(v)
  }

  // ---------------------------------------------------------------------
  // JavaScript comparisons the handlers rely on

  predicate Nullish(v: Option<Json>)
  {
    v.None? || v == Some(JNull)
  }

  /** `a == b`. `null` and `undefined` equal each other and nothing else;
      primitives of one type compare by value; two parsed objects or arrays
      are never the same object. */
  predicate LooselyEqual(a: Option<Json>, b: Option<Json>)
  {
    if Nullish(a) || Nullish(b) then Nullish(a) && Nullish(b)
    else
      match (a.value, b.value)
      case (JStr(x), JStr(y)) => x == y
      case (JNum(x), JNum(y)) => x == y
      case (JBool(x), JBool(y)) => x == y
      case _ => false
  }

  /** `v > now` for a property read: a number compares by value, `null` as
      0, a boolean as 0 or 1, and `undefined` as NaN. */
  predicate ExpiresAfter(v: Option<Json>, now: nat)
  {
    match v
    case Some(JNum(n)) => n > now as real
    case Some(JNull) => 0 > now
    case Some(JBool(b)) => (if b then 1 else 0) > now
    case _ => false
  }

  // ---------------------------------------------------------------------
  // Dispatch

  datatype Service = UsersService | TokensService | ChecksService

  /** `handlers.users`, `handlers.tokens`, `handlers.checks`: forward the
      four accepted methods to the sub-handler of that name, and answer
      anything else with 405. */
  function Dispatch(service: Service, req: Request, records: Records, faults: Faults, env: Env): (r: Handled)
    ensures req.httpMethod !in AcceptableMethods ==> r == Reply(405, Empty, records)
    ensures req.httpMethod in AcceptableMethods ==> Status(r) != 405
  {
    if IndexOfElem(AcceptableMethods, req.httpMethod) > -1 then
      match service
      case UsersService => UsersHandler(req, records, faults, env)
      case TokensService => TokensHandler(req, records, faults, env)
      case ChecksService => ChecksHandler(req, records, faults, env)
    else Reply(405, Empty, records)
  }

  function UsersHandler(req: Request, records: Records, faults: Faults, env: Env): (r: Handled)
    requires req.httpMethod in AcceptableMethods
    ensures r.response.Some? && Status(r) in {200, 400, 403, 404, 500}
  {
    if req.httpMethod == "post" then UsersPost(req, records, faults, env)
    else if req.httpMethod == "get" then UsersGet(req, records, faults, env)
    else if req.httpMethod == "put" then UsersPut(req, records, faults, env)
    else UserDeleted(req, records, faults, env)
  }

  function TokensHandler(req: Request, records: Records, faults: Faults, env: Env): (r: Handled)
    requires req.httpMethod in AcceptableMethods
    ensures Status(r) in {200, 400, 404, 500}
  {
    if req.httpMethod == "post" then TokensPost(req, records, faults, env)
    else if req.httpMethod == "get" then TokensGet(req, records, faults, env)
    else if req.httpMethod == "put" then TokensPut(req, records, faults, env)
    else TokensDelete(req, records, faults, env)
  }

  function ChecksHandler(req: Request, records: Records, faults: Faults, env: Env): (r: Handled)
    requires req.httpMethod in AcceptableMethods
    ensures Status(r) in {0, 200, 400, 403, 404, 500}
  {
    if req.httpMethod == "post" then ChecksPost(req, records, faults, env)
    else if req.httpMethod == "get" then ChecksGet(req, records, faults, env)
    else if req.httpMethod == "put" then ChecksPut(req, records, faults, env)
    else ChecksDelete(req, records, faults, env)
  }

  // ---------------------------------------------------------------------
  // Verifying a token

  /** `_tokens.verifyToken(id, phone)`: the token record can be read and is
      truthy, its `phone` equals `phone` (loosely) and it expires after
      `now`. */
  predicate VerifyToken(id: string, phone: Option<Json>, records: Records, faults: Faults, now: nat)
  {
    var t := Fetched(records, faults, (Tokens, id));
    Found(t) && LooselyEqual(Get(t.value, "phone"), phone) && ExpiresAfter(Get(t.value, "expires"), now)
  }

  // ---------------------------------------------------------------------
  // Users

  /** The four fields `users.post` requires: first and last name, a
      ten-character phone number and `tosAgreement === true`. The password
      is not among them. */
  predicate SignUpFields(req: Request)
  {
    && NonBlank(Payload(req, "firstName")).Some?
    && NonBlank(Payload(req, "lastName")).Some?
    && PhoneOf(Payload(req, "phone")).Some?
    && IsTrue(Payload(req, "tosAgreement"))
  }

  /** The user object `users.post` writes. */
  function UserObject(firstName: string, lastName: string, phone: string, hashedPassword: string): Json
  {
    JObj(map[
      "firstName" := JStr(firstName),
      "lastName" := JStr(lastName),
      "phone" := JStr(phone),
      "hashedPassword" := JStr(hashedPassword),
      "tosAgreement" := JBool(true)])
  }

  /** The hash of the payload's password (or of `false` when there is none),
      when it is truthy. */
  function SignUpHash(req: Request, env: Env): Option<string>
  {
    var h := env.hash(NonBlank(Payload(req, "password")));
    if h.Some? && h.value != "" then h else None
  }

  /** The record `users.post` writes for a request carrying the four fields. */
  function SignUpRecord(req: Request, env: Env): Json
    requires SignUpFields(req) && SignUpHash(req, env).Some?
  {
    UserObject(NonBlank(Payload(req, "firstName")).value, NonBlank(Payload(req, "lastName")).value,
               PhoneOf(Payload(req, "phone")).value, SignUpHash(req, env).value)
  }

  /** `_users.post`: create the user, only from the four required fields and
      only when no user with that phone can be read. */
  function UsersPost(req: Request, records: Records, faults: Faults, env: Env): (r: Handled)
    ensures r.response.Some? && Status(r) in {200, 400, 500}
    ensures !SignUpFields(req) ==> r == Reply(400, Failure(MissingRequiredFields), records)
    ensures SignUpFields(req) && Fetched(records, faults, (Users, PhoneOf(Payload(req, "phone")).value)).Some? ==>
              r == Reply(400, Failure(PhoneTaken), records)
    ensures Status(r) == 200 <==>
              && SignUpFields(req)
              && (Users, PhoneOf(Payload(req, "phone")).value) !in records
              && (Users, PhoneOf(Payload(req, "phone")).value) !in faults.unwritable
              && SignUpHash(req, env).Some?
    ensures Status(r) == 200 ==>
              r.records == records[(Users, PhoneOf(Payload(req, "phone")).value) := SignUpRecord(req, env)]
    ensures Status(r) != 200 ==> r.records == records
  {
    var firstName := NonBlank(Payload(req, "firstName"));
    var lastName := NonBlank(Payload(req, "lastName"));
    var phone := PhoneOf(Payload(req, "phone"));
    var password := NonBlank(Payload(req, "password"));
    var tosAgreement := IsTrue(Payload(req, "tosAgreement"));
    if firstName.Some? && lastName.Some? && phone.Some? && tosAgreement then
      var key := (Users, phone.value);
      if Fetched(records, faults, key).None? then
        var hashedPassword := env.hash(password);
        if hashedPassword.Some? && hashedPassword.value != "" then
          var user := UserObject(firstName.value, lastName.value, phone.value, hashedPassword.value);
          var w := Created(records, faults, key, user);
          if !w.err then Reply(200, Empty, w.records)
          else Reply(500, Failure(UserNotCreated), w.records)
        else Reply(500, Failure(HashFailed), records)
      else Reply(400, Failure(PhoneTaken), records)
    else Reply(400, Failure(MissingRequiredFields), records)
  }

  /** The ten-character phone number of a query or payload field. */
  function PhoneOf(v: Option<Json>): Option<string>
  {
    TrimmedOfLength(v, 10)
  }

  /** The user record as `users.get` returns it: `delete record.hashedPassword`. */
  function WithoutPassword(v: Json): (r: Json)
    ensures r.JObj? ==> "hashedPassword" !in r.fields
    ensures v.JObj? ==> r.JObj? && r.fields.Keys == v.fields.Keys - {"hashedPassword"}
    ensures v.JObj? ==> forall k :: k in r.fields ==> r.fields[k] == v.fields[k]
    ensures !v.JObj? ==> r == v
  {
    if v.JObj? then JObj(v.fields - {"hashedPassword"}) else v
  }

  /** `_users.get` as written: after the read it tests `data`, the request,
      which is always truthy, instead of the record. A stored `null` then
      throws on `delete record.hashedPassword`, and a stored `false`, `0` or
      `""` is answered with 200. */
  function UsersGetAsWritten(req: Request, records: Records, faults: Faults, env: Env): (r: Handled)
    ensures r.records == records
    ensures r.response.None? <==>
              && PhoneOf(Query(req, "phone")).Some?
              && VerifyToken(TokenId(req), Some(JStr(PhoneOf(Query(req, "phone")).value)), records, faults, env.now)
              && Fetched(records, faults, (Users, PhoneOf(Query(req, "phone")).value)) == Some(JNull)
  {
    var phone := PhoneOf(Query(req, "phone"));
    if phone.Some? then
      if VerifyToken(TokenId(req), Some(JStr(phone.value)), records, faults, env.now) then
        var record := Fetched(records, faults, (Users, phone.value));
        if record.Some? then
          if record.value.JNull? then Handled(None, records)
          else Reply(200, Data(WithoutPassword(record.value)), records)
        else Reply(404, Failure(RecordNotFound), records)
      else Reply(403, Failure(MissingToken), records)
    else Reply(400, Failure(InvalidPhone), records)
  }

  /** `_users.get` as intended (testing the record): the user, without its
      password hash, to a token of that user; nothing changes. */
  function UsersGet(req: Request, records: Records, faults: Faults, env: Env): (r: Handled)
    ensures r.records == records && r.response.Some?
    ensures Status(r) in {200, 400, 403, 404}
    ensures Status(r) == 200 <==>
              && PhoneOf(Query(req, "phone")).Some?
              && VerifyToken(TokenId(req), Some(JStr(PhoneOf(Query(req, "phone")).value)), records, faults, env.now)
              && Found(Fetched(records, faults, (Users, PhoneOf(Query(req, "phone")).value)))
    ensures Status(r) == 200 ==>
              r.response.value.body == Data(WithoutPassword(records[(Users, PhoneOf(Query(req, "phone")).value)]))
    ensures Status(r) == 403 ==> PhoneOf(Query(req, "phone")).Some? && !VerifyToken(TokenId(req), Some(JStr(PhoneOf(Query(req, "phone")).value)), records, faults, env.now)
  {
    var phone := PhoneOf(Query(req, "phone"));
    if phone.Some? then
      if VerifyToken(TokenId(req), Some(JStr(phone.value)), records, faults, env.now) then
        var record := Fetched(records, faults, (Users, phone.value));
        if Found(record) then Reply(200, Data(WithoutPassword(record.value)), records)
        else Reply(404, Failure(RecordNotFound), records)
      else Reply(403, Failure(MissingToken), records)
    else Reply(400, Failure(InvalidPhone), records)
  }

  /** A stored user that is `false` gets 200 from the handler as written and
      404 from the intended one; a stored `null` gets no response at all. */
  lemma UsersGetTestsTheRequest(req: Request, records: Records, faults: Faults, env: Env)
    requires PhoneOf(Query(req, "phone")).Some?
    requires VerifyToken(TokenId(req), Some(JStr(PhoneOf(Query(req, "phone")).value)), records, faults, env.now)
    requires Fetched(records, faults, (Users, PhoneOf(Query(req, "phone")).value)) in {Some(JBool(false)), Some(JNull)}
    ensures Status(UsersGet(req, records, faults, env)) == 404
    ensures Fetched(records, faults, (Users, PhoneOf(Query(req, "phone")).value)) == Some(JBool(false)) ==>
              UsersGetAsWritten(req, records, faults, env) == Reply(200, Data(JBool(false)), records)
    ensures Fetched(records, faults, (Users, PhoneOf(Query(req, "phone")).value)) == Some(JNull) ==>
              UsersGetAsWritten(req, records, faults, env).response.None?
  {
  }

  /** The fields `users.put` may change. */
  datatype UserChanges = UserChanges(firstName: Option<string>, lastName: Option<string>, password: Option<string>)

  function UserChangesOf(req: Request): UserChanges
  {
    UserChanges(NonBlank(Payload(req, "firstName")), NonBlank(Payload(req, "lastName")), NonBlank(Payload(req, "password")))
  }

  predicate AnyUserChange(c: UserChanges)
  {
    c.firstName.Some? || c.lastName.Some? || c.password.Some?
  }

  /** The user record with the provided fields assigned; a new password is
      stored as its hash (or `false`). */
  function UserUpdated(record: Json, c: UserChanges, hash: Option<string> -> Option<string>): Json
  {
    var a := if c.firstName.Some? then Set(record, "firstName", JStr(c.firstName.value)) else record;
    var b := if c.lastName.Some? then Set(a, "lastName", JStr(c.lastName.value)) else a;
    if c.password.Some? then Set(b, "hashedPassword", OrFalse(hash(c.password))) else b
  }

  /** `users.put` assigns exactly the provided fields of a user object and
      keeps every other property. */
  lemma UserUpdatedFields(record: Json, c: UserChanges, hash: Option<string> -> Option<string>, k: string)
    requires record.JObj?
    ensures Get(UserUpdated(record, c, hash), k) ==
              if k == "hashedPassword" && c.password.Some? then Some(OrFalse(hash(c.password)))
              else if k == "lastName" && c.lastName.Some? then Some(JStr(c.lastName.value))
              else if k == "firstName" && c.firstName.Some? then Some(JStr(c.firstName.value))
              else Get(record, k)
  {
  }

  /** `_users.put`: a token of the user may change the names and the
      password of an existing user; nothing else changes. */
  function UsersPut(req: Request, records: Records, faults: Faults, env: Env): (r: Handled)
    ensures r.response.Some? && Status(r) in {200, 400, 403, 500}
    ensures PhoneOf(Payload(req, "phone")).None? ==> r == Reply(400, Failure(MissingField), records)
    ensures PhoneOf(Payload(req, "phone")).Some? && !AnyUserChange(UserChangesOf(req)) ==>
              r == Reply(400, Failure(NothingToUpdate), records)
    ensures Status(r) == 200 <==>
              && PhoneOf(Payload(req, "phone")).Some?
              && AnyUserChange(UserChangesOf(req))
              && VerifyToken(TokenId(req), Some(JStr(PhoneOf(Payload(req, "phone")).value)), records, faults, env.now)
              && Found(Fetched(records, faults, (Users, PhoneOf(Payload(req, "phone")).value)))
              && (Users, PhoneOf(Payload(req, "phone")).value) !in faults.unwritable
    ensures Status(r) == 200 ==>
              var key := (Users, PhoneOf(Payload(req, "phone")).value);
              r.records == records[key := UserUpdated(records[key], UserChangesOf(req), env.hash)]
    ensures Status(r) != 200 ==> r.records == records
  {
    var phone := PhoneOf(Payload(req, "phone"));
    var changes := UserChangesOf(req);
    if phone.Some? then
      if AnyUserChange(changes) then
        if VerifyToken(TokenId(req), Some(JStr(phone.value)), records, faults, env.now) then
          var key := (Users, phone.value);
          var record := Fetched(records, faults, key);
          if Found(record) then
            var w := Updated(records, faults, key, UserUpdated(record.value, changes, env.hash));
            if !w.err then Reply(200, Empty, w.records)
            else Reply(500, Failure(UserNotUpdated), w.records)
          else Reply(400, Failure(NoSuchUser), records)
        else Reply(403, Failure(MissingToken), records)
      else Reply(400, Failure(NothingToUpdate), records)
    else Reply(400, Failure(MissingField), records)
  }

  /** `_data.delete('checks', id)` for one entry of a user's `checks`; an
      entry that is not a string names no stored check and fails. */
  function DeleteCheck(records: Records, faults: Faults, id: Json): Written
  {
    if id.JStr? then Deleted(records, faults, (Checks, id.s)) else Written(true, records)
  }

  /** The deletes `users.delete` issues, one per listed check id, in list
      order: whether any of them failed, and the records afterwards. */
  function ChecksDeleted(records: Records, faults: Faults, ids: seq<Json>): Written
    decreases |ids|
  {
    if ids == [] then Written(false, records)
    else
      var prev := ChecksDeleted(records, faults, ids[..|ids| - 1]);
      var w := DeleteCheck(prev.records, faults, ids[|ids| - 1]);
      Written(prev.err || w.err, w.records)
  }

  /** The stored checks a list of ids names that can be deleted. */
  function DeletableChecks(records: Records, faults: Faults, ids: seq<Json>): set<Key>
  {
    set k | k in records.Keys && k.0 == Checks && JStr(k.1) in ids && k !in faults.unwritable
  }

  /** Every id is a string naming a stored, writable check, and no id is
      listed twice. */
  predicate AllDeletable(records: Records, faults: Faults, ids: seq<Json>)
  {
    && (forall i :: 0 <= i < |ids| ==> ids[i].JStr? && (Checks, ids[i].s) in records && (Checks, ids[i].s) !in faults.unwritable)
    && (forall i, j :: 0 <= i < j < |ids| ==> ids[i] != ids[j])
  }

  /** The deletes remove exactly the writable stored checks the list names,
      whatever fails. */
  lemma {:induction false} ChecksDeletedRecords(records: Records, faults: Faults, ids: seq<Json>)
    ensures ChecksDeleted(records, faults, ids).records == records - DeletableChecks(records, faults, ids)
    decreases |ids|
  {
    if ids == [] {
      assert DeletableChecks(records, faults, ids) == {};
    } else {
      var init := ids[..|ids| - 1];
      var x := ids[|ids| - 1];
      ChecksDeletedRecords(records, faults, init);
      DeletableStep(records, faults, init, x);
      assert ids == init + [x];
    }
  }

  lemma DeletableStep(records: Records, faults: Faults, init: seq<Json>, x: Json)
    ensures DeleteCheck(records - DeletableChecks(records, faults, init), faults, x).records
              == records - DeletableChecks(records, faults, init + [x])
  {
    var before := DeletableChecks(records, faults, init);
    var after := DeletableChecks(records, faults, init + [x]);
    assert forall v :: v in init + [x] <==> v in init || v == x;
    if x.JStr? && (Checks, x.s) in records && (Checks, x.s) !in faults.unwritable {
      assert after == before + {(Checks, x.s)};
    } else {
      assert after == before;
    }
  }

  /** No delete fails exactly when every listed id is a distinct string
      naming a stored, writable check. */
  lemma {:induction false} ChecksDeletedSucceeds(records: Records, faults: Faults, ids: seq<Json>)
    ensures !ChecksDeleted(records, faults, ids).err <==> AllDeletable(records, faults, ids)
    decreases |ids|
  {
    if ids != [] {
      var init := ids[..|ids| - 1];
      var x := ids[|ids| - 1];
      ChecksDeletedSucceeds(records, faults, init);
      ChecksDeletedRecords(records, faults, init);
      assert forall i :: 0 <= i < |init| ==> init[i] == ids[i];
      if AllDeletable(records, faults, init) && x.JStr? {
        var key := (Checks, x.s);
        assert key in DeletableChecks(records, faults, init) <==> x in init && key in records && key !in faults.unwritable;
        if x in init {
          var i :| 0 <= i < |init| && init[i] == x;
          assert ids[i] == ids[|ids| - 1];
        }
      }
    }
  }

  /** `_users.delete`: a token of the user deletes the user and then each
      check the user lists; 200 once every delete is back without an error. */
  function UserDeleted(req: Request, records: Records, faults: Faults, env: Env): (r: Handled)
    ensures r.response.Some? && Status(r) in {200, 400, 403, 500}
    ensures PhoneOf(Query(req, "phone")).None? ==> r == Reply(400, Failure(MissingField), records)
    ensures var phone := PhoneOf(Query(req, "phone"));
            phone.Some? && !VerifyToken(TokenId(req), Some(JStr(phone.value)), records, faults, env.now) ==>
              r == Reply(403, Failure(MissingToken), records)
    ensures var phone := PhoneOf(Query(req, "phone"));
            !(&& phone.Some?
              && VerifyToken(TokenId(req), Some(JStr(phone.value)), records, faults, env.now)
              && Found(Fetched(records, faults, (Users, phone.value)))
              && (Users, phone.value) !in faults.unwritable) ==>
              Status(r) != 200 && r.records == records
  {
    var phone := PhoneOf(Query(req, "phone"));
    if phone.Some? then
      if VerifyToken(TokenId(req), Some(JStr(phone.value)), records, faults, env.now) then
        var key := (Users, phone.value);
        var user := Fetched(records, faults, key);
        if Found(user) then
          var w := Deleted(records, faults, key);
          if !w.err then
            var ids := ArrayOrEmpty(Get(user.value, "checks"));
            if |ids| > 0 then
              var d := ChecksDeleted(w.records, faults, ids);
              if !d.err then Reply(200, Empty, d.records)
              else Reply(500, Failure(ChecksNotRemoved), d.records)
            else Reply(200, Empty, w.records)
          else Reply(500, Failure(UserNotDeleted), records)
        else Reply(400, Failure(UserNotFound), records)
      else Reply(403, Failure(MissingToken), records)
    else Reply(400, Failure(MissingField), records)
  }

  /** The checks a user lists. */
  function ChecksOf(user: Json): seq<Json>
  {
    ArrayOrEmpty(Get(user, "checks"))
  }

  /** Deleting a user succeeds exactly when the user verifies, can be
      deleted, and lists only distinct ids of stored, writable checks. It
      then removes the user and every check listed; when a check delete
      fails, the user and the other checks are gone even so. */
  lemma UserDeletedOutcome(req: Request, records: Records, faults: Faults, env: Env)
    requires PhoneOf(Query(req, "phone")).Some?
    requires VerifyToken(TokenId(req), Some(JStr(PhoneOf(Query(req, "phone")).value)), records, faults, env.now)
    requires Found(Fetched(records, faults, (Users, PhoneOf(Query(req, "phone")).value)))
    requires (Users, PhoneOf(Query(req, "phone")).value) !in faults.unwritable
    ensures var key := (Users, PhoneOf(Query(req, "phone")).value);
            var r := UserDeleted(req, records, faults, env);
            && (Status(r) == 200 <==> AllDeletable(records - {key}, faults, ChecksOf(records[key])))
            && r.records == records - {key} - DeletableChecks(records - {key}, faults, ChecksOf(records[key]))
  {
    var key := (Users, PhoneOf(Query(req, "phone")).value);
    var ids := ChecksOf(records[key]);
    ChecksDeletedRecords(records - {key}, faults, ids);
    ChecksDeletedSucceeds(records - {key}, faults, ids);
    if ids == [] {
      assert DeletableChecks(records - {key}, faults, ids) == {};
    }
  }

  /** `_tokens.verifyToken` against a store. */
  method VerifyTokenIn(db: Store, id: string, phone: Option<Json>, faults: Faults, now: nat) returns (valid: bool)
    ensures valid == VerifyToken(id, phone, db.records, faults, now)
  {
    var tokenData := db.Read((Tokens, id), faults);
    valid := Found(tokenData) && LooselyEqual(Get(tokenData.value, "phone"), phone) && ExpiresAfter(Get(tokenData.value, "expires"), now);
  }

  /** One `_data.delete('checks', checkId)` of the loop in `users.delete`. */
  method DeleteCheckIn(db: Store, id: Json, faults: Faults) returns (err: bool)
    modifies db
    ensures Written(err, db.records) == DeleteCheck(old(db.records), faults, id)
  {
    if id.JStr? {
      err := db.Delete((Checks, id.s), faults);
    } else {
      err := true;
    }
  }

  /** `_users.delete` over a store: the deletes of the user's checks are
      issued one after the other, each callback counting `checksDeleted`
      and answering once it reaches the number of checks. */
  method UsersDelete(db: Store, req: Request, faults: Faults, env: Env) returns (response: Option<Response>)
    modifies db
    ensures Handled(response, db.records) == UserDeleted(req, old(db.records), faults, env)
  {
    var phone := PhoneOf(Query(req, "phone"));
    if phone.None? {
      return Some(Response(400, Failure(MissingField)));
    }
    var validToken := VerifyTokenIn(db, TokenId(req), Some(JStr(phone.value)), faults, env.now);
    if !validToken {
      return Some(Response(403, Failure(MissingToken)));
    }
    var userData := db.Read((Users, phone.value), faults);
    if !Found(userData) {
      return Some(Response(400, Failure(UserNotFound)));
    }
    var err := db.Delete((Users, phone.value), faults);
    if err {
      return Some(Response(500, Failure(UserNotDeleted)));
    }
    var userChecks := ArrayOrEmpty(Get(userData.value, "checks"));
    var checksToDelete := |userChecks|;
    if checksToDelete == 0 {
      return Some(Response(200, Empty));
    }
    response := DeleteUserChecks(db, userChecks, faults);
  }

  /** The loop of `users.delete`: one delete per listed check, each callback
      counting `checksDeleted`; the one that brings it to the number of
      checks answers, 500 if any delete failed. */
  method DeleteUserChecks(db: Store, userChecks: seq<Json>, faults: Faults) returns (response: Option<Response>)
    requires |userChecks| > 0
    modifies db
    ensures var d := ChecksDeleted(old(db.records), faults, userChecks);
            && db.records == d.records
            && response == Some(if !d.err then Response(200, Empty) else Response(500, Failure(ChecksNotRemoved)))
  {
    ghost var start := db.records;
    var checksToDelete := |userChecks|;
    var checksDeleted := 0;
    var deletionErrors := false;
    response := None;
    var i := 0;
    while i < |userChecks|
      invariant 0 <= i <= |userChecks| && checksDeleted == i
      invariant Written(deletionErrors, db.records) == ChecksDeleted(start, faults, userChecks[..i])
      invariant i < |userChecks| ==> response.None?
      invariant i == |userChecks| ==>
                  response == Some(if !deletionErrors then Response(200, Empty) else Response(500, Failure(ChecksNotRemoved)))
    {
      var e := DeleteCheckIn(db, userChecks[i], faults);
      assert userChecks[..i + 1][..i] == userChecks[..i];
      if e {
        deletionErrors := true;
      }
      checksDeleted := checksDeleted + 1;
      i := i + 1;
      if checksDeleted == checksToDelete {
        if !deletionErrors {
          response := Some(Response(200, Empty));
        } else {
          response := Some(Response(500, Failure(ChecksNotRemoved)));
        }
      }
    }
    assert userChecks[..i] == userChecks;
  }

  // ---------------------------------------------------------------------
  // Tokens

  /** The twenty-character id of a query or payload field. */
  function IdOf(v: Option<Json>): Option<string>
  {
    TrimmedOfLength(v, 20)
  }

  /** The token `tokens.post` issues: one hour from now. */
  function TokenObject(phone: string, id: string, expires: nat): Json
  {
    JObj(map["phone" := JStr(phone), "id" := JStr(id), "expires" := JNum(expires as real)])
  }

  /** `helpers._hash(password) == record.hashedPassword`. */
  predicate PasswordMatches(user: Json, password: string, hash: Option<string> -> Option<string>)
  {
    LooselyEqual(Some(OrFalse(hash(Some(password)))), Get(user, "hashedPassword"))
  }

  /** `_tokens.post`: log in with phone and password; a new token for the
      user is stored under the fresh id and returned. */
  function TokensPost(req: Request, records: Records, faults: Faults, env: Env): (r: Handled)
    ensures r.response.Some? && Status(r) in {200, 400, 500}
    ensures Status(r) == 200 <==>
              && PhoneOf(Payload(req, "phone")).Some?
              && NonBlank(Payload(req, "password")).Some?
              && Found(Fetched(records, faults, (Users, PhoneOf(Payload(req, "phone")).value)))
              && PasswordMatches(records[(Users, PhoneOf(Payload(req, "phone")).value)], NonBlank(Payload(req, "password")).value, env.hash)
              && (Tokens, env.newId) !in records && (Tokens, env.newId) !in faults.unwritable
    ensures Status(r) == 200 ==>
              var token := TokenObject(PhoneOf(Payload(req, "phone")).value, env.newId, env.now + HourMs);
              r.response.value.body == Data(token) && r.records == records[(Tokens, env.newId) := token]
    ensures Status(r) != 200 ==> r.records == records
  {
    var phone := PhoneOf(Payload(req, "phone"));
    var password := NonBlank(Payload(req, "password"));
    if phone.Some? && password.Some? then
      var record := Fetched(records, faults, (Users, phone.value));
      if Found(record) then
        if PasswordMatches(record.value, password.value, env.hash) then
          var tokenObject := TokenObject(phone.value, env.newId, env.now + HourMs);
          var w := Created(records, faults, (Tokens, env.newId), tokenObject);
          if !w.err then Reply(200, Data(tokenObject), w.records)
          else Reply(500, Failure(TokenNotCreated), w.records)
        else Reply(400, Failure(WrongPassword), records)
      else Reply(400, Failure(LoginUserNotFound), records)
    else Reply(400, Failure(MissingRequiredFields), records)
  }

  /** `_tokens.get`: the stored token; nothing changes. */
  function TokensGet(req: Request, records: Records, faults: Faults, env: Env): (r: Handled)
    ensures r.records == records && r.response.Some? && Status(r) in {200, 400, 404}
    ensures Status(r) == 200 <==> IdOf(Query(req, "id")).Some? && Found(Fetched(records, faults, (Tokens, IdOf(Query(req, "id")).value)))
    ensures Status(r) == 200 ==> r.response.value.body == Data(records[(Tokens, IdOf(Query(req, "id")).value)])
    ensures IdOf(Query(req, "id")).None? ==> Status(r) == 400
  {
    var id := IdOf(Query(req, "id"));
    if id.Some? then
      var record := Fetched(records, faults, (Tokens, id.value));
      if Found(record) then Reply(200, Data(record.value), records)
      else Reply(404, Failure(RecordNotFound), records)
    else Reply(400, Failure(InvalidId), records)
  }

  /** `_tokens.put`: with `extend: true`, push a token that has not expired
      to one hour from now. */
  function TokensPut(req: Request, records: Records, faults: Faults, env: Env): (r: Handled)
    ensures r.response.Some? && Status(r) in {200, 400, 500}
    ensures Status(r) == 200 <==>
              && IdOf(Payload(req, "id")).Some? && IsTrue(Payload(req, "extend"))
              && Found(Fetched(records, faults, (Tokens, IdOf(Payload(req, "id")).value)))
              && ExpiresAfter(Get(records[(Tokens, IdOf(Payload(req, "id")).value)], "expires"), env.now)
              && (Tokens, IdOf(Payload(req, "id")).value) !in faults.unwritable
    ensures Status(r) == 200 ==>
              var key := (Tokens, IdOf(Payload(req, "id")).value);
              r.records == records[key := Set(records[key], "expires", JNum((env.now + HourMs) as real))]
    ensures IdOf(Payload(req, "id")).Some? && IsTrue(Payload(req, "extend"))
            && Found(Fetched(records, faults, (Tokens, IdOf(Payload(req, "id")).value)))
            && !ExpiresAfter(Get(records[(Tokens, IdOf(Payload(req, "id")).value)], "expires"), env.now) ==>
              r == Reply(400, Failure(TokenExpired), records)
    ensures Status(r) != 200 ==> r.records == records
  {
    var id := IdOf(Payload(req, "id"));
    var extend := IsTrue(Payload(req, "extend"));
    if id.Some? && extend then
      var record := Fetched(records, faults, (Tokens, id.value));
      if Found(record) then
        if ExpiresAfter(Get(record.value, "expires"), env.now) then
          var w := Updated(records, faults, (Tokens, id.value), Set(record.value, "expires", JNum((env.now + HourMs) as real)));
          if !w.err then Reply(200, Empty, w.records)
          else Reply(500, Failure(ExpiryNotUpdated), w.records)
        else Reply(400, Failure(TokenExpired), records)
      else Reply(400, Failure(TokenNotFound), records)
    else Reply(400, Failure(MissingTokenField), records)
  }

  /** `_tokens.delete`: log out by deleting the stored token. */
  function TokensDelete(req: Request, records: Records, faults: Faults, env: Env): (r: Handled)
    ensures r.response.Some? && Status(r) in {200, 400, 500}
    ensures Status(r) == 200 <==>
              && IdOf(Query(req, "id")).Some?
              && Found(Fetched(records, faults, (Tokens, IdOf(Query(req, "id")).value)))
              && (Tokens, IdOf(Query(req, "id")).value) !in faults.unwritable
    ensures Status(r) == 200 ==> r.records == records - {(Tokens, IdOf(Query(req, "id")).value)}
    ensures Status(r) != 200 ==> r.records == records
  {
    var id := IdOf(Query(req, "id"));
    if id.Some? then
      if Found(Fetched(records, faults, (Tokens, id.value))) then
        var w := Deleted(records, faults, (Tokens, id.value));
        if !w.err then Reply(200, Empty, w.records)
        else Reply(500, Failure(TokenNotDeleted), w.records)
      else Reply(400, Failure(TokenNotFound), records)
    else Reply(400, Failure(MissingTokenField), records)
  }

  /** A token issued at `now` verifies for its user exactly until an hour
      has passed. */
  lemma IssuedTokenLastsAnHour(req: Request, records: Records, faults: Faults, env: Env, later: Faults, t: nat)
    requires Status(TokensPost(req, records, faults, env)) == 200
    requires (Tokens, env.newId) !in later.unreadable
    ensures var after := TokensPost(req, records, faults, env).records;
            VerifyToken(env.newId, Some(JStr(PhoneOf(Payload(req, "phone")).value)), after, later, t) <==> t < env.now + HourMs
  {
  }

  /** An extended token stays valid exactly until an hour from the extension
      and keeps its other properties. */
  lemma ExtendedTokenLastsAnHour(req: Request, records: Records, faults: Faults, env: Env, t: nat)
    requires Status(TokensPut(req, records, faults, env)) == 200
    ensures var key := (Tokens, IdOf(Payload(req, "id")).value);
            var after := TokensPut(req, records, faults, env).records[key];
            && (ExpiresAfter(Get(after, "expires"), t) <==> t < env.now + HourMs)
            && (forall k :: k != "expires" ==> Get(after, k) == Get(records[key], k))
  {
  }

  /** A user who has just signed up can log in with the same password. */
  lemma SignUpThenLogIn(signUp: Request, logIn: Request, records: Records, faults: Faults, env: Env, env': Env)
    requires Status(UsersPost(signUp, records, faults, env)) == 200
    requires Payload(logIn, "phone") == Payload(signUp, "phone")
    requires Payload(logIn, "password") == Payload(signUp, "password") && NonBlank(Payload(signUp, "password")).Some?
    requires env'.hash == env.hash
    requires var key := (Users, PhoneOf(Payload(signUp, "phone")).value); key !in faults.unreadable
    requires (Tokens, env'.newId) !in records && (Tokens, env'.newId) !in faults.unwritable
    ensures Status(TokensPost(logIn, UsersPost(signUp, records, faults, env).records, faults, env')) == 200
  {
    var key := (Users, PhoneOf(Payload(signUp, "phone")).value);
    var after := UsersPost(signUp, records, faults, env).records;
    assert after[key] == SignUpRecord(signUp, env);
    assert Fetched(after, faults, key) == Some(after[key]);
    assert Get(after[key], "hashedPassword") == Some(JStr(SignUpHash(signUp, env).value));
    assert env.hash(Some(NonBlank(Payload(logIn, "password")).value)) == SignUpHash(signUp, env);
    assert PasswordMatches(after[key], NonBlank(Payload(logIn, "password")).value, env'.hash);
  }

  // ---------------------------------------------------------------------
  // Checks

  const Protocols: seq<string> := ["https", "http"]
  const CheckMethods: seq<string> := ["get", "put", "delete"]

  /** The five check fields of a payload, each `None` when absent or invalid. */
  datatype CheckFields = CheckFields(
    protocol: Option<string>,
    url: Option<string>,
    httpMethod: Option<string>,
    successCodes: Option<seq<Json>>,
    timeoutSeconds: Option<int>)

  function CheckFieldsOf(req: Request): CheckFields
  {
    CheckFields(
      OneOf(Payload(req, "protocol"), Protocols),
      NonBlank(Payload(req, "url")),
      OneOf(Payload(req, "method"), CheckMethods),
      NonEmptyArray(Payload(req, "successCodes")),
      TimeoutSeconds(Payload(req, "timeoutSeconds")))
  }

  predicate AllCheckFields(c: CheckFields)
  {
    c.protocol.Some? && c.url.Some? && c.httpMethod.Some? && c.successCodes.Some? && c.timeoutSeconds.Some?
  }

  predicate AnyCheckField(c: CheckFields)
  {
    c.protocol.Some? || c.url.Some? || c.httpMethod.Some? || c.successCodes.Some? || c.timeoutSeconds.Some?
  }

  /** The key of the user a `phone` or `userPhone` property names; a value
      that is not a string names no stored user. */
  function OwnerKey(phone: Option<Json>): Option<Key>
  {
    if phone.Some? && phone.value.JStr? then Some((Users, phone.value.s)) else None
  }

  /** The record under an owner key, as `_data.read` gives it. */
  function FetchedOwner(records: Records, faults: Faults, owner: Option<Key>): Option<Json>
  {
    if owner.Some? then Fetched(records, faults, owner.value) else None
  }

  /** The check object `checks.post` stores. */
  function CheckObject(id: string, userPhone: Option<Json>, c: CheckFields): Json
    requires AllCheckFields(c)
  {
    JObj(map[
      "id" := JStr(id),
      "userPhone" := OrUndefined(userPhone),
      "protocol" := JStr(c.protocol.value),
      "url" := JStr(c.url.value),
      "method" := JStr(c.httpMethod.value),
      "successCodes" := JArr(c.successCodes.value),
      "timeoutSeconds" := JNum(c.timeoutSeconds.value as real)])
  }

  /** A property value; an `undefined` one is written as `null` here (only
      a string `userPhone` ever reaches a stored check). */
  function OrUndefined(v: Option<Json>): Json
  {
    if v.Some? then v.value else JNull
  }

  /** The user after `checks.post` appends the new check id. An array or a
      primitive keeps no property. */
  function WithCheck(user: Json, id: string): Json
  {
    Set(user, "checks", JArr(ChecksOf(user) + [JStr(id)]))
  }

  /** The tail of `checks.post`: create the check, then append its id to
      the owner's list. */
  function StoreCheck(records: Records, faults: Faults, id: string, check: Json, ownerPhone: string, user: Json): (r: Handled)
    ensures Status(r) in {0, 200, 500}
    ensures Status(r) == 200 <==>
              && (Checks, id) !in records && (Checks, id) !in faults.unwritable
              && (user.JObj? || user.JArr?)
              && (Users, ownerPhone) in records && (Users, ownerPhone) !in faults.unwritable
    ensures Status(r) == 200 ==>
              && r.response.value.body == Data(check)
              && r.records == records[(Checks, id) := check][(Users, ownerPhone) := WithCheck(user, id)]
    ensures Status(r) != 200 ==> r.records == records || r.records == records[(Checks, id) := check]
  {
    var owner := (Users, ownerPhone);
    var w := Created(records, faults, (Checks, id), check);
    if !w.err then
      if user.JObj? || user.JArr? then
        var u := Updated(w.records, faults, owner, WithCheck(user, id));
        if !u.err then Reply(200, Data(check), u.records)
        else Reply(500, Failure(UserNotLinked), u.records)
      else Handled(None, w.records)
    else Reply(500, Failure(CheckNotCreated), w.records)
  }

  /** `_checks.post`: a token's user adds a check, up to `maxChecks`; the
      check is stored under the fresh id and appended to the user's list.
      When the user cannot be updated, the check stays stored. A truthy
      primitive user makes `userRecord.checks.push` throw after the check has
      been created. */
  function ChecksPost(req: Request, records: Records, faults: Faults, env: Env): (r: Handled)
    ensures Status(r) in {0, 200, 400, 403, 500}
    ensures !AllCheckFields(CheckFieldsOf(req)) ==>
              r == Reply(400, Failure(InvalidCheckInputs), records)
    ensures Status(r) == 200 <==>
              var token := Fetched(records, faults, (Tokens, TokenId(req)));
              var owner := if token.Some? then OwnerKey(Get(token.value, "phone")) else None;
              var user := FetchedOwner(records, faults, owner);
              && AllCheckFields(CheckFieldsOf(req))
              && Found(token) && Found(user)
              && |ChecksOf(user.value)| < env.config.maxChecks
              && (Checks, env.newId) !in records && (Checks, env.newId) !in faults.unwritable
              && (user.value.JObj? || user.value.JArr?)
              && owner.value !in faults.unwritable
    ensures Status(r) == 200 ==>
              var token := records[(Tokens, TokenId(req))];
              var owner := OwnerKey(Get(token, "phone")).value;
              var check := CheckObject(env.newId, Get(token, "phone"), CheckFieldsOf(req));
              && r.response.value.body == Data(check)
              && r.records == records[(Checks, env.newId) := check][owner := WithCheck(records[owner], env.newId)]
    ensures var token := Fetched(records, faults, (Tokens, TokenId(req)));
            var owner := if token.Some? then OwnerKey(Get(token.value, "phone")) else None;
            var user := FetchedOwner(records, faults, owner);
            AllCheckFields(CheckFieldsOf(req)) && Found(token) && Found(user)
            && |ChecksOf(user.value)| >= env.config.maxChecks ==>
              r == Reply(400, Failure(TooManyChecks), records)
    ensures Status(r) in {400, 403} ==> r.records == records
  {
    var c := CheckFieldsOf(req);
    if AllCheckFields(c) then
      var tokenRecord := Fetched(records, faults, (Tokens, TokenId(req)));
      if Found(tokenRecord) then
        var userPhone := Get(tokenRecord.value, "phone");
        var owner := OwnerKey(userPhone);
        var userRecord := FetchedOwner(records, faults, owner);
        if Found(userRecord) then
          var userChecks := ChecksOf(userRecord.value);
          if |userChecks| < env.config.maxChecks then
            StoreCheck(records, faults, env.newId, CheckObject(env.newId, userPhone, c), owner.value.1, userRecord.value)
          else Reply(400, Failure(TooManyChecks), records)
        else Reply(403, Empty, records)
      else Reply(403, Failure(InvalidToken), records)
    else Reply(400, Failure(InvalidCheckInputs), records)
  }

  /** `_checks.get`: the check, to a token of its owner. The read's result is
      not tested for truthiness, so a stored `null` throws. */
  function ChecksGet(req: Request, records: Records, faults: Faults, env: Env): (r: Handled)
    ensures r.records == records
    ensures Status(r) in {0, 200, 403, 404}
    ensures IdOf(Query(req, "id")).None? ==> r == Reply(404, Empty, records)
    ensures Status(r) == 200 <==>
              && IdOf(Query(req, "id")).Some?
              && var check := Fetched(records, faults, (Checks, IdOf(Query(req, "id")).value));
                 && check.Some? && !check.value.JNull?
                 && VerifyToken(TokenId(req), Get(check.value, "userPhone"), records, faults, env.now)
    ensures Status(r) == 200 ==> r.response.value.body == Data(records[(Checks, IdOf(Query(req, "id")).value)])
  {
    var id := IdOf(Query(req, "id"));
    if id.Some? then
      var checkData := Fetched(records, faults, (Checks, id.value));
      if checkData.Some? then
        if checkData.value.JNull? then Handled(None, records)
        else if VerifyToken(TokenId(req), Get(checkData.value, "userPhone"), records, faults, env.now) then
          Reply(200, Data(checkData.value), records)
        else Reply(403, Empty, records)
      else Reply(404, Empty, records)
    else Reply(404, Empty, records)
  }

  /** The check with the provided fields assigned. */
  function CheckUpdated(check: Json, c: CheckFields): Json
  {
    var a := if c.protocol.Some? then Set(check, "protocol", JStr(c.protocol.value)) else check;
    var b := if c.url.Some? then Set(a, "url", JStr(c.url.value)) else a;
    var d := if c.httpMethod.Some? then Set(b, "method", JStr(c.httpMethod.value)) else b;
    var e := if c.successCodes.Some? then Set(d, "successCodes", JArr(c.successCodes.value)) else d;
    if c.timeoutSeconds.Some? then Set(e, "timeoutSeconds", JNum(c.timeoutSeconds.value as real)) else e
  }

  /** `checks.put` assigns exactly the provided fields of a check object and
      keeps every other property, its owner among them. */
  lemma CheckUpdatedFields(check: Json, c: CheckFields, k: string)
    requires check.JObj?
    ensures Get(CheckUpdated(check, c), k) ==
              if k == "timeoutSeconds" && c.timeoutSeconds.Some? then Some(JNum(c.timeoutSeconds.value as real))
              else if k == "successCodes" && c.successCodes.Some? then Some(JArr(c.successCodes.value))
              else if k == "method" && c.httpMethod.Some? then Some(JStr(c.httpMethod.value))
              else if k == "url" && c.url.Some? then Some(JStr(c.url.value))
              else if k == "protocol" && c.protocol.Some? then Some(JStr(c.protocol.value))
              else Get(check, k)
  {
  }

  /** `_checks.put`: a token of the owner changes the provided fields of a
      check; nothing else changes. */
  function ChecksPut(req: Request, records: Records, faults: Faults, env: Env): (r: Handled)
    ensures r.response.Some? && Status(r) in {200, 400, 403, 500}
    ensures IdOf(Payload(req, "id")).None? ==> r == Reply(400, Failure(MissingRequiredFields), records)
    ensures IdOf(Payload(req, "id")).Some? && !AnyCheckField(CheckFieldsOf(req)) ==>
              r == Reply(400, Failure(NothingToUpdate), records)
    ensures Status(r) == 200 <==>
              && IdOf(Payload(req, "id")).Some?
              && AnyCheckField(CheckFieldsOf(req))
              && var key := (Checks, IdOf(Payload(req, "id")).value);
                 && Found(Fetched(records, faults, key))
                 && VerifyToken(TokenId(req), Get(records[key], "userPhone"), records, faults, env.now)
                 && key !in faults.unwritable
    ensures Status(r) == 200 ==>
              var key := (Checks, IdOf(Payload(req, "id")).value);
              r.records == records[key := CheckUpdated(records[key], CheckFieldsOf(req))]
    ensures Status(r) != 200 ==> r.records == records
  {
    var id := IdOf(Payload(req, "id"));
    var c := CheckFieldsOf(req);
    if id.Some? then
      if AnyCheckField(c) then
        var key := (Checks, id.value);
        var checkData := Fetched(records, faults, key);
        if Found(checkData) then
          if VerifyToken(TokenId(req), Get(checkData.value, "userPhone"), records, faults, env.now) then
            var w := Updated(records, faults, key, CheckUpdated(checkData.value, c));
            if !w.err then Reply(200, Empty, w.records)
            else Reply(500, Failure(CheckNotUpdated), w.records)
          else Reply(403, Empty, records)
        else Reply(400, Failure(NoSuchCheck), records)
      else Reply(400, Failure(NothingToUpdate), records)
    else Reply(400, Failure(MissingRequiredFields), records)
  }

  /** `xs.splice(p, 1)`. */
  function RemoveAt<T>(xs: seq<T>, p: nat): (r: seq<T>)
    requires p < |xs|
    ensures |r| == |xs| - 1
  {
    xs[..p] + xs[p + 1..]
  }

  /** Removing the first occurrence found by `indexOf` removes one copy of
      `x` and keeps the order of the rest. */
  lemma RemoveFirstOccurrence<T>(xs: seq<T>, x: T)
    requires IndexOfElem(xs, x) >= 0
    ensures var p := IndexOfElem(xs, x);
            && multiset(RemoveAt(xs, p)) == multiset(xs) - multiset{x}
            && RemoveAt(xs, p)[..p] == xs[..p] && x !in xs[..p]
            && RemoveAt(xs, p)[p..] == xs[p + 1..]
  {
    RemoveAtMultiset(xs, IndexOfElem(xs, x));
  }

  lemma RemoveAtMultiset<T>(xs: seq<T>, p: nat)
    requires p < |xs|
    ensures multiset(RemoveAt(xs, p)) == multiset(xs) - multiset{xs[p]}
  {
    assert xs == xs[..p] + ([xs[p]] + xs[p + 1..]);
  }

  /** The user after `checks.delete` takes the check id out of its list. */
  function WithoutCheck(user: Json, id: string): Json
    requires IndexOfElem(ChecksOf(user), JStr(id)) >= 0
  {
    Set(user, "checks", JArr(RemoveAt(ChecksOf(user), IndexOfElem(ChecksOf(user), JStr(id)))))
  }

  /** `_checks.delete`: a token of the owner deletes the check and takes its
      id out of the owner's list. A `null` owner record throws. */
  function ChecksDelete(req: Request, records: Records, faults: Faults, env: Env): (r: Handled)
    ensures Status(r) in {0, 200, 400, 403, 500}
    ensures IdOf(Query(req, "id")).None? ==> r == Reply(400, Failure(MissingValidId), records)
    ensures Status(r) == 200 ==>
              && IdOf(Query(req, "id")).Some?
              && Found(Fetched(records, faults, (Checks, IdOf(Query(req, "id")).value)))
              && VerifyToken(TokenId(req), Get(records[(Checks, IdOf(Query(req, "id")).value)], "userPhone"), records, faults, env.now)
              && (Checks, IdOf(Query(req, "id")).value) !in faults.unwritable
    ensures Status(r) in {400, 403} ==> r.records == records
    ensures IdOf(Query(req, "id")).Some? ==>
              var key := (Checks, IdOf(Query(req, "id")).value);
              Found(Fetched(records, faults, key)) &&
              VerifyToken(TokenId(req), Get(records[key], "userPhone"), records, faults, env.now) &&
              key in faults.unwritable ==>
                r == Reply(500, Failure(CheckNotDeleted), records)
  {
    var id := IdOf(Query(req, "id"));
    if id.Some? then
      var key := (Checks, id.value);
      var checkData := Fetched(records, faults, key);
      if Found(checkData) then
        if VerifyToken(TokenId(req), Get(checkData.value, "userPhone"), records, faults, env.now) then
          var w := Deleted(records, faults, key);
          if !w.err then
            var owner := OwnerKey(Get(checkData.value, "userPhone"));
            var userData := FetchedOwner(w.records, faults, owner);
            if userData.Some? then
              if userData.value.JNull? then Handled(None, w.records)
              else
                var userChecks := ChecksOf(userData.value);
                var checkPosition := IndexOfElem(userChecks, JStr(id.value));
                if checkPosition > -1 then
                  var u := Updated(w.records, faults, owner.value, WithoutCheck(userData.value, id.value));
                  if !u.err then Reply(200, Empty, u.records)
                  else Reply(500, Failure(OwnerNotUpdated), u.records)
                else Reply(500, Failure(CheckNotListed), w.records)
            else Reply(500, Failure(OwnerNotFound), w.records)
          else Reply(500, Failure(CheckNotDeleted), w.records)
        else Reply(403, Empty, records)
      else Reply(400, Failure(CheckNotFound), records)
    else Reply(400, Failure(MissingValidId), records)
  }

  /** When the token verifies and the check can be deleted, `checks.delete`
      succeeds exactly when the owner can be read, lists the id and can be
      written; otherwise the check is gone but its id stays on the owner. */
  lemma ChecksDeleteOutcome(req: Request, records: Records, faults: Faults, env: Env)
    requires IdOf(Query(req, "id")).Some?
    requires var key := (Checks, IdOf(Query(req, "id")).value);
             && Found(Fetched(records, faults, key))
             && VerifyToken(TokenId(req), Get(records[key], "userPhone"), records, faults, env.now)
             && key !in faults.unwritable
    ensures var key := (Checks, IdOf(Query(req, "id")).value);
            var owner := OwnerKey(Get(records[key], "userPhone"));
            var user := FetchedOwner(records - {key}, faults, owner);
            var r := ChecksDelete(req, records, faults, env);
            && (Status(r) == 200 <==>
                  user.Some? && !user.value.JNull? && JStr(key.1) in ChecksOf(user.value) && owner.value !in faults.unwritable)
            && (r.response.None? <==> user == Some(JNull))
            && (Status(r) == 200 ==> r.records == (records - {key})[owner.value := WithoutCheck(records[owner.value], key.1)])
            && (Status(r) != 200 ==> r.records == records - {key})
  {
  }

  /** Appending the new check id: the user's list grows by exactly that id
      and every other property is kept. */
  lemma WithCheckAppends(user: Json, id: string)
    requires user.JObj?
    ensures ChecksOf(WithCheck(user, id)) == ChecksOf(user) + [JStr(id)]
    ensures forall k :: k != "checks" ==> Get(WithCheck(user, id), k) == Get(user, k)
  {
  }

  /** Taking a check id out of a user's list removes one copy of the id,
      keeps the order of the others and every other property. */
  lemma WithoutCheckRemovesOne(user: Json, id: string)
    requires JStr(id) in ChecksOf(user)
    ensures user.JObj?
    ensures var p := IndexOfElem(ChecksOf(user), JStr(id));
            && multiset(ChecksOf(WithoutCheck(user, id))) == multiset(ChecksOf(user)) - multiset{JStr(id)}
            && ChecksOf(WithoutCheck(user, id)) == ChecksOf(user)[..p] + ChecksOf(user)[p + 1..]
            && JStr(id) !in ChecksOf(user)[..p]
    ensures forall k :: k != "checks" ==> Get(WithoutCheck(user, id), k) == Get(user, k)
  {
    var xs := ChecksOf(user);
    var p := IndexOfElem(xs, JStr(id));
    assert ChecksOf(WithoutCheck(user, id)) == RemoveAt(xs, p);
    RemoveAtMultiset(xs, p);
  }

  /** The check methods exclude `post`, which the worker could not send. */
  lemma PostIsNoCheckMethod(req: Request, records: Records, faults: Faults, env: Env)
    requires Payload(req, "method") == Some(JStr("post"))
    ensures CheckFieldsOf(req).httpMethod.None?
    ensures ChecksPost(req, records, faults, env) == Reply(400, Failure(InvalidCheckInputs), records)
  {
    assert "post" != "get" && "post" != "put" && "post" != "delete";
  }

  // ---------------------------------------------------------------------
  // The cap on checks per user

  /** No stored user lists more than `cap` checks. */
  ghost predicate WithinCap(records: Records, cap: nat)
  {
    forall k :: k in records && k.0 == Users ==> |ChecksOf(records[k])| <= cap
  }

  /** A change that adds no user and lengthens no user's list keeps the cap. */
  lemma CapKept(before: Records, after: Records, cap: nat)
    requires WithinCap(before, cap)
    requires forall k :: k in after && k.0 == Users ==> k in before && |ChecksOf(after[k])| <= |ChecksOf(before[k])|
    ensures WithinCap(after, cap)
  {
  }

  /** Writing one record that is not a user, or removing records, keeps the
      cap. */
  lemma CapKeptByOthers(records: Records, key: Key, v: Json, cap: nat)
    requires WithinCap(records, cap) && key.0 != Users
    ensures WithinCap(records[key := v], cap)
  {
    CapKept(records, records[key := v], cap);
  }

  lemma CapKeptByRemoval(records: Records, gone: set<Key>, cap: nat)
    requires WithinCap(records, cap)
    ensures WithinCap(records - gone, cap)
  {
    CapKept(records, records - gone, cap);
  }

  /** `checks.post` refuses a user at the cap, so it never takes a user
      past it. */
  lemma ChecksPostKeepsCap(req: Request, records: Records, faults: Faults, env: Env)
    requires WithinCap(records, env.config.maxChecks)
    ensures WithinCap(ChecksPost(req, records, faults, env).records, env.config.maxChecks)
  {
    var cap := env.config.maxChecks;
    var c := CheckFieldsOf(req);
    var token := Fetched(records, faults, (Tokens, TokenId(req)));
    var owner := if token.Some? then OwnerKey(Get(token.value, "phone")) else None;
    var user := FetchedOwner(records, faults, owner);
    if AllCheckFields(c) && Found(token) && Found(user) && |ChecksOf(user.value)| < cap {
      var check := CheckObject(env.newId, Get(token.value, "phone"), c);
      var stored := StoreCheck(records, faults, env.newId, check, owner.value.1, user.value);
      assert ChecksPost(req, records, faults, env) == stored;
      CapKeptByOthers(records, (Checks, env.newId), check, cap);
      if Status(stored) == 200 {
        var after := stored.records;
        if user.value.JObj? {
          WithCheckAppends(user.value, env.newId);
        }
        forall k | k in after && k.0 == Users
          ensures |ChecksOf(after[k])| <= cap
        {
          if k != owner.value { assert after[k] == records[k]; }
        }
      }
    } else {
      assert ChecksPost(req, records, faults, env).records == records;
    }
  }

  /** `checks.delete` only ever shortens the owner's list. */
  lemma ChecksDeleteKeepsCap(req: Request, records: Records, faults: Faults, env: Env)
    requires WithinCap(records, env.config.maxChecks)
    ensures WithinCap(ChecksDelete(req, records, faults, env).records, env.config.maxChecks)
  {
    var cap := env.config.maxChecks;
    var r := ChecksDelete(req, records, faults, env);
    var id := IdOf(Query(req, "id"));
    if id.Some? {
      var key := (Checks, id.value);
      if Found(Fetched(records, faults, key))
         && VerifyToken(TokenId(req), Get(records[key], "userPhone"), records, faults, env.now)
         && key !in faults.unwritable {
        ChecksDeleteOutcome(req, records, faults, env);
        CapKeptByRemoval(records, {key}, cap);
        if Status(r) == 200 {
          var owner := OwnerKey(Get(records[key], "userPhone")).value;
          var rest := records - {key};
          WithoutCheckRemovesOne(rest[owner], key.1);
          CapKept(rest, rest[owner := WithoutCheck(rest[owner], key.1)], cap);
        }
      }
    }
  }

  /** Changing a user's names or password leaves the user's checks alone. */
  lemma UsersPutKeepsCap(req: Request, records: Records, faults: Faults, env: Env)
    requires WithinCap(records, env.config.maxChecks)
    ensures WithinCap(UsersPut(req, records, faults, env).records, env.config.maxChecks)
  {
    var r := UsersPut(req, records, faults, env);
    if Status(r) == 200 {
      var key := (Users, PhoneOf(Payload(req, "phone")).value);
      var updated := UserUpdated(records[key], UserChangesOf(req), env.hash);
      if records[key].JObj? {
        UserUpdatedFields(records[key], UserChangesOf(req), env.hash, "checks");
      }
      assert ChecksOf(updated) == ChecksOf(records[key]);
      CapKept(records, records[key := updated], env.config.maxChecks);
    }
  }

  /** Every request, to any of the three services, keeps every user within
      the cap on checks. */
  lemma DispatchKeepsCap(service: Service, req: Request, records: Records, faults: Faults, env: Env)
    requires WithinCap(records, env.config.maxChecks)
    ensures WithinCap(Dispatch(service, req, records, faults, env).records, env.config.maxChecks)
  {
    if req.httpMethod in AcceptableMethods {
      match service
      case UsersService => UsersKeepCap(req, records, faults, env);
      case TokensService => TokensKeepCap(req, records, faults, env);
      case ChecksService => ChecksKeepCap(req, records, faults, env);
    }
  }

  lemma UsersKeepCap(req: Request, records: Records, faults: Faults, env: Env)
    requires req.httpMethod in AcceptableMethods
    requires WithinCap(records, env.config.maxChecks)
    ensures WithinCap(UsersHandler(req, records, faults, env).records, env.config.maxChecks)
  {
    if req.httpMethod == "post" {
      UsersPostKeepsCap(req, records, faults, env);
    } else if req.httpMethod == "put" {
      UsersPutKeepsCap(req, records, faults, env);
    } else if req.httpMethod == "delete" {
      UserDeletedKeepsCap(req, records, faults, env);
    }
  }

  lemma TokensKeepCap(req: Request, records: Records, faults: Faults, env: Env)
    requires req.httpMethod in AcceptableMethods
    requires WithinCap(records, env.config.maxChecks)
    ensures WithinCap(TokensHandler(req, records, faults, env).records, env.config.maxChecks)
  {
    var cap := env.config.maxChecks;
    if req.httpMethod == "post" {
      if Status(TokensPost(req, records, faults, env)) == 200 {
        CapKeptByOthers(records, (Tokens, env.newId), TokenObject(PhoneOf(Payload(req, "phone")).value, env.newId, env.now + HourMs), cap);
      }
    } else if req.httpMethod == "put" {
      if Status(TokensPut(req, records, faults, env)) == 200 {
        var key := (Tokens, IdOf(Payload(req, "id")).value);
        CapKeptByOthers(records, key, Set(records[key], "expires", JNum((env.now + HourMs) as real)), cap);
      }
    } else if req.httpMethod == "delete" {
      if Status(TokensDelete(req, records, faults, env)) == 200 {
        CapKeptByRemoval(records, {(Tokens, IdOf(Query(req, "id")).value)}, cap);
      }
    }
  }

  lemma ChecksKeepCap(req: Request, records: Records, faults: Faults, env: Env)
    requires req.httpMethod in AcceptableMethods
    requires WithinCap(records, env.config.maxChecks)
    ensures WithinCap(ChecksHandler(req, records, faults, env).records, env.config.maxChecks)
  {
    if req.httpMethod == "post" {
      ChecksPostKeepsCap(req, records, faults, env);
    } else if req.httpMethod == "put" {
      ChecksPutKeepsCap(req, records, faults, env);
    } else if req.httpMethod == "delete" {
      ChecksDeleteKeepsCap(req, records, faults, env);
    }
  }

  /** Changing a check touches no user. */
  lemma ChecksPutKeepsCap(req: Request, records: Records, faults: Faults, env: Env)
    requires WithinCap(records, env.config.maxChecks)
    ensures WithinCap(ChecksPut(req, records, faults, env).records, env.config.maxChecks)
  {
    if Status(ChecksPut(req, records, faults, env)) == 200 {
      var key := (Checks, IdOf(Payload(req, "id")).value);
      CapKeptByOthers(records, key, CheckUpdated(records[key], CheckFieldsOf(req)), env.config.maxChecks);
    }
  }

  /** A new user lists no checks. */
  lemma UsersPostKeepsCap(req: Request, records: Records, faults: Faults, env: Env)
    requires WithinCap(records, env.config.maxChecks)
    ensures WithinCap(UsersPost(req, records, faults, env).records, env.config.maxChecks)
  {
    var r := UsersPost(req, records, faults, env);
    if Status(r) == 200 {
      var key := (Users, PhoneOf(Payload(req, "phone")).value);
      var after := records[key := SignUpRecord(req, env)];
      assert ChecksOf(SignUpRecord(req, env)) == [];
      forall k | k in after && k.0 == Users
        ensures |ChecksOf(after[k])| <= env.config.maxChecks
      {
        if k != key { assert after[k] == records[k]; }
      }
    }
  }

  /** Deleting a user only removes records. */
  lemma UserDeletedKeepsCap(req: Request, records: Records, faults: Faults, env: Env)
    requires WithinCap(records, env.config.maxChecks)
    ensures WithinCap(UserDeleted(req, records, faults, env).records, env.config.maxChecks)
  {
    var cap := env.config.maxChecks;
    var phone := PhoneOf(Query(req, "phone"));
    if phone.Some? && VerifyToken(TokenId(req), Some(JStr(phone.value)), records, faults, env.now)
       && Found(Fetched(records, faults, (Users, phone.value))) && (Users, phone.value) !in faults.unwritable {
      var key := (Users, phone.value);
      UserDeletedOutcome(req, records, faults, env);
      CapKeptByRemoval(records, {key} + DeletableChecks(records - {key}, faults, ChecksOf(records[key])), cap);
      assert records - {key} - DeletableChecks(records - {key}, faults, ChecksOf(records[key]))
          == records - ({key} + DeletableChecks(records - {key}, faults, ChecksOf(records[key])));
    }
  }
}
