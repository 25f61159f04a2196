/**
 * user.py: the User record and its equality, the validated App record, the
 * Authorization header of `get_user_info` and `_verify_credential`, and how
 * these two operations read the decoded response body.
 */
module Users {
  import opened Wrappers
  import opened Encoding
  import opened Exceptions
  import opened JsonValues
  import opened Api

  datatype User = User(
    id: Json,
    screenId: Json,
    name: Json,
    image: Json,
    profile: Json,
    level: Json,
    isLive: Json,
    lastMovieId: Json)

  /** The constructor's parameters with their annotations, in declaration order. */
  const UserSchema: seq<(string, PyType)> := [
    ("id", Str), ("screen_id", Str), ("name", Str), ("image", Str), ("profile", Str),
    ("level", Int), ("is_live", Bool), ("last_movie_id", OptionalStr)
  ]

  /** The fields of a User, in the schema's order. */
  function UserFields(u: User): (fs: seq<Json>)
    ensures |fs| == |UserSchema|
  {
    [u.id, u.screenId, u.name, u.image, u.profile, u.level, u.isLive, u.lastMovieId]
  }

  /** Every field holds a value of its annotated type. */
  predicate UserConforms(u: User)
  {
    forall i :: 0 <= i < |UserSchema| ==> HasType(UserFields(u)[i], UserSchema[i].1)
  }

  /** `User.__eq__`: Python `==` on each of the eight fields. */
  predicate UserEquals(a: User, b: User): (r: bool)
    ensures a == b ==> r
  {
    PyEqReflexive(a.id); PyEqReflexive(a.screenId); PyEqReflexive(a.name); PyEqReflexive(a.image);
    PyEqReflexive(a.profile); PyEqReflexive(a.level); PyEqReflexive(a.isLive); PyEqReflexive(a.lastMovieId);
    && PyEq(a.id, b.id) && PyEq(a.screenId, b.screenId) && PyEq(a.name, b.name)
    && PyEq(a.image, b.image) && PyEq(a.profile, b.profile) && PyEq(a.level, b.level)
    && PyEq(a.lastMovieId, b.lastMovieId) && PyEq(a.isLive, b.isLive)
  }

  /** `==` on Users is reflexive and symmetric. */
  lemma UserEqualsLaws(a: User, b: User)
    ensures UserEquals(a, a)
    ensures UserEquals(a, b) ==> UserEquals(b, a)
  {
    PyEqReflexive(a.id); PyEqReflexive(a.screenId); PyEqReflexive(a.name); PyEqReflexive(a.image);
    PyEqReflexive(a.profile); PyEqReflexive(a.level); PyEqReflexive(a.isLive); PyEqReflexive(a.lastMovieId);
    if UserEquals(a, b) {
      PyEqSymmetric(a.id, b.id); PyEqSymmetric(a.screenId, b.screenId); PyEqSymmetric(a.name, b.name);
      PyEqSymmetric(a.image, b.image); PyEqSymmetric(a.profile, b.profile); PyEqSymmetric(a.level, b.level);
      PyEqSymmetric(a.isLive, b.isLive); PyEqSymmetric(a.lastMovieId, b.lastMovieId);
    }
  }

  /** Equal exactly when every field of the schema is `==`. */
  lemma UserEqualsIsFieldwise(a: User, b: User)
    ensures UserEquals(a, b) <==> forall i :: 0 <= i < |UserSchema| ==> PyEq(UserFields(a)[i], UserFields(b)[i])
  {
    var fa, fb := UserFields(a), UserFields(b);
    assert fa == [a.id, a.screenId, a.name, a.image, a.profile, a.level, a.isLive, a.lastMovieId];
    assert fb == [b.id, b.screenId, b.name, b.image, b.profile, b.level, b.isLive, b.lastMovieId];
    if forall i :: 0 <= i < |UserSchema| ==> PyEq(fa[i], fb[i]) {
      assert PyEq(fa[0], fb[0]) && PyEq(fa[1], fb[1]) && PyEq(fa[2], fb[2]) && PyEq(fa[3], fb[3]);
      assert PyEq(fa[4], fb[4]) && PyEq(fa[5], fb[5]) && PyEq(fa[6], fb[6]) && PyEq(fa[7], fb[7]);
    }
  }

  /** Two users that differ only in `level` being 1 or True are equal in Python. */
  lemma UserEqualsIsNotIdentity()
    ensures var a := User(JString("u"), JString(""), JString(""), JString(""), JString(""), JInt(1), JBool(false), JNull);
            UserEquals(a, a.(level := JBool(true))) && a != a.(level := JBool(true))
  {
    var a := User(JString("u"), JString(""), JString(""), JString(""), JString(""), JInt(1), JBool(false), JNull);
    PyEqReflexive(a.id);
  }

  /**
   * `User(id=d.get('id', ''), ..., is_live=d.get('is_live', False))` on the
   * decoded sub-object `d`; a `d` that is not a dict has no `get`.
   */
  function UserFromJson(d: Json): (r: Result<User, Raised>)
    ensures r.Success? <==> d.JObject?
    ensures r.Failure? ==> r.error == AttributeError(TypeName(d))
  {
    match d
    case JObject(f) =>
      Success(User(
        id := if "id" in f then f["id"] else JString(""),
        screenId := if "screen_id" in f then f["screen_id"] else JString(""),
        name := if "name" in f then f["name"] else JString(""),
        image := if "image" in f then f["image"] else JString(""),
        profile := if "profile" in f then f["profile"] else JString(""),
        level := if "level" in f then f["level"] else JInt(0),
        lastMovieId := if "last_movie_id" in f then f["last_movie_id"] else JNull,
        isLive := if "is_live" in f then f["is_live"] else JBool(false)))
    case _ => Failure(AttributeError(TypeName(d)))
  }

  /** Each field is read under its schema key with the default of its annotation. */
  lemma UserFromJsonReadsSchema(f: map<string, Json>, i: int)
    requires 0 <= i < |UserSchema|
    ensures UserFields(UserFromJson(JObject(f)).value)[i] == FieldOr(f, UserSchema[i].0, UserSchema[i].1)
  {
    if i < 4 {
    } else {
    }
  }

  /** The sub-object a User is read from: one key per field. */
  function UserToJson(u: User): Json
  {
    JObject(map["id" := u.id, "screen_id" := u.screenId, "name" := u.name, "image" := u.image,
                "profile" := u.profile, "level" := u.level, "is_live" := u.isLive,
                "last_movie_id" := u.lastMovieId])
  }

  /** Reading back an object that has every key gives every value unchanged, null included. */
  lemma UserRoundTrip(u: User)
    ensures UserFromJson(UserToJson(u)) == Success(u)
  {
  }

  /** `{}` gives '', '', '', '', '', 0, False and None. */
  lemma UserDefaults()
    ensures UserFromJson(EmptyObject)
         == Success(User(JString(""), JString(""), JString(""), JString(""), JString(""), JInt(0), JBool(false), JNull))
  {
  }

  /** If every key that is present holds a value of its annotated type, so does every field. */
  lemma UserFromJsonConforms(f: map<string, Json>)
    requires forall i :: 0 <= i < |UserSchema| && UserSchema[i].0 in f ==> HasType(f[UserSchema[i].0], UserSchema[i].1)
    ensures UserFromJson(JObject(f)).Success? && UserConforms(UserFromJson(JObject(f)).value)
  {
    var u := UserFromJson(JObject(f)).value;
    forall i | 0 <= i < |UserSchema| ensures HasType(UserFields(u)[i], UserSchema[i].1) {
      UserFromJsonReadsSchema(f, i);
    }
  }

  datatype App = App(clientId: Json, name: Json, ownerUserId: Json)

  /** `App(...)`: `_validate` rejects a falsy client_id, name or owner_user_id. */
  function NewApp(clientId: Json, name: Json, ownerUserId: Json): (r: Result<App, Raised>)
    ensures r.Success? <==> Truthy(clientId) && Truthy(name) && Truthy(ownerUserId)
    ensures r.Success? ==> r.value == App(clientId, name, ownerUserId)
    ensures r.Failure? ==> r.error == ValueError("client_id, name, and owner_user_id are required.")
  {
    if !Truthy(clientId) || !Truthy(name) || !Truthy(ownerUserId) then
      Failure(ValueError("client_id, name, and owner_user_id are required."))
    else
      Success(App(clientId, name, ownerUserId))
  }

  /**
   * The headers of user.py: the credentials the mode needs must be present,
   * and Accept and X-Api-Version are added to the Authorization header.
   */
  function UserHeaders(mode: string, accessToken: Option<string>, clientId: Option<string>, clientSecret: Option<string>)
    : (r: Result<map<string, string>, Raised>)
    ensures r.Success? <==> (mode == "basic" && clientId.Some? && clientSecret.Some?) || (mode == "bearer" && accessToken.Some?)
    ensures r.Success? ==> r.value.Keys == HeaderNames
    ensures r.Success? ==> r.value["Accept"] == AcceptValue && r.value["X-Api-Version"] == ApiVersion
    ensures r.Success? && mode == "basic" ==> r.value["Authorization"] == BasicAuthorization(clientId.value, clientSecret.value)
    ensures r.Success? && mode == "bearer" ==> r.value["Authorization"] == "Bearer " + accessToken.value
    ensures mode == "basic" && r.Failure? ==> r.error == ValueError("client_id and client_secret must be provided for basic authorization.")
    ensures mode == "bearer" && r.Failure? ==> r.error == ValueError("access_token must be provided for bearer authorization.")
    ensures mode != "basic" && mode != "bearer" ==> r == Failure(ValueError("Invalid authorization mode. Use 'basic' or 'bearer'."))
  {
    if mode == "basic" then
      if clientId.None? || clientSecret.None? then
        Failure(ValueError("client_id and client_secret must be provided for basic authorization."))
      else Success(StandardHeaders(BasicAuthorization(clientId.value, clientSecret.value)))
    else if mode == "bearer" then
      if accessToken.None? then Failure(ValueError("access_token must be provided for bearer authorization."))
      else Success(StandardHeaders("Bearer " + accessToken.value))
    else Failure(ValueError("Invalid authorization mode. Use 'basic' or 'bearer'."))
  }

  /** What `get_user_info` returns for a decoded body: the user and the two counts. */
  function UserInfoOutcome(data: Json): (r: Result<(User, Json, Json), Raised>)
    ensures ErrorCheck(data).Some? ==> r == Failure(ErrorCheck(data).value)
    ensures r.Success? <==> ErrorCheck(data).None? && Lookup(data.fields, "user", EmptyObject).JObject?
    ensures ErrorCheck(data).None? && !Lookup(data.fields, "user", EmptyObject).JObject? ==>
              r == Failure(AttributeError(TypeName(Lookup(data.fields, "user", EmptyObject))))
  {
    match ErrorCheck(data)
    case Some(e) => Failure(e)
    case None =>
      var userData := Lookup(data.fields, "user", EmptyObject);
      var user :- UserFromJson(userData);
      Success((user, Lookup(userData.fields, "supporter_count", JInt(0)), Lookup(userData.fields, "supporting_count", JInt(0))))
  }

  /** `get_user_info(user_id, mode, ...)` around the HTTP GET of /users/{user_id}. */
  function GetUserInfo(userId: string, mode: string, accessToken: Option<string>, clientId: Option<string>,
                       clientSecret: Option<string>, response: Json): (r: Call<(User, Json, Json)>)
    ensures r.NotSent? <==> UserHeaders(mode, accessToken, clientId, clientSecret).Failure?
    ensures r.NotSent? ==> r.error == UserHeaders(mode, accessToken, clientId, clientSecret).error
    ensures r.Sent? ==> r.request == Request("GET", BaseUrl + "/users/" + userId, r.request.headers, None)
    ensures r.Sent? ==> r.request.headers == UserHeaders(mode, accessToken, clientId, clientSecret).value
    ensures r.Sent? ==> r.request.headers.Keys == HeaderNames
    ensures r.Sent? ==> r.outcome == UserInfoOutcome(response)
  {
    match UserHeaders(mode, accessToken, clientId, clientSecret)
    case Failure(e) => NotSent(e)
    case Success(headers) => Sent(Request("GET", BaseUrl + "/users/" + userId, headers, None), UserInfoOutcome(response))
  }

  /** An invalid mode or a missing credential raises before any request exists, whatever the server would say. */
  lemma ValidationBeforeRequest(userId: string, mode: string, accessToken: Option<string>, clientId: Option<string>,
                                clientSecret: Option<string>, response: Json)
    requires !((mode == "basic" && clientId.Some? && clientSecret.Some?) || (mode == "bearer" && accessToken.Some?))
    ensures GetUserInfo(userId, mode, accessToken, clientId, clientSecret, response).NotSent?
    ensures VerifyCredential(mode, accessToken, clientId, clientSecret, response).NotSent?
  {
  }

  /**
   * On success the user comes from the `user` sub-object (`{}` when absent),
   * and so do both counts (default 0): keys beside `user` in the body are
   * never read.
   */
  lemma CountsComeFromUserObject(f: map<string, Json>, u: map<string, Json>)
    requires Lookup(f, "user", EmptyObject) == JObject(u)
    requires "error" in f ==> !Truthy(f["error"])
    ensures UserInfoOutcome(JObject(f)).Success?
    ensures UserInfoOutcome(JObject(f)).value.0 == UserFromJson(JObject(u)).value
    ensures UserInfoOutcome(JObject(f)).value.1 == (if "supporter_count" in u then u["supporter_count"] else JInt(0))
    ensures UserInfoOutcome(JObject(f)).value.2 == (if "supporting_count" in u then u["supporting_count"] else JInt(0))
    ensures UserInfoOutcome(JObject(f)) == UserInfoOutcome(JObject(map["user" := JObject(u)]))
  {
    FalsyErrorIgnored(f);
  }

  /** A body whose counts sit at the top level, beside `user`, yields counts of 0. */
  lemma TopLevelCountsIgnored()
    ensures UserInfoOutcome(JObject(map["user" := EmptyObject, "supporter_count" := JInt(5), "supporting_count" := JInt(7)]))
         == Success((UserFromJson(EmptyObject).value, JInt(0), JInt(0)))
  {
  }

  /** What `_verify_credential` returns for a decoded body: app, user and the two counts. */
  function VerifyOutcome(data: Json): (r: Result<(App, User, Json, Json), Raised>)
    ensures ErrorCheck(data).Some? ==> r == Failure(ErrorCheck(data).value)
    ensures r.Success? ==> ErrorCheck(data).None? && Lookup(data.fields, "app", EmptyObject).JObject?
                           && Lookup(data.fields, "user", EmptyObject).JObject?
    ensures ErrorCheck(data).None? && !Lookup(data.fields, "app", EmptyObject).JObject? ==>
              r == Failure(AttributeError(TypeName(Lookup(data.fields, "app", EmptyObject))))
  {
    match ErrorCheck(data)
    case Some(e) => Failure(e)
    case None =>
      var appData := Lookup(data.fields, "app", EmptyObject);
      var clientId :- Get(appData, "client_id", JString(""));
      var app :- NewApp(clientId, Lookup(appData.fields, "name", JString("")),
                        Lookup(appData.fields, "owner_user_id", JString("")));
      var userData := Lookup(data.fields, "user", EmptyObject);
      var user :- UserFromJson(userData);
      Success((app, user, Lookup(userData.fields, "supporter_count", JInt(0)), Lookup(userData.fields, "supporting_count", JInt(0))))
  }

  /** `_verify_credential(mode, ...)` around the HTTP GET of /verify_credentials. */
  function VerifyCredential(mode: string, accessToken: Option<string>, clientId: Option<string>,
                            clientSecret: Option<string>, response: Json): (r: Call<(App, User, Json, Json)>)
    ensures r.NotSent? <==> UserHeaders(mode, accessToken, clientId, clientSecret).Failure?
    ensures r.NotSent? ==> r.error == UserHeaders(mode, accessToken, clientId, clientSecret).error
    ensures r.Sent? ==> r.request == Request("GET", BaseUrl + "/verify_credentials", r.request.headers, None)
    ensures r.Sent? ==> r.request.headers == UserHeaders(mode, accessToken, clientId, clientSecret).value
    ensures r.Sent? ==> r.request.headers.Keys == HeaderNames
    ensures r.Sent? ==> r.outcome == VerifyOutcome(response)
  {
    match UserHeaders(mode, accessToken, clientId, clientSecret)
    case Failure(e) => NotSent(e)
    case Success(headers) => Sent(Request("GET", BaseUrl + "/verify_credentials", headers, None), VerifyOutcome(response))
  }

  /**
   * A body without an error whose `app` object lacks client_id, name or
   * owner_user_id (or holds a falsy one) fails App validation, whatever its user.
   */
  lemma VerifyNeedsAppFields(f: map<string, Json>, app: map<string, Json>)
    requires Lookup(f, "app", EmptyObject) == JObject(app)
    requires "error" in f ==> !Truthy(f["error"])
    requires !(&& "client_id" in app && Truthy(app["client_id"])
               && "name" in app && Truthy(app["name"])
               && "owner_user_id" in app && Truthy(app["owner_user_id"]))
    ensures VerifyOutcome(JObject(f)) == Failure(ValueError("client_id, name, and owner_user_id are required."))
  {
    FalsyErrorIgnored(f);
  }

  /**
   * With no error, truthy app fields and a `user` object (`{}` when absent),
   * verification returns the App holding the `app` object's three values,
   * the User read from `user`, and both counts from `user` (default 0).
   */
  lemma VerifyReturnsServerValues(f: map<string, Json>, app: map<string, Json>, u: map<string, Json>)
    requires "error" in f ==> !Truthy(f["error"])
    requires Lookup(f, "app", EmptyObject) == JObject(app)
    requires "client_id" in app && Truthy(app["client_id"]) && "name" in app && Truthy(app["name"])
    requires "owner_user_id" in app && Truthy(app["owner_user_id"])
    requires Lookup(f, "user", EmptyObject) == JObject(u)
    ensures VerifyOutcome(JObject(f)) == Success((App(app["client_id"], app["name"], app["owner_user_id"]),
                                                  UserFromJson(JObject(u)).value,
                                                  if "supporter_count" in u then u["supporter_count"] else JInt(0),
                                                  if "supporting_count" in u then u["supporting_count"] else JInt(0)))
  {
    FalsyErrorIgnored(f);
  }

  /** After a valid App, a `user` (default `{}`) that is not a dict raises AttributeError naming its type. */
  lemma VerifyNeedsUserObject(f: map<string, Json>, app: map<string, Json>)
    requires "error" in f ==> !Truthy(f["error"])
    requires Lookup(f, "app", EmptyObject) == JObject(app)
    requires "client_id" in app && Truthy(app["client_id"]) && "name" in app && Truthy(app["name"])
    requires "owner_user_id" in app && Truthy(app["owner_user_id"])
    requires !Lookup(f, "user", EmptyObject).JObject?
    ensures VerifyOutcome(JObject(f)) == Failure(AttributeError(TypeName(Lookup(f, "user", EmptyObject))))
  {
    FalsyErrorIgnored(f);
  }

  /** A successful verification returns an App whose three fields are truthy. */
  lemma VerifiedAppIsValid(data: Json)
    requires VerifyOutcome(data).Success?
    ensures var app := VerifyOutcome(data).value.0;
            Truthy(app.clientId) && Truthy(app.name) && Truthy(app.ownerUserId)
  {
  }

  /**
   * The message of the exception raised for an HTTP error status:
   * "Error <status>: <detail>", with "Unknown Error" for a status not in the table.
   */
  function HttpErrorMessage(status: int): (msg: string)
    ensures var d := IntToDecimal(status);
            |msg| >= 8 + |d| && msg[..6] == "Error " && msg[6..6 + |d|] == d && msg[6 + |d|..8 + |d|] == ": "
    ensures status in ErrorCodes ==> msg[8 + |IntToDecimal(status)|..] == ErrorCodes[status].detail
    ensures status !in ErrorCodes ==> msg[8 + |IntToDecimal(status)|..] == "Unknown Error"
  {
    "Error " + IntToDecimal(status) + ": " + (if status in ErrorCodes then ErrorCodes[status].detail else "Unknown Error")
  }

  /** The status can be read back from the message: its decimal text parses as the status. */
  lemma HttpErrorStatusRecoverable(status: int)
    ensures var d := IntToDecimal(status);
            ParseInt(HttpErrorMessage(status)[6..6 + |d|]) == Some(status)
  {
    IntToDecimalRoundTrip(status);
  }

  /** A status in the table gives "Error <status>: " followed by that entry's detail. */
  lemma HttpErrorMessageKnown(status: int)
    requires status in ErrorCodes
    ensures HttpErrorMessage(status) == "Error " + IntToDecimal(status) + ": " + ErrorCodes[status].detail
  {
    var m, n := HttpErrorMessage(status), |IntToDecimal(status)|;
    assert m == m[..6] + m[6..6 + n] + m[6 + n..8 + n] + m[8 + n..];
  }

  /** Any other status gives "Error <status>: Unknown Error". */
  lemma HttpErrorMessageUnknown(status: int)
    requires status !in ErrorCodes
    ensures HttpErrorMessage(status) == "Error " + IntToDecimal(status) + ": " + "Unknown Error"
  {
  }
}
