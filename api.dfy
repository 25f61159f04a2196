/**
 * What user.py and webhook.py share: the request an operation hands to the
 * HTTP transport, the Basic credentials of section 2 of RFC 7617, and the
 * check of the decoded body's `error` field that every operation makes
 * before it reads the body.
 */
module Api {
  import opened Wrappers
  import opened Encoding
  import opened Exceptions
  import opened JsonValues

  const BaseUrl: string := "https://apiv2.twitcasting.tv"
  const AcceptValue: string := "application/json"
  const ApiVersion: string := "2.0"

  /** The request an operation would send. */
  datatype Request = Request(verb: string, url: string, headers: map<string, string>, body: Option<Json>)

  /**
   * An operation's behaviour around the HTTP call: either it raises before a
   * request is built, or it sends `request` and, given the decoded response
   * body, returns a value or raises.
   */
  datatype Call<T> = NotSent(error: Raised) | Sent(request: Request, outcome: Result<T, Raised>)

  /** The three header names every successful header selection produces. */
  const HeaderNames: set<string> := {"Authorization", "Accept", "X-Api-Version"}

  /** `{"Authorization": authorization}` with Accept and X-Api-Version added. */
  function StandardHeaders(authorization: string): (h: map<string, string>)
    ensures h.Keys == HeaderNames
    ensures h["Authorization"] == authorization && h["Accept"] == AcceptValue && h["X-Api-Version"] == ApiVersion
  {
    map["Authorization" := authorization]["Accept" := AcceptValue]["X-Api-Version" := ApiVersion]
  }

  /** `'Basic ' + base64.b64encode(f"{id}:{secret}".encode()).decode()`. */
  function BasicAuthorization(id: string, secret: string): (r: string)
    ensures |r| >= 6 && r[..6] == "Basic "
    ensures Base64Decode(r[6..]) == Some(Utf8Encode(id + ":" + secret))
  {
    var encoded := Base64Encode(Utf8Encode(id + ":" + secret));
    Base64RoundTrip(Utf8Encode(id + ":" + secret));
    assert ("Basic " + encoded)[6..] == encoded;
    "Basic " + encoded
  }

  /** Index of the first ':' in a string. */
  function FirstColon(s: string): (r: Option<nat>)
    ensures r.Some? ==> r.value < |s| && s[r.value] == ':' && ':' !in s[..r.value]
    ensures r.None? ==> ':' !in s
    decreases |s|
  {
    if s == [] then None
    else if s[0] == ':' then Some(0)
    else
      match FirstColon(s[1..])
      case None => None
      case Some(k) => Some(k + 1)
  }

  /** A server's reading of user-pass (section 2 of RFC 7617): split at the first colon. */
  function SplitUserPass(userPass: string): Option<(string, string)>
  {
    match FirstColon(userPass)
    case None => None
    case Some(k) => Some((userPass[..k], userPass[k + 1..]))
  }

  lemma SplitJoined(id: string, secret: string)
    requires ':' !in id
    ensures SplitUserPass(id + ":" + secret) == Some((id, secret))
  {
    var s := id + ":" + secret;
    assert s[|id|] == ':';
    assert s[..|id|] == id;
    assert s[|id| + 1..] == secret;
  }

  /**
   * The Basic credentials decode back to the client id and secret: Base64,
   * then UTF-8, gives `id:secret`, and when the id has no colon a server
   * splits it into exactly the id and the secret.
   */
  lemma BasicCredentialsRecoverable(id: string, secret: string)
    ensures |BasicAuthorization(id, secret)| >= 6
    ensures BasicAuthorization(id, secret)[..6] == "Basic "
    ensures Base64Decode(BasicAuthorization(id, secret)[6..]) == Some(Utf8Encode(id + ":" + secret))
    ensures Utf8Decode(Utf8Encode(id + ":" + secret)) == Some(id + ":" + secret)
    ensures ':' !in id ==> SplitUserPass(id + ":" + secret) == Some((id, secret))
  {
    var v := BasicAuthorization(id, secret);
    assert v[6..] == Base64Encode(Utf8Encode(id + ":" + secret));
    Base64RoundTrip(Utf8Encode(id + ":" + secret));
    Utf8RoundTrip(id + ":" + secret);
    if ':' !in id {
      SplitJoined(id, secret);
    }
  }

  /** `ERROR_CODES_DICT.get(code, ...)` for a code that is in the table. */
  function PlatformMessage(code: int): string
    requires code in ErrorCodes
  {
    "Error " + IntToDecimal(code) + ": " + ErrorCodes[code].name + " - " + ErrorCodes[code].detail
  }

  /** Calling `"Unknown error"[2]`, the character 'k', as an exception class. */
  const NotCallable: Raised := TypeError("'str' object is not callable")

  /**
   * The exception raised for a truthy `error` field: `.get("code")` needs a
   * dict; a list or dict code cannot be hashed; a code in the table raises
   * that entry's class; any other code gets the default "Unknown error",
   * whose third character is not callable.
   */
  function ErrorFieldException(error: Json): (r: Raised)
    ensures !error.JObject? ==> r == AttributeError(TypeName(error))
    ensures r.PlatformError? <==>
              error.JObject? && "code" in error.fields && error.fields["code"].JInt? && error.fields["code"].i in ErrorCodes
    ensures r.PlatformError? ==> r.message == PlatformMessage(error.fields["code"].i) && CodeOf(r.kind) == error.fields["code"].i
    ensures error.JObject? && !r.PlatformError? ==> r.TypeError?
  {
    match error
    case JObject(fields) =>
      var code := if "code" in fields then fields["code"] else JNull;
      (match code
       case JArray(_) => TypeError("unhashable type: 'list'")
       case JObject(_) => TypeError("unhashable type: 'dict'")
       case JInt(c) =>
         if c in ErrorCodes then CodeOfInvertsTable(c); PlatformError(ErrorCodes[c].kind, PlatformMessage(c)) else NotCallable
       // True and False look up 1 and 0, which are not codes; None and strings are not codes either
       case _ => NotCallable)
    case _ => AttributeError(TypeName(error))
  }

  /**
   * `error = data.get('error', None); if error: raise ...`: the exception the
   * body's error field raises, or None when the body may be read.
   */
  function ErrorCheck(data: Json): (r: Option<Raised>)
    ensures r.None? <==> data.JObject? && ("error" in data.fields ==> !Truthy(data.fields["error"]))
    ensures !data.JObject? ==> r == Some(AttributeError(TypeName(data)))
    ensures data.JObject? && r.Some? ==> r.value == ErrorFieldException(data.fields["error"])
  {
    match data
    case JObject(fields) =>
      if "error" in fields && Truthy(fields["error"]) then Some(ErrorFieldException(fields["error"])) else None
    case _ => Some(AttributeError(TypeName(data)))
  }

  /**
   * A code in the table raises that entry's exception class with message
   * "Error <code>: <label> - <detail>", and the class identifies the code.
   */
  lemma KnownCodeRaisesItsKind(fields: map<string, Json>, error: map<string, Json>, c: int)
    requires "error" in fields && fields["error"] == JObject(error)
    requires "code" in error && error["code"] == JInt(c) && c in ErrorCodes
    ensures ErrorCheck(JObject(fields)) == Some(PlatformError(ErrorCodes[c].kind, PlatformMessage(c)))
    ensures CodeOf(ErrorCheck(JObject(fields)).value.kind) == c
  {
    assert Truthy(fields["error"]);
    CodeOfInvertsTable(c);
  }

  /** A truthy error object whose code is not an int in the table crashes with a TypeError. */
  lemma UnknownCodeCrashes(fields: map<string, Json>, error: map<string, Json>)
    requires "error" in fields && fields["error"] == JObject(error) && error != map[]
    requires "code" in error ==> !error["code"].JArray? && !error["code"].JObject?
    requires "code" in error && error["code"].JInt? ==> error["code"].i !in ErrorCodes
    ensures ErrorCheck(JObject(fields)) == Some(NotCallable)
  {
  }

  /** An absent or falsy error field (null, false, 0, "", [], {}) is ignored. */
  lemma FalsyErrorIgnored(fields: map<string, Json>)
    requires "error" in fields ==> !Truthy(fields["error"])
    ensures ErrorCheck(JObject(fields)) == None
  {
  }

  /** Whether a body raises depends on its error field alone. */
  lemma ErrorCheckReadsOnlyError(f1: map<string, Json>, f2: map<string, Json>)
    requires ("error" in f1) == ("error" in f2)
    requires "error" in f1 ==> f1["error"] == f2["error"]
    ensures ErrorCheck(JObject(f1)) == ErrorCheck(JObject(f2))
  {
  }

  /** `{"error": {"code": 2002}}` raises the Protected class, not a generic error. */
  lemma ProtectedExample()
    ensures ErrorCheck(JObject(map["error" := JObject(map["code" := JInt(2002)])])).value.kind == Protected
  {
    var error := map["code" := JInt(2002)];
    KnownCodeRaisesItsKind(map["error" := JObject(error)], error, 2002);
  }
}
