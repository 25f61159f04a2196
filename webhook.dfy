/**
 * webhook.py: the Webhook record and its self-recursive validation, the
 * headers and requests of the three webhook endpoints, how their decoded
 * response bodies are read, and the parsing of an incoming notification into
 * a Movie and a User.
 */
module Webhooks {
  import opened Wrappers
  import opened Encoding
  import opened Exceptions
  import opened JsonValues
  import opened Api
  import opened Movies
  import opened Users

  datatype Webhook = Webhook(userId: Json, event: Json)

  /** How many more frames `_validate` may push before Python raises RecursionError (its default limit). */
  const RecursionLimit: nat := 1000

  /** `event in ["livestart", "liveend"]`. */
  predicate IsEvent(event: Json)
  {
    PyEq(event, JString("livestart")) || PyEq(event, JString("liveend"))
  }

  /**
   * `Webhook._validate` with `depth` stack frames left: the three checks, and
   * then the method calls itself. None would mean it returned normally.
   */
  function Validate(w: Webhook, depth: nat): (r: Option<Raised>)
    ensures r.Some? ==> r.value == ValidationFailure(w)
    decreases depth
  {
    if !Truthy(w.userId) then Some(ValueError("user_id cannot be empty"))
    else if !Truthy(w.event) then Some(ValueError("event cannot be empty"))
    else if !IsEvent(w.event) then Some(ValueError("event must be either 'livestart' or 'liveend'"))
    else if depth == 0 then Some(RecursionError)
    else Validate(w, depth - 1)
  }

  /** The exception validation ends in, in closed form: the first failed check, else the recursion limit. */
  function ValidationFailure(w: Webhook): Raised
  {
    if !Truthy(w.userId) then ValueError("user_id cannot be empty")
    else if !Truthy(w.event) then ValueError("event cannot be empty")
    else if !IsEvent(w.event) then ValueError("event must be either 'livestart' or 'liveend'")
    else RecursionError
  }

  /** `_validate` never returns, whatever stack is left: it raises the closed-form exception. */
  lemma {:induction false} ValidateNeverReturns(w: Webhook, depth: nat)
    ensures Validate(w, depth) == Some(ValidationFailure(w))
    decreases depth
  {
    if Truthy(w.userId) && Truthy(w.event) && IsEvent(w.event) && depth > 0 {
      ValidateNeverReturns(w, depth - 1);
    }
  }

  /** `Webhook(user_id, event)`: stores both fields, then validates. */
  function NewWebhook(userId: Json, event: Json): (r: Result<Webhook, Raised>)
    ensures r.Success? ==> r.value == Webhook(userId, event)
    ensures r.Failure? ==> r.error == ValidationFailure(Webhook(userId, event))
  {
    match Validate(Webhook(userId, event), RecursionLimit)
    case Some(e) => Failure(e)
    case None => Success(Webhook(userId, event))
  }

  /**
   * No Webhook can be constructed: invalid fields raise the ValueError of the
   * first failed check, and valid ones exhaust the recursion limit.
   */
  lemma ConstructionAlwaysRaises(userId: Json, event: Json)
    ensures NewWebhook(userId, event).Failure?
    ensures NewWebhook(userId, event).error == RecursionError
            <==> Truthy(userId) && (event == JString("livestart") || event == JString("liveend"))
    ensures !Truthy(userId) ==> NewWebhook(userId, event).error == ValueError("user_id cannot be empty")
    ensures Truthy(userId) && !Truthy(event) ==> NewWebhook(userId, event).error == ValueError("event cannot be empty")
    ensures Truthy(userId) && Truthy(event) && event != JString("livestart") && event != JString("liveend")
            ==> NewWebhook(userId, event).error == ValueError("event must be either 'livestart' or 'liveend'")
  {
    ValidateNeverReturns(Webhook(userId, event), RecursionLimit);
    PyEqString("livestart", event);
    PyEqString("liveend", event);
    if PyEq(event, JString("livestart")) { PyEqSymmetric(event, JString("livestart")); }
    if PyEq(event, JString("liveend")) { PyEqSymmetric(event, JString("liveend")); }
    if event == JString("livestart") || event == JString("liveend") {
      PyEqReflexive(event);
    }
  }

  /** `Webhook.__eq__` for two Webhooks: Python `==` on user_id and on event. */
  predicate WebhookEquals(a: Webhook, b: Webhook): (r: bool)
    ensures a == b ==> r
  {
    PyEqReflexive(a.userId);
    PyEqReflexive(a.event);
    PyEq(a.userId, b.userId) && PyEq(a.event, b.event)
  }

  /** `Webhook.__ne__` for two Webhooks: the negation of `__eq__`. */
  predicate WebhookNotEquals(a: Webhook, b: Webhook): (r: bool)
    ensures a == b ==> !r
  {
    !WebhookEquals(a, b)
  }

  /** `==` on Webhooks is reflexive and symmetric, and `!=` is irreflexive and symmetric. */
  lemma WebhookEqualityLaws(a: Webhook, b: Webhook)
    ensures WebhookEquals(a, a) && !WebhookNotEquals(a, a)
    ensures WebhookEquals(a, b) ==> WebhookEquals(b, a)
    ensures WebhookNotEquals(a, b) <==> WebhookNotEquals(b, a)
  {
    PyEqReflexive(a.userId);
    PyEqReflexive(a.event);
    if PyEq(a.userId, b.userId) { PyEqSymmetric(a.userId, b.userId); }
    if PyEq(b.userId, a.userId) { PyEqSymmetric(b.userId, a.userId); }
    if PyEq(a.event, b.event) { PyEqSymmetric(a.event, b.event); }
    if PyEq(b.event, a.event) { PyEqSymmetric(b.event, a.event); }
  }

  /** A user id of 1 and one of True make equal Webhooks, though the values differ. */
  lemma WebhookEqualsIsNotIdentity()
    ensures WebhookEquals(Webhook(JInt(1), JString("liveend")), Webhook(JBool(true), JString("liveend")))
  {
  }

  /** An optional argument inside an f-string: None prints as "None". */
  function FormatOptional(o: Option<string>): string
  {
    match o
    case None => "None"
    case Some(s) => s
  }

  /** The Authorization value webhook.py builds for a valid mode, whether or not the credentials were given. */
  function WebhookAuthorization(mode: string, accessToken: Option<string>, clientId: Option<string>,
                                clientSecret: Option<string>): (r: string)
    requires mode == "bearer" || mode == "basic"
    ensures mode == "bearer" ==> |r| >= 7 && r[..7] == "Bearer " && r[7..] == FormatOptional(accessToken)
    ensures mode == "basic" ==> |r| >= 6 && r[..6] == "Basic "
    ensures mode == "basic" ==>
              Base64Decode(r[6..]) == Some(Utf8Encode(FormatOptional(clientId) + ":" + FormatOptional(clientSecret)))
  {
    if mode == "bearer" then "Bearer " + FormatOptional(accessToken)
    else BasicAuthorization(FormatOptional(clientId), FormatOptional(clientSecret))
  }

  /**
   * The header dict of the three webhook operations: chosen by mode, then
   * Accept and X-Api-Version added to it. Missing credentials are not checked.
   */
  method WebhookHeaders(mode: string, accessToken: Option<string>, clientId: Option<string>,
                        clientSecret: Option<string>) returns (r: Result<map<string, string>, Raised>)
    ensures r.Success? <==> mode == "bearer" || mode == "basic"
    ensures r.Failure? ==> r.error == ValueError("Invalid authorization mode. Use 'bearer' or 'basic'.")
    ensures r.Success? ==> r.value.Keys == HeaderNames
    ensures r.Success? ==> r.value["Accept"] == AcceptValue && r.value["X-Api-Version"] == ApiVersion
    ensures r.Success? ==> r.value["Authorization"] == WebhookAuthorization(mode, accessToken, clientId, clientSecret)
    ensures r.Success? ==> r.value == StandardHeaders(WebhookAuthorization(mode, accessToken, clientId, clientSecret))
  {
    var headers: map<string, string>;
    if mode == "bearer" {
      headers := map["Authorization" := "Bearer " + FormatOptional(accessToken)];
    } else if mode == "basic" {
      headers := map["Authorization" := "Basic " + Base64Encode(Utf8Encode(FormatOptional(clientId) + ":" + FormatOptional(clientSecret)))];
    } else {
      return Failure(ValueError("Invalid authorization mode. Use 'bearer' or 'basic'."));
    }
    headers := headers["Accept" := AcceptValue];
    headers := headers["X-Api-Version" := ApiVersion];
    return Success(headers);
  }

  /** Wherever user.py accepts the credentials, webhook.py sends the same Authorization value. */
  lemma AuthorizationAgreesWithUsers(mode: string, accessToken: Option<string>, clientId: Option<string>,
                                     clientSecret: Option<string>)
    ensures UserHeaders(mode, accessToken, clientId, clientSecret).Success? ==>
              (mode == "bearer" || mode == "basic") &&
              WebhookAuthorization(mode, accessToken, clientId, clientSecret)
                == UserHeaders(mode, accessToken, clientId, clientSecret).value["Authorization"]
  {
    if mode == "bearer" {
      assert mode != "basic";
    }
  }

  /** Where user.py would reject a missing credential, webhook.py sends the text "None" in its place. */
  lemma MissingCredentialsSentAsNone(accessToken: Option<string>, clientId: Option<string>,
                                     clientSecret: Option<string>)
    ensures accessToken.None? ==> WebhookAuthorization("bearer", accessToken, clientId, clientSecret) == "Bearer None"
    ensures clientId.None? ==>
              WebhookAuthorization("basic", accessToken, clientId, clientSecret)
                == BasicAuthorization("None", FormatOptional(clientSecret))
    ensures clientSecret.None? ==>
              WebhookAuthorization("basic", accessToken, clientId, clientSecret)
                == BasicAuthorization(FormatOptional(clientId), "None")
  {
  }

  /** The list URL: limit and offset as decimal text, and a user_id filter only for a non-empty user id. */
  function ListUrl(userId: Option<string>, limit: int, offset: int): (url: string)
    ensures var base := BaseUrl + "/webhooks?limit=" + IntToDecimal(limit) + "&offset=" + IntToDecimal(offset);
            |base| <= |url| && url[..|base|] == base
            && (|url| == |base| <==> userId.None? || userId.value == "")
  {
    var url := BaseUrl + "/webhooks?limit=" + IntToDecimal(limit) + "&offset=" + IntToDecimal(offset);
    if userId.Some? && userId.value != "" then url + "&user_id=" + userId.value else url
  }

  /** A non-empty user id appends exactly `&user_id=<id>` to the unfiltered URL; None and "" add nothing. */
  lemma ListUrlFilter(userId: Option<string>, limit: int, offset: int)
    ensures userId.Some? && userId.value != "" ==>
              ListUrl(userId, limit, offset) == ListUrl(None, limit, offset) + "&user_id=" + userId.value
    ensures userId.None? || userId.value == "" ==> ListUrl(userId, limit, offset) == ListUrl(None, limit, offset)
  {
  }

  /**
   * `for x in v`: a list yields its items, a string its characters, a dict
   * its keys (the first key is a string, whose `.get` raises, so a non-empty
   * dict is reported by that error); None, booleans and integers are not
   * iterable.
   */
  function Iterate(v: Json): (r: Result<seq<Json>, Raised>)
    ensures r.Failure? <==> v.JNull? || v.JBool? || v.JInt? || (v.JObject? && v.fields != map[])
    ensures v.JNull? || v.JBool? || v.JInt? ==> r == Failure(TypeError("'" + TypeName(v) + "' object is not iterable"))
    ensures v.JObject? && v.fields != map[] ==> r == Failure(AttributeError("str"))
    ensures v == EmptyObject ==> r == Success([])
    ensures v.JArray? ==> r == Success(v.items)
    ensures v.JString? ==> r.Success? && |r.value| == |v.s| && forall k :: 0 <= k < |v.s| ==> r.value[k] == JString([v.s[k]])
  {
    match v
    case JArray(items) => Success(items)
    case JString(s) => Success(seq(|s|, k requires 0 <= k < |s| => JString([s[k]])))
    case JObject(fields) => if fields == map[] then Success([]) else Failure(AttributeError("str"))
    case _ => Failure(TypeError("'" + TypeName(v) + "' object is not iterable"))
  }

  /** One list entry: `Webhook(entry.get("user_id", ""), entry.get("event", ""))`. */
  function EntryOutcome(entry: Json): (r: Result<Webhook, Raised>)
    ensures !entry.JObject? ==> r == Failure(AttributeError(TypeName(entry)))
    ensures entry.JObject? ==>
              var w := Webhook(Lookup(entry.fields, "user_id", JString("")), Lookup(entry.fields, "event", JString("")));
              (r.Success? ==> r.value == w) && (r.Failure? ==> r.error == ValidationFailure(w))
  {
    var userId :- Get(entry, "user_id", JString(""));
    NewWebhook(userId, Lookup(entry.fields, "event", JString("")))
  }

  /** A loop that appends each outcome's value in order and stops at the first exception. */
  function Collect<T>(outcomes: seq<Result<T, Raised>>): Result<seq<T>, Raised>
  {
    if outcomes == [] then Success([])
    else
      var init :- Collect(outcomes[..|outcomes| - 1]);
      var last :- outcomes[|outcomes| - 1];
      Success(init + [last])
  }

  /** Once a prefix has been collected, the next exception is the exception of the whole loop. */
  lemma {:induction false} FirstFailureWins<T>(outcomes: seq<Result<T, Raised>>, k: nat)
    requires k < |outcomes|
    requires Collect(outcomes[..k]).Success?
    requires outcomes[k].Failure?
    ensures Collect(outcomes) == Failure(outcomes[k].error)
    decreases |outcomes|
  {
    var n := |outcomes|;
    var init := outcomes[..n - 1];
    if k < n - 1 {
      assert init[..k] == outcomes[..k];
      FirstFailureWins(init, k);
    } else {
      assert init == outcomes[..k];
    }
  }

  /** When no outcome is an exception, the loop collects every value, in order. */
  lemma {:induction false} CollectInOrder<T>(outcomes: seq<Result<T, Raised>>)
    requires forall j :: 0 <= j < |outcomes| ==> outcomes[j].Success?
    ensures Collect(outcomes).Success? && |Collect(outcomes).value| == |outcomes|
    ensures forall j :: 0 <= j < |outcomes| ==> Collect(outcomes).value[j] == outcomes[j].value
    decreases |outcomes|
  {
    if outcomes != [] {
      var init := outcomes[..|outcomes| - 1];
      CollectInOrder(init);
    }
  }

  /** The outcome of constructing each entry's Webhook. */
  function Outcomes(entries: seq<Json>): (r: seq<Result<Webhook, Raised>>)
    ensures |r| == |entries| && forall j :: 0 <= j < |entries| ==> r[j] == EntryOutcome(entries[j])
  {
    seq(|entries|, j requires 0 <= j < |entries| => EntryOutcome(entries[j]))
  }

  /** The list the loop of get_webhook_list builds from the entries. */
  function BuildWebhooks(entries: seq<Json>): Result<seq<Webhook>, Raised>
  {
    Collect(Outcomes(entries))
  }

  /** Since no Webhook can be constructed, the list is built only from no entries at all. */
  lemma {:induction false} BuildSucceedsOnlyWhenEmpty(entries: seq<Json>)
    ensures BuildWebhooks(entries).Success? <==> entries == []
  {
    if entries != [] {
      var e := entries[0];
      if e.JObject? {
        ConstructionAlwaysRaises(Lookup(e.fields, "user_id", JString("")), Lookup(e.fields, "event", JString("")));
      }
      var outcomes := Outcomes(entries);
      assert outcomes[0].Failure?;
      assert outcomes[..0] == [];
      FirstFailureWins(outcomes, 0);
    }
  }

  /** What `get_webhook_list` returns for a decoded body: the total count and the Webhooks. */
  function ListOutcome(data: Json): (r: Result<(Json, seq<Webhook>), Raised>)
    ensures ErrorCheck(data).Some? ==> r == Failure(ErrorCheck(data).value)
    ensures ErrorCheck(data).None? && Iterate(Lookup(data.fields, "webhooks", JArray([]))).Failure? ==>
              r == Failure(Iterate(Lookup(data.fields, "webhooks", JArray([]))).error)
    ensures r.Success? ==> ErrorCheck(data).None? && r.value.0 == Lookup(data.fields, "all_count", JInt(0))
  {
    match ErrorCheck(data)
    case Some(e) => Failure(e)
    case None =>
      var entries :- Iterate(Lookup(data.fields, "webhooks", JArray([])));
      var webhooks :- BuildWebhooks(entries);
      Success((Lookup(data.fields, "all_count", JInt(0)), webhooks))
  }

  /**
   * A body without an error yields the count unchanged (0 when absent) only
   * when it lists no webhooks; a listed entry always makes the call raise.
   */
  lemma ListOutcomeShape(fields: map<string, Json>)
    requires "error" in fields ==> !Truthy(fields["error"])
    ensures ListOutcome(JObject(fields)).Success? ==> ListOutcome(JObject(fields)).value.1 == []
    ensures ListOutcome(JObject(fields)).Success? ==>
              ListOutcome(JObject(fields)).value.0 == (if "all_count" in fields then fields["all_count"] else JInt(0))
    ensures "webhooks" !in fields ==>
              ListOutcome(JObject(fields)) == Success((if "all_count" in fields then fields["all_count"] else JInt(0), []))
    ensures "webhooks" in fields && fields["webhooks"].JArray? && fields["webhooks"].items != [] ==>
              ListOutcome(JObject(fields)).Failure?
  {
    FalsyErrorIgnored(fields);
    if "webhooks" in fields && Iterate(fields["webhooks"]).Success? {
      BuildSucceedsOnlyWhenEmpty(Iterate(fields["webhooks"]).value);
    }
  }

  /** The first listed entry aborts the call: its own construction exception is the call's. */
  lemma FirstEntryAborts(fields: map<string, Json>, entries: seq<Json>)
    requires "error" in fields ==> !Truthy(fields["error"])
    requires "webhooks" in fields && fields["webhooks"] == JArray(entries) && entries != []
    ensures EntryOutcome(entries[0]).Failure?
    ensures ListOutcome(JObject(fields)) == Failure(EntryOutcome(entries[0]).error)
  {
    FalsyErrorIgnored(fields);
    var e := entries[0];
    if e.JObject? {
      ConstructionAlwaysRaises(Lookup(e.fields, "user_id", JString("")), Lookup(e.fields, "event", JString("")));
    }
    var outcomes := Outcomes(entries);
    assert outcomes[..0] == [];
    FirstFailureWins(outcomes, 0);
  }

  /** The sample body of two registered webhooks raises RecursionError while building the first. */
  lemma SampleListRaises()
    ensures ListOutcome(JObject(map[
              "all_count" := JInt(2),
              "webhooks" := JArray([
                JObject(map["user_id" := JString("7134775954"), "event" := JString("livestart")]),
                JObject(map["user_id" := JString("7134775954"), "event" := JString("liveend")])])]))
            == Failure(RecursionError)
  {
    var first := JObject(map["user_id" := JString("7134775954"), "event" := JString("livestart")]);
    var entries := [first, JObject(map["user_id" := JString("7134775954"), "event" := JString("liveend")])];
    ConstructionAlwaysRaises(JString("7134775954"), JString("livestart"));
    var outcomes := Outcomes(entries);
    assert outcomes[0] == Failure(RecursionError);
    assert outcomes[..0] == [];
    FirstFailureWins(outcomes, 0);
  }

  /**
   * The part of `get_webhook_list` after the response is decoded: the error
   * check, then the loop that appends one Webhook per listed entry.
   */
  method ReadWebhookList(response: Json) returns (outcome: Result<(Json, seq<Webhook>), Raised>)
    ensures outcome == ListOutcome(response)
  {
    var error := ErrorCheck(response);
    if error.Some? {
      return Failure(error.value);
    }
    var fields := response.fields;
    var allCount := if "all_count" in fields then fields["all_count"] else JInt(0);
    var entriesData := if "webhooks" in fields then fields["webhooks"] else JArray([]);
    var entries := Iterate(entriesData);
    if entries.Failure? {
      return Failure(entries.error);
    }
    var webhooks := AppendWebhooks(entries.value);
    if webhooks.Failure? {
      return Failure(webhooks.error);
    }
    return Success((allCount, webhooks.value));
  }

  /** The `for` loop of get_webhook_list: one `webhooks.append(Webhook(...))` per entry, in order. */
  method AppendWebhooks(entries: seq<Json>) returns (r: Result<seq<Webhook>, Raised>)
    ensures r == BuildWebhooks(entries)
  {
    ghost var outcomes := Outcomes(entries);
    var webhooks: seq<Webhook> := [];
    var i := 0;
    while i < |entries|
      invariant 0 <= i <= |entries|
      invariant Collect(outcomes[..i]) == Success(webhooks)
    {
      var webhook := EntryOutcome(entries[i]);
      assert outcomes[..i + 1][..i] == outcomes[..i];
      if webhook.Failure? {
        FirstFailureWins(outcomes, i);
        return Failure(webhook.error);
      }
      webhooks := webhooks + [webhook.value];
      i := i + 1;
    }
    assert outcomes[..i] == outcomes;
    return Success(webhooks);
  }

  /** `get_webhook_list(mode, ...)`: the headers, then the GET of the list URL. */
  method GetWebhookList(mode: string, accessToken: Option<string>, clientId: Option<string>,
                        clientSecret: Option<string>, userId: Option<string>, limit: int, offset: int,
                        response: Json) returns (r: Call<(Json, seq<Webhook>)>)
    ensures r.NotSent? <==> mode != "bearer" && mode != "basic"
    ensures r.NotSent? ==> r.error == ValueError("Invalid authorization mode. Use 'bearer' or 'basic'.")
    ensures r.Sent? ==> r.request.verb == "GET" && r.request.url == ListUrl(userId, limit, offset) && r.request.body.None?
    ensures r.Sent? ==> r.request.headers == StandardHeaders(WebhookAuthorization(mode, accessToken, clientId, clientSecret))
    ensures r.Sent? ==> r.outcome == ListOutcome(response)
  {
    var headers := WebhookHeaders(mode, accessToken, clientId, clientSecret);
    if headers.Failure? {
      return NotSent(headers.error);
    }
    var url := BaseUrl + "/webhooks?limit=" + IntToDecimal(limit) + "&offset=" + IntToDecimal(offset);
    if userId.Some? && userId.value != "" {
      url := url + "&user_id=" + userId.value;
    }
    var request := Request("GET", url, headers.value, None);
    var outcome := ReadWebhookList(response);
    return Sent(request, outcome);
  }

  /** The JSON body register_webhook posts: the user id and the list of event names. */
  function RegisterBody(userId: string, events: seq<string>): (body: Json)
    ensures body.JObject? && body.fields.Keys == {"user_id", "events"}
    ensures body.fields["user_id"] == JString(userId)
    ensures body.fields["events"].JArray? && |body.fields["events"].items| == |events|
    ensures forall k :: 0 <= k < |events| ==> body.fields["events"].items[k] == JString(events[k])
  {
    JObject(map["user_id" := JString(userId), "events" := JArray(seq(|events|, k requires 0 <= k < |events| => JString(events[k])))])
  }

  /**
   * What register_webhook and delete_webhook return for a decoded body: its
   * user_id (default "") and events (default []), whatever was sent.
   */
  function ServerReply(data: Json): (r: Result<(Json, Json), Raised>)
    ensures r.Failure? <==> ErrorCheck(data).Some?
    ensures r.Failure? ==> r.error == ErrorCheck(data).value
    ensures r.Success? ==> r.value.0 == Lookup(data.fields, "user_id", JString(""))
                           && r.value.1 == Lookup(data.fields, "events", JArray([]))
  {
    match ErrorCheck(data)
    case Some(e) => Failure(e)
    case None =>
      Success((Lookup(data.fields, "user_id", JString("")), Lookup(data.fields, "events", JArray([]))))
  }

  /**
   * A reply that echoes the registration body gives back the registered user
   * id and events; a reply without an error yields its own two keys (with
   * their defaults), never the arguments of the call.
   */
  lemma ServerReplyReadsTheBody(userId: string, events: seq<string>, fields: map<string, Json>)
    ensures ServerReply(RegisterBody(userId, events)) == Success((JString(userId), RegisterBody(userId, events).fields["events"]))
    ensures ("error" in fields ==> !Truthy(fields["error"])) ==>
              ServerReply(JObject(fields)) == Success((FieldOr(fields, "user_id", Str), if "events" in fields then fields["events"] else JArray([])))
  {
    if "error" in fields ==> !Truthy(fields["error"]) {
      FalsyErrorIgnored(fields);
    }
  }

  /** `register_webhook(mode, user_id, events, ...)`: a POST of the JSON body to /webhooks. */
  method RegisterWebhook(mode: string, userId: string, events: seq<string>, accessToken: Option<string>,
                         clientId: Option<string>, clientSecret: Option<string>, response: Json)
    returns (r: Call<(Json, Json)>)
    ensures r.NotSent? <==> mode != "bearer" && mode != "basic"
    ensures r.NotSent? ==> r.error == ValueError("Invalid authorization mode. Use 'bearer' or 'basic'.")
    ensures r.Sent? ==> r.request.verb == "POST" && r.request.url == BaseUrl + "/webhooks"
    ensures r.Sent? ==> r.request.body == Some(RegisterBody(userId, events))
    ensures r.Sent? ==> r.request.headers == StandardHeaders(WebhookAuthorization(mode, accessToken, clientId, clientSecret))
    ensures r.Sent? ==> r.outcome == ServerReply(response)
  {
    var headers := WebhookHeaders(mode, accessToken, clientId, clientSecret);
    if headers.Failure? {
      return NotSent(headers.error);
    }
    var request := Request("POST", BaseUrl + "/webhooks", headers.value, Some(RegisterBody(userId, events)));
    return Sent(request, ServerReply(response));
  }

  /** `delete_webhook(mode, user_id, ...)`: a DELETE of /webhooks with the user id as the query. */
  method DeleteWebhook(mode: string, userId: string, accessToken: Option<string>, clientId: Option<string>,
                       clientSecret: Option<string>, response: Json) returns (r: Call<(Json, Json)>)
    ensures r.NotSent? <==> mode != "bearer" && mode != "basic"
    ensures r.NotSent? ==> r.error == ValueError("Invalid authorization mode. Use 'bearer' or 'basic'.")
    ensures r.Sent? ==> r.request == Request("DELETE", BaseUrl + "/webhooks?user_id=" + userId, r.request.headers, None)
    ensures r.Sent? ==> r.request.headers == StandardHeaders(WebhookAuthorization(mode, accessToken, clientId, clientSecret))
    ensures r.Sent? ==> r.outcome == ServerReply(response)
  {
    var headers := WebhookHeaders(mode, accessToken, clientId, clientSecret);
    if headers.Failure? {
      return NotSent(headers.error);
    }
    var request := Request("DELETE", BaseUrl + "/webhooks?user_id=" + userId, headers.value, None);
    return Sent(request, ServerReply(response));
  }

  /**
   * The Movie of a notification: each of the 21 arguments read from the
   * `movie` sub-object with the default of its annotation.
   */
  function MovieFromJson(d: Json): (r: Result<Movie, Raised>)
    ensures r.Success? <==> d.JObject?
    ensures r.Failure? ==> r.error == AttributeError(TypeName(d))
  {
    match d
    case JObject(f) =>
      Success(Movie(
        id := if "id" in f then f["id"] else JString(""),
        userId := if "user_id" in f then f["user_id"] else JString(""),
        title := if "title" in f then f["title"] else JString(""),
        subtitle := if "subtitle" in f then f["subtitle"] else JNull,
        lastOwnerComment := if "last_owner_comment" in f then f["last_owner_comment"] else JNull,
        category := if "category" in f then f["category"] else JNull,
        link := if "link" in f then f["link"] else JString(""),
        isLive := if "is_live" in f then f["is_live"] else JBool(false),
        isRecorded := if "is_recorded" in f then f["is_recorded"] else JBool(false),
        commentCount := if "comment_count" in f then f["comment_count"] else JInt(0),
        largeThumbnail := if "large_thumbnail" in f then f["large_thumbnail"] else JString(""),
        smallThumbnail := if "small_thumbnail" in f then f["small_thumbnail"] else JString(""),
        country := if "country" in f then f["country"] else JString(""),
        duration := if "duration" in f then f["duration"] else JInt(0),
        created := if "created" in f then f["created"] else JInt(0),
        isCollabo := if "is_collabo" in f then f["is_collabo"] else JBool(false),
        isProtected := if "is_protected" in f then f["is_protected"] else JBool(false),
        maxViewCount := if "max_view_count" in f then f["max_view_count"] else JInt(0),
        currentViewCount := if "current_view_count" in f then f["current_view_count"] else JInt(0),
        totalViewCount := if "total_view_count" in f then f["total_view_count"] else JInt(0),
        hlsUrl := if "hls_url" in f then f["hls_url"] else JNull))
    case _ => Failure(AttributeError(TypeName(d)))
  }

  /** Each field is read under its schema key with the default of its annotation. */
  lemma MovieFromJsonReadsSchema(f: map<string, Json>, i: int)
    requires 0 <= i < |MovieSchema|
    ensures MovieFields(MovieFromJson(JObject(f)).value)[i] == FieldOr(f, MovieSchema[i].0, MovieSchema[i].1)
  {
    if i < 4 {
    } else if i < 7 {
    } else if i < 11 {
    } else if i < 14 {
    } else if i < 18 {
    } else {
    }
  }

  /** `{}` gives '', '', '', None, None, None, '', False, False, 0, '', '', '', 0, 0, False, False, 0, 0, 0 and None. */
  lemma MovieDefaults()
    ensures MovieFromJson(EmptyObject) == Success(Movie(
              JString(""), JString(""), JString(""), JNull, JNull, JNull, JString(""), JBool(false), JBool(false),
              JInt(0), JString(""), JString(""), JString(""), JInt(0), JInt(0), JBool(false), JBool(false),
              JInt(0), JInt(0), JInt(0), JNull))
  {
  }

  /** Reading back an object that has every key gives every value unchanged, null included. */
  lemma MovieRoundTrip(m: Movie, f: map<string, Json>)
    requires forall i :: 0 <= i < |MovieSchema| ==> MovieSchema[i].0 in f && f[MovieSchema[i].0] == MovieFields(m)[i]
    ensures MovieFromJson(JObject(f)) == Success(m)
  {
    var r := MovieFromJson(JObject(f)).value;
    forall i | 0 <= i < |MovieSchema| ensures MovieFields(r)[i] == MovieFields(m)[i] {
      MovieFromJsonReadsSchema(f, i);
    }
    assert MovieFields(r) == MovieFields(m);
    ConstructionStoresArguments(MovieFields(m));
  }

  /** If every key that is present holds a value of its annotated type, so does every field. */
  lemma MovieFromJsonConforms(f: map<string, Json>)
    requires forall i :: 0 <= i < |MovieSchema| && MovieSchema[i].0 in f ==> HasType(f[MovieSchema[i].0], MovieSchema[i].1)
    ensures MovieFromJson(JObject(f)).Success? && MovieConforms(MovieFromJson(JObject(f)).value)
  {
    var m := MovieFromJson(JObject(f)).value;
    forall i | 0 <= i < |MovieSchema| ensures HasType(MovieFields(m)[i], MovieSchema[i].1) {
      MovieFromJsonReadsSchema(f, i);
    }
  }

  /**
   * `parse_webhook_data(data, signature)` on the decoded notification: a
   * falsy body is rejected, a non-empty signature must equal the body's,
   * then the Movie and the User are read from their sub-objects.
   */
  function ParseWebhookData(data: Json, signature: Option<string>): (r: Result<(Movie, User), Raised>)
    ensures !Truthy(data) ==> r == Failure(ValueError("Invalid data"))
    ensures Truthy(data) && !data.JObject? ==> r == Failure(AttributeError(TypeName(data)))
    ensures r.Success? && signature.Some? && signature.value != "" ==>
              "signature" in data.fields && data.fields["signature"] == JString(signature.value)
  {
    if !Truthy(data) then Failure(ValueError("Invalid data"))
    else
      match data
      case JObject(fields) =>
        // a str is `==` only to the same str (PyEqString), so `!=` is inequality of decoded values
        if signature.Some? && signature.value != "" && Lookup(fields, "signature", JString("")) != JString(signature.value) then
          Failure(ValueError("Invalid signature"))
        else
          var movie :- MovieFromJson(Lookup(fields, "movie", EmptyObject));
          var user :- UserFromJson(Lookup(fields, "user", EmptyObject));
          Success((movie, user))
      // the first `.get`, of "signature" or of "movie", needs a dict
      case _ => Failure(AttributeError(TypeName(data)))
  }

  /**
   * Once the body is a non-empty dict and the signature check passes, the
   * Movie is read from `movie` and then the User from `user`, each `{}` when
   * absent; a sub-object that is not a dict raises AttributeError, `movie`'s first.
   */
  lemma ParseReadsSections(fields: map<string, Json>, signature: Option<string>)
    requires fields != map[]
    requires signature.None? || signature.value == "" || Lookup(fields, "signature", JString("")) == JString(signature.value)
    ensures var movie, user := Lookup(fields, "movie", EmptyObject), Lookup(fields, "user", EmptyObject);
            && (!movie.JObject? ==> ParseWebhookData(JObject(fields), signature) == Failure(AttributeError(TypeName(movie))))
            && (movie.JObject? && !user.JObject? ==>
                  ParseWebhookData(JObject(fields), signature) == Failure(AttributeError(TypeName(user))))
            && (movie.JObject? && user.JObject? ==>
                  ParseWebhookData(JObject(fields), signature) == Success((MovieFromJson(movie).value, UserFromJson(user).value)))
  {
  }

  /** A notification carrying its signature and both sub-objects. */
  function Notification(movie: Json, user: Json, signature: string): Json
  {
    JObject(map["signature" := JString(signature), "movie" := movie, "user" := user])
  }

  /**
   * A notification whose sub-objects carry every field of a Movie and a User
   * parses back to exactly them, with or without the signature check.
   */
  lemma ParseRoundTrip(m: Movie, u: User, movie: map<string, Json>, signature: string)
    requires forall i :: 0 <= i < |MovieSchema| ==> MovieSchema[i].0 in movie && movie[MovieSchema[i].0] == MovieFields(m)[i]
    ensures ParseWebhookData(Notification(JObject(movie), UserToJson(u), signature), Some(signature)) == Success((m, u))
    ensures ParseWebhookData(Notification(JObject(movie), UserToJson(u), signature), None) == Success((m, u))
  {
    MovieRoundTrip(m, movie);
    UserRoundTrip(u);
    var fields := Notification(JObject(movie), UserToJson(u), signature).fields;
    assert Lookup(fields, "signature", JString("")) == JString(signature);
    assert Lookup(fields, "movie", EmptyObject) == JObject(movie);
    assert Lookup(fields, "user", EmptyObject) == UserToJson(u);
  }

  /** A non-empty signature that the body does not carry, or carries differently, is rejected. */
  lemma SignatureMismatchRejected(fields: map<string, Json>, signature: string)
    requires fields != map[] && signature != ""
    requires !("signature" in fields && fields["signature"] == JString(signature))
    ensures ParseWebhookData(JObject(fields), Some(signature)) == Failure(ValueError("Invalid signature"))
  {
    var stored := if "signature" in fields then fields["signature"] else JString("");
    PyEqString(signature, stored);
  }

  /** An empty or matching signature gives the same result as no signature at all. */
  lemma SignatureCheckTransparent(data: Json, signature: string)
    requires signature == "" || (data.JObject? && "signature" in data.fields && data.fields["signature"] == JString(signature))
    ensures ParseWebhookData(data, Some(signature)) == ParseWebhookData(data, None)
  {
  }

  /**
   * Missing `movie` and `user` sub-objects read as `{}`, so any non-empty
   * dict without them parses to the all-defaults Movie and User.
   */
  lemma MissingSectionsDefault(fields: map<string, Json>)
    requires fields != map[] && "movie" !in fields && "user" !in fields
    ensures ParseWebhookData(JObject(fields), None) == Success((MovieFromJson(EmptyObject).value, UserFromJson(EmptyObject).value))
  {
  }

  /** Well-typed sub-objects give a Movie and a User that conform to their annotations. */
  lemma ParsedRecordsConform(data: Json, signature: Option<string>, movie: map<string, Json>, user: map<string, Json>)
    requires data.JObject? && "movie" in data.fields && data.fields["movie"] == JObject(movie)
    requires "user" in data.fields && data.fields["user"] == JObject(user)
    requires forall i :: 0 <= i < |MovieSchema| && MovieSchema[i].0 in movie ==> HasType(movie[MovieSchema[i].0], MovieSchema[i].1)
    requires forall i :: 0 <= i < |UserSchema| && UserSchema[i].0 in user ==> HasType(user[UserSchema[i].0], UserSchema[i].1)
    requires ParseWebhookData(data, signature).Success?
    ensures MovieConforms(ParseWebhookData(data, signature).value.0)
    ensures UserConforms(ParseWebhookData(data, signature).value.1)
  {
    MovieFromJsonConforms(movie);
    UserFromJsonConforms(user);
  }

  /** Concrete notifications: a matching and a wrong signature, and an empty body. */
  lemma ParseExamples()
    ensures ParseWebhookData(JObject(map["movie" := EmptyObject, "user" := EmptyObject, "signature" := JString("abc")]), Some("abc")).Success?
    ensures ParseWebhookData(JObject(map["movie" := EmptyObject, "user" := EmptyObject, "signature" := JString("abc")]), Some("xyz"))
         == Failure(ValueError("Invalid signature"))
    ensures ParseWebhookData(EmptyObject, Some("abc")) == Failure(ValueError("Invalid data"))
    ensures ParseWebhookData(JArray([JInt(1)]), None) == Failure(AttributeError("list"))
  {
    var fields := map["movie" := EmptyObject, "user" := EmptyObject, "signature" := JString("abc")];
    assert Lookup(fields, "signature", JString("")) == JString("abc");
    assert Lookup(fields, "movie", EmptyObject) == EmptyObject;
    assert Lookup(fields, "user", EmptyObject) == EmptyObject;
    assert JString("abc") != JString("xyz") by { assert "abc"[0] != "xyz"[0]; }
  }
}
