# pytwitcasapi client core in Dafny

This project models the request/response layer of pytwitcasapi, a Python client for the TwitCasting API (version 2). It covers four parts:

- **Platform error table.** `exceptions.py` maps fourteen platform error codes to a label, a detail text and an exception class.
- **User records and user calls.** `user.py` defines the `User` and `App` records. Its two calls, `get_user_info` and `_verify_credential`, select an Authorization header (Basic or Bearer) and read the decoded response body.
- **Webhooks.** `webhook.py` defines the `Webhook` record and its validation. Its three subscription calls list, register and delete webhooks. `parse_webhook_data` parses an incoming notification into a `Movie` and a `User`.
- **Movie record.** `movie.py` defines the `Movie` record of 21 fields.

The model works on decoded JSON (`JsonValues.Json`). The HTTP transport is not modelled: each call is a `Call` value. A call either raises before any request exists (`NotSent`), or it sends a `Request` and then turns the decoded response body into a value or an exception (`Sent`). Python exceptions are the `Raised` datatype.

Some Python behaviour is written out explicitly:

- Python `==` is `PyEq`, where `True == 1`.
- Python truthiness is `Truthy`.
- `dict.get` is `Get`, which raises `AttributeError` on a value that is not a dict.

Modules:

- `Wrappers`: the `Option` and `Result` types.
- `Encoding`: three encodings, each with a round-trip lemma:
  - decimal text of integers;
  - UTF-8;
  - Base64 as defined in section 4 of RFC 4648.
- `Exceptions`: `ERROR_CODES_DICT` and the exception kinds.
- `JsonValues`: decoded values and Python's `get`, `==` and truthiness on them.
- `Api`: what the two call modules share:
  - the request shape;
  - Basic credentials (section 2 of RFC 7617);
  - the check of the body's `error` field.
- `Movies`, `Users`, `Webhooks`: one module per source file.

The model follows the code as written, including three behaviours a reader might not expect:

- **Unknown error code.** An `error` object whose code is not in the table does not raise a generic "unknown error". The code looks up the string "Unknown error" and then calls its third character, so it raises `TypeError`.
- **Constructing a Webhook.** `Webhook._validate` calls itself unconditionally, so no `Webhook` can ever be built. A listed entry therefore makes `get_webhook_list` raise `RecursionError` even when the entry is valid.
- **Present `null` values.** A field whose key is present with a `null` value keeps `null`; the default applies only to an absent key.

## Model

| member | source | states |
|---|---|---|
| Exceptions.CodeOf | twitcasting/exceptions.py:57-72 | every exception class of the table belongs to a code whose entry names that class |
| Exceptions.ErrorCodesDomain | twitcasting/exceptions.py:57-72 | the table has exactly the codes 1000-1002, 2000-2006, 400, 403, 404 and 500 |
| Exceptions.CodeOfInvertsTable | twitcasting/exceptions.py:57-72 | going from a code to its class and back gives the code |
| Exceptions.KindsInjective | twitcasting/exceptions.py:57-72 | two different codes never share an exception class |
| Exceptions.LabelsNonEmpty | twitcasting/exceptions.py:57-72 | every entry has a non-empty label and detail |
| Exceptions.SelectedEntries | twitcasting/exceptions.py:58-70 | codes 404, 2002 and 1000 carry "Not Found", "Protected" and "Invalid Token" with their own classes, and 404's detail is "コンテンツが見つからない" |
| JsonValues.Get | twitcasting/user.py:166-177 | `get` succeeds exactly on a dict; it returns the stored value for a present key, even null, and the default otherwise; any other value raises AttributeError naming its type |
| JsonValues.Truthy | twitcasting/user.py:161 | a decoded value is falsy exactly when it is None, False, 0, "", [] or {} |
| JsonValues.Lookup | twitcasting/webhook.py:120-121 | `get` on a known dict is `Get` succeeding with the same value |
| JsonValues.DefaultOf | twitcasting/user.py:169-176 | each annotation's default has that type and is falsy, and only `Optional[str]` defaults to None |
| JsonValues.PyEqReflexive | twitcasting/user.py:66 | Python `==` on decoded values is reflexive, through nested lists and dicts |
| JsonValues.PyEqSymmetric | twitcasting/user.py:66 | Python `==` on decoded values is symmetric |
| JsonValues.PyEqString | twitcasting/webhook.py:269 | a string is `==` only to the same string |
| JsonValues.PyEqBoolInt | twitcasting/user.py:66 | `True == 1` and `0 == False` although the decoded values differ |
| Encoding.IntToDecimalRoundTrip | twitcasting/webhook.py:90 | the decimal text put into the list URL reads back as the same integer, negatives included |
| Encoding.Utf8RoundTrip | twitcasting/user.py:135 | `str.encode()` of the credentials decodes back to the same string |
| Encoding.Base64RoundTrip | twitcasting/user.py:135 | `base64.b64encode` of any bytes decodes back to those bytes |
| Api.StandardHeaders | twitcasting/user.py:145-147 | the header dict has exactly Authorization, Accept ("application/json") and X-Api-Version ("2.0") |
| Api.ErrorFieldException | twitcasting/user.py:162-165 | a non-dict error raises AttributeError; the entry's class is raised exactly for an int code in the table, with "Error <code>: <label> - <detail>" and a class that identifies the code; any other dict raises TypeError |
| Api.ErrorCheck | twitcasting/user.py:160-165 | the body may be read exactly when it is a dict whose error field is absent or falsy; a non-dict body raises AttributeError, and a truthy error raises ErrorFieldException of that field |
| Api.BasicAuthorization | twitcasting/user.py:134-136 | the value is "Basic " followed by text that Base64-decodes to the UTF-8 bytes of `id:secret` |
| Api.BasicCredentialsRecoverable | twitcasting/user.py:134-136 | the Basic value starts with "Basic "; the rest decodes through Base64 and UTF-8 to `id:secret`, which splits back into the id and the secret when the id has no colon |
| Api.KnownCodeRaisesItsKind | twitcasting/user.py:160-165 | a truthy error whose code is in the table raises that entry's class with "Error <code>: <label> - <detail>", and the class identifies the code |
| Api.UnknownCodeCrashes | twitcasting/user.py:160-165 | a truthy error object whose code is absent, None, a string, a bool or an int outside the table raises TypeError "'str' object is not callable" |
| Api.FalsyErrorIgnored | twitcasting/user.py:160-161 | an absent or falsy error field lets the body be read |
| Api.ErrorCheckReadsOnlyError | twitcasting/webhook.py:114-119 | whether and what the error check raises depends on the error field alone |
| Api.ProtectedExample | twitcasting/exceptions.py:63 | `{"error": {"code": 2002}}` raises the Protected class |
| Movies.FromArguments | twitcasting/movie.py:10-57 | the constructor stores its 21 arguments unchanged, in order |
| Movies.OptionalParameters | twitcasting/movie.py:10 | subtitle, last_owner_comment, category and hls_url are exactly the `Optional[str]` parameters |
| Movies.ConstructionStoresArguments | twitcasting/movie.py:10-57 | any argument values construct a Movie, and it is the only Movie holding them |
| Users.UserEquals | twitcasting/user.py:54-66 | identical Users are always `==` |
| Users.UserEqualsLaws | twitcasting/user.py:54-66 | `User.__eq__` is reflexive and symmetric |
| Users.UserEqualsIsFieldwise | twitcasting/user.py:66 | two Users are equal exactly when each of the eight fields is `==` |
| Users.UserEqualsIsNotIdentity | twitcasting/user.py:66 | Users differing only in level 1 versus True are equal |
| Users.UserFromJson | twitcasting/user.py:166-177 | a User is read exactly when the sub-object is a dict, and any other value raises AttributeError naming its type |
| Users.UserFromJsonReadsSchema | twitcasting/user.py:168-177 | each field is read under its own key with the default of its annotation |
| Users.UserRoundTrip | twitcasting/user.py:168-177 | an object carrying every key reads back as the same User |
| Users.UserDefaults | twitcasting/user.py:168-177 | `{}` gives '', '', '', '', '', 0, False and None |
| Users.UserFromJsonConforms | twitcasting/user.py:13 | well-typed present keys give a User whose every field has its annotated type |
| Users.NewApp | twitcasting/user.py:73-95 | an App is built exactly when client_id, name and owner_user_id are all truthy, and stores them; otherwise it raises the ValueError |
| Users.UserHeaders | twitcasting/user.py:130-147 | headers exist exactly for basic with both client credentials or bearer with a token; the Authorization value matches the mode; each missing credential and an invalid mode raise their own ValueError |
| Users.UserInfoOutcome | twitcasting/user.py:160-180 | a raising error check is the result; otherwise it succeeds exactly when `user` (default `{}`) is a dict, and a non-dict `user` raises AttributeError naming its type |
| Users.GetUserInfo | twitcasting/user.py:130-180 | no request exists exactly when the headers raise, and then the headers' ValueError is raised; otherwise it is a body-less GET of /users/{user_id} carrying exactly the UserHeaders map, and the result is UserInfoOutcome of the body |
| Users.ValidationBeforeRequest | twitcasting/user.py:130-144 | a wrong mode or a missing credential raises in both user calls, whatever the server would answer |
| Users.CountsComeFromUserObject | twitcasting/user.py:166-180 | with no error and a `user` value that is a dict or absent (read as `{}`), the user and both counts (default 0) come from it, and the rest of the body is never read |
| Users.TopLevelCountsIgnored | twitcasting/user.py:178-179 | counts placed beside `user` at the top level read as 0 |
| Users.VerifyOutcome | twitcasting/user.py:228-255 | a raising error check is the result; success needs `app` and `user` (default `{}`) to be dicts; a non-dict `app` raises AttributeError naming its type |
| Users.VerifyCredential | twitcasting/user.py:198-255 | no request exists exactly when the headers raise, and then the headers' ValueError is raised; otherwise it is a body-less GET of /verify_credentials carrying exactly the UserHeaders map, and the result is VerifyOutcome of the body |
| Users.VerifyReturnsServerValues | twitcasting/user.py:234-255 | with no error, truthy app fields and a `user` value that is a dict or absent (read as `{}`), the result is the App of the `app` object's three values, the User read from `user`, and both counts from `user` (default 0) |
| Users.VerifyNeedsAppFields | twitcasting/user.py:234-240 | with no error, an `app` dict (`{}` when the key is absent) lacking a truthy client_id, name or owner_user_id makes verification raise the App ValueError |
| Users.VerifyNeedsUserObject | twitcasting/user.py:234-244 | with no error and a valid `app`, a `user` value that is not a dict raises AttributeError naming its type |
| Users.VerifiedAppIsValid | twitcasting/user.py:80-81 | a successful verification returns an App whose three fields are truthy |
| Users.HttpErrorMessage | twitcasting/user.py:152-155 | for every status the message is "Error ", the status in decimal, ": ", then the table's detail for a status in the table and "Unknown Error" otherwise |
| Users.HttpErrorStatusRecoverable | twitcasting/user.py:155 | the status parses back from the decimal text in the message |
| Users.HttpErrorMessageKnown | twitcasting/user.py:152-155 | every status in the table gives "Error <status>: " followed by that entry's detail |
| Users.HttpErrorMessageUnknown | twitcasting/user.py:152-155 | every status outside the table gives "Error <status>: Unknown Error" |
| Webhooks.Validate | twitcasting/webhook.py:14-27 | whenever `_validate` raises, it raises the first failed check's ValueError, or RecursionError when all checks pass |
| Webhooks.ValidateNeverReturns | twitcasting/webhook.py:14-27 | at every stack depth `_validate` raises: the first failed check's ValueError, or RecursionError |
| Webhooks.NewWebhook | twitcasting/webhook.py:29-39 | a constructed Webhook stores the two arguments, and a failed construction raises validation's exception |
| Webhooks.ConstructionAlwaysRaises | twitcasting/webhook.py:21-39 | every Webhook construction raises; RecursionError exactly for a truthy user id and the event "livestart" or "liveend", otherwise the ValueError of the first failed check |
| Webhooks.WebhookEquals | twitcasting/webhook.py:47-50 | identical Webhooks are always `==` |
| Webhooks.WebhookNotEquals | twitcasting/webhook.py:52-55 | identical Webhooks are never `!=` |
| Webhooks.WebhookEqualityLaws | twitcasting/webhook.py:47-55 | `__eq__` is reflexive and symmetric; `__ne__` is its negation, irreflexive and symmetric |
| Webhooks.WebhookEqualsIsNotIdentity | twitcasting/webhook.py:50 | a user id of 1 and one of True give equal Webhooks |
| Webhooks.WebhookHeaders | twitcasting/webhook.py:77-89 | headers exist exactly for "bearer" and "basic", and are exactly Authorization (the mode's value), Accept "application/json" and X-Api-Version "2.0"; any other mode raises the ValueError |
| Webhooks.WebhookAuthorization | twitcasting/webhook.py:77-85 | bearer gives "Bearer " and the token's text ("None" when missing); basic gives "Basic " and text that Base64-decodes to the UTF-8 bytes of `client_id:client_secret` |
| Webhooks.AuthorizationAgreesWithUsers | twitcasting/webhook.py:77-85 | wherever user.py accepts the credentials, webhook.py sends the same Authorization value |
| Webhooks.MissingCredentialsSentAsNone | twitcasting/webhook.py:80-84 | a missing token or client credential is sent as the text "None" |
| Webhooks.ListUrl | twitcasting/webhook.py:90-92 | the URL starts with the endpoint, then limit and offset in decimal, and has more only when the user id is non-empty |
| Webhooks.ListUrlFilter | twitcasting/webhook.py:90-92 | a non-empty user id appends exactly `&user_id=<id>` to the list URL; None and "" add nothing |
| Webhooks.Iterate | twitcasting/webhook.py:122 | iteration gives a list's items or a string's characters; an empty dict gives no items; None, bools and ints raise TypeError "'<type>' object is not iterable"; a non-empty dict raises the AttributeError of `.get` on its first key, a str |
| Webhooks.EntryOutcome | twitcasting/webhook.py:123-125 | a non-dict entry raises AttributeError naming its type; a dict entry gives the Webhook of its user_id and event (default ""), or that construction's validation exception |
| Webhooks.Outcomes | twitcasting/webhook.py:122-125 | each entry is turned into a Webhook construction of its user_id and event |
| Webhooks.FirstFailureWins | twitcasting/webhook.py:122-125 | once a prefix is collected, the next raising entry's exception is the loop's |
| Webhooks.CollectInOrder | twitcasting/webhook.py:122-125 | when no entry raises, the list holds every value in entry order |
| Webhooks.FirstEntryAborts | twitcasting/webhook.py:122-125 | with no error and a non-empty `webhooks` list, the first entry raises and its exception is the call's |
| Webhooks.BuildSucceedsOnlyWhenEmpty | twitcasting/webhook.py:122-125 | the Webhook list is built exactly when there are no entries |
| Webhooks.ListOutcome | twitcasting/webhook.py:113-126 | a raising error check is the result; a non-iterable `webhooks` (default []) raises its iteration error; success passes all_count (default 0) through |
| Webhooks.ListOutcomeShape | twitcasting/webhook.py:113-126 | without an error, success means no Webhooks and all_count unchanged (0 when absent); no `webhooks` key succeeds; a non-empty list raises |
| Webhooks.SampleListRaises | twitcasting/webhook.py:106-126 | the documented two-entry reply raises RecursionError |
| Webhooks.ReadWebhookList | twitcasting/webhook.py:113-126 | the error check, the iteration and the append loop return the body's ListOutcome |
| Webhooks.AppendWebhooks | twitcasting/webhook.py:122-125 | the append loop returns the Webhooks of all entries in order, or the first raising entry's exception |
| Webhooks.GetWebhookList | twitcasting/webhook.py:57-126 | an invalid mode raises before any request; otherwise a body-less GET of the list URL whose headers are exactly the mode's Authorization, Accept and X-Api-Version, and its result is ListOutcome of the body |
| Webhooks.RegisterBody | twitcasting/webhook.py:161-164 | the posted body has exactly user_id and events, holding the given id and event names in order |
| Webhooks.ServerReply | twitcasting/webhook.py:182-190 | the reply raises exactly when the error check does, with its exception; otherwise it returns the reply's user_id (default "") and events (default []) |
| Webhooks.ServerReplyReadsTheBody | twitcasting/webhook.py:182-190 | the reply's user_id and events are returned (defaults "" and []), and an echo of the posted body gives them back |
| Webhooks.RegisterWebhook | twitcasting/webhook.py:128-190 | an invalid mode raises; otherwise a POST of RegisterBody to /webhooks with exactly the mode's Authorization, Accept and X-Api-Version headers, and the result is read from the reply |
| Webhooks.DeleteWebhook | twitcasting/webhook.py:192-249 | an invalid mode raises; otherwise a body-less DELETE of /webhooks?user_id=<id> with exactly the mode's Authorization, Accept and X-Api-Version headers, and the result is read from the reply |
| Webhooks.MovieFromJson | twitcasting/webhook.py:271-294 | a Movie is read exactly when the sub-object is a dict, and any other value raises AttributeError naming its type |
| Webhooks.MovieFromJsonReadsSchema | twitcasting/webhook.py:272-294 | each of the 21 fields is read under its own key with the default of its annotation |
| Webhooks.MovieDefaults | twitcasting/webhook.py:272-294 | `{}` gives the annotated defaults: '', 0, False or None per field |
| Webhooks.MovieRoundTrip | twitcasting/webhook.py:271-294 | an object carrying every key reads back as the same Movie |
| Webhooks.MovieFromJsonConforms | twitcasting/movie.py:10 | well-typed present keys give a Movie whose every field has its annotated type |
| Webhooks.ParseWebhookData | twitcasting/webhook.py:265-306 | falsy data raises "Invalid data"; truthy data that is not a dict raises AttributeError; success with a non-empty signature means the body carries that same signature |
| Webhooks.ParseReadsSections | twitcasting/webhook.py:266-306 | for a non-empty dict that passes the signature check: a non-dict `movie` raises AttributeError first, then a non-dict `user`; otherwise the result is the Movie read from `movie` and the User from `user`, each `{}` when absent |
| Webhooks.ParseRoundTrip | twitcasting/webhook.py:265-306 | a notification carrying a full Movie, a full User and its signature parses back to exactly them, with or without the check |
| Webhooks.SignatureMismatchRejected | twitcasting/webhook.py:268-270 | a non-empty signature the body lacks or holds differently raises "Invalid signature" |
| Webhooks.SignatureCheckTransparent | twitcasting/webhook.py:268-270 | an empty or matching signature gives the same result as none |
| Webhooks.MissingSectionsDefault | twitcasting/webhook.py:271-305 | a non-empty dict without `movie` and `user` parses to the all-defaults Movie and User |
| Webhooks.ParsedRecordsConform | twitcasting/webhook.py:271-305 | well-typed sub-objects give a Movie and a User conforming to their annotations |
| Webhooks.ParseExamples | twitcasting/webhook.py:265-270 | the matching signature "abc" succeeds, "xyz" raises "Invalid signature", `{}` raises "Invalid data" and a list raises AttributeError |

## Left out

- **HTTP transport.** `urllib.request.urlopen`, `response.read().decode()` and `json.loads` are not modelled. Each call takes the decoded body as a parameter, and the raw notification text of `parse_webhook_data` arrives already decoded.
- **Transport-error handling.** The `except` handlers for HTTPError, URLError, JSONDecodeError and the catch-all `Exception` wrapper are not modelled. Only the message of user.py's HTTPError branch appears, as `HttpErrorMessage`. webhook.py's variant formats the whole table entry and is not modelled.
- **Floats in JSON.** Decoded JSON has no floats, so a float error code such as 404.0 (which Python would find in the table) is not modelled.
- **String conversions.** `__repr__` and `__str__` of User, App and Webhook only build display strings and are not modelled.
- **Comparison with other types.** `__eq__` and `__ne__` return `NotImplemented` for an operand of another class. The model compares only two Users or two Webhooks.
- **Movie equality.** Movie has no `__eq__`, so Python compares Movies by identity. The model's Movie is a value, and identity is not modelled.
- **Recursion depth.** The interpreter's stack is modelled as a budget of 1000 frames (`RecursionLimit`). Any budget gives the same result: `ValidateNeverReturns` holds at every depth.
- **Query strings.** The user id, limit and offset are put into the URL as plain text. There is no percent-encoding, exactly as the source's f-strings do it.
- **Default arguments.** Parameter defaults (`limit=50`, `offset=0` and the `None` credentials) are not modelled. The model always takes every argument explicitly.
- **Lone surrogates.** Dafny's `char` is a Unicode scalar value, so a credential string holding a lone surrogate cannot be expressed. For such a string Python's `str.encode()` raises UnicodeEncodeError, and the model does not capture that error.
- **Annotations.** Type annotations are not enforced at run time. They appear only as the `PyType` schemas and the `...Conforms` lemmas.
- **Signature check.** Only equality with the body's own `signature` field is modelled, as the source does it. No cryptographic authenticity is claimed.
