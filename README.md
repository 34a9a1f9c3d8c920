# engaging-networks-php: a Dafny model of the REST client

The library is a PHP client for the Engaging Networks Services (ENS) REST API. Its core is `Rest\Client`, which does four things:

- It obtains and caches an authentication token. The API key is posted to `authenticate`, which returns the token and its validity in milliseconds. The token is kept in memory and in an optional PSR-16 cache under `open_public_media.ens.rest.session_token`, and its expiry under `open_public_media.ens.rest.session_expire`. It is discarded from five minutes before expiry on.
- It sends requests with that token in an `ens-auth-token` header. It maps 404 and 204 to `NotFoundException`, and any other status but 200 to `ErrorException`.
- It decodes the JSON bodies.
- It builds the resource objects through their `fromJson` factories: `Page`, `PageRequestResult`, `Supporter`, `SupporterField` and `SupporterQuestion`. The string-backed enums come into this: the page type and status, the result type and status, the payment type and frequency, and the question type and HTML field type.

The model has the following parts:

- **The client.** It is a class (`Rest.Client`). Its mutable fields are the in-memory token and the cache. Every method is proved to return, and leave behind, exactly what a pure specification function gives for the state before the call:
  - `TokenSpec` for `getToken`;
  - `RequestSpec` for `request`;
  - `CallSpec` for `get` and `post`.
  The token and request properties are lemmas about those functions.
- **List endpoints.** Methods that walk a decoded list use a loop, as the source does. They are proved against the list functions of `Listing`.
- **Resources and enums.** These are datatypes and functions, one module per source file.
- **Exceptions and JSON.** `Exceptions` models the details the exception classes read from a response. `JsonValues` models decoded JSON and the rule by which a typed constructor parameter accepts a property.
- **Side effects.** HTTP traffic is a `transport` function supplied to the constructor. It stands in for the Guzzle client, its base URI and its options. The clock is a `now` parameter.

## Model

| member | source | states |
|---|---|---|
| Rest.Client.constructor | src/Rest/Client.php:57-69 | a new client holds the API key, the transport and the cache it was given, and no token |
| Rest.Client.GetToken | src/Rest/Client.php:76-111 | returns and leaves behind exactly what `TokenSpec` gives for the state before the call; the token properties below are lemmas about `TokenSpec` |
| Rest.Client.Request | src/Rest/Client.php:118-139 | returns and leaves behind exactly what `RequestSpec` gives: token header unless the endpoint starts with `authenticate`, then dispatch and classification |
| Rest.Client.Get | src/Rest/Client.php:148-152 | a `get` request whose decoded body must be an object or a list (`CallSpec`) |
| Rest.Client.Post | src/Rest/Client.php:161-165 | a `post` request whose decoded body must be an object or a list (`CallSpec`) |
| Rest.Client.GetPages | src/Rest/Client.php:174-182 | the loop builds exactly `PagesOf` of the decoded `page` response queried by type and status; the state is the request's |
| Rest.Client.GetPage | src/Rest/Client.php:189-192 | the decoded `page/<id>` response through `Page::fromJson`, or the request's error before it |
| Rest.Client.ProcessPage | src/Rest/Client.php:201-204 | posts the payload as JSON to `page/<id>/process` and decodes a PageRequestResult |
| Rest.Client.GetSupporterFields | src/Rest/Client.php:216-224 | the loop builds exactly `FieldsOf` of the decoded `supporter/fields` response |
| Rest.Client.GetSupporterQuestions | src/Rest/Client.php:233-241 | the loop builds exactly `QuestionsOf` of the decoded `supporter/questions` response |
| Rest.Client.GetSupporterQuestion | src/Rest/Client.php:251-258 | `QuestionDetailOf` of the decoded `supporter/questions/<id>` response |
| Rest.Client.BuildSupporterQuery | src/Rest/Client.php:265-281 | the query is `SupporterQuery` of the arguments, the one map with the promised keys and values |
| Rest.Client.GetSupporterById | src/Rest/Client.php:288-292 | requests `supporter/<id>` with the supporter query built without an email (`SupporterQuery(None, …)`) and decodes a Supporter |
| Rest.Client.GetSupporterByEmailAddress | src/Rest/Client.php:299-306 | requests `supporter` with the supporter query built from the address (`SupporterQuery(Some(address), …)`) and decodes a Supporter |
| Rest.ReadCache | src/Rest/Client.php:81-95 | a read fails exactly for a rejected key, as a RuntimeException; without a cache it reads `null`; otherwise the entry or the default |
| Rest.WriteCache | src/Rest/Client.php:102-103 | a write fails exactly for a rejected key, with the cache's own exception (not a RuntimeException); otherwise only that entry changes |
| Rest.Classify | src/Rest/Client.php:131-138 | succeeds exactly on status 200 with the response unchanged; otherwise raises what `Raise` gives, NotFoundException exactly for 404 and 204 |
| Rest.Raise | src/Rest/Client.php:131-136 | the ErrorException (a NotFoundException when asked) carrying reason, status and details, or the `TypeError` its constructor throws |
| Rest.Dispatch | src/Rest/Client.php:125-138 | a transport exception becomes a RuntimeException with its message; an answer is classified |
| Rest.AuthRequest | src/Rest/Client.php:98 | the authentication request posts the API key as the body to an endpoint starting with `authenticate`, without headers |
| Rest.IssuedToken | src/Rest/Client.php:99-100 | the issued token is the `ens-auth-token` string of a JSON-object response and null otherwise |
| Rest.IssuedMillis | src/Rest/Client.php:101 | the validity in milliseconds is the `expires` dividend of a JSON-object response (numeric strings included), 0 when the response is not an object |
| Rest.Candidate | src/Rest/Client.php:78-86 | a truthy in-memory token is taken without reading the cache; otherwise the cached token, or the read error |
| Rest.Settle | src/Rest/Client.php:106-110 | the cache is untouched, the returned token is the new in-memory token, loosely equal to the candidate and equal to it when truthy |
| Rest.Returned | src/Rest/Client.php:148-152 | a response body is returned exactly when it decodes to an object or a list; otherwise `TypeError` |
| Rest.ReuseIffValid | src/Rest/Client.php:88-97 | with readable keys, the token is reused without authenticating exactly when it is truthy and `now < expires - 300`; otherwise the client authenticates |
| Rest.NoExpiryAlwaysAuthenticates | src/Rest/Client.php:88-98 | without a cache, or with no expiry stored, every call authenticates |
| Rest.MemoryTokenShadowsCache | src/Rest/Client.php:78-86 | a truthy in-memory token is used even when the cache would reject the token key, and while valid nothing changes |
| Rest.ReadFailuresSurface | src/Rest/Client.php:81-95 | a rejected key on either read raises a RuntimeException and nothing changes |
| Rest.RefreshWritesBoth | src/Rest/Client.php:97-110 | after authentication the cache holds expiry `now + expires/1000` and the issued token, other entries unchanged, and the in-memory token equals the returned one |
| Rest.ResultIsStoredToken | src/Rest/Client.php:106-110 | after any successful call the in-memory token is the returned token |
| Rest.RefreshedTokenIsReused | src/Rest/Client.php:88-104 | a refreshed token is reused by a later call exactly while `later < now + expires/1000 - 300`, and refreshed after that |
| Rest.TokenWriteRejectedEscapesUnwrapped | src/Rest/Client.php:97-104 | a cache that rejects the token key on write makes the call raise the cache's own exception after the new expiry has been written |
| Rest.TokenIsStableWhileValid | src/Rest/Client.php:76-111 | a second call while the token is valid returns the same token and changes nothing |
| Rest.AuthenticateNeverRecurses | src/Rest/Client.php:120-123 | an endpoint starting with `authenticate` goes out unchanged, without a token and without touching the state |
| Rest.TokenHeaderInjected | src/Rest/Client.php:120-123 | any other request raises what `getToken` raises, or carries `ens-auth-token` set to the token with every other caller header kept |
| Rest.WithoutCacheEveryCallAuthenticates | src/Rest/Client.php:88-98 | without a cache no request creates one, so the next call authenticates again |
| Rest.NotFoundIsAnErrorException | src/Rest/Client.php:131-133 | 404 and 204 raise NotFoundException, an ErrorException with the reason as message and the status as code, unless a detail's `TypeError` comes first |
| Rest.OtherStatusIsAnErrorException | src/Rest/Client.php:134-136 | any other status but 200 raises ErrorException (or a detail's `TypeError`), never NotFoundException |
| Rest.EmptyQuestionIsNotFound | src/Rest/Client.php:254-256 | an empty question list raises NotFoundException with message `Not Found`, code 404 and no details |
| Rest.FieldsKeyedByName | src/Rest/Client.php:216-224 | every stored field sits under its own name and every decoded field's name has an entry |
| Rest.QuestionsKeyedById | src/Rest/Client.php:233-241 | every stored question sits under its own id and none has details |
| Rest.PagesInOrder | src/Rest/Client.php:177-181 | one page per list element, in order, each the element decoded by `Page::fromJson` |
| Rest.PagesOf | src/Rest/Client.php:176-181 | a list is decoded page by page; a JSON object is not iterated |
| Rest.FieldsOf | src/Rest/Client.php:219-222 | a list is decoded field by field and keyed by name |
| Rest.QuestionsOf | src/Rest/Client.php:236-239 | a list is decoded question by question and keyed by id |
| Rest.QuestionDetailOf | src/Rest/Client.php:253-257 | an empty list is not found (synthetic 404); otherwise the first element decoded with details |
| Rest.PageOf | src/Rest/Client.php:179 | a page factory argument that is not an object is a `TypeError` |
| Rest.FieldOf | src/Rest/Client.php:221 | a field factory argument that is not an object is a `TypeError` |
| Rest.QuestionOf | src/Rest/Client.php:238 | a question factory argument that is not an object is a `TypeError` |
| Rest.ProcessResultOf | src/Rest/Client.php:203 | the processing result is decoded from an object; anything else is a `TypeError` |
| Rest.SupporterOf | src/Rest/Client.php:291 | the supporter is decoded from an object; anything else is a `TypeError` |
| Rest.QueryOptions | src/Rest/Client.php:291 | the built query is sent as the `query` option, key for key |
| Rest.SupporterQueryUnique | src/Rest/Client.php:265-281 | a map keeps the promise of `buildSupporterQuery` exactly when it is the built query |
| Rest.SupporterQuery | src/Rest/Client.php:270-280 | `email` is present exactly when the address is truthy and holds it; `includeMemberships`/`includeQuestions` are present exactly when their flag is set and hold `'true'`; no other key |
| Http.WithToken | src/Rest/Client.php:122 | the token header is set to the token, every other caller header is kept, and there is no other header |
| Listing.DecodeAll | src/Rest/Client.php:177-181 | a decoded list has one element per item, each the item decoded |
| Listing.KeyedAll | src/Rest/Client.php:218-223 | every item decodes, every decoded key has an entry, and every entry sits under its own key |
| Listing.FirstFailureWins | src/Rest/Client.php:178-180 | the first item that fails to decode is the error of the whole list |
| Listing.FirstKeyedFailureWins | src/Rest/Client.php:220-222 | the first item that fails to decode is the error of the whole keyed array |
| Listing.DecodeAllSucceedsIff | src/Rest/Client.php:178-180 | the list decodes exactly when every item does |
| Listing.KeyedAllKeys | src/Rest/Client.php:220-222 | the keys of the array are exactly the keys of the decoded items |
| Listing.KeyedAllLastWins | src/Rest/Client.php:220-222 | the value under a key is the last decoded item with that key |
| Exceptions.DetailText | src/Rest/Exception/ErrorException.php:21-22 | null unless the body is a JSON object; otherwise the property as the `?string` property takes it |
| Exceptions.DetailInt | src/Rest/Exception/ErrorException.php:23 | null unless the body is a JSON object; otherwise `messageId` as the `?int` property takes it |
| Exceptions.StringProperty | src/Rest/Exception/ErrorException.php:14-15 | a `?string` property without strict types keeps a string, takes an integer's decimal text and a boolean's `"1"`/`""`, and throws `TypeError` exactly for an array or object |
| Exceptions.IntProperty | src/Rest/Exception/ErrorException.php:16 | a `?int` property without strict types keeps an integer, takes 0/1 for a boolean, truncates a float and converts an integral numeric string; it throws `TypeError` exactly for an array, an object or another string |
| Exceptions.Truncate | src/Rest/Exception/ErrorException.php:16 | float-to-int conversion rounds toward zero |
| Exceptions.IntegerTextDetailReadsBack | src/Rest/Exception/ErrorException.php:14-16 | an integer stored as text in a `?string` property parses back to that integer, and an `?int` property takes that text as the integer |
| Exceptions.CompoundDetailThrows | src/Rest/Exception/ErrorException.php:21-23 | an array or object under any of the three detail keys makes `new ErrorException` throw `TypeError` |
| Exceptions.NumericMessageIdConverts | src/Rest/Exception/ErrorException.php:23 | a `messageId` sent as the text of an integer is stored as that integer |
| Exceptions.WithDetails | src/Rest/Exception/ErrorException.php:20-24 | succeeds exactly when each of the three assignments succeeds, the first failing one being the error; then message and code as given and the three converted details |
| Exceptions.ErrorExceptionOf | src/Rest/Exception/ErrorException.php:18-25 | message is the reason phrase and code the status; a body that is not a JSON object leaves all details null; otherwise it throws exactly when a detail does not convert, and holds the converted details |
| Exceptions.RequestExceptionOf | src/Rest/Exception/RequestException.php:18-32 | message is the reason phrase for a JSON body and the raw body text (with no details) otherwise; code is the status; details converted as for ErrorException |
| Exceptions.RequestAndErrorExceptionAgree | src/Rest/Exception/RequestException.php:20-31 | the two constructors throw for the same bodies with the same error; otherwise they agree on code and details, and on the message exactly when the body is JSON or equals the reason |
| Exceptions.SyntheticNotFoundHasNoDetails | src/Rest/Client.php:255 | the synthetic `Response(404)` gives message `Not Found`, code 404 and no details |
| Exceptions.FieldNotFoundMessage | src/Rest/Exception/SupporterFieldNotFoundException.php:15 | the message is `Field '`, the name, then `' not found in supporter fields.` |
| Exceptions.FieldNotFoundMessageInjective | src/Rest/Exception/SupporterFieldNotFoundException.php:15 | distinct field names give distinct messages |
| Exceptions.FieldNotFound.Message | src/Rest/Exception/SupporterFieldNotFoundException.php:13-16 | the exception's message names its field |
| Exceptions.FieldNotFound.GetFieldName | src/Rest/Exception/SupporterFieldNotFoundException.php:18-21 | returns the name the exception was built with |
| SupporterResource.Supporter.GetFields | src/Rest/Resource/Supporter.php:65-68 | the field map, or a `TypeError` when it is null |
| SupporterResource.Supporter.GetField | src/Rest/Resource/Supporter.php:70-76 | the stored value exactly when the name is set and not null; otherwise the not-found exception carrying that name |
| SupporterResource.CustomFields | src/Rest/Resource/Supporter.php:29-36 | every property except the five unset keys, with its value |
| SupporterResource.OptionalList | src/Rest/Resource/Supporter.php:42-43 | null when the property is absent, otherwise the property as a `?array` |
| SupporterResource.Decode | src/Rest/Resource/Supporter.php:27-45 | copies `supporterId`, `suppressed` and `Email Address`; fields are the custom fields or null when none remain; memberships and questions optional; success exactly when the kinds fit |
| SupporterResource.FromJson | src/Rest/Resource/Supporter.php:27-45 | the key-by-key unset on a copy yields exactly `Decode` |
| SupporterResource.MembershipsStayInFields | src/Rest/Resource/Supporter.php:30-36 | a `memberships` property stays in the custom fields; `memberships]`, `questions` and `supporterId` never do |
| SupporterResource.FieldsNullIffOnlyStrippedKeys | src/Rest/Resource/Supporter.php:41 | the field map is null exactly when every property is an unset key |
| SupporterResource.GetFieldAfterDecode | src/Rest/Resource/Supporter.php:70-76 | a custom property that is set is found with its decoded value; an unset key or an absent name is not found |
| SupporterFieldResource.FromJson | src/Rest/Resource/SupporterField.php:21-24 | copies id, name, tag and property; succeeds exactly when each has its PHP kind, a bad id failing first |
| SupporterFieldResource.MarkerIsCaseSensitive | src/Rest/Resource/SupporterField.php:18 | for every tag: tagged exactly when the tag differs from `Not Tagged`, so the marker in another case, such as `not tagged`, counts as a tag |
| SupporterFieldResource.DecodedTag | src/Rest/Resource/SupporterField.php:12-24 | a decoded field is tagged exactly when its JSON tag is not `Not Tagged` |
| SupporterQuestionResource.SupporterQuestion.GetLocale | src/Rest/Resource/SupporterQuestion.php:83-86 | null on a summary, the loaded locale otherwise |
| SupporterQuestionResource.SupporterQuestion.GetLabel | src/Rest/Resource/SupporterQuestion.php:88-91 | null on a summary, the loaded label otherwise |
| SupporterQuestionResource.SupporterQuestion.GetHtmlFieldType | src/Rest/Resource/SupporterQuestion.php:93-96 | null on a summary, the loaded field type otherwise |
| SupporterQuestionResource.SupporterQuestion.GetContent | src/Rest/Resource/SupporterQuestion.php:98-101 | null on a summary, the loaded content otherwise |
| SupporterQuestionResource.RequiredType | src/Rest/Resource/SupporterQuestion.php:40 | the type decodes exactly when its lower-cased string is a backing string, to that case |
| SupporterQuestionResource.OptionalHtmlFieldType | src/Rest/Resource/SupporterQuestion.php:53 | the lower-cased field type through `tryFrom`; only an array or object fails |
| SupporterQuestionResource.ReadIdentity | src/Rest/Resource/SupporterQuestion.php:36-39 | copies id, question id and name, succeeding exactly when their kinds fit |
| SupporterQuestionResource.FromJson | src/Rest/Resource/SupporterQuestion.php:34-42 | a summary without details, with the decoded type and the copied identity |
| SupporterQuestionResource.FromDetailJson | src/Rest/Resource/SupporterQuestion.php:44-56 | a question with details, each detail read from its property |
| SupporterQuestionResource.DetailExtendsSummary | src/Rest/Resource/SupporterQuestion.php:34-56 | when the detail factory succeeds the summary factory does too, with the same values and no details |
| SupporterQuestionResource.NullDetailsStillCount | src/Rest/Resource/SupporterQuestion.php:31 | a detail question whose detail properties are all missing still has details, all null |
| SupporterQuestionResource.TypeMatchedCaseInsensitively | src/Rest/Resource/SupporterQuestion.php:40 | the type is the case whose backing string equals the lower-cased input |
| SupporterQuestionResource.UnknownTypeFails | src/Rest/Resource/SupporterQuestion.php:34-56 | an unknown type fails both factories with `ValueError` |
| PageResource.Page.GetSubType | src/Rest/Resource/Page.php:73-76 | the subtype, or a `TypeError` when it is null |
| PageResource.RequiredType | src/Rest/Resource/Page.php:37 | the type decodes exactly when its lower-cased string is a PageType backing string |
| PageResource.OptionalSubType | src/Rest/Resource/Page.php:38 | the lower-cased subtype through `tryFrom`: null exactly when unknown; only an array or object fails |
| PageResource.RequiredStatus | src/Rest/Resource/Page.php:43 | the status decodes exactly when it is a backing string as given, without lower-casing |
| PageResource.Convert | src/Rest/Resource/Page.php:37-43 | the converted arguments, in argument order |
| PageResource.Copy | src/Rest/Resource/Page.php:33-44 | the copied arguments, succeeding exactly when each has its PHP kind |
| PageResource.FromJson | src/Rest/Resource/Page.php:30-46 | fields copied verbatim, type and subtype lower-cased, status as given, timestamps in milliseconds; conversion errors come first |
| PageResource.WellFormedPageDecodes | src/Rest/Resource/Page.php:30-46 | a well-typed page whose type matches in any letter case and whose status is exact decodes to that type and status, the subtype being the lower-cased `tryFrom` and `createdOn` the JSON milliseconds over 1000 in epoch seconds |
| PageResource.UnknownTypeFails | src/Rest/Resource/Page.php:37 | an unknown page type fails with `ValueError` |
| PageResource.RecasedStatusFails | src/Rest/Resource/Page.php:43 | `Live` is rejected although `live` is a status |
| PageResource.MissingTimestampIsEpoch | src/Rest/Resource/Page.php:40 | a missing `createdOn` is the epoch |
| PageRequestResultResource.OptionalCase | src/Rest/Resource/PageRequestResult.php:41 | an absent property is null; a present one is lower-cased through `tryFrom` |
| PageRequestResultResource.OptionalTimestamp | src/Rest/Resource/PageRequestResult.php:51 | absent `createdOn` is null, a present one the instant of its milliseconds |
| PageRequestResultResource.RequiredStatus | src/Rest/Resource/PageRequestResult.php:38 | the status decodes exactly when its lower-cased string is `success` or `error` |
| PageRequestResultResource.Convert | src/Rest/Resource/PageRequestResult.php:38-51 | the converted arguments in argument order, a status failure first |
| PageRequestResultResource.ReadOptionals | src/Rest/Resource/PageRequestResult.php:42-50 | the `??` parameters: each null exactly when absent or null, otherwise its value (the amount as its `?float` conversion); failing exactly when one is of the wrong kind |
| PageRequestResultResource.FromJson | src/Rest/Resource/PageRequestResult.php:34-53 | required id, status, supporter id and email; optional enums matched case-insensitively; optional scalars copied |
| PageRequestResultResource.CaseInsensitiveDecoding | src/Rest/Resource/PageRequestResult.php:38-51 | with well-typed properties and a `createdOn` that divides, the result decodes exactly when the lower-cased status is a backing string; status, type, payment type and frequency are then the `tryFrom` of their lower-cased strings, and `createdOn` the instant it denotes |
| PageRequestResultResource.UnknownStatusFails | src/Rest/Resource/PageRequestResult.php:38 | an unknown status fails with `ValueError` |
| PageRequestResultResource.MixedCaseDonationDecodes | tests/Rest/ClientTest.php:89-98 | mixed-case spellings such as `SUCCESS`, `CREDIT_SINGLE`, `Visa` and `Monthly` decode to the cases the test expects: `success`, `creditSingle`, `visa` and `monthly` |
| PageRequestResultResource.NullCreatedOnIsEpoch | src/Rest/Resource/PageRequestResult.php:51 | a present but null `createdOn` is the epoch, not null |
| JsonValues.TextArg | src/Rest/Resource/Page.php:43 | a string argument is its text; an array or object is a `TypeError` |
| JsonValues.LowerArg | src/Rest/Resource/Page.php:37 | `strtolower` of a string argument, always lower-case; an array or object is a `TypeError` |
| JsonValues.MillisArg | src/Rest/Resource/Page.php:40-41 | the dividend of `/1000`: the number, 0 for null, 0/1 for a boolean, the integer of an integral numeric string; any other string, an array or an object is a `TypeError` |
| JsonValues.Instant.EpochSeconds | src/Rest/Resource/Page.php:40 | the epoch seconds are the milliseconds over 1000 |
| PaymentTypeEnum.TryFrom | src/Rest/Enums/PaymentType.php:12-48 | the case whose backing string is the input, or null exactly when there is none |
| PaymentTypeEnum.RoundTrip | src/Rest/Enums/PaymentType.php:12-48 | decoding a case's backing string gives that case |
| PaymentTypeEnum.ValuesDistinct | src/Rest/Enums/PaymentType.php:12-48 | no two cases share a backing string |
| PaymentTypeEnum.ValuesLowercase | src/Rest/Enums/PaymentType.php:12-48 | every backing string is lower-case and has no digit |
| PaymentTypeEnum.UnknownIsNone | src/Rest/Enums/PaymentType.php:12-48 | a string decodes to null exactly when it is no backing string |
| PaymentTypeEnum.LowercasedMatch | src/Rest/Enums/PaymentType.php:12-48 | after lower-casing, any letter case of a backing string selects its case |
| RecurringFrequencyEnum.TryFrom | src/Rest/Enums/RecurringFrequency.php:12-16 | the case whose backing string is the input, or null exactly when there is none |
| RecurringFrequencyEnum.RoundTrip | src/Rest/Enums/RecurringFrequency.php:12-16 | decoding a case's backing string gives that case |
| RecurringFrequencyEnum.ValuesDistinct | src/Rest/Enums/RecurringFrequency.php:12-16 | no two cases share a backing string |
| RecurringFrequencyEnum.ValuesLowercase | src/Rest/Enums/RecurringFrequency.php:12-16 | every backing string is lower-case and has no digit |
| RecurringFrequencyEnum.UnknownIsNone | src/Rest/Enums/RecurringFrequency.php:12-16 | a string decodes to null exactly when it is no backing string |
| RecurringFrequencyEnum.LowercasedMatch | src/Rest/Enums/RecurringFrequency.php:12-16 | after lower-casing, any letter case of a backing string selects its case |
| RecurringFrequencyEnum.SemiAnnualByBackingValue | src/Rest/Enums/RecurringFrequency.php:16 | `semi_annual` decodes to `semiAnnual` |
| PageRequestResultTypeEnum.TryFrom | src/Rest/Enums/PageRequestResultType.php:12-14 | the case whose backing string is the input, or null exactly when there is none |
| PageRequestResultTypeEnum.RoundTrip | src/Rest/Enums/PageRequestResultType.php:12-14 | decoding a case's backing string gives that case |
| PageRequestResultTypeEnum.ValuesDistinct | src/Rest/Enums/PageRequestResultType.php:12-14 | no two cases share a backing string |
| PageRequestResultTypeEnum.ValuesLowercase | src/Rest/Enums/PageRequestResultType.php:12-14 | every backing string is lower-case and has no digit |
| PageRequestResultTypeEnum.UnknownIsNone | src/Rest/Enums/PageRequestResultType.php:12-14 | a string decodes to null exactly when it is no backing string |
| PageRequestResultTypeEnum.LowercasedMatch | src/Rest/Enums/PageRequestResultType.php:12-14 | after lower-casing, any letter case of a backing string selects its case |
| PageRequestResultTypeEnum.MatchesBackingValueNotCaseName | src/Rest/Enums/PageRequestResultType.php:14 | `recur_unmanaged` decodes to `unmanagedRecurring`; the case name does not decode |
| PageRequestResultStatusEnum.TryFrom | src/Rest/Enums/PageRequestResultStatus.php:12-13 | the case whose backing string is the input, or null exactly when there is none |
| PageRequestResultStatusEnum.RoundTrip | src/Rest/Enums/PageRequestResultStatus.php:12-13 | decoding a case's backing string gives that case |
| PageRequestResultStatusEnum.ValuesDistinct | src/Rest/Enums/PageRequestResultStatus.php:12-13 | no two cases share a backing string |
| PageRequestResultStatusEnum.ValuesLowercase | src/Rest/Enums/PageRequestResultStatus.php:12-13 | every backing string is lower-case and has no digit |
| PageRequestResultStatusEnum.UnknownIsNone | src/Rest/Enums/PageRequestResultStatus.php:12-13 | a string decodes to null exactly when it is no backing string |
| PageRequestResultStatusEnum.LowercasedMatch | src/Rest/Enums/PageRequestResultStatus.php:12-13 | after lower-casing, any letter case of a backing string selects its case |
| PageRequestResultStatusEnum.OnlyTwoValues | src/Rest/Enums/PageRequestResultStatus.php:12-13 | exactly `success` and `error` decode |
| SupporterQuestionTypeEnum.TryFrom | src/Rest/Enums/SupporterQuestionType.php:12-14 | the case whose backing string is the input, or null exactly when there is none |
| SupporterQuestionTypeEnum.RoundTrip | src/Rest/Enums/SupporterQuestionType.php:12-14 | decoding a case's backing string gives that case |
| SupporterQuestionTypeEnum.ValuesDistinct | src/Rest/Enums/SupporterQuestionType.php:12-14 | no two cases share a backing string |
| SupporterQuestionTypeEnum.ValuesLowercase | src/Rest/Enums/SupporterQuestionType.php:12-14 | every backing string is lower-case and has no digit |
| SupporterQuestionTypeEnum.UnknownIsNone | src/Rest/Enums/SupporterQuestionType.php:12-14 | a string decodes to null exactly when it is no backing string |
| SupporterQuestionTypeEnum.LowercasedMatch | src/Rest/Enums/SupporterQuestionType.php:12-14 | after lower-casing, any letter case of a backing string selects its case |
| SupporterQuestionTypeEnum.OnlyThreeValues | src/Rest/Enums/SupporterQuestionType.php:12-14 | exactly `conf`, `gen` and `opt` decode |
| SupporterQuestionHtmlFieldTypeEnum.TryFrom | src/Rest/Enums/SupporterQuestionHtmlFieldType.php:12-21 | the case whose backing string is the input, or null exactly when there is none |
| SupporterQuestionHtmlFieldTypeEnum.RoundTrip | src/Rest/Enums/SupporterQuestionHtmlFieldType.php:12-21 | decoding a case's backing string gives that case |
| SupporterQuestionHtmlFieldTypeEnum.ValuesDistinct | src/Rest/Enums/SupporterQuestionHtmlFieldType.php:12-21 | no two cases share a backing string |
| SupporterQuestionHtmlFieldTypeEnum.ValuesLowercase | src/Rest/Enums/SupporterQuestionHtmlFieldType.php:12-21 | every backing string is lower-case and has no digit |
| SupporterQuestionHtmlFieldTypeEnum.UnknownIsNone | src/Rest/Enums/SupporterQuestionHtmlFieldType.php:12-21 | a string decodes to null exactly when it is no backing string |
| SupporterQuestionHtmlFieldTypeEnum.LowercasedMatch | src/Rest/Enums/SupporterQuestionHtmlFieldType.php:12-21 | after lower-casing, any letter case of a backing string selects its case |
| PageTypeEnum.TryFrom | src/Enums/PageType.php:15-33 | the case whose backing string is the input, or null exactly when there is none |
| PageTypeEnum.RoundTrip | src/Enums/PageType.php:15-33 | decoding a case's backing string gives that case |
| PageTypeEnum.ValuesDistinct | src/Enums/PageType.php:15-33 | no two cases share a backing string |
| PageTypeEnum.ValuesLowercase | src/Enums/PageType.php:15-33 | every backing string is lower-case and has no digit |
| PageTypeEnum.UnknownIsNone | src/Enums/PageType.php:15-33 | a string decodes to null exactly when it is no backing string |
| PageTypeEnum.LowercasedMatch | src/Enums/PageType.php:15-33 | after lower-casing, any letter case of a backing string selects its case |
| PageTypeEnum.UndocumentedDcDecodes | src/Enums/PageType.php:16 | the undocumented `dc` decodes; `DC` does not |
| PageStatusEnum.TryFrom | src/Enums/PageStatus.php:12-17 | the case whose backing string is the input, or null exactly when there is none |
| PageStatusEnum.RoundTrip | src/Enums/PageStatus.php:12-17 | decoding a case's backing string gives that case |
| PageStatusEnum.ValuesDistinct | src/Enums/PageStatus.php:12-17 | no two cases share a backing string |
| PageStatusEnum.ValuesLowercase | src/Enums/PageStatus.php:12-17 | every backing string is lower-case and has no digit |
| PageStatusEnum.UnknownIsNone | src/Enums/PageStatus.php:12-17 | a string decodes to null exactly when it is no backing string |
| PageStatusEnum.ExactMatchOnly | src/Enums/PageStatus.php:12-17 | a string selects a case exactly when it is that case's backing string |
| PageStatusEnum.DifferentlyCasedStatusIsUnknown | src/Enums/PageStatus.php:15 | `live` decodes and `Live` does not |
| Rest.WriteThenRead | src/Rest/Client.php:102-103 | a value the cache accepted is what the next read of that key returns |
| Rest.TokenOf | src/Rest/Client.php:81 | a cached token is read as its text; a cache value of another kind counts as null |
| Rest.TokenValue | src/Rest/Client.php:103 | the stored token value reads back as the token that was stored |
| Rest.ExpiryOf | src/Rest/Client.php:88 | a cached expiry is its number; null, the default and a value of another kind count as 0 |
| Rest.Then | src/Rest/Client.php:150-151 | a successful response is mapped, an error passes unchanged |
| Rest.Lift | src/Rest/Client.php:179 | a factory error escapes the client unchanged, as a client error |
| Rest.Shaped | src/Rest/Client.php:176-181 | an error of the request comes before anything the shaping does |
| Php.Lower | src/Rest/Resource/Page.php:37 | `strtolower` keeps the length and lower-cases every ASCII letter, leaving other characters alone |
| Php.LowerIsLowercase | src/Rest/Resource/Page.php:37 | `strtolower` output has no upper-case letter and is unchanged by a second `strtolower` |
| Php.LowerKeepsLowercase | src/Rest/Resource/Page.php:37 | a string without upper-case letters is its own `strtolower` |
| Php.IntText | src/Rest/Client.php:191 | the interpolated id in `page/$id` is the decimal text of the id, with a minus sign for a negative one |
| Php.NatText | src/Rest/Client.php:191 | the decimal text of a natural number is non-empty and all digits, with at least two digits from 10 on |
| Php.NatTextValue | src/Rest/Client.php:191 | the digits of a natural number's text denote that number |
| Php.IntTextParsesBack | src/Rest/Client.php:191 | the text of an integer reads back as that integer |
| Php.IntTextInjective | src/Rest/Client.php:191 | distinct ids have distinct texts |
| Php.InterpolatedIdInjective | src/Rest/Client.php:191 | distinct ids give distinct endpoints such as `page/$id`, `supporter/$id` and `page/$id/process` |
| SupporterFieldResource.SupporterField.IsTagged | src/Rest/Resource/SupporterField.php:18 | reference definition of `isTagged()`: tagged exactly when the tag is not exactly `Not Tagged`; `DecodedTag` and `MarkerIsCaseSensitive` state it for decoded fields and for every tag |
| SupporterQuestionResource.SupporterQuestion.HasDetails | src/Rest/Resource/SupporterQuestion.php:31 | reference definition of `hasDetails()`: a question has details exactly when it was built with the detail arguments; `NullDetailsStillCount` and the getters' contracts are stated over it |
| Rest.TokenSpec | src/Rest/Client.php:76-111 | reference definition of `getToken()` as a function of the state before the call: in-memory token else cached one, dropped when stale, refreshed when not truthy, then settled; `ReuseIffValid`, `RefreshWritesBoth`, `RefreshedTokenIsReused` and the other token lemmas are about it, and `Client.GetToken` is proved equal to it |
| Rest.RequestSpec | src/Rest/Client.php:118-139 | reference definition of `request()`: no token for an `authenticate` endpoint, otherwise the token header over the caller's headers, then dispatch and classification; `AuthenticateNeverRecurses` and `TokenHeaderInjected` are about it, and `Client.Request` is proved equal to it |
| Rest.CallSpec | src/Rest/Client.php:148-165 | reference definition of `get()`/`post()`: the request, then the decoded body as the return type `object|array` admits it; every endpoint method is proved equal to it |
| Rest.Refresh | src/Rest/Client.php:97-104 | reference definition of the refresh branch: authenticate with the API key, write the expiry `now + expires/1000`, then the token, then settle the in-memory token; `RefreshWritesBoth` and `TokenWriteRejectedEscapesUnwrapped` are about it |
| Rest.Stale | src/Rest/Client.php:90 | reference definition of `time() >= $expires - 300`: a cached token is discarded from five minutes before its expiry on |
| Php.Truthy | src/Rest/Client.php:78 | PHP truthiness of a `?string`, as in `if ($this->token)` and `if ($emailAddress)`: false exactly for null, `""` and `"0"` |
| Php.LooseEquals | src/Rest/Client.php:106 | reference definition of `==` between two `?string` values (its negation is the test `$token != $this->token`): null equals only `""`, two strings compare as strings |
| Php.StartsWith | src/Rest/Client.php:121 | reference definition of `str_starts_with`: the prefix is an initial segment of the text |
| JsonValues.Prop | src/Rest/Resource/Page.php:33 | reading a property of a decoded object: its value, or null when absent |
| JsonValues.IntField | src/Rest/Resource/Page.php:33 | an `int` parameter accepts exactly a JSON integer; anything else is a `TypeError` naming the property |
| JsonValues.StringField | src/Rest/Resource/Page.php:35 | a `string` parameter accepts exactly a JSON string; anything else is a `TypeError` naming the property |
| JsonValues.BoolField | src/Rest/Resource/Supporter.php:39 | a `bool` parameter accepts exactly a JSON boolean; anything else is a `TypeError` naming the property |
| JsonValues.OptStringField | src/Rest/Resource/PageRequestResult.php:42-45 | a `?string` parameter is null exactly for null or an absent property, the text for a string, a `TypeError` otherwise |
| JsonValues.OptIntField | src/Rest/Resource/PageRequestResult.php:50 | a `?int` parameter is null exactly for null or an absent property, the number for an integer, a `TypeError` otherwise |
| JsonValues.OptBoolField | src/Rest/Resource/PageRequestResult.php:46 | a `?bool` parameter is null exactly for null or an absent property, the value for a boolean, a `TypeError` otherwise |
| JsonValues.OptNumberField | src/Rest/Resource/PageRequestResult.php:44 | a `?float` parameter is null exactly for null or an absent property, an integer widened or a float kept, a `TypeError` otherwise |
| JsonValues.OptArrayField | src/Rest/Resource/Supporter.php:42-43 | an `?array` parameter is null exactly for null, the items for a list, a `TypeError` otherwise |
| JsonValues.OptObjectField | src/Rest/Resource/SupporterQuestion.php:54 | an `?object` parameter is null exactly for null, the object itself for an object, a `TypeError` otherwise |
| JsonValues.Required | src/Rest/Resource/Page.php:37 | `from` yields the selected case, or a `ValueError` naming the property when there is none |

## Left out

- PHP's coercive scalar conversion for the constructor parameters of the resource classes is not modelled. Those files do not declare strict types, but a parameter here accepts exactly the JSON kind of its declared type; an integer passed where a string is expected, for example, is a `TypeError` here.
- PHP's numeric-string comparison is not modelled. `$token != $this->token` compares two strings character by character, and null equals only `""`.
- Floating point is modelled as exact reals. `DateTime` is modelled as a millisecond count: `/1000` rounding, sub-second precision, `INF` and dates out of `DateTime`'s range are not modelled.
- A cache value of the wrong kind is read as absent. A number under the token key counts as null, and a string under the expiry key counts as 0. PHP would compare it loosely instead.
- `getToken` calls `time()` twice. The model uses one instant, `now`, for both calls.
- `foreach` over a JSON object where a list is expected is not modelled. PHP would iterate the properties, in an order a map does not keep. Taking `$results[0]` of an object is not modelled either. Both give `NotAList`.
- `Rest.Client.GetSupporterQuestion`: if the first element of a non-empty list is not an object, the result is a `TypeError`. In PHP this is the factory's type check.
- `SupporterResource.Supporter.GetField` returns the stored JSON value. The PHP return type would coerce a scalar to a string, and throw `TypeError` on an array.
- The Guzzle client's base URI, HTTP options and encoding are folded into the transport. So is what Guzzle does with a null header or query value.
- Concurrency is not modelled: several clients sharing one cache, and a cache changed between the two reads.
- Key order of PHP arrays is not modelled, because maps are unordered.
- PHP's `(array)` cast and array keys turn numeric-string property names into integer keys. The model keeps every key a string.
- Rest.IssuedToken: a non-string `ens-auth-token` is read as null. In PHP the value is written to the cache as it is (`src/Rest/Client.php:103`). When it loosely differs from the in-memory token, the assignment to the `?string` property at `src/Rest/Client.php:107` throws `TypeError`, after both cache writes.
- An authentication body that is null, a number, a boolean or a list gives a null token and an expiry of `now`, as in PHP.
- Rest.IssuedToken: a JSON string body is treated like the other non-object bodies. In PHP 8, `$data['ens-auth-token']` (`src/Rest/Client.php:100`) reads a non-numeric offset of a string and throws instead.
- Exceptions.StringProperty: a float detail is read as null. PHP would store its decimal text.
- Exceptions.IntProperty: only an optionally signed string of digits is a numeric string here. A string with surrounding whitespace, a fraction or an exponent is a `TypeError` in the model, where PHP converts it. Integers beyond `PHP_INT_MAX`, and the `TypeError` for a float out of the integer range, are not modelled.
- JsonValues.MillisArg: only an optionally signed string of digits divides. A numeric string with a fraction, an exponent or surrounding whitespace, and a leading number followed by text (which PHP divides with a warning), is a `TypeError` here.
- Rest.IssuedMillis: `expires` is read through `JsonValues.MillisArg`, with the same gap for numeric strings.
- `src/Rest/Resource/Page.php` and `src/Rest/Client.php` import `Rest\Enums\PageType` and `Rest\Enums\PageStatus`. The tables modelled are those of `src/Enums/PageType.php` and `src/Enums/PageStatus.php`.
- The cache is a value held by the client. Aliasing with other holders of the same PSR-16 object is not modelled.
- The `clone` in `Supporter::fromJson` is value semantics here.
- The plain getters of `Page`, `PageRequestResult`, `SupporterField` and `Supporter` are field reads of the datatypes. They have no members of their own.
- `Rest.Client.GetToken`: the cache rejects a key on read and write alike. So once the expiry key has been read, writing it cannot fail. A cache that accepts a read but refuses a write of the same key is not modelled.
- `RequestException` is modelled (`Exceptions.RequestExceptionOf`), but the client never raises it. Guzzle's own exceptions become `RuntimeException`.
- Logging, PSR-16 TTLs and the Guzzle middleware stack are not part of this model.
