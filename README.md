# SeKt W3C WebDriver client: a verified Dafny model

SeKt is a Kotlin client for the W3C WebDriver protocol. A `WebDriver` holds a
base URL, an HTTP client and a list of error converters. A `Session` runs
commands under `/session/{id}`. A `WebElement` runs them under
`/session/{id}/element/{eid}`. When an element call is answered with
"stale element reference", the element re-runs the closure that found it and
retries the call once.

This project models the core of that client and proves properties of the model:

- **`WebDriverResult`** (`result.dfy`) and its accessors.
- **The JSON tree** (`json.dfy`) and the two helpers `asObj` and `getString`.
- **The error kinds and the default error converter** (`errors.dfy`).
- **The W3C error table** (`w3c_table.dfy`) and **`w3cConverter`** (`w3c_errors.dfy`).
- **The converter chain and the response validator** (`chain.dfy`), that is,
  how a failed response becomes a `WebDriverException`.
- **Response decoding** (`decode.dfy`): the `{"value": …}` envelope, and the
  classes the client decodes, each as an acceptance predicate.
- **The transport layer** (`transport.dfy`): the `get`, `post` and `delete`
  calls of `WebDriver` and `Session`, with `decodeWebDriver`, `decodeNullable`
  and the validator. The HTTP server is a scripted responder, the class
  `Remote`, which records every request it is sent.
- **The capabilities bag and its serializer** (`caps.dfy`), and the
  `capabilities { … }` builder.
- **The wire forms of the request and reply bodies** (`wire.dfy`): element
  references, frames, actions, locators, timeouts, cookies, rects and scripts.
  Each encoder is paired with a reader, and a round-trip lemma connects the two.
- **The command catalogue of `w3c/api.kt`** (`catalogue.dfy`): each command's
  verb, path, body and reply type. A parser reads a request back into its
  command.
- **The session and element commands, and element handles** (`api.dfy`).
- **An element's refresh-and-retry calls** (`element.dfy`).
- **The scoped session** (`scoped.dfy`): create, run the block, always close.
- **The polling helpers `wait` and `waitUntil`** (`waiters.dfy`).

Where the source changes state, the model does too:

- `Remote`, `WebDriver`, `Session`, `WebElement` and `Caps` are classes.
- Their methods are proved against specification functions such as
  `CallSpec`, `RetrySpec`, `BlockSpec`, `UseSpec`, `ScopedSpec`, `Put` and
  `Applied`.
- Lemmas state what the source promises about those functions.

## Model

| member | source | states |
|---|---|---|
| DriverResult.WebDriverResult.GetOrNull | common/src/main/kotlin/me/darkweird/sekt/result.kt:12-16 | the value is present exactly for a Success, and is then its value |
| DriverResult.WebDriverResult.ErrorOrNull | common/src/main/kotlin/me/darkweird/sekt/result.kt:19-23 | the result is present exactly for an Error, and is the Error itself |
| DriverResult.WebDriverResult.OrThrow | common/src/main/kotlin/me/darkweird/sekt/result.kt:29-33 | returns exactly for a Success, with its value; an Error throws with the message "<error> : <message>" |
| DriverResult.WebDriverResult.Map | common/src/main/kotlin/me/darkweird/sekt/result.kt:36-40 | a Success maps to a Success of fn(value); an Error is kept with all four fields |
| DriverResult.ExactlyOneCase | common/src/main/kotlin/me/darkweird/sekt/result.kt:25-27 | exactly one of isSuccess and isError holds |
| DriverResult.GetOrErrorComplementary | common/src/main/kotlin/me/darkweird/sekt/result.kt:12-23 | exactly one of getOrNull and errorOrNull is non-null |
| DriverResult.GetOrNullIsFold | common/src/main/kotlin/me/darkweird/sekt/result.kt:42-49 | getOrNull agrees with fold(Some, null) |
| DriverResult.OrThrowIsFold | common/src/main/kotlin/me/darkweird/sekt/result.kt:29-49 | orThrow agrees with a fold that returns the value or throws the error's message |
| DriverResult.MapIdentity | common/src/main/kotlin/me/darkweird/sekt/result.kt:36-40 | mapping the identity changes nothing |
| DriverResult.MapComposition | common/src/main/kotlin/me/darkweird/sekt/result.kt:36-40 | mapping f, then g, is mapping their composition |
| DriverResult.MapKeepsError | common/src/main/kotlin/me/darkweird/sekt/result.kt:36-40 | a mapped Error keeps its error, message, stacktrace and data |
| Json.AsObj | core/src/main/kotlin/me/darkweird/sekt/core/util.kt:8 | the result is present exactly for an object, and gives back that object's fields |
| Json.AsObjExactlyObjects | core/src/main/kotlin/me/darkweird/sekt/core/util.kt:8 | asObj succeeds on objects and only on them, losing nothing |
| Json.Get | core/src/main/kotlin/me/darkweird/sekt/core/exceptions.kt:20-26 | a key lookup finds a value exactly when some field has that key, and the value is that field's |
| Json.GetStringOfNonPrimitive | core/src/main/kotlin/me/darkweird/sekt/core/util.kt:10 | getString of a missing element, an array or an object is "" |
| Json.GetStringOfString | core/src/main/kotlin/me/darkweird/sekt/core/util.kt:10 | getString of a string is that string |
| Json.GetStringOfNull | core/src/main/kotlin/me/darkweird/sekt/core/util.kt:10 | getString of JSON null is "null", which differs from a missing element |
| Json.GetStringOfNumber | core/src/main/kotlin/me/darkweird/sekt/core/util.kt:10 | getString of any integer is its decimal text, with a leading minus when negative, and parses back to it |
| Json.NatToString | core/src/main/kotlin/me/darkweird/sekt/core/util.kt:10 | a number's content is a non-empty string of decimal digits, one digit exactly below ten |
| Json.IntToString | core/src/main/kotlin/me/darkweird/sekt/core/util.kt:10 | an integer's text is non-empty and starts with '-' exactly for a negative integer |
| Json.NatToStringRoundTrip | core/src/main/kotlin/me/darkweird/sekt/core/util.kt:10 | the decimal text of a natural number parses back to it |
| Json.IntToStringRoundTrip | core/src/main/kotlin/me/darkweird/sekt/core/util.kt:10 | an integer's text parses back to it |
| Json.IntToStringInjective | core/src/main/kotlin/me/darkweird/sekt/core/util.kt:10 | distinct integers have distinct texts |
| Json.GetAppend | core/src/main/kotlin/me/darkweird/sekt/core/exceptions.kt:20-26 | a lookup in concatenated fields finds the first part's value when there is one |
| Json.GetAt | core/src/main/kotlin/me/darkweird/sekt/core/exceptions.kt:20-26 | with distinct keys, looking up the i-th key gives the i-th value |
| Errors.MessageSplits | core/src/main/kotlin/me/darkweird/sekt/core/exceptions.kt:6-11 | the exception text is the message argument, then ": ", then the kind's text |
| Errors.StaleMessage | core/src/main/kotlin/me/darkweird/sekt/core/exceptions.kt:6-11 | a W3C kind is shown by its enum constant's name |
| Errors.UnknownKindTextInjective | core/src/main/kotlin/me/darkweird/sekt/core/exceptions.kt:17 | the text of an UnknownErrorKind gives back both its code and its error string |
| Errors.ErrorValue | core/src/main/kotlin/me/darkweird/sekt/core/exceptions.kt:20 | the "value" object is found exactly when the body is an object whose "value" member is an object |
| Errors.DefaultConverter | core/src/main/kotlin/me/darkweird/sekt/core/exceptions.kt:19-35 | never null and always an UnknownErrorKind with the response status; a body whose `value` is an object gives that object's message, error and stacktrace texts and its `data` element; any other body gives the fixed non-W3C message, error "unknown", stacktrace "" and no data |
| Errors.DefaultReadsErrorBody | core/src/main/kotlin/me/darkweird/sekt/core/exceptions.kt:20-27 | a W3C error body reads back as its message, UnknownErrorKind(status, error) and stacktrace, with no data |
| Errors.DefaultReadsErrorData | core/src/main/kotlin/me/darkweird/sekt/core/exceptions.kt:22-26 | the data member is carried into the exception |
| Errors.DefaultEmptyValue | core/src/main/kotlin/me/darkweird/sekt/core/exceptions.kt:23-26 | an empty value object gives empty strings throughout |
| Errors.DefaultNullValue | core/src/main/kotlin/me/darkweird/sekt/core/exceptions.kt:28-33 | a null value takes the non-W3C branch |
| W3CTable.ValuesAtOrdinal | w3c/src/main/kotlin/me/darkweird/sekt/w3c/exceptions.kt:5-32 | the table has 26 entries, and each entry sits at its ordinal |
| W3CTable.ValuesComplete | w3c/src/main/kotlin/me/darkweird/sekt/w3c/exceptions.kt:5-32 | every W3C error kind is in the table |
| W3CTable.TableDistinct | w3c/src/main/kotlin/me/darkweird/sekt/w3c/exceptions.kt:5-32 | table entries are pairwise distinct, in their error strings and in their (status, error) pairs |
| W3CTable.FromWireRoundTrip | w3c/src/main/kotlin/me/darkweird/sekt/w3c/exceptions.kt:6-31 | every entry's error string reads back as that entry |
| W3CTable.WireInjective | w3c/src/main/kotlin/me/darkweird/sekt/w3c/exceptions.kt:6-31 | distinct entries have distinct error strings |
| W3CTable.HttpCodes | w3c/src/main/kotlin/me/darkweird/sekt/w3c/exceptions.kt:6-31 | every entry's status is 400, 404, 405 or 500 |
| W3CTable.Status405 | w3c/src/main/kotlin/me/darkweird/sekt/w3c/exceptions.kt:30 | status 405 belongs to "unknown method" and to nothing else |
| W3CErrors.ErrorField | w3c/src/main/kotlin/me/darkweird/sekt/w3c/exceptions.kt:40 | value["error"] is null exactly when the member is missing, and is otherwise its string content |
| W3CErrors.FirstMatch | w3c/src/main/kotlin/me/darkweird/sekt/w3c/exceptions.kt:38-41 | a found entry is in the list and matches the status and error; when none is found, no entry matches |
| W3CErrors.Lookup | w3c/src/main/kotlin/me/darkweird/sekt/w3c/exceptions.kt:38-41 | definition: the first entry of the table, in declaration order, whose HTTP code is the status and whose error string is the body's `error`; null when there is none |
| W3CErrors.LookupExact | w3c/src/main/kotlin/me/darkweird/sekt/w3c/exceptions.kt:38-41 | the lookup finds entry e exactly when e matches: there is never a second candidate |
| W3CErrors.LookupNone | w3c/src/main/kotlin/me/darkweird/sekt/w3c/exceptions.kt:38-41 | the lookup finds nothing exactly when no kind matches |
| W3CErrors.W3CConverter | w3c/src/main/kotlin/me/darkweird/sekt/w3c/exceptions.kt:34-49 | a body without a value object gives null; a result is a W3C kind whose status is the response status, and has a stacktrace |
| W3CErrors.W3CConverterExact | w3c/src/main/kotlin/me/darkweird/sekt/w3c/exceptions.kt:34-41 | the converter yields kind e exactly when the body's value object names e's error string and the status is e's |
| W3CErrors.W3CRoundTrip | w3c/src/main/kotlin/me/darkweird/sekt/w3c/exceptions.kt:42-47 | a W3C error body with an entry's status and error string converts to that entry, with the body's message and stacktrace |
| W3CErrors.W3CWrongStatus | w3c/src/main/kotlin/me/darkweird/sekt/w3c/exceptions.kt:39-40 | a known error string under another status gives null |
| W3CErrors.W3CMissingError | w3c/src/main/kotlin/me/darkweird/sekt/w3c/exceptions.kt:40 | a value object without an error member gives null |
| W3CErrors.W3CChainKnown | core/src/main/kotlin/me/darkweird/sekt/core/sekt.kt:62-72 | with w3cConverter configured, a known (status, error) pair raises its W3C kind |
| W3CErrors.W3CChainUnknown | core/src/main/kotlin/me/darkweird/sekt/core/sekt.kt:62-72 | with w3cConverter configured, an unknown pair falls through to UnknownErrorKind(status, error) |
| Chain.Reverse | core/src/main/kotlin/me/darkweird/sekt/core/sekt.kt:62 | the reversal has the same length, and the i-th element counted from the end |
| Chain.ReverseInvolution | core/src/main/kotlin/me/darkweird/sekt/core/sekt.kt:62 | reversing twice gives the original list |
| Chain.FirstNotNull | core/src/main/kotlin/me/darkweird/sekt/core/sekt.kt:71-72 | null exactly when every converter gives null; otherwise the result of some converter, all before which gave null |
| Chain.FirstNotNullAt | core/src/main/kotlin/me/darkweird/sekt/core/sekt.kt:71-72 | the first converter that gives non-null decides |
| Chain.FirstNotNullAppend | core/src/main/kotlin/me/darkweird/sekt/core/sekt.kt:62-72 | the first part of a combined chain is consulted before the second |
| Chain.ConverterChain | core/src/main/kotlin/me/darkweird/sekt/core/sekt.kt:62 | the chain is the user converters reversed, then the default converter |
| Chain.SelectAlwaysSucceeds | core/src/main/kotlin/me/darkweird/sekt/core/sekt.kt:62-72 | selection always yields an exception, so NoSuchElementException never arises from it |
| Chain.Select | core/src/main/kotlin/me/darkweird/sekt/core/sekt.kt:62-72 | definition: the first non-null result of the chain built from the configured converters (reversed, then the default) on the status and body |
| Chain.DefaultOnlyWhenAllNull | core/src/main/kotlin/me/darkweird/sekt/core/sekt.kt:62-72 | the default converter decides exactly when every user converter gives null; otherwise some user converter's non-null result is used |
| Chain.LastAddedWins | core/src/main/kotlin/me/darkweird/sekt/core/sekt.kt:62-72 | of the user converters that recognise a response, the one added last decides |
| Chain.Validate | core/src/main/kotlin/me/darkweird/sekt/core/sekt.kt:66-74 | a response passes exactly when its status is 2xx; otherwise the selected exception is raised |
| Chain.NoConvertersUsesDefault | core/src/main/kotlin/me/darkweird/sekt/core/sekt.kt:12-17 | with no converters, a failed response raises the default converter's exception |
| Chain.DriverConverters | core/src/main/kotlin/me/darkweird/sekt/core/common.kt:53 | the driver consults the configured converters in reverse order |
| Decoding.Envelope | core/src/main/kotlin/me/darkweird/sekt/core/ktor.kt:14-17 | the envelope is read exactly from an object with the single member "value" |
| Decoding.DecodeResponse | core/src/main/kotlin/me/darkweird/sekt/core/ktor.kt:64-66 | decoding succeeds exactly when the body is a value envelope whose content the target type accepts, and yields that content |
| Decoding.NullableEmptyAccepts | core/src/main/kotlin/me/darkweird/sekt/core/ktor.kt:78-80 | `Empty?` accepts exactly null and {} |
| Decoding.EmptyRejectsNull | core/src/main/kotlin/me/darkweird/sekt/core/ktor.kt:19-20 | non-null `Empty` does not accept null |
| Decoding.ErrorBodyIsNotEmpty | core/src/main/kotlin/me/darkweird/sekt/core/ktor.kt:64-70 | a W3C error body does not decode as `Empty?`, so the converters are consulted |
| Decoding.ElementObjectShape | src/main/kotlin/me/darkweird/sekt/w3c/model.kt:106-110 | an element object needs exactly the W3C element key |
| Decoding.CookieMinimal | src/main/kotlin/me/darkweird/sekt/w3c/model.kt:112-121 | a cookie with only a name and a value decodes |
| Decoding.CookieNeedsValue | src/main/kotlin/me/darkweird/sekt/w3c/model.kt:112-121 | a cookie without a value does not decode |
| Transport.Raise | core/src/main/kotlin/me/darkweird/sekt/core/ktor.kt:68-69 | the selected exception is thrown, and when there is none, NoSuchElementException |
| Transport.DecodeWebDriver | core/src/main/kotlin/me/darkweird/sekt/core/ktor.kt:60-71 | a decodable body gives its content; otherwise the first non-null converter's exception is thrown |
| Transport.AsDecoded | core/src/main/kotlin/me/darkweird/sekt/core/ktor.kt:78-83 | an exception passes through; a Unit call returns Unit; a typed call returns the decoded value |
| Transport.Receive | core/src/main/kotlin/me/darkweird/sekt/core/ktor.kt:23-39 | a failed exchange throws; with a validator, a non-2xx status raises the selected exception |
| Transport.DecodeNullable | core/src/main/kotlin/me/darkweird/sekt/core/ktor.kt:73-83 | definition: the decoding step of `post` and `delete`: a Unit call decodes its value as `Empty?` and returns Unit, any other call decodes as its type |
| Transport.DecodeGet | core/src/main/kotlin/me/darkweird/sekt/core/ktor.kt:23-25 | definition: the decoding step of `get`: the value is decoded as the requested type, with no Unit shortcut |
| Transport.CallSpec | core/src/main/kotlin/me/darkweird/sekt/core/ktor.kt:23-39 | definition: one driver call consumes the next scripted answer and gives what Receive makes of it, for the call's verb and reply type, with the rest of the script |
| Transport.RequestOf | core/src/main/kotlin/me/darkweird/sekt/core/ktor.kt:23-39 | the request carries the verb, the base URL plus the path, and the body |
| Transport.SessionPath | core/src/main/kotlin/me/darkweird/sekt/core/ktor.kt:41-48 | a session call goes to "/session/" + id + path |
| Transport.SessionPathRoundTrip | core/src/main/kotlin/me/darkweird/sekt/core/ktor.kt:41-48 | a session path reads back its session id and relative path |
| Transport.SessionPathInjective | core/src/main/kotlin/me/darkweird/sekt/core/ktor.kt:41-48 | distinct sessions or relative paths never share a URL |
| Transport.ElementPath | core/src/main/kotlin/me/darkweird/sekt/core/ktor.kt:50-58 | an element call goes to "/element/" + id + path |
| Transport.ElementCallPath | core/src/main/kotlin/me/darkweird/sekt/core/ktor.kt:50-58 | an element call's URL is "/session/{sid}/element/{eid}" + path |
| Transport.Remote.Exchange | core/src/main/kotlin/me/darkweird/sekt/core/ktor.kt:23-39 | one exchange records the request and consumes the next scripted answer |
| Transport.WebDriver.constructor | core/src/main/kotlin/me/darkweird/sekt/core/common.kt:49-55 | the driver keeps its base URL and validator, and the configured converters reversed |
| Transport.WebDriver.Get | core/src/main/kotlin/me/darkweird/sekt/core/ktor.kt:23-25 | sends one GET to the base URL plus path, and returns what CallSpec gives for the next answer |
| Transport.WebDriver.Post | core/src/main/kotlin/me/darkweird/sekt/core/ktor.kt:27-33 | sends one POST with the body, decoded through decodeNullable |
| Transport.WebDriver.Delete | core/src/main/kotlin/me/darkweird/sekt/core/ktor.kt:36-39 | sends one DELETE without a body, decoded through decodeNullable |
| Transport.Session.constructor | core/src/main/kotlin/me/darkweird/sekt/core/common.kt:59-62 | the session keeps its id and driver |
| Transport.Session.Get | core/src/main/kotlin/me/darkweird/sekt/core/ktor.kt:41-42 | a session GET is the driver's GET under the session path |
| Transport.Session.Post | core/src/main/kotlin/me/darkweird/sekt/core/ktor.kt:47-48 | a session POST is the driver's POST under the session path |
| Transport.Session.Delete | core/src/main/kotlin/me/darkweird/sekt/core/ktor.kt:44-45 | a session DELETE is the driver's DELETE under the session path |
| Transport.Session.Close | core/src/main/kotlin/me/darkweird/sekt/core/common.kt:63-65 | close sends DELETE /session/{id} and reads the reply as `String?` |
| Transport.ReceivedValueAccepted | core/src/main/kotlin/me/darkweird/sekt/core/ktor.kt:64-66 | a typed call that returns has a value its type accepts |
| Transport.DecodeIgnoresStatus | core/src/main/kotlin/me/darkweird/sekt/core/ktor.kt:64-66 | a decodable body decodes to its content whatever the status |
| Transport.UndecodableWithoutConverter | core/src/main/kotlin/me/darkweird/sekt/core/ktor.kt:67-70 | an undecodable body that no converter recognises throws NoSuchElementException |
| Transport.UnitPostAcceptsNull | core/src/main/kotlin/me/darkweird/sekt/core/ktor.kt:78-80 | a Unit POST or DELETE returns Unit on a null value and on {} |
| Transport.UnitGetRejectsNull | core/src/main/kotlin/me/darkweird/sekt/core/ktor.kt:23-25 | a Unit GET has no null shortcut: a null value goes to the converters |
| Transport.SuccessSkipsValidator | core/src/main/kotlin/me/darkweird/sekt/core/sekt.kt:68-69 | a 2xx response is decoded by the verb's own decoding step |
| Transport.ValidatorAlwaysRaises | core/src/main/kotlin/me/darkweird/sekt/core/sekt.kt:66-73 | with a validator, a non-2xx response always raises a WebDriverException |
| Transport.CloseTargetsSession | w3c/src/main/kotlin/me/darkweird/sekt/w3c/api.kt:122 | the session path with an empty relative path is "/session/" + id |
| Capabilities.Lookup | core/src/main/kotlin/me/darkweird/sekt/core/common.kt:109 | a value is found exactly when some entry has the key, and is that entry's |
| Capabilities.EntryKeys | core/src/main/kotlin/me/darkweird/sekt/core/common.kt:104 | the keys of the bag, in order |
| Capabilities.Put | core/src/main/kotlin/me/darkweird/sekt/core/common.kt:113 | the bag grows by one exactly when the key is new |
| Capabilities.PutThenLookup | core/src/main/kotlin/me/darkweird/sekt/core/common.kt:112-114 | after a put, the key reads back the new value |
| Capabilities.PutKeepsOthers | core/src/main/kotlin/me/darkweird/sekt/core/common.kt:112-114 | a put leaves every other key's value alone |
| Capabilities.PutOverwrites | core/src/main/kotlin/me/darkweird/sekt/core/common.kt:112-114 | two puts under one key act as the second |
| Capabilities.PutOrder | core/src/main/kotlin/me/darkweird/sekt/core/common.kt:104-114 | a new key goes last; a present key keeps its position |
| Capabilities.PutKeepsDistinct | core/src/main/kotlin/me/darkweird/sekt/core/common.kt:104 | a put keeps the keys distinct |
| Capabilities.AppliedDistinct | core/src/main/kotlin/me/darkweird/sekt/core/common.kt:104-114 | a block of setter calls keeps the keys distinct |
| Capabilities.AppliedLastWins | core/src/main/kotlin/me/darkweird/sekt/core/common.kt:112-114 | the last setter call for a key decides its value |
| Capabilities.Read | core/src/main/kotlin/me/darkweird/sekt/core/common.kt:108-110 | the getter finds a value exactly when the key was set, and returns the stored value |
| Capabilities.AsWrittenRead | core/src/main/kotlin/me/darkweird/sekt/core/common.kt:108-110 | definition: the getter as written: a set key fails with a cast error, because the stored (serializer, value) pair is cast to the value type; an unset key gives null |
| Capabilities.Caps.AsWrittenGet | core/src/main/kotlin/me/darkweird/sekt/core/common.kt:108-110 | definition: the bag's getter as written, reading AsWrittenRead under the override name or the property name |
| Capabilities.AsWrittenGetterFails | core/src/main/kotlin/me/darkweird/sekt/core/common.kt:108-110 | the getter as written fails with a cast error on every set capability; the corrected one returns the value |
| Capabilities.SetThenRead | core/src/main/kotlin/me/darkweird/sekt/core/common.kt:108-114 | a set capability reads back as its value |
| Capabilities.OverrideNameIsKey | core/src/main/kotlin/me/darkweird/sekt/core/common.kt:108-114 | a capability with its own name is stored under that name, one without under the property's name |
| Capabilities.Caps.constructor | core/src/main/kotlin/me/darkweird/sekt/core/common.kt:103-104 | a new bag is empty |
| Capabilities.Caps.Set | core/src/main/kotlin/me/darkweird/sekt/core/common.kt:112-114 | the setter puts the value under the capability's key and keeps the keys distinct |
| Capabilities.Caps.Get | core/src/main/kotlin/me/darkweird/sekt/core/common.kt:108-110 | the getter reads the capability's key |
| Capabilities.Caps.Apply | core/src/main/kotlin/me/darkweird/sekt/core/common.kt:146 | running a capabilities block applies its setter calls in order |
| Capabilities.EncodedFields | core/src/main/kotlin/me/darkweird/sekt/core/common.kt:128-136 | the object has one member per entry, in order, carrying the entry's value |
| Capabilities.Flatten | core/src/main/kotlin/me/darkweird/sekt/core/common.kt:130-134 | the element list holds two elements per entry |
| Capabilities.FlattenPositions | core/src/main/kotlin/me/darkweird/sekt/core/common.kt:130-134 | element 2i is entry i's key and element 2i+1 its value |
| Capabilities.PairUpFlatten | core/src/main/kotlin/me/darkweird/sekt/core/common.kt:128-136 | pairing up the element list gives back the object's members |
| Capabilities.Serialize | core/src/main/kotlin/me/darkweird/sekt/core/common.kt:128-136 | the elements alternate key and value, and the result is the object of the entries |
| Capabilities.Deserialize | core/src/main/kotlin/me/darkweird/sekt/core/common.kt:124-126 | deserialising always throws "unsupported" |
| Capabilities.EncodeFirstMatch | core/src/main/kotlin/me/darkweird/sekt/core/common.kt:148-152 | one object per firstMatch block, in order |
| Capabilities.EncodeCapabilities | core/src/main/kotlin/me/darkweird/sekt/core/common.kt:25-29 | definition: the capabilities object with `alwaysMatch` when it is set and `firstMatch` when it is not empty; the defaults (null and the empty list) are not written |
| Capabilities.EncodeParameters | core/src/main/kotlin/me/darkweird/sekt/core/common.kt:20-23 | definition: the new-session body `{"capabilities": …}` around EncodeCapabilities |
| Capabilities.ReadFirstMatch | core/src/main/kotlin/me/darkweird/sekt/core/common.kt:148-152 | a firstMatch array reads back as blocks that encode to it |
| Capabilities.FirstMatchRoundTrip | core/src/main/kotlin/me/darkweird/sekt/core/common.kt:148-152 | the firstMatch blocks read back from their encoding |
| Capabilities.CapabilitiesRoundTrip | core/src/main/kotlin/me/darkweird/sekt/core/common.kt:25-29 | the capabilities read back from their wire form |
| Capabilities.DefaultCapabilitiesEncodeEmpty | core/src/main/kotlin/me/darkweird/sekt/core/common.kt:25-29 | default capabilities encode as {}, since defaults are not written |
| Capabilities.BuildCapabilities | core/src/main/kotlin/me/darkweird/sekt/core/common.kt:139-154 | alwaysMatch is the bag its block builds, and each firstMatch block is the bag its block builds |
| Capabilities.FirefoxPayload | w3c/src/test/kotlin/me/darkweird/sekt/w3c/W3CTests.kt:786-792 | `browserName = "firefox"` posts {"capabilities": {"alwaysMatch": {"browserName": "firefox"}}} |
| Wire.ElementReference | src/main/kotlin/me/darkweird/sekt/w3c/model.kt:106-110 | an element reference is an object with the single element-key member, holding the id |
| Wire.ReadElementReference | src/main/kotlin/me/darkweird/sekt/w3c/model.kt:106-110 | a reference that reads back encodes to the same JSON |
| Wire.ElementReferenceRoundTrip | src/main/kotlin/me/darkweird/sekt/w3c/model.kt:106-110 | an element id reads back from its reference |
| Wire.EncodeAll | src/main/kotlin/me/darkweird/sekt/w3c/model.kt:126-140 | a list encodes element by element |
| Wire.ReadAll | src/main/kotlin/me/darkweird/sekt/w3c/model.kt:126-140 | a list reads back element by element, and fails exactly when some element fails |
| Wire.ReadAllRoundTrip | src/main/kotlin/me/darkweird/sekt/w3c/model.kt:126-140 | a reader inverse to the encoder reads back the whole list |
| Wire.ReadAllSound | src/main/kotlin/me/darkweird/sekt/w3c/model.kt:126-140 | what a sound reader reads back encodes to the same list |
| Wire.Tagged | src/main/kotlin/me/darkweird/sekt/w3c/model.kt:126-208 | a tagged object has "type" first, then the members |
| Wire.Untag | src/main/kotlin/me/darkweird/sekt/w3c/model.kt:126-208 | what untags re-tags to the same JSON |
| Wire.UntagTagged | src/main/kotlin/me/darkweird/sekt/w3c/model.kt:126-208 | a tag and its members read back from the tagged object |
| Wire.EncodeFrame | src/main/kotlin/me/darkweird/sekt/w3c/model.kt:61-97 | a frame target's body is {"id": null}, {"id": n} or {"id": element reference} |
| Wire.ReadFrame | src/main/kotlin/me/darkweird/sekt/w3c/model.kt:61-97 | a frame body that reads back encodes to the same JSON |
| Wire.FrameRoundTrip | src/main/kotlin/me/darkweird/sekt/w3c/model.kt:61-97 | every frame target reads back from its body |
| Wire.DeserializeNullFrame | src/main/kotlin/me/darkweird/sekt/w3c/model.kt:88-90 | deserialising the null-id frame always throws "unsupported" |
| Wire.EncodeOrigin | src/main/kotlin/me/darkweird/sekt/w3c/model.kt:180-186 | viewport and pointer encode as their strings, an element origin as an object |
| Wire.ReadOrigin | src/main/kotlin/me/darkweird/sekt/w3c/model.kt:180-186 | an origin that reads back encodes to the same JSON |
| Wire.OriginRoundTrip | src/main/kotlin/me/darkweird/sekt/w3c/model.kt:166-187 | every origin reads back from its encoding |
| Wire.DeserializeOrigin | src/main/kotlin/me/darkweird/sekt/w3c/model.kt:174-176 | deserialising an origin always throws "unsupported" |
| Wire.EncodePointerItem | src/main/kotlin/me/darkweird/sekt/w3c/model.kt:142-164 | a pointer action is an object whose "type" names its variant |
| Wire.ReadPointerItem | src/main/kotlin/me/darkweird/sekt/w3c/model.kt:142-164 | a pointer action that reads back encodes to the same JSON |
| Wire.PointerItemRoundTrip | src/main/kotlin/me/darkweird/sekt/w3c/model.kt:142-164 | every pointer action reads back from its encoding |
| Wire.EncodeKeyItem | src/main/kotlin/me/darkweird/sekt/w3c/model.kt:190-201 | a key action is an object whose "type" is keyDown or keyUp |
| Wire.ReadKeyItem | src/main/kotlin/me/darkweird/sekt/w3c/model.kt:190-201 | a key action that reads back encodes to the same JSON |
| Wire.KeyItemRoundTrip | src/main/kotlin/me/darkweird/sekt/w3c/model.kt:190-201 | every key action reads back from its encoding |
| Wire.EncodePause | src/main/kotlin/me/darkweird/sekt/w3c/model.kt:203-208 | a pause is an object of type "pause" |
| Wire.ReadPause | src/main/kotlin/me/darkweird/sekt/w3c/model.kt:203-208 | a pause that reads back encodes to the same JSON |
| Wire.PauseRoundTrip | src/main/kotlin/me/darkweird/sekt/w3c/model.kt:203-208 | every pause reads back from its encoding |
| Wire.EncodeSource | src/main/kotlin/me/darkweird/sekt/w3c/model.kt:126-140 | an action source is an object whose "type" is key, pointer or none |
| Wire.SourceRoundTrip | src/main/kotlin/me/darkweird/sekt/w3c/model.kt:126-140 | every action source reads back from its encoding |
| Wire.SourceReadSound | src/main/kotlin/me/darkweird/sekt/w3c/model.kt:126-140 | an action source that reads back encodes to the same JSON |
| Wire.SourcesReadSound | src/main/kotlin/me/darkweird/sekt/w3c/model.kt:126-140 | the action-source reader is sound for every JSON value |
| Wire.EncodeActions | src/main/kotlin/me/darkweird/sekt/w3c/model.kt:210-211 | the actions body is {"actions": [sources]} |
| Wire.ActionsInjective | src/main/kotlin/me/darkweird/sekt/w3c/model.kt:210-211 | distinct action lists have distinct bodies |
| Wire.ReadActions | src/main/kotlin/me/darkweird/sekt/w3c/model.kt:210-211 | an actions body that reads back encodes to the same JSON |
| Wire.ActionsRoundTrip | src/main/kotlin/me/darkweird/sekt/w3c/model.kt:210-211 | every action list reads back from its body |
| Wire.StrategyOf | src/main/kotlin/me/darkweird/sekt/w3c/model.kt:235-239 | a strategy read from its `using` string names that string |
| Wire.StrategyRoundTrip | src/main/kotlin/me/darkweird/sekt/w3c/model.kt:235-239 | every strategy reads back from its `using` string |
| Wire.HelpersNameTheirStrategy | src/main/kotlin/me/darkweird/sekt/w3c/model.kt:235-239 | css, linkText, partialLinkText, tagName and xpath name their own strategies and keep the value |
| Wire.EncodeLocator | src/main/kotlin/me/darkweird/sekt/w3c/model.kt:250-254 | a locator is {"using": …, "value": …} |
| Wire.ReadLocator | src/main/kotlin/me/darkweird/sekt/w3c/model.kt:250-254 | a locator that reads back encodes to the same JSON |
| Wire.LocatorRoundTrip | src/main/kotlin/me/darkweird/sekt/w3c/model.kt:250-254 | every locator reads back from its body |
| Wire.ProxyTypeNamesVariant | src/main/kotlin/me/darkweird/sekt/w3c/model.kt:36-59 | each proxy variant's proxyType names that variant and no other |
| Wire.NumberMember | src/main/kotlin/me/darkweird/sekt/w3c/model.kt:213-218 | an unset number is omitted; a set one is the only member with its key |
| Wire.TimeoutsRoundTrip | src/main/kotlin/me/darkweird/sekt/w3c/model.kt:213-218 | every timeouts value reads back from its encoding, unset members as unset |
| Wire.ReadTimeoutsBody | src/main/kotlin/me/darkweird/sekt/w3c/model.kt:213-218 | a timeouts body that reads back encodes to the same JSON |
| Wire.TimeoutsBodyRoundTrip | src/main/kotlin/me/darkweird/sekt/w3c/model.kt:213-218 | every timeouts request body reads back |
| Wire.StringMember | src/main/kotlin/me/darkweird/sekt/w3c/model.kt:112-121 | an unset string is omitted; a set one is the only member with its key |
| Wire.BoolMember | src/main/kotlin/me/darkweird/sekt/w3c/model.kt:112-121 | an unset boolean is omitted; a set one is the only member with its key |
| Wire.CookieRoundTrip | src/main/kotlin/me/darkweird/sekt/w3c/model.kt:112-121 | every cookie reads back from its encoding, including the default path |
| Wire.CookieDefaultPathOmitted | src/main/kotlin/me/darkweird/sekt/w3c/model.kt:116 | the default path "/" is not written |
| Wire.ReadCookieData | src/main/kotlin/me/darkweird/sekt/w3c/model.kt:123-124 | a {"cookie": …} body that reads back encodes to the same JSON |
| Wire.CookieDataRoundTrip | src/main/kotlin/me/darkweird/sekt/w3c/model.kt:123-124 | every cookie reads back from its {"cookie": …} body |
| Wire.ReadOneString | src/main/kotlin/me/darkweird/sekt/w3c/model.kt:220-224 | a one-string body reads back only from exactly {key: string} |
| Wire.ReadEmpty | core/src/main/kotlin/me/darkweird/sekt/core/ktor.kt:19-20 | `Empty` reads back exactly from {} |
| Wire.ReadRect | src/main/kotlin/me/darkweird/sekt/w3c/model.kt:242-248 | a rect body that reads back encodes to the same JSON |
| Wire.RectRoundTrip | src/main/kotlin/me/darkweird/sekt/w3c/model.kt:242-248 | every rect reads back from its body |
| Wire.ReadScript | src/main/kotlin/me/darkweird/sekt/w3c/model.kt:259-263 | a script body that reads back encodes to the same JSON |
| Wire.ScriptRoundTrip | src/main/kotlin/me/darkweird/sekt/w3c/model.kt:259-263 | every script and its arguments read back from the body |
| Catalogue.BodyOf | w3c/src/main/kotlin/me/darkweird/sekt/w3c/api.kt:16-122 | a command carries a body exactly when it is a POST |
| Catalogue.GetPath | w3c/src/main/kotlin/me/darkweird/sekt/w3c/api.kt:16-120 | definition: the session-relative path of each GET command, e.g. "/window/handles" for getWindowHandles and "/cookie/" + name for getCookie |
| Catalogue.PostPath | w3c/src/main/kotlin/me/darkweird/sekt/w3c/api.kt:18-118 | definition: the session-relative path of each POST command, e.g. "/frame" for switchToFrame and "/execute/sync" for execute |
| Catalogue.DeletePath | w3c/src/main/kotlin/me/darkweird/sekt/w3c/api.kt:41-110 | definition: the session-relative path of each DELETE command, e.g. "/cookie/" + name for deleteCookie |
| Catalogue.Route | w3c/src/main/kotlin/me/darkweird/sekt/w3c/api.kt:16-120 | definition: the verb and the session-relative path of each session command |
| Catalogue.ResultOf | w3c/src/main/kotlin/me/darkweird/sekt/w3c/api.kt:16-120 | definition: the type each session command decodes its reply `value` as: its declared result type, `Empty?` for the commands that return nothing, and non-null `Empty` for the void script calls |
| Catalogue.CookiePath | w3c/src/main/kotlin/me/darkweird/sekt/w3c/api.kt:100 | "/cookie/" + name is no literal path, and the name follows the prefix |
| Catalogue.GetRoundTrip | w3c/src/main/kotlin/me/darkweird/sekt/w3c/api.kt:16-120 | every GET command reads back from its path |
| Catalogue.DeleteRoundTrip | w3c/src/main/kotlin/me/darkweird/sekt/w3c/api.kt:41-110 | every DELETE command reads back from its path |
| Catalogue.UrlPostRoundTrip | w3c/src/main/kotlin/me/darkweird/sekt/w3c/api.kt:24-25 | POST /url with a PageUrl body reads back as setUrl |
| Catalogue.WindowPostRoundTrip | w3c/src/main/kotlin/me/darkweird/sekt/w3c/api.kt:39 | POST /window with a handle reads back as switchToWindow |
| Catalogue.FramePostRoundTrip | w3c/src/main/kotlin/me/darkweird/sekt/w3c/api.kt:45 | POST /frame with a frame body reads back as switchToFrame |
| Catalogue.CookiePostRoundTrip | w3c/src/main/kotlin/me/darkweird/sekt/w3c/api.kt:102 | POST /cookie with a cookie body reads back as setCookie |
| Catalogue.FindPostRoundTrip | w3c/src/main/kotlin/me/darkweird/sekt/w3c/api.kt:68-72 | POST /element with a locator reads back as findElement |
| Catalogue.ActionsPostRoundTrip | w3c/src/main/kotlin/me/darkweird/sekt/w3c/api.kt:108 | POST /actions with an actions body reads back as performActions |
| Catalogue.PostShortRoundTrip | w3c/src/main/kotlin/me/darkweird/sekt/w3c/api.kt:18-118 | every POST command with a short path reads back from its path and body |
| Catalogue.TimeoutsPostRoundTrip | w3c/src/main/kotlin/me/darkweird/sekt/w3c/api.kt:18-19 | POST /timeouts with a timeouts body reads back as setTimeouts |
| Catalogue.ElementsPostRoundTrip | w3c/src/main/kotlin/me/darkweird/sekt/w3c/api.kt:75-81 | POST /elements with a locator reads back as findElements |
| Catalogue.RectPostRoundTrip | w3c/src/main/kotlin/me/darkweird/sekt/w3c/api.kt:51-52 | POST /window/rect with a rect reads back as setWindowRect |
| Catalogue.ScriptPostRoundTrip | w3c/src/main/kotlin/me/darkweird/sekt/w3c/api.kt:86-96 | POST /execute/sync and /execute/async with a script body read back as the script commands |
| Catalogue.PostLongRoundTrip | w3c/src/main/kotlin/me/darkweird/sekt/w3c/api.kt:18-118 | every POST command with a long path reads back, the typed and void script forms as one command |
| Catalogue.CommandRoundTrip | w3c/src/main/kotlin/me/darkweird/sekt/w3c/api.kt:14-122 | every session command reads back from its verb, path and body |
| Catalogue.SameRequestSameCommand | w3c/src/main/kotlin/me/darkweird/sekt/w3c/api.kt:14-122 | two commands that send the same request are the same command, up to how a script's reply is read |
| Catalogue.ElementBody | w3c/src/main/kotlin/me/darkweird/sekt/w3c/api.kt:143-165 | an element command carries a body exactly when it is a POST |
| Catalogue.ElementRoute | w3c/src/main/kotlin/me/darkweird/sekt/w3c/api.kt:124-165 | definition: the verb and the element-relative path of each element command, e.g. GET "/attribute/" + name and POST "/value" |
| Catalogue.ElementResult | w3c/src/main/kotlin/me/darkweird/sekt/w3c/api.kt:124-165 | definition: the type each element command decodes its reply `value` as |
| Catalogue.ElementCommandRoundTrip | w3c/src/main/kotlin/me/darkweird/sekt/w3c/api.kt:143-165 | every element command reads back from its verb, path and body |
| Catalogue.ElementRequestIdentifiesCommand | w3c/src/main/kotlin/me/darkweird/sekt/w3c/api.kt:143-165 | two element commands that send the same request are the same command |
| Element.ElementRequest | core/src/main/kotlin/me/darkweird/sekt/core/ktor.kt:50-58 | an element call goes to base URL + "/session/{sid}/element/{eid}" + path, with the verb and body |
| Element.IsStale | w3c/src/main/kotlin/me/darkweird/sekt/w3c/ktor.kt:8-9 | definition: the outcome is a WebDriverException whose kind is STALE_ELEMENT_REFERENCE, the one case the retry catches |
| Element.RetrySpec | w3c/src/main/kotlin/me/darkweird/sekt/w3c/ktor.kt:5-41 | definition: one attempt on the current id; on a stale element the refresh, then one attempt on the id the refresh left; any other outcome of the first attempt is the result |
| Element.RefreshSpec | w3c/src/main/kotlin/me/darkweird/sekt/w3c/api.kt:60-81 | the active-element and the intended find closures send at most one request and leave the id alone when they fail; the as-written find closure is a whole retrying element call; a findElements handle throws "not implemented" without sending anything |
| Element.WebElement.constructor | core/src/main/kotlin/me/darkweird/sekt/core/common.kt:68-72 | the handle keeps its id, session and refresh closure |
| Element.WebElement.RunRefresh | w3c/src/main/kotlin/me/darkweird/sekt/w3c/api.kt:60-81 | running the refresh closure changes the id and the exchanges as RefreshSpec says; the as-written find closure runs the handle's own retrying post |
| Element.WebElement.Get | w3c/src/main/kotlin/me/darkweird/sekt/w3c/ktor.kt:5-15 | an element GET with one stale retry; the result, the new id and the requests are as RetrySpec says |
| Element.WebElement.Delete | w3c/src/main/kotlin/me/darkweird/sekt/w3c/ktor.kt:18-28 | an element DELETE with one stale retry, as RetrySpec says |
| Element.WebElement.Post | w3c/src/main/kotlin/me/darkweird/sekt/w3c/ktor.kt:31-41 | an element POST with one stale retry, as RetrySpec says |
| Element.NoRetryWithoutStale | w3c/src/main/kotlin/me/darkweird/sekt/w3c/ktor.kt:6-14 | a reply that is not "stale element reference" is the result, with one request and no refresh |
| Element.StaleRetriesOnce | w3c/src/main/kotlin/me/darkweird/sekt/w3c/ktor.kt:8-11 | on a stale reply, a successful refresh is followed by exactly one retry on the new id, and its reply is the result; the requests are the first call, the refresh's, then the retry |
| Element.FailedRefreshPropagates | w3c/src/main/kotlin/me/darkweird/sekt/w3c/ktor.kt:9-11 | when the refresh throws, its exception is the result, the id is what the refresh left (the old one unless the closure is the as-written find) and there is no retry |
| Element.CollectionHandleCannotRefresh | w3c/src/main/kotlin/me/darkweird/sekt/w3c/api.kt:75-81 | a handle from findElements answers a stale reply with "not implemented" after one request |
| Element.RetryRequestsBound | w3c/src/main/kotlin/me/darkweird/sekt/w3c/ktor.kt:5-15 | an element call starts with the request on the old id; unless the closure is the as-written find it sends one to three requests, a third one being the retry on the new id |
| Element.DefaultNeverStale | w3c/src/main/kotlin/me/darkweird/sekt/w3c/ktor.kt:9 | the default converter never reports a stale element |
| Element.NoRetryWithoutW3CConverter | w3c/src/main/kotlin/me/darkweird/sekt/w3c/ktor.kt:9 | without w3cConverter, an element call never retries |
| Element.AsWrittenRefreshLoops | w3c/src/main/kotlin/me/darkweird/sekt/w3c/api.kt:68-72 | the find closure as written posts from the stale element itself and re-enters itself on each stale answer, k + 1 requests for k stale answers |
| Element.CorrectedRefreshFindsFromSession | w3c/src/main/kotlin/me/darkweird/sekt/w3c/api.kt:68-72 | the corrected refresh posts the locator once to /session/{sid}/element and adopts the found id |
| Element.CorrectedChildRefreshFindsFromParent | w3c/src/main/kotlin/me/darkweird/sekt/w3c/api.kt:124-130 | the corrected closure of a child posts the locator once to the parent's /element, from the parent's current id, and adopts the found id |
| Api.Run | w3c/src/main/kotlin/me/darkweird/sekt/w3c/api.kt:14-122 | a session command sends exactly its catalogue request and returns what CallSpec gives for it |
| Api.RunOnElement | w3c/src/main/kotlin/me/darkweird/sekt/w3c/api.kt:143-165 | an element command runs its catalogue request through the element's retrying call |
| Api.Status | w3c/src/main/kotlin/me/darkweird/sekt/w3c/api.kt:14 | status sends GET /status outside any session, read as a Status |
| Api.CreateSession | w3c/src/main/kotlin/me/darkweird/sekt/w3c/api.kt:7-12 | POST /session with the parameters; on success a fresh session of this driver with the returned sessionId |
| Api.NewSessionReadsId | w3c/src/main/kotlin/me/darkweird/sekt/w3c/api.kt:9-10 | a new-session reply decodes, and the session gets exactly its sessionId |
| Api.SessionIdOf | w3c/src/main/kotlin/me/darkweird/sekt/w3c/api.kt:9-10 | definition: the `sessionId` member of a decoded new-session reply, read with getString |
| Api.ActiveElement | w3c/src/main/kotlin/me/darkweird/sekt/w3c/api.kt:60-65 | GET /element/active; on success a fresh handle on the returned id whose refresh re-reads the active element |
| Api.FindElementHandle | w3c/src/main/kotlin/me/darkweird/sekt/w3c/api.kt:68-72 | POST /element with the locator; on success a fresh handle on the found id whose refresh closure is, as written, its own retrying find |
| Api.ListReplyItems | w3c/src/main/kotlin/me/darkweird/sekt/w3c/api.kt:75-76 | a findElements reply that returns is an array of element references, all of it used |
| Api.HandlesFor | w3c/src/main/kotlin/me/darkweird/sekt/w3c/api.kt:76-81 | one fresh, distinct handle per reference, in order, each with the reference's id and no refresh |
| Api.FindElementHandles | w3c/src/main/kotlin/me/darkweird/sekt/w3c/api.kt:75-81 | POST /elements with the locator; on success one fresh handle per returned reference |
| Api.FindChildHandle | w3c/src/main/kotlin/me/darkweird/sekt/w3c/api.kt:124-130 | an element's findElement runs through the parent's retrying call; the child's refresh closure is, as written, the child's own retrying find, not a find from the parent |
| Api.FindChildHandles | w3c/src/main/kotlin/me/darkweird/sekt/w3c/api.kt:133-140 | an element's findElements runs through the retrying call, and gives one fresh handle per reference |
| Api.W3CReportsStale | w3c/src/main/kotlin/me/darkweird/sekt/w3c/exceptions.kt:23 | with w3cConverter behind the validator, a 404 "stale element reference" is the stale error the retry catches |
| Api.AsWrittenVoidScriptRejectsNull | w3c/src/main/kotlin/me/darkweird/sekt/w3c/api.kt:89-96 | executeVoid and executeAsyncVoid as written throw NoSuchElementException on a null result under the w3cConverter configuration |
| Api.AsWrittenVoidScriptNeedsConverter | w3c/src/main/kotlin/me/darkweird/sekt/w3c/api.kt:95-96 | without a converter that recognises it, a null reply to the void script throws NoSuchElementException |
| Api.VoidScriptAcceptsNull | w3c/src/main/kotlin/me/darkweird/sekt/w3c/api.kt:89-96 | the corrected reply type of the void scripts accepts a null and an empty result |
| Scoped.CallOf | w3c/src/main/kotlin/me/darkweird/sekt/w3c/api.kt:14-122 | the session call of a command carries a body exactly when it is a POST |
| Scoped.BlockSpec | w3c/src/main/kotlin/me/darkweird/sekt/w3c/sekt.kt:21 | a block sends at most one request per call, and all of them when it completes |
| Scoped.Perform | core/src/main/kotlin/me/darkweird/sekt/core/ktor.kt:41-48 | one session call through get, post or delete, as CallSpec says |
| Scoped.RunBlock | w3c/src/main/kotlin/me/darkweird/sekt/w3c/sekt.kt:21 | running the block changes the exchanges as BlockSpec says |
| Scoped.UseSession | w3c/src/main/kotlin/me/darkweird/sekt/w3c/sekt.kt:20-24 | the block and then close, as UseSpec says |
| Scoped.UseSpec | w3c/src/main/kotlin/me/darkweird/sekt/w3c/sekt.kt:20-24 | definition: the block's calls until the first that throws, then DELETE /session/{id}; an exception from the delete replaces the block's outcome |
| Scoped.ScopedSpec | w3c/src/main/kotlin/me/darkweird/sekt/w3c/sekt.kt:15-25 | definition: POST /session; a failed creation is the result and sends nothing else, otherwise UseSpec on the returned session id |
| Scoped.WithSession | w3c/src/main/kotlin/me/darkweird/sekt/w3c/sekt.kt:15-25 | create, run the block and close, as ScopedSpec says |
| Scoped.RouteNonEmpty | w3c/src/main/kotlin/me/darkweird/sekt/w3c/api.kt:14-120 | no catalogue command has an empty path |
| Scoped.CatalogueBlock | w3c/src/main/kotlin/me/darkweird/sekt/w3c/api.kt:14-120 | a block of catalogue commands is well formed and has no empty path |
| Scoped.BlockNeverCloses | w3c/src/main/kotlin/me/darkweird/sekt/w3c/sekt.kt:21 | a block of commands never sends the close request |
| Scoped.CreationFailureSkipsBlock | w3c/src/main/kotlin/me/darkweird/sekt/w3c/sekt.kt:19 | when the session cannot be created, its exception is the result and only the create request is sent |
| Scoped.CloseRunsOnce | w3c/src/main/kotlin/me/darkweird/sekt/w3c/sekt.kt:20-24 | once the session exists, close is the last request and is sent only once |
| Scoped.CloseFailureReplaces | w3c/src/main/kotlin/me/darkweird/sekt/w3c/sekt.kt:22-24 | an exception from close replaces whatever the block produced |
| Scoped.BlockOutcomeKept | w3c/src/main/kotlin/me/darkweird/sekt/w3c/sekt.kt:20-24 | when close succeeds, the block's outcome is the result |
| Scoped.BlockStopsAtFailure | w3c/src/main/kotlin/me/darkweird/sekt/w3c/sekt.kt:21 | the i-th request sent is the i-th call of the block |
| Waiters.TruncDiv | src/main/kotlin/me/darkweird/sekt/common/waiters.kt:17 | the quotient truncates toward zero for either sign of period and timeout: its magnitude is the whole number of periods in the timeout and its sign the quotient's |
| Waiters.RangeCount | src/main/kotlin/me/darkweird/sekt/common/waiters.kt:18 | the count of lo..hi is zero exactly when hi < lo, and otherwise hi - lo + 1 |
| Waiters.WaitOutcome | src/main/kotlin/me/darkweird/sekt/common/waiters.kt:17-24 | definition: from the k-th of n allowed evaluations, an evaluation that throws ends the wait with its exception, a true one returns, a false one goes on, and no evaluation left throws TimeoutException |
| Waiters.Wait | src/main/kotlin/me/darkweird/sekt/common/waiters.kt:12-25 | the outcome is WaitOutcome over the allowed evaluations; every evaluation before the last was false; a return follows a true evaluation and one delay per false one; a timeout comes only after the full count of false evaluations and as many delays; an exception from the condition is rethrown at once, with no delay after it |
| Waiters.WaitUntil | src/main/kotlin/me/darkweird/sekt/common/waiters.kt:28-39 | returns the receiver only after a true evaluation of the condition on it, every earlier one false; otherwise throws a timeout after the full count of false evaluations, or the exception the condition threw |
| Waiters.WaitSkipsFalse | src/main/kotlin/me/darkweird/sekt/common/waiters.kt:19-22 | false evaluations are passed over without changing the outcome |
| Waiters.ThrowingConditionPropagates | src/main/kotlin/me/darkweird/sekt/common/waiters.kt:18-23 | an evaluation that throws after only false ones ends the wait with its exception, not with a timeout |
| Waiters.NonThrowingCondition | src/main/kotlin/me/darkweird/sekt/common/waiters.kt:17-24 | for a condition that never throws, the wait returns exactly when one of the allowed evaluations is true, and otherwise throws a timeout |
| Waiters.AttemptsCoverTimeout | src/main/kotlin/me/darkweird/sekt/common/waiters.kt:17-18 | for a non-negative timeout, the last evaluation falls within the timeout and one more would not |
| Waiters.NegativeTimeoutNeverChecks | src/main/kotlin/me/darkweird/sekt/common/waiters.kt:17-18 | a timeout of at most minus one period never evaluates the condition |
| Waiters.ShortNegativeTimeoutChecksOnce | src/main/kotlin/me/darkweird/sekt/common/waiters.kt:17-18 | a negative timeout shorter than one period still evaluates once |
| Waiters.NegatedDurations | src/main/kotlin/me/darkweird/sekt/common/waiters.kt:17-18 | negating both durations leaves the number of evaluations unchanged, and negating either one is the same as negating the other |
| Waiters.NegativePeriodNeverChecks | src/main/kotlin/me/darkweird/sekt/common/waiters.kt:17-18 | a negative period with a timeout of at least one period never evaluates the condition |
| Waiters.NegativePeriodNegativeTimeout | src/main/kotlin/me/darkweird/sekt/common/waiters.kt:17-18 | a negative period with a non-positive timeout evaluates as often as the positive period with the negated timeout |
| Waiters.DefaultAttempts | src/main/kotlin/me/darkweird/sekt/common/waiters.kt:13-14 | the defaults allow 61 evaluations |
| Waiters.OneSecondNeverTrue | src/main/kotlin/me/darkweird/sekt/common/waiters.kt:17-24 | a one-second timeout with a one-second period evaluates twice |

## Left out

- HTTP, the Ktor client, JSON text and coroutines. The server is a scripted list of answers in `Remote`; a missing answer is a failed exchange.
- The delay in `wait` is counted, not waited for, and the clock is not modelled.
- Waiters.TruncDiv: `timeout / period` is a Double quotient in the source. Here durations are whole milliseconds and the quotient truncates toward zero, for periods and timeouts of either sign. `toInt()` saturation is not modelled. A zero period is not modelled either: `Double` division gives an infinity or NaN there.
- Waiters.Wait: `delay` of a negative period returns at once in the source; the model counts it like any other delay.
- Decoding: kotlinx.serialization decoding is an acceptance predicate. It rejects unknown keys and assumes defaults are not encoded. Numbers are integers, so `Rect<Float>` and `Number` values are integers.
- Transport.Session.Close: the member at core/src/main/kotlin/me/darkweird/sekt/core/common.kt:63-65 is modelled. The `close()` extension at w3c/src/main/kotlin/me/darkweird/sekt/w3c/api.kt:122 is shadowed by it and sends the same request.
- Wire.EncodeFrame: the body is only the `"id"` member. The `"type"` class discriminator that the polymorphic serializer of the sealed `SwitchToFrame` class adds is omitted, because its value is a serial name chosen by the serialization plugin and library, which are not part of this model.
- Wire: Proxy encoding beyond `proxyType` is not modelled, and neither is the `"type"` class discriminator of the sealed `Proxy` class.
- Json: an object is a list of fields, and a lookup takes the first field with the key. kotlinx's `JsonObject` is a map. A reply object that repeats a key is therefore not modelled faithfully.
- Capabilities: capability blocks are modelled as a list of setter calls. Other Kotlin code inside a block is not modelled.
- Scoped: the scoped block is a list of session commands, not an arbitrary closure.
- Not modelled: the older duplicate revisions of the client, the BrowserStack module, the WebDriverBuilder configuration DSL and the HTTP client provider.
- Api.FindElementHandle, Api.FindChildHandle: the refresh closures follow the code as written (`FindFromSelf`). The corrected closures of the Findings table (`FindAgain`) appear only in the lemmas about them.
- Api.Run, Api.RunOnElement: executeVoid and executeAsyncVoid decode their reply as written, non-null `Empty` (`Catalogue.VoidScriptType`). The corrected `Empty?` type, `Catalogue.CorrectedVoidScriptType`, appears only in Api.VoidScriptAcceptsNull.
- Capabilities.Caps.Get: the main model reads the capability as evidently intended, the stored value. The as-written getter, which fails its cast, is modelled by `Capabilities.Caps.AsWrittenGet` and recorded in the Findings table.
- Capabilities.EncodeCapabilities: an empty `firstMatch` is not written, because the declared default is not encoded. This follows the code, not the prose description of the capabilities object.
- Waiters.OneSecondNeverTrue: a one-second timeout with a one-second period evaluates and delays twice before throwing. This follows the code, not the "at most once per second for the timeout" reading.

## Findings

| source | as written | input that shows it | evidently intended | confidence | as-written member | corrected member |
|---|---|---|---|---|---|---|
| w3c/src/main/kotlin/me/darkweird/sekt/w3c/api.kt:68-72 | the refresh closure of a found element calls the unqualified `post`, which resolves to the element's own retrying post, so it searches from the stale element and re-enters itself on every stale answer | a findElement handle whose element calls keep being answered 404 "stale element reference" | the refresh posts the locator to /session/{sid}/element and adopts the new id | not executed | Element.AsWrittenRefreshLoops | Element.CorrectedRefreshFindsFromSession |
| w3c/src/main/kotlin/me/darkweird/sekt/w3c/api.kt:124-130 | the refresh closure of a child found from an element is the same closure: its unqualified `post` is the child's own retrying post, so it searches from the stale child and not from the parent, and re-enters itself on every stale answer | a child handle from `parent.findElement(locator)` whose element calls keep being answered 404 "stale element reference" | the refresh posts the locator to the parent's /element, from the parent's current id, and adopts the new id | not executed | Element.AsWrittenRefreshLoops | Element.CorrectedChildRefreshFindsFromParent |
| core/src/main/kotlin/me/darkweird/sekt/core/common.kt:108-110 | the getter casts the stored (serializer, value) pair to the value type, which fails where the value is used | any capability read after it was set, e.g. `browserName` after `browserName = "firefox"` | the getter returns the stored value | not executed | Capabilities.AsWrittenGetterFails | Capabilities.SetThenRead |
| w3c/src/main/kotlin/me/darkweird/sekt/w3c/api.kt:89-96 | executeVoid and executeAsyncVoid decode their reply as non-null `Empty`, so a script result of null is undecodable and, with w3cConverter, ends in NoSuchElementException | executeVoid of a script that returns nothing (reply {"value": null}) | the void scripts accept a null or empty result | not executed | Api.AsWrittenVoidScriptRejectsNull | Api.VoidScriptAcceptsNull |
