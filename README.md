# Telegram "Send Custom Message" node — a Dafny model

This project models the workflow node `TelegramSendMessageCustom`. For each
input item, the node posts one request to the Telegram Bot API: either
`sendMessage` or `sendPhoto`. The request body is built from the item's
parameters, and a user-supplied custom JSON override is shallow-merged on top
of it. The node returns one `{request, response}` record per item, in input
order.

The model has five modules:

- `Wrappers` (`wrappers.dfy`): `Option` and `Result`.
- `Json` (`json.dfy`): JSON values. It also models how ECMAScript's
  `Object.keys` and object spread see a value as named properties:
  - `null` throws a TypeError;
  - booleans and numbers have no properties;
  - a string or an array has one property per character or element, named by
    its decimal index;
  - an object has its own fields.
- `BodyBuilder` (`body_builder.dfy`): the per-item body builder, written as
  pure functions:
  - the base body chosen by the operation;
  - the normalisation of the override (JSON text is parsed, an object is
    taken as given);
  - the guarded spread `{...body, ...override}`.
- `Endpoint` (`endpoint.dfy`): the request URL
  `https://api.telegram.org/bot<token>/<operation>`, and its inverse.
- `SendMessageCustom` (`node.dfy`): `execute` as a method with a loop. It
  builds one body per item, posts the request and appends the record. It
  stops at the first item whose body cannot be built. The loop,
  `ExecuteWith`, takes the per-item builder as a function. `Execute` runs it
  with `BuildBody`.

The JSON text parser is a parameter of type `string -> Option<Value>`. The
HTTP helper is an oracle parameter, `(nat, HttpRequest) -> Value`: it maps a
call's position in the run and the request to the response. The bot token is
a parameter. Each item's parameters are an `ItemParameters` record, with the
host's defaults already applied: `''` for `photo` and `'{}'` for
`customJson`.

Three behaviours of the code worth knowing:

- The parsed override text is used whatever JSON value it is (line 69), and
  line 88 lists its keys with `Object.keys`:
  - `null` makes `Object.keys` throw a TypeError ("Cannot convert undefined
    or null to object"), not the node's own "Custom JSON must be valid JSON"
    error;
  - an array or a string is spread as properties `"0"`, `"1"`, …;
  - a boolean or a number has no keys and adds nothing.
- The error thrown for override text that does not parse (line 72) carries
  only the message "Custom JSON must be valid JSON".
- The request for an item is posted (line 92) before the next item is
  read, so when an item fails the requests of the items before it have
  already been posted, and the run returns no records. `Execute` returns the
  list of posted requests as `sent`, which makes this visible.

## Model

| member | source | states |
|---|---|---|
| BodyBuilder.BaseBody | src/TelegramSendMessageCustom.node.ts:78-86 | `chat_id` is always the chat id. For `sendPhoto` the keys are exactly `chat_id` and `photo`, plus `caption` if and only if the text is non-empty, and `caption` is then the text. For any other operation the keys are exactly `chat_id` and `text`, so no `photo` or `caption` appears even when a photo is given. |
| BodyBuilder.BaseBodyKeysAreNamed | src/TelegramSendMessageCustom.node.ts:80-86 | No base field name starts with a digit, so no index key from an array or string override can collide with one. |
| BodyBuilder.NormaliseOverride | src/TelegramSendMessageCustom.node.ts:66-76 | An object override is used as given. A text override fails with `InvalidCustomJson` exactly when the parser rejects it, and otherwise yields the parsed value. |
| BodyBuilder.Spread | src/TelegramSendMessageCustom.node.ts:88-90 | The merged keys are the union of both key sets. Every override key maps to the override's value. Every base key absent from the override keeps its base value. |
| BodyBuilder.SpreadIsUnion | src/TelegramSendMessageCustom.node.ts:88-89 | The guard on an empty override changes nothing: the merge is exactly the right-biased map union `base + override`. |
| BodyBuilder.MergeOverride | src/TelegramSendMessageCustom.node.ts:88-89 | The merge fails if and only if the override is `null`, and then fails with `NullOverride`. Otherwise the body is the override's own entries spread onto the base. An object override is spread as it is, and a boolean or a number leaves the base unchanged. The result keeps every base key, and a non-object override cannot change any base field whose name is not all digits. |
| BodyBuilder.BuildBody | src/TelegramSendMessageCustom.node.ts:66-90 | The body fails with `InvalidCustomJson` if and only if the override is text the parser rejects. It fails with `NullOverride` if and only if the override is text that parses to `null`. A body that is built contains every base key. |
| BodyBuilder.ErrorMessage | src/TelegramSendMessageCustom.node.ts:72 | The message is "Custom JSON must be valid JSON" exactly for the error raised on override text that does not parse. The `null` error carries the engine's TypeError text instead. |
| BodyBuilder.ObjectOverrideWins | src/TelegramSendMessageCustom.node.ts:88-89 | With an object override, the body's keys are the union of the base keys and the override keys. The override wins on every key it has, and every other base key keeps its value. |
| BodyBuilder.DefaultOverrideKeepsBase | src/TelegramSendMessageCustom.node.ts:88-90 | With the default override text `{}`, which parses to the empty object, the body is the base body unchanged. |
| BodyBuilder.StructuredOverrideIgnoresParser | src/TelegramSendMessageCustom.node.ts:74-75 | An override given as an object is merged as given, with no parse step and no error. The result does not depend on the parser. |
| BodyBuilder.ScalarOverrideKeepsBase | src/TelegramSendMessageCustom.node.ts:88 | Override text that parses to a boolean or a number has no keys, so the body is the base body. |
| BodyBuilder.SequenceSpreadKeepsNamedFields | src/TelegramSendMessageCustom.node.ts:88-89 | Spreading an array or a string onto a body whose field names do not start with a digit succeeds. It adds exactly one key per element or character, and replaces no existing field. |
| BodyBuilder.SequenceOverrideKeepsBaseFields | src/TelegramSendMessageCustom.node.ts:88-89 | Override text that parses to an array or a string adds exactly one key per element or character, and every base field keeps its value. |
| Json.OwnEntries | src/TelegramSendMessageCustom.node.ts:88-89 | How `Object.keys` and spread see a value: there is an error if and only if the value is `null`. An object gives its fields. Booleans and numbers give no keys. An array gives exactly one key per element, with element `i` under `IndexKey(i)`, and a string gives exactly one key per character, with character `i`, as a one-character string, under `IndexKey(i)`; all of these keys are digit strings. |
| Json.Indexed | src/TelegramSendMessageCustom.node.ts:89 | Element `i` of an array-like value sits under the key `IndexKey(i)`. There is exactly one key per element, and every key is a digit string that spells an index in range. |
| Json.IndexKey | src/TelegramSendMessageCustom.node.ts:89 | An index's property name is a non-empty digit string. It is one character long exactly when the index is below 10. |
| Json.KeyIndexOfIndexKey | src/TelegramSendMessageCustom.node.ts:89 | Reading the decimal key of index `n` back gives `n`. |
| Json.IndexKeyInjective | src/TelegramSendMessageCustom.node.ts:89 | Two indices with the same property name are the same index. |
| Endpoint.RequestUrl | src/TelegramSendMessageCustom.node.ts:94 | The URL is the API prefix `https://api.telegram.org/bot`, then the token, then `/` and the operation. |
| Endpoint.SplitUrl | src/TelegramSendMessageCustom.node.ts:94 | Whatever a URL splits into, a token without `/` and an operation, rebuilds that same URL. |
| Endpoint.SplitRequestUrl | src/TelegramSendMessageCustom.node.ts:94 | For a token without `/`, splitting the request URL gives back exactly the token and the operation. |
| Endpoint.RequestUrlInjective | src/TelegramSendMessageCustom.node.ts:94 | Two distinct bots, or two distinct operations, never share an endpoint. |
| SendMessageCustom.RequestFor | src/TelegramSendMessageCustom.node.ts:92-97 | The request is a JSON `POST` of the built body to `RequestUrl(token, operation)`, for every token. When the token has no `/`, its URL splits back into the token and the item's operation. |
| SendMessageCustom.ExecuteWith | src/TelegramSendMessageCustom.node.ts:57-100 | For any per-item builder, the loop succeeds if and only if every item builds. It then posts one request per item in order, and returns one record per item whose request is the posted body and whose response is the transport's answer to that request. Otherwise it stops at the first item that does not build, with that item's error, after posting exactly the requests of the earlier items. |
| SendMessageCustom.Execute | src/TelegramSendMessageCustom.node.ts:53-103 | The run succeeds if and only if every item's body builds. It then posts one request per item in order, each to the run's token and the item's operation, and returns one record per item. Record `i`'s request is item `i`'s body and its response is the transport's answer to request `i`. On a failure, the requests of the items before the failing item have been posted, none after, and the error is that item's error. |
| SendMessageCustom.ExecuteStopsAtFirstFailure | src/TelegramSendMessageCustom.node.ts:68-73 | If the first `k` items build and item `k` does not, the run fails with item `k`'s error after posting exactly the first `k` requests, each to its item's endpoint. The error's message is "Custom JSON must be valid JSON" if and only if item `k`'s override is text the parser rejects. |

## Left out

- The node's `description` schema (display names, options, hints) is
  declarative host metadata and is not modelled. Only the defaults `''` for
  `photo` and `'{}'` for `customJson` are reflected, as the values a host
  passes in.
- Host calls are not modelled. `getInputData`, `getCredentials`,
  `getNodeParameter` and `prepareOutputData` become the parameters `items`
  and `token`. The result is returned as a plain sequence of records, not
  wrapped as `{json: …}` output items.
- The JSON text parser is left abstract. It is the `Parser` parameter, and
  lemmas that need `JSON.parse('{}')` to give the empty object take that as a
  hypothesis.
- The HTTP call is an oracle. Its failures (network errors, non-2xx
  statuses), which propagate uncaught in the node, are not modelled: in the
  model every post returns a response.
- `async`/`await` suspension is not modelled. Items are processed strictly
  one after another, so the loop is modelled synchronously.
- The property order of JavaScript objects is not modelled. Bodies are maps,
  so the order of keys in the serialised body is not captured.
- JSON numbers are mathematical reals, not IEEE-754 doubles.
- Json.OwnEntries: spreads a string one Dafny character (Unicode scalar
  value) per key. JavaScript spreads by UTF-16 code unit, so a character
  outside the Basic Multilingual Plane gives two keys in the node and one in
  the model.
- The runtime casts (`as string`, `as IDataObject`) are not modelled. Each
  parameter is taken to have its declared type, and a structured override is
  taken to be an object.
- Endpoint.SplitRequestUrl: is stated for tokens without `/`, and so is
  Endpoint.RequestUrlInjective. Telegram bot
  tokens are a numeric bot id, a colon and an alphanumeric secret, so they
  never contain one.
